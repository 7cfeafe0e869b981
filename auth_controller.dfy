/**
 * `authController.js`: admin and plumber registration, and the shared login
 * that looks an email up among the admins first and the plumbers second.
 * `hash` stands for `bcrypt.hash`; `bcrypt.compare(password, stored)` holds
 * exactly when `hash(password) == stored`.
 */
module AuthController {
  import opened Wrappers
  import opened Http
  import opened Store
  import Auth
  import AuthMiddleware

  /** The fields of a registration body the model keeps; an absent field is None. */
  datatype AdminBody = AdminBody(name: string, email: Option<string>, password: Option<string>)
  datatype PlumberBody = PlumberBody(name: string, email: Option<string>, password: Option<string>, phone: Option<string>)
  datatype LoginBody = LoginBody(email: Option<string>, password: Option<string>)

  /** The reply of a registration and the table after it. */
  datatype Outcome<T> = Outcome(reply: Reply, table: seq<T>)

  const AdminRegistered: Reply := Reply(201, Message("Admin registered successfully"))
  const AdminNotRegistered: Reply := Reply(500, Message("Error registering admin"))
  const PlumberRegistered: Reply := Reply(201, Message("Plumber registered successfully"))
  const PlumberNotRegistered: Reply := Reply(500, Message("Error registering plumber"))
  const InvalidCredentials: Reply := Reply(400, Message("Invalid email or password"))
  const LoginFailed: Reply := Reply(500, Message("Error logging in"))

  /** `prisma.admin.findUnique({ where: { email } })`. */
  function AdminByEmail(admins: seq<Admin>, email: string): Option<Admin>
  {
    FindFirst(admins, (a: Admin) => a.email == email)
  }

  /** `prisma.plumber.findUnique({ where: { email } })`. */
  function PlumberByEmail(plumbers: seq<Plumber>, email: string): Option<Plumber>
  {
    FindFirst(plumbers, (p: Plumber) => p.email == email)
  }

  /** The unique constraint on `admin.email`. */
  predicate AdminEmailsUnique(admins: seq<Admin>)
  {
    forall i, j :: 0 <= i < j < |admins| ==> admins[i].email != admins[j].email
  }

  /** The unique constraint on `plumber.email`. */
  predicate PlumberEmailsUnique(plumbers: seq<Plumber>)
  {
    forall i, j :: 0 <= i < j < |plumbers| ==> plumbers[i].email != plumbers[j].email
  }

  /**
   * `registerAdmin`. Hashing an absent password throws, and the store
   * refuses a row without an email or with an email already taken; each
   * lands in the catch and leaves the table as it was.
   */
  function RegisterAdmin(admins: seq<Admin>, body: AdminBody, freshId: string, hash: string -> string): (o: Outcome<Admin>)
    ensures o.reply == AdminRegistered <==>
      body.password.Some? && body.email.Some? && AdminByEmail(admins, body.email.value).None?
    ensures o.reply != AdminRegistered ==> o.reply == AdminNotRegistered && o.table == admins
    ensures o.reply == AdminRegistered ==>
      o.table == admins + [Admin(freshId, body.name, body.email.value, hash(body.password.value))]
    ensures AdminEmailsUnique(admins) ==> AdminEmailsUnique(o.table)
  {
    if body.password.None? || body.email.None? || AdminByEmail(admins, body.email.value).Some? then
      Outcome(AdminNotRegistered, admins)
    else
      var row := Admin(freshId, body.name, body.email.value, hash(body.password.value));
      AdminAppendKeepsUnique(admins, row);
      Outcome(AdminRegistered, admins + [row])
  }

  /** Appending an admin whose email is not taken keeps emails unique. */
  lemma AdminAppendKeepsUnique(admins: seq<Admin>, row: Admin)
    requires AdminByEmail(admins, row.email).None?
    ensures AdminEmailsUnique(admins) ==> AdminEmailsUnique(admins + [row])
  {
    forall i | 0 <= i < |admins|
      ensures (admins + [row])[i].email != row.email
    {
      assert admins[i] in admins;
    }
  }

  /**
   * `registerPlumber`, with the same failure cases. The new plumber has no
   * manager yet; `now` is the creation time the store fills in.
   */
  function RegisterPlumber(plumbers: seq<Plumber>, body: PlumberBody, freshId: string, now: string,
                           hash: string -> string): (o: Outcome<Plumber>)
    ensures o.reply == PlumberRegistered <==>
      body.password.Some? && body.email.Some? && PlumberByEmail(plumbers, body.email.value).None?
    ensures o.reply != PlumberRegistered ==> o.reply == PlumberNotRegistered && o.table == plumbers
    ensures o.reply == PlumberRegistered ==>
      o.table == plumbers + [Plumber(freshId, body.name, body.email.value, hash(body.password.value), body.phone, None, now)]
    ensures PlumberEmailsUnique(plumbers) ==> PlumberEmailsUnique(o.table)
  {
    if body.password.None? || body.email.None? || PlumberByEmail(plumbers, body.email.value).Some? then
      Outcome(PlumberNotRegistered, plumbers)
    else
      var row := Plumber(freshId, body.name, body.email.value, hash(body.password.value), body.phone, None, now);
      PlumberAppendKeepsUnique(plumbers, row);
      Outcome(PlumberRegistered, plumbers + [row])
  }

  /** Appending a plumber whose email is not taken keeps emails unique. */
  lemma PlumberAppendKeepsUnique(plumbers: seq<Plumber>, row: Plumber)
    requires PlumberByEmail(plumbers, row.email).None?
    ensures PlumberEmailsUnique(plumbers) ==> PlumberEmailsUnique(plumbers + [row])
  {
    forall i | 0 <= i < |plumbers|
      ensures (plumbers + [row])[i].email != row.email
    {
      assert plumbers[i] in plumbers;
    }
  }

  /** `admin || plumber` together with its `role`. */
  datatype Account = Account(id: string, email: string, stored: string, role: string)

  /** The account an email logs into: the admin with that email if there is one, else the plumber. */
  function AccountFor(admins: seq<Admin>, plumbers: seq<Plumber>, email: string): (a: Option<Account>)
    ensures a.Some? <==> AdminByEmail(admins, email).Some? || PlumberByEmail(plumbers, email).Some?
    ensures a.Some? ==> a.value.email == email && (a.value.role == "admin" || a.value.role == "plumber")
    ensures a.Some? && a.value.role == "admin" <==> AdminByEmail(admins, email).Some?
  {
    match AdminByEmail(admins, email)
    case Some(admin) => Some(Account(admin.id, admin.email, admin.password, "admin"))
    case None =>
      match PlumberByEmail(plumbers, email)
      case Some(plumber) => Some(Account(plumber.id, plumber.email, plumber.password, "plumber"))
      case None => None
  }

  /** A successful login's 200 reply carries the token and the role; a failed one, a reply. */
  datatype LoginResult = LoggedIn(token: Auth.SignedToken, role: string) | Refused(reply: Reply)

  /** The token of a login: id, email and role, signed with `JWT_SECRET`, valid for a day. */
  function LoginToken(a: Account): Auth.SignedToken
  {
    Auth.SignedToken(map["id" := a.id, "email" := a.email, "role" := a.role], Auth.JwtSecret, "1d")
  }

  /**
   * `loginUser`. Looking up an absent email throws (500); an unknown email
   * and a wrong password get the same 400; comparing an absent password
   * throws (500), but only once an account was found.
   */
  function LoginUser(admins: seq<Admin>, plumbers: seq<Plumber>, body: LoginBody, hash: string -> string): (r: LoginResult)
    ensures r.LoggedIn? <==>
      && body.email.Some? && body.password.Some?
      && AccountFor(admins, plumbers, body.email.value).Some?
      && hash(body.password.value) == AccountFor(admins, plumbers, body.email.value).value.stored
    ensures r == Refused(InvalidCredentials) <==>
      && body.email.Some?
      && var a := AccountFor(admins, plumbers, body.email.value);
         a.None? || (body.password.Some? && hash(body.password.value) != a.value.stored)
    ensures r == Refused(LoginFailed) <==>
      body.email.None? || (AccountFor(admins, plumbers, body.email.value).Some? && body.password.None?)
    ensures r.LoggedIn? ==>
      var a := AccountFor(admins, plumbers, body.email.value).value;
      && r.role == a.role
      && r.token.payload == map["id" := a.id, "email" := body.email.value, "role" := a.role]
      && r.token.secret == Auth.JwtSecret && r.token.expiresIn == "1d"
  {
    if body.email.None? then Refused(LoginFailed)
    else
      match AccountFor(admins, plumbers, body.email.value)
      case None => Refused(InvalidCredentials)
      case Some(a) =>
        if body.password.None? then Refused(LoginFailed)
        else if hash(body.password.value) != a.stored then Refused(InvalidCredentials)
        else LoggedIn(LoginToken(a), a.role)
  }

  /** The reply for a wrong password is the reply for an email nobody has: the email's existence does not leak. */
  lemma WrongPasswordLooksUnknown(admins: seq<Admin>, plumbers: seq<Plumber>, email: string, password: string,
                                  hash: string -> string)
    requires AccountFor(admins, plumbers, email).Some?
    requires hash(password) != AccountFor(admins, plumbers, email).value.stored
    ensures LoginUser(admins, plumbers, LoginBody(Some(email), Some(password)), hash) ==
            LoginUser([], [], LoginBody(Some(email), Some(password)), hash)
  {
  }

  /** An admin with the email hides any plumber with it: the plumbers do not matter and the role is "admin". */
  lemma AdminShadowsPlumber(admins: seq<Admin>, plumbers: seq<Plumber>, body: LoginBody, hash: string -> string)
    requires body.email.Some? && AdminByEmail(admins, body.email.value).Some?
    ensures LoginUser(admins, plumbers, body, hash) == LoginUser(admins, [], body, hash)
    ensures LoginUser(admins, plumbers, body, hash).LoggedIn? ==> LoginUser(admins, plumbers, body, hash).role == "admin"
  {
  }

  /** Registering an admin and logging in with the same email and password yields an admin token for the new row. */
  lemma RegisterAdminThenLogin(admins: seq<Admin>, plumbers: seq<Plumber>, body: AdminBody, freshId: string,
                               hash: string -> string)
    requires RegisterAdmin(admins, body, freshId, hash).reply == AdminRegistered
    ensures var email := body.email.value;
      LoginUser(RegisterAdmin(admins, body, freshId, hash).table, plumbers, LoginBody(body.email, body.password), hash)
        == LoggedIn(Auth.SignedToken(map["id" := freshId, "email" := email, "role" := "admin"], Auth.JwtSecret, "1d"), "admin")
  {
    var email := body.email.value;
    var row := Admin(freshId, body.name, email, hash(body.password.value));
    FindFirstAppend(admins, row, (a: Admin) => a.email == email);
  }

  /**
   * Registering a plumber and logging in yields a plumber token for the new
   * row, provided no admin holds the same email; registration does not look
   * at the admin table.
   */
  lemma RegisterPlumberThenLogin(admins: seq<Admin>, plumbers: seq<Plumber>, body: PlumberBody, freshId: string,
                                 now: string, hash: string -> string)
    requires RegisterPlumber(plumbers, body, freshId, now, hash).reply == PlumberRegistered
    requires AdminByEmail(admins, body.email.value).None?
    ensures var email := body.email.value;
      LoginUser(admins, RegisterPlumber(plumbers, body, freshId, now, hash).table, LoginBody(body.email, body.password), hash)
        == LoggedIn(Auth.SignedToken(map["id" := freshId, "email" := email, "role" := "plumber"], Auth.JwtSecret, "1d"), "plumber")
  {
    var email := body.email.value;
    var row := Plumber(freshId, body.name, email, hash(body.password.value), body.phone, None, now);
    FindFirstAppend(plumbers, row, (p: Plumber) => p.email == email);
  }

  /**
   * A login token is accepted by `JWT_SECRET`, and the role guards read the
   * role it carries: `isAdmin` passes exactly for an admin login and
   * `isPlumber` exactly for a plumber login.
   */
  lemma LoginTokenPassesGuards(admins: seq<Admin>, plumbers: seq<Plumber>, body: LoginBody, hash: string -> string)
    requires LoginUser(admins, plumbers, body, hash).LoggedIn?
    ensures var r := LoginUser(admins, plumbers, body, hash);
      var claims := Auth.VerifyWith(r.token, Auth.JwtSecret);
      && claims.Some?
      && (AuthMiddleware.IsAdmin(claims) == Allow <==> r.role == "admin")
      && (AuthMiddleware.IsPlumber(claims) == Allow <==> r.role == "plumber")
  {
  }
}
