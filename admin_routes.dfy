/**
 * The admin's manager routes: `GET /managers` (a projection that leaves the
 * password hash out), `GET /managers/:managerId/channels` (an existence check,
 * then a filter) and `POST /managers` (validation, an email uniqueness check,
 * then an insert into the manager table).
 */
module AdminRoutes {
  import opened Wrappers
  import opened Store

  /** The four fields `POST /managers` reads from the body; an absent field is None. */
  datatype ManagerBody = ManagerBody(
    name: Option<string>,
    email: Option<string>,
    password: Option<string>,
    companyName: Option<string>)

  /** A string field is truthy when it is present and not empty. */
  predicate Given(field: Option<string>)
  {
    field.Some? && field.value != ""
  }

  /** `name && email && password && companyName`. */
  predicate Complete(body: ManagerBody): (ok: bool)
    ensures ok <==> forall f :: f in [body.name, body.email, body.password, body.companyName] ==> f.Some? && |f.value| > 0
  {
    Given(body.name) && Given(body.email) && Given(body.password) && Given(body.companyName)
  }

  /** `select: { id, name, email, companyName, createdAt }`: a manager without its password hash. */
  datatype ManagerView = ManagerView(id: string, name: string, email: string, companyName: string, createdAt: string)

  function View(m: Manager): (v: ManagerView)
    ensures v.id == m.id && v.email == m.email
  {
    ManagerView(m.id, m.name, m.email, m.companyName, m.createdAt)
  }

  /** The view of a manager does not depend on its password hash. */
  lemma ViewHidesHash(m: Manager, otherHash: string)
    ensures View(m) == View(m.(passwordHash := otherHash))
  {
  }

  /** `GET /managers`: every manager, in table order, projected to its view. */
  function ListManagers(managers: seq<Manager>): (views: seq<ManagerView>)
    ensures |views| == |managers|
    ensures forall k :: 0 <= k < |managers| ==> views[k] == View(managers[k])
  {
    if managers == [] then [] else [View(managers[0])] + ListManagers(managers[1..])
  }

  /** Two tables that differ only in password hashes list the same: the listing never carries a hash. */
  lemma ListingHidesHashes(a: seq<Manager>, b: seq<Manager>)
    requires |a| == |b|
    requires forall k :: 0 <= k < |a| ==> a[k] == b[k].(passwordHash := a[k].passwordHash)
    ensures ListManagers(a) == ListManagers(b)
  {
    forall k | 0 <= k < |a|
      ensures ListManagers(a)[k] == ListManagers(b)[k]
    {
      ViewHidesHash(b[k], a[k].passwordHash);
    }
  }

  /** `prisma.manager.findUnique({ where: { id } })`. */
  function ManagerById(managers: seq<Manager>, id: string): Option<Manager>
  {
    FindFirst(managers, (m: Manager) => m.id == id)
  }

  /** `prisma.manager.findUnique({ where: { email } })`. */
  function ManagerByEmail(managers: seq<Manager>, email: string): Option<Manager>
  {
    FindFirst(managers, (m: Manager) => m.email == email)
  }

  /** The unique constraint on `manager.email`. */
  predicate EmailsUnique(managers: seq<Manager>)
  {
    forall i, j :: 0 <= i < j < |managers| ==> managers[i].email != managers[j].email
  }

  /** The reply of `GET /managers/:managerId/channels`. */
  datatype ChannelsReply = Channels(channels: seq<Channel>) | NotFound(message: string)

  /** `GET /managers/:managerId/channels`: 404 for an unknown manager, else that manager's channels. */
  function ManagerChannels(managers: seq<Manager>, table: seq<Channel>, managerId: string): (r: ChannelsReply)
    ensures r.NotFound? <==> forall m :: m in managers ==> m.id != managerId
    ensures r.NotFound? ==> r.message == "Manager not found"
    ensures r.Channels? ==> forall c :: c in r.channels <==> c in table && c.managerId == managerId
  {
    if ManagerById(managers, managerId).None? then NotFound("Manager not found")
    else
      ManagedByMembers(table, managerId);
      Channels(ManagedBy(table, managerId))
  }

  /** The existence check comes first: an unknown manager gets 404 whatever the channel table holds. */
  lemma NotFoundBeforeChannels(managers: seq<Manager>, a: seq<Channel>, b: seq<Channel>, managerId: string)
    requires ManagerChannels(managers, a, managerId).NotFound?
    ensures ManagerChannels(managers, b, managerId) == ManagerChannels(managers, a, managerId)
  {
  }

  const MissingFields: string := "Missing required fields: name, email, password, companyName"
  const EmailTaken: string := "Manager with this email already exists"

  /** The reply of `POST /managers`. */
  datatype CreateReply = Created(manager: ManagerView) | BadRequest(message: string)

  /** The 201 body as the handler writes it: `res.status(201).json(manager)` sends the whole created row. */
  function CreatedBodyAsWritten(row: Manager): (body: Manager)
    ensures body.passwordHash == row.passwordHash
  {
    row
  }

  /**
   * The written 201 body tells apart two rows that differ only in their
   * password hash, so it carries the hash; the documented body, the view,
   * does not.
   */
  lemma CreatedBodyExposesHash(row: Manager, otherHash: string)
    requires otherHash != row.passwordHash
    ensures CreatedBodyAsWritten(row) != CreatedBodyAsWritten(row.(passwordHash := otherHash))
    ensures View(row) == View(row.(passwordHash := otherHash))
  {
  }

  /** The manager table, which `POST /managers` appends to. */
  class ManagerTable {
    var managers: seq<Manager>

    ghost predicate Valid()
      reads this
    {
      EmailsUnique(managers)
    }

    constructor (managers: seq<Manager>)
      requires EmailsUnique(managers)
      ensures this.managers == managers
      ensures Valid()
    {
      this.managers := managers;
    }

    /**
     * `POST /managers`. `freshId` and `now` are the id and creation time the
     * store fills in; `hash` is `bcrypt.hash`. The reply carries the view of
     * the new row.
     */
    method CreateManager(body: ManagerBody, freshId: string, now: string, hash: string -> string)
      returns (reply: CreateReply)
      modifies this
      ensures old(Valid()) ==> Valid()
      ensures !Complete(body) ==> reply == BadRequest(MissingFields) && managers == old(managers)
      ensures Complete(body) && ManagerByEmail(old(managers), body.email.value).Some? ==>
        reply == BadRequest(EmailTaken) && managers == old(managers)
      ensures Complete(body) && ManagerByEmail(old(managers), body.email.value).None? ==>
        var row := Manager(freshId, body.name.value, body.email.value, hash(body.password.value),
                           body.companyName.value, now);
        && managers == old(managers) + [row]
        && reply == Created(View(row))
        && ListManagers(managers) == ListManagers(old(managers)) + [View(row)]
    {
      if !Given(body.name) || !Given(body.email) || !Given(body.password) || !Given(body.companyName) {
        return BadRequest(MissingFields);
      }
      var existing := ManagerByEmail(managers, body.email.value);
      if existing.Some? {
        return BadRequest(EmailTaken);
      }
      var passwordHash := hash(body.password.value);
      var row := Manager(freshId, body.name.value, body.email.value, passwordHash, body.companyName.value, now);
      AppendKeepsUnique(managers, row);
      ListingAppend(managers, row);
      managers := managers + [row];
      reply := Created(View(row));
    }
  }

  /** Appending a manager whose email is not taken keeps emails unique. */
  lemma AppendKeepsUnique(managers: seq<Manager>, row: Manager)
    requires ManagerByEmail(managers, row.email).None?
    ensures EmailsUnique(managers) ==> EmailsUnique(managers + [row])
  {
    forall i | 0 <= i < |managers|
      ensures (managers + [row])[i].email != row.email
    {
      assert managers[i] in managers;
    }
  }

  /** The listing of a table with one more row is the old listing with that row's view at the end. */
  lemma ListingAppend(managers: seq<Manager>, row: Manager)
    ensures ListManagers(managers + [row]) == ListManagers(managers) + [View(row)]
  {
  }

  /** After a successful create, the new email is found, and it names the new row. */
  lemma CreatedIsFound(managers: seq<Manager>, row: Manager)
    requires ManagerByEmail(managers, row.email).None?
    ensures ManagerByEmail(managers + [row], row.email) == Some(row)
  {
    FindFirstAppend(managers, row, (m: Manager) => m.email == row.email);
  }
}
