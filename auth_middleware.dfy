/**
 * The `verifyToken` middleware and the `isAdmin` / `isPlumber` role guards
 * of `authMiddleware.js`. `jwt.verify` with `JWT_SECRET` is the parameter
 * `verify`: it yields the decoded payload or nothing.
 */
module AuthMiddleware {
  import opened Wrappers
  import opened Http

  const AccessDenied: Reply := Reply(401, Message("Access denied!"))
  const InvalidToken: Reply := Reply(400, Message("Invalid token!"))
  const AccessForbidden: Reply := Reply(403, Message("Access forbidden!"))

  /**
   * `jwt.verify(header.split(" ")[1], secret)`: the library refuses an
   * absent or empty token string before looking at it.
   */
  function Verified(header: string, verify: string -> Option<Claims>): Option<Claims>
  {
    var piece := SecondPiece(header);
    if piece.None? || piece.value == "" then None else verify(piece.value)
  }

  /** What `verifyToken` does with the `Authorization` header. */
  function VerifyTokenGate(authorization: Option<string>, verify: string -> Option<Claims>): (g: Gate)
    ensures g == Deny(AccessDenied) <==> authorization.None? || authorization.value == ""
    ensures g == Deny(InvalidToken) <==>
      authorization.Some? && authorization.value != "" && Verified(authorization.value, verify).None?
    ensures g.Deny? ==> g.reply == AccessDenied || g.reply == InvalidToken
    ensures g.Admit? ==> authorization.Some? && Verified(authorization.value, verify) == Some(g.user)
    ensures authorization.Some? && authorization.value != "" && ' ' !in authorization.value ==> g == Deny(InvalidToken)
  {
    if authorization.None? || authorization.value == "" then Deny(AccessDenied)
    else
      match Verified(authorization.value, verify)
      case None => Deny(InvalidToken)
      case Some(user) => Admit(user)
  }

  /** A `"Bearer <token>"` header whose token verifies lets the request through with the decoded payload. */
  lemma BearerAdmitted(token: string, verify: string -> Option<Claims>, user: Claims)
    requires token != "" && ' ' !in token && verify(token) == Some(user)
    ensures VerifyTokenGate(Some("Bearer " + token), verify) == Admit(user)
  {
    SchemeTokenPiece("Bearer", token);
    assert "Bearer " + token == "Bearer" + " " + token;
  }

  /** `verifyToken`: answer the request, or set `req.user` and call `next` once. */
  method VerifyToken(req: Request, verify: string -> Option<Claims>)
    modifies req
    ensures match VerifyTokenGate(req.authorization, verify)
      case Deny(reply) =>
        req.sent == Some(reply) && req.user == old(req.user) && req.nextCalls == old(req.nextCalls)
      case Admit(user) =>
        req.user == Some(user) && req.nextCalls == old(req.nextCalls) + 1 && req.sent == old(req.sent)
  {
    var token := req.authorization;
    if token.None? || token.value == "" {
      req.sent := Some(AccessDenied);
      return;
    }
    var decoded := Verified(token.value, verify);
    if decoded.None? {
      req.sent := Some(InvalidToken);
      return;
    }
    req.user := decoded;
    req.nextCalls := req.nextCalls + 1;
  }

  /** `req.user.role !== role ? 403 : next()`; reading a role of an absent user throws. */
  function RoleGuard(user: Option<Claims>, role: string): (g: Guard)
    ensures g == Allow <==> user.Some? && "role" in user.value && user.value["role"] == role
    ensures g == Throws <==> user.None?
    ensures g.Refuse? ==> g.reply == AccessForbidden
  {
    if user.None? then Throws
    else if "role" in user.value && user.value["role"] == role then Allow
    else Refuse(AccessForbidden)
  }

  /** `isAdmin`. */
  function IsAdmin(user: Option<Claims>): (g: Guard)
    ensures g == Allow <==> user.Some? && "role" in user.value && user.value["role"] == "admin"
    ensures g == Throws <==> user.None?
    ensures g.Refuse? ==> g.reply == AccessForbidden
  {
    RoleGuard(user, "admin")
  }

  /** `isPlumber`. */
  function IsPlumber(user: Option<Claims>): (g: Guard)
    ensures g == Allow <==> user.Some? && "role" in user.value && user.value["role"] == "plumber"
    ensures g == Throws <==> user.None?
    ensures g.Refuse? ==> g.reply == AccessForbidden
  {
    RoleGuard(user, "plumber")
  }

  /** No payload passes both guards: the role is compared for exact equality. */
  lemma GuardsExclusive(user: Option<Claims>)
    ensures !(IsAdmin(user) == Allow && IsPlumber(user) == Allow)
  {
  }

  /**
   * After `verifyToken` admits a request, `isAdmin` passes exactly when the
   * decoded payload's role is "admin" and answers 403 otherwise; it never
   * throws, since `req.user` is set.
   */
  lemma AdmittedThenGuarded(authorization: Option<string>, verify: string -> Option<Claims>)
    requires VerifyTokenGate(authorization, verify).Admit?
    ensures var user := VerifyTokenGate(authorization, verify).user;
      IsAdmin(Some(user)) != Throws &&
      (IsAdmin(Some(user)) == Allow <==> "role" in user && user["role"] == "admin")
  {
  }
}
