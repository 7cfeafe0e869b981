/**
 * `auth.js`: the access and refresh token generators and the
 * `authenticateUser` middleware. A signed token is kept as what was signed:
 * its payload, the secret it was signed with and its lifetime. Verifying a
 * token against a secret yields the payload exactly when that is the secret
 * it was signed with.
 */
module Auth {
  import opened Wrappers
  import opened Http
  import AuthMiddleware

  /** The two secrets of the environment: `JWT_SECRET` and `REFRESH_TOKEN_SECRET`. */
  datatype Secret = JwtSecret | RefreshTokenSecret

  /** The arguments of one `jwt.sign(payload, secret, { expiresIn })`. */
  datatype SignedToken = SignedToken(payload: Claims, secret: Secret, expiresIn: string)

  /** The `user` argument of the generators. */
  datatype TokenUser = TokenUser(id: string, role: string)

  /** `jwt.verify(token, secret)`: the payload, when the signature was made with `secret`. */
  function VerifyWith(t: SignedToken, secret: Secret): (claims: Option<Claims>)
    ensures claims.Some? <==> t.secret == secret
    ensures claims.Some? ==> claims.value == t.payload
  {
    if t.secret == secret then Some(t.payload) else None
  }

  /** `generateAccessToken`: id and role, signed with `JWT_SECRET`, valid for an hour. */
  function GenerateAccessToken(user: TokenUser): (t: SignedToken)
    ensures t.payload.Keys == {"id", "role"}
    ensures t.payload["id"] == user.id && t.payload["role"] == user.role
    ensures t.secret == JwtSecret && t.expiresIn == "1h"
  {
    SignedToken(map["id" := user.id, "role" := user.role], JwtSecret, "1h")
  }

  /** `generateRefreshToken`: the id alone, signed with `REFRESH_TOKEN_SECRET`, valid for seven days. */
  function GenerateRefreshToken(user: TokenUser): (t: SignedToken)
    ensures t.payload.Keys == {"id"} && t.payload["id"] == user.id
    ensures t.secret == RefreshTokenSecret && t.expiresIn == "7d"
  {
    SignedToken(map["id" := user.id], RefreshTokenSecret, "7d")
  }

  /** An access token verifies with `JWT_SECRET` and gives back the user's id and role. */
  lemma AccessTokenRoundTrip(user: TokenUser)
    ensures VerifyWith(GenerateAccessToken(user), JwtSecret) == Some(map["id" := user.id, "role" := user.role])
    ensures VerifyWith(GenerateAccessToken(user), RefreshTokenSecret) == None
  {
  }

  /** A refresh token is not an access token: `JWT_SECRET` refuses it, and it carries no role. */
  lemma RefreshTokenRefused(user: TokenUser)
    ensures VerifyWith(GenerateRefreshToken(user), JwtSecret) == None
    ensures VerifyWith(GenerateRefreshToken(user), RefreshTokenSecret).Some?
    ensures "role" !in VerifyWith(GenerateRefreshToken(user), RefreshTokenSecret).value
  {
  }

  const Unauthorized: Reply := Reply(401, Error("Unauthorized"))
  const InvalidToken: Reply := Reply(403, Error("Invalid token"))

  /** The token `authenticateUser` reads: `header?.split(" ")[1]`, when it is a non-empty string. */
  function BearerToken(authorization: Option<string>): (token: Option<string>)
    ensures token.Some? <==>
      authorization.Some? && SecondPiece(authorization.value).Some? && SecondPiece(authorization.value).value != ""
    ensures token.Some? ==> token == SecondPiece(authorization.value)
    ensures token.Some? ==> token.value != "" && ' ' !in token.value
    ensures token.Some? ==> authorization.Some? && ' ' in authorization.value
  {
    if authorization.None? then None
    else
      var piece := SecondPiece(authorization.value);
      if piece.None? || piece.value == "" then None
      else
        NoSpaceNoPiece(authorization.value);
        assert Split(authorization.value, ' ')[1] == piece.value;
        piece
  }

  /** What `authenticateUser` does with the `Authorization` header; `verify` is `jwt.verify` with `JWT_SECRET`. */
  function AuthenticateGate(authorization: Option<string>, verify: string -> Option<Claims>): (g: Gate)
    ensures g == Deny(Unauthorized) <==> BearerToken(authorization).None?
    ensures g == Deny(InvalidToken) <==>
      BearerToken(authorization).Some? && verify(BearerToken(authorization).value).None?
    ensures g.Admit? ==> BearerToken(authorization).Some? && verify(BearerToken(authorization).value) == Some(g.user)
    ensures g.Deny? ==> g.reply == Unauthorized || g.reply == InvalidToken
  {
    match BearerToken(authorization)
    case None => Deny(Unauthorized)
    case Some(token) =>
      match verify(token)
      case None => Deny(InvalidToken)
      case Some(user) => Admit(user)
  }

  /** `authenticateUser`: answer the request, or set `req.user` and call `next` once. */
  method AuthenticateUser(req: Request, verify: string -> Option<Claims>)
    modifies req
    ensures match AuthenticateGate(req.authorization, verify)
      case Deny(reply) =>
        req.sent == Some(reply) && req.user == old(req.user) && req.nextCalls == old(req.nextCalls)
      case Admit(user) =>
        req.user == Some(user) && req.nextCalls == old(req.nextCalls) + 1 && req.sent == old(req.sent)
  {
    var token := BearerToken(req.authorization);
    if token.None? {
      req.sent := Some(Unauthorized);
      return;
    }
    var decoded := verify(token.value);
    if decoded.None? {
      req.sent := Some(InvalidToken);
      return;
    }
    req.user := decoded;
    req.nextCalls := req.nextCalls + 1;
  }

  /**
   * The two token middlewares admit the same requests with the same user;
   * they differ only in how they refuse.
   */
  lemma SameAdmissions(authorization: Option<string>, verify: string -> Option<Claims>)
    ensures AuthenticateGate(authorization, verify).Admit? <==> AuthMiddleware.VerifyTokenGate(authorization, verify).Admit?
    ensures AuthenticateGate(authorization, verify).Admit? ==>
      AuthenticateGate(authorization, verify).user == AuthMiddleware.VerifyTokenGate(authorization, verify).user
  {
  }

  /**
   * A non-empty header without a space is "no token" to `authenticateUser`
   * (401) but an invalid token to `verifyToken` (400).
   */
  lemma SchemelessHeader(header: string, verify: string -> Option<Claims>)
    requires header != "" && ' ' !in header
    ensures AuthenticateGate(Some(header), verify) == Deny(Unauthorized)
    ensures AuthMiddleware.VerifyTokenGate(Some(header), verify) == Deny(AuthMiddleware.InvalidToken)
  {
    NoSpaceNoPiece(header);
  }

  /** `verify` behaves as `jwt.verify` with `secret` on every token that `encode` serialises. */
  ghost predicate VerifiesAs(encode: SignedToken -> string, verify: string -> Option<Claims>, secret: Secret)
  {
    forall t :: verify(encode(t)) == VerifyWith(t, secret)
  }

  /**
   * A request carrying `"Bearer " + <access token>` passes `verifyToken`
   * with the user's id and role, and then passes `isAdmin` exactly when the
   * role is "admin"; the same header carrying a refresh token is refused.
   */
  lemma {:induction false} AccessTokenAdmitted(user: TokenUser, encode: SignedToken -> string, verify: string -> Option<Claims>)
    requires VerifiesAs(encode, verify, JwtSecret)
    requires forall t :: encode(t) != "" && ' ' !in encode(t)
    ensures var header := "Bearer " + encode(GenerateAccessToken(user));
      && AuthMiddleware.VerifyTokenGate(Some(header), verify) == Admit(map["id" := user.id, "role" := user.role])
      && (AuthMiddleware.IsAdmin(Some(map["id" := user.id, "role" := user.role])) == Allow <==> user.role == "admin")
    ensures var header := "Bearer " + encode(GenerateRefreshToken(user));
      AuthMiddleware.VerifyTokenGate(Some(header), verify) == Deny(AuthMiddleware.InvalidToken)
  {
    var access, refresh := GenerateAccessToken(user), GenerateRefreshToken(user);
    AuthMiddleware.BearerAdmitted(encode(access), verify, map["id" := user.id, "role" := user.role]);
    var header := "Bearer " + encode(refresh);
    SchemeTokenPiece("Bearer", encode(refresh));
    assert header == "Bearer" + " " + encode(refresh);
    assert verify(encode(refresh)) == None;
  }
}
