/**
 * The bearer-token gate in front of the protected routes: the signing secret,
 * the extraction of the token from an `Authorization: Bearer <token>` header
 * (section 2.1 of RFC 6750, here with a case-sensitive scheme) and the
 * middleware that sets `req.auth` or answers 401.
 */
module AuthGate {
  import opened Wrappers
  import opened Text
  import opened Json
  import opened Libraries

  const DevSecret := "modai-dev-secret-change-me"

  /** `process.env.JWT_SECRET || DevSecret`: an unset or empty variable falls back. */
  function JwtSecret(env: Option<string>): (s: string)
    ensures env.Some? && env.value != "" ==> s == env.value
    ensures env.None? || env.value == "" ==> s == DevSecret
    ensures s != ""
  {
    if env.Some? && env.value != "" then env.value else DevSecret
  }

  const BearerPrefix := "Bearer "
  const AuthRequiredMessage := "Authentication required"
  const InvalidTokenMessage := "Invalid token"

  /** The token in `req.headers.authorization || ''`: whatever follows the exact
      prefix "Bearer ", trimmed; no token unless the header starts with it. */
  function BearerToken(header: Option<string>): (r: Option<string>)
    ensures r.Some? <==> header.Some? && StartsWith(header.value, BearerPrefix)
    ensures r.Some? ==> r.value == Trim(header.value[|BearerPrefix|..])
    ensures r.Some? ==> Trimmed(r.value) && |r.value| <= |header.value| - 7
  {
    var h := if header.Some? then header.value else "";
    if StartsWith(h, BearerPrefix) then Some(Trim(h[|BearerPrefix|..])) else None
  }

  /** The header the client builds from a token it holds reads back as that token. */
  lemma BearerRoundTrip(t: string)
    requires Trimmed(t)
    ensures BearerToken(Some(BearerPrefix + t)) == Some(t)
  {
    assert (BearerPrefix + t)[|BearerPrefix|..] == t;
  }

  /** The scheme is matched case-sensitively: "bearer " is not accepted. */
  lemma LowerCaseSchemeRejected(t: string)
    ensures BearerToken(Some("bearer " + t)) == None
  {
    assert ("bearer " + t)[0] == 'b';
  }

  /** What the middleware stores in `req.auth`: the payload's `userId`, which a
      token signed elsewhere with the same secret may lack. */
  datatype AuthInfo = AuthInfo(userId: Option<string>)

  datatype GateResult = Pass(auth: AuthInfo) | Reject(response: Response)

  /** The gate's decision for a header at time `now`. */
  function Gate(libs: ServerLibs, secret: string, header: Option<string>, now: int): (g: GateResult)
    ensures BearerToken(header).None? ==> g == Reject(Response(401, MsgBody(AuthRequiredMessage)))
    ensures BearerToken(header).Some? && libs.verify(BearerToken(header).value, secret, now).Err?
            ==> g == Reject(Response(401, MsgBody(InvalidTokenMessage)))
    ensures g.Pass? <==> BearerToken(header).Some? && libs.verify(BearerToken(header).value, secret, now).Ok?
    ensures g.Pass? ==> g.auth.userId == libs.verify(BearerToken(header).value, secret, now).value.userId
  {
    match BearerToken(header)
    case None => Reject(Response(401, MsgBody(AuthRequiredMessage)))
    case Some(token) =>
      match libs.verify(token, secret, now)
      case Ok(claims) => Pass(AuthInfo(claims.userId))
      case Err(_) => Reject(Response(401, MsgBody(InvalidTokenMessage)))
  }

  /** The parts of an Express request the gate and the update route use. */
  class Request {
    const authorization: Option<string>
    const body: Json
    var auth: Option<AuthInfo>

    constructor (authorization: Option<string>, body: Json)
      ensures this.authorization == authorization && this.body == body && auth.None?
    {
      this.authorization := authorization;
      this.body := body;
      auth := None;
    }
  }

  /** What the middleware does with the request: call `next()` once, or answer. */
  datatype Continuation = CallNext | Respond(response: Response)

  /** `authMiddleware`: on a valid token it sets `req.auth` and calls `next`;
      otherwise it answers 401 and leaves the request as it was. */
  method AuthMiddleware(libs: ServerLibs, secret: string, req: Request, now: int) returns (k: Continuation)
    modifies req
    ensures var g := Gate(libs, secret, req.authorization, now);
      && (g.Pass? ==> k == CallNext && req.auth == Some(g.auth))
      && (g.Reject? ==> k == Respond(g.response) && req.auth == old(req.auth))
  {
    var g := Gate(libs, secret, req.authorization, now);
    if g.Pass? {
      req.auth := Some(g.auth);
      k := CallNext;
    } else {
      k := Respond(g.response);
    }
  }
}
