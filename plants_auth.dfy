/** The authentication middleware of the user-plants service
    (user-plants-service/middlewares/auth.js): `requireAuth` takes the token
    of an `Authorization: Bearer <token>` header (the scheme of section 2.1
    of RFC 6750, here matched case-sensitively), has it verified and stores
    the caller on the request; `requireAuthTEST` stores a fixed user.

    Token verification (`jwt.verify` with the secret) is an oracle: a
    function from the token to its outcome. */
module PlantsAuth {
  import opened Wrappers
  import opened JsText

  /** The scheme prefix, seven characters including the space. */
  const BearerPrefix := "Bearer "

  /** `auth.startsWith("Bearer ") ? auth.slice(7) : null`, where
      `auth = req.headers.authorization || ""` (`None` is a missing
      header). */
  function BearerToken(header: Option<string>): (t: Option<string>)
    ensures t.Some? <==> header.Some? && BearerPrefix <= header.value
    ensures t.Some? ==> header.value == BearerPrefix + t.value
  {
    var auth := if header.Some? then header.value else "";
    if BearerPrefix <= auth then
      assert auth == BearerPrefix + auth[7..];
      Some(auth[7..])
    else None
  }

  /** Any token sent with the prefix is the token extracted. */
  lemma BearerRoundTrip(token: string)
    ensures BearerToken(Some(BearerPrefix + token)) == Some(token)
  {
    var h := BearerPrefix + token;
    assert h[7..] == token;
  }

  /** The scheme is matched case-sensitively: `bearer x` has no token. */
  lemma LowerCaseSchemeRefused(token: string)
    ensures BearerToken(Some("bearer " + token)) == None
  {
    var h := "bearer " + token;
    assert h[0] != BearerPrefix[0];
  }

  /** The claims of a verified token. */
  datatype Claims = Claims(id: JsValue, email: JsValue, role: JsValue, others: map<string, JsValue>)

  /** What `jwt.verify` does with a token. */
  datatype Verification = Verified(payload: Claims) | VerifyThrew

  /** The `req.user` object. An absent property is `Undefined`. */
  datatype AuthUser = AuthUser(id: JsValue, email: JsValue, role: JsValue)

  /** The user `requireAuth` lets through, if any: a non-empty token that
      verifies, reduced to its id, email and role. */
  function Authenticate(header: Option<string>, verify: string -> Verification): (u: Option<AuthUser>)
    ensures u.Some? <==>
      && BearerToken(header).Some? && BearerToken(header).value != ""
      && verify(BearerToken(header).value).Verified?
    ensures u.Some? ==>
      var p := verify(BearerToken(header).value).payload;
      u.value == AuthUser(p.id, p.email, p.role)
  {
    match BearerToken(header)
    case None => None
    case Some(token) =>
      if token == "" then None
      else
        match verify(token)
        case VerifyThrew => None
        case Verified(p) => Some(AuthUser(p.id, p.email, p.role))
  }

  /** Only a header of the form `Bearer <token>`, with a non-empty token,
      can authenticate. */
  lemma AuthenticatedHeader(header: Option<string>, verify: string -> Verification) returns (token: string)
    requires Authenticate(header, verify).Some?
    ensures header == Some(BearerPrefix + token) && token != ""
    ensures verify(token).Verified?
  {
    token := BearerToken(header).value;
  }

  /** The 401 body. */
  datatype Response = Response(status: nat, error: string)

  const Unauthorized := Response(401, "Unauthorized")

  /** The user fixed by `requireAuthTEST`: an id and a role, no email. */
  const TestUser := AuthUser(Str("24988448-20a1-7025-59a4-e27cbfdd22ef"), Undefined, Str("gardener"))

  /** One request passing through a middleware: what is stored on `req`,
      what was sent on `res`, and how often `next` was called. */
  class Exchange {
    var user: Option<AuthUser>
    var response: Option<Response>
    var nextCalls: nat

    constructor ()
      ensures user == None && response == None && nextCalls == 0
    {
      user := None;
      response := None;
      nextCalls := 0;
    }

    /** `requireAuth(req, res, next)`. On success `req.user` is the verified
        caller and `next` runs once; otherwise 401 is sent, `req.user` is
        left alone and `next` is not called. */
    method RequireAuth(header: Option<string>, verify: string -> Verification)
      modifies this
      ensures Authenticate(header, verify).Some? ==>
        user == Authenticate(header, verify) && nextCalls == old(nextCalls) + 1 && response == old(response)
      ensures Authenticate(header, verify).None? ==>
        user == old(user) && nextCalls == old(nextCalls) && response == Some(Unauthorized)
    {
      var auth := if header.Some? && header.value != "" then header.value else "";
      var token := if BearerPrefix <= auth then Some(auth[7..]) else None;
      if token.None? || token.value == "" {
        response := Some(Unauthorized);
        return;
      }
      match verify(token.value)
      case VerifyThrew =>
        response := Some(Unauthorized);
      case Verified(payload) =>
        user := Some(AuthUser(payload.id, payload.email, payload.role));
        nextCalls := nextCalls + 1;
    }

    /** `requireAuthTEST(req, _res, next)`: always the fixed user. */
    method RequireAuthTest()
      modifies this
      ensures user == Some(TestUser) && nextCalls == old(nextCalls) + 1 && response == old(response)
    {
      user := Some(TestUser);
      nextCalls := nextCalls + 1;
    }
  }
}
