/**
 * `GET` and `OPTIONS /api/auth/verify` (app/api/auth/verify/route.ts): is
 * there a token, and does the provider accept it? The token comes from the
 * `access_token` query parameter or else the `pinterest_token` cookie. The
 * `Cookie` header is taken as already parsed into a map; the provider's
 * verdict on the token is an input (`accepted`).
 */
module VerifyRoute {
  import opened Wrappers
  import opened Js
  import opened Http
  import opened Query

  /** The JSON bodies: `{ isAuthenticated: true, message }` and
      `{ isAuthenticated: false, error }`. */
  datatype Body = NoBody | Authenticated(message: string) | NotAuthenticated(error: string)

  /** The response, and the token sent to the provider's account endpoint
      as a bearer credential, if the route got that far. */
  datatype Checked = Checked(response: Response<Body>, sentUpstream: Option<string>)

  /** `getCorsHeaders(request)`: the caller's origin, with credentials allowed. */
  function CorsHeaders(origin: Option<string>): (h: Headers)
    ensures |h| == 4
    ensures h[0] == ("Access-Control-Allow-Origin", if Truthy(origin) then origin.value else "")
    ensures h[3] == ("Access-Control-Allow-Credentials", "true")
  {
    [("Access-Control-Allow-Origin", if Truthy(origin) then origin.value else ""),
     ("Access-Control-Allow-Methods", "GET, OPTIONS"),
     ("Access-Control-Allow-Headers", "Content-Type, Authorization, Cookie"),
     ("Access-Control-Allow-Credentials", "true")]
  }

  /** `OPTIONS` */
  function Options(origin: Option<string>): (r: Response<Body>)
    ensures r.status == 200 && r.headers == CorsHeaders(origin) && r.body == NoBody
  {
    Response(200, CorsHeaders(origin), NoBody)
  }

  /** The token to check: a non-empty query parameter, else a non-empty cookie. */
  function TokenOf(params: Params, cookies: map<string, string>): (t: Option<string>)
    ensures Truthy(Get(params, "access_token")) ==> t == Get(params, "access_token")
    ensures !Truthy(Get(params, "access_token")) && "pinterest_token" in cookies && cookies["pinterest_token"] != "" ==>
      t == Some(cookies["pinterest_token"])
    ensures t.Some? ==> t.value != ""
  {
    var fromQuery := Get(params, "access_token");
    if Truthy(fromQuery) then fromQuery
    else if "pinterest_token" in cookies && cookies["pinterest_token"] != "" then Some(cookies["pinterest_token"])
    else None
  }

  /** `GET` */
  function Verify(origin: Option<string>, params: Params, cookies: map<string, string>, accepted: bool): (c: Checked)
    ensures c.response.headers == CorsHeaders(origin)
    ensures c.sentUpstream == TokenOf(params, cookies)
    ensures c.response.status == 200 <==> c.sentUpstream.Some? && accepted
    ensures c.response.status != 200 ==> c.response.status == 401
    ensures c.response.status == 200 <==> c.response.body.Authenticated?
    ensures c.response.status == 401 <==> c.response.body.NotAuthenticated?
  {
    var token := TokenOf(params, cookies);
    if token.None? then
      Checked(Response(401, CorsHeaders(origin),
        NotAuthenticated("Pinterest access token not found in query string or cookies")), None)
    else if accepted then
      Checked(Response(200, CorsHeaders(origin), Authenticated("Token is valid")), token)
    else
      Checked(Response(401, CorsHeaders(origin), NotAuthenticated("Invalid or expired token")), token)
  }

  /** The query parameter wins over the cookie, which counts only when the
      query gives nothing usable. */
  lemma QueryBeforeCookie(params: Params, cookies: map<string, string>, value: string)
    requires value != ""
    ensures TokenOf([("access_token", value)] + params, cookies) == Some(value)
    ensures !Has(params, "access_token") && cookies == map["pinterest_token" := value] ==> TokenOf(params, cookies) == Some(value)
  {
    assert ([("access_token", value)] + params)[0] == ("access_token", value);
  }

  /** Without a token nothing is sent upstream and the answer is 401, whatever
      the provider would have said. */
  lemma NoTokenNoUpstream(origin: Option<string>, params: Params, cookies: map<string, string>, accepted: bool)
    requires !Truthy(Get(params, "access_token"))
    requires "pinterest_token" !in cookies || cookies["pinterest_token"] == ""
    ensures Verify(origin, params, cookies, accepted) == Verify(origin, params, cookies, !accepted)
    ensures Verify(origin, params, cookies, accepted).sentUpstream.None?
    ensures Verify(origin, params, cookies, accepted).response.status == 401
  {
  }
}
