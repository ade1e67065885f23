/**
 * `GET /api/auth/login` (app/api/auth/login/route.ts): redirects the browser
 * to the provider's authorization endpoint, an authorization request in the
 * sense of section 4.1.1 of RFC 6749. The two environment settings are
 * inputs (`None` when unset).
 */
module LoginRoute {
  import opened Wrappers
  import opened Js
  import opened Http
  import opened Query

  datatype Body = NoBody | Failure(error: string)

  const AuthorizeEndpoint := "https://www.pinterest.com/oauth/"
  const Scope := "boards:read,pins:read"

  /** `encodeURIComponent(JSON.stringify({ returnTo }))` */
  function State(returnTo: string): string {
    EncodeUriComponent("{\"returnTo\":" + JsonQuote(returnTo) + "}")
  }

  /** The parameters of the authorization request, in the order the route
      writes them. */
  function AuthorizeParams(clientId: string, baseUrl: string, returnTo: string): seq<string> {
    ["client_id=" + clientId,
     "redirect_uri=" + EncodeUriComponent(baseUrl + "/api/auth/callback"),
     "response_type=code",
     "scope=" + Scope,
     "state=" + State(returnTo)]
  }

  /** The query of the authorization request: its parameters joined by `&`. */
  function AuthorizeQuery(clientId: string, baseUrl: string, returnTo: string): string {
    Join(AuthorizeParams(clientId, baseUrl, returnTo), "&")
  }

  /** `GET` */
  function Login(clientId: Option<string>, baseUrl: Option<string>, params: Params): (r: Response<Body>)
    ensures !Truthy(clientId) || !Truthy(baseUrl) ==>
      r == Response(500, [("Access-Control-Allow-Origin", "*"), ("Content-Type", "application/json")],
                    Failure("Missing environment variables"))
    ensures Truthy(clientId) && Truthy(baseUrl) ==>
      && r.status == 302
      && r.body == NoBody
      && r.headers == [("Access-Control-Allow-Origin", "*"),
                       ("Location", AuthorizeEndpoint + "?" + AuthorizeQuery(clientId.value, baseUrl.value,
                                      Or(Get(params, "returnTo"), Some(baseUrl.value + "/")).value))]
  {
    if !Truthy(clientId) || !Truthy(baseUrl) then
      Response(500, [("Access-Control-Allow-Origin", "*"), ("Content-Type", "application/json")],
               Failure("Missing environment variables"))
    else
      var returnTo := Or(Get(params, "returnTo"), Some(baseUrl.value + "/")).value;
      Response(302, [("Access-Control-Allow-Origin", "*"),
                     ("Location", AuthorizeEndpoint + "?" + AuthorizeQuery(clientId.value, baseUrl.value, returnTo))], NoBody)
  }

  /** `returnTo` falls back to the base address when the parameter is absent or empty. */
  lemma ReturnToDefault(baseUrl: string, params: Params)
    requires !Truthy(Get(params, "returnTo"))
    ensures Or(Get(params, "returnTo"), Some(baseUrl + "/")).value == baseUrl + "/"
  {
  }

  /** The query splits at `&` into exactly the five parameters of the
      authorization request, provided the client id holds no `&`: every
      other value is encoded or a constant. */
  lemma AuthorizeQueryParameters(clientId: string, baseUrl: string, returnTo: string)
    requires '&' !in clientId
    ensures Split(AuthorizeQuery(clientId, baseUrl, returnTo), "&") == AuthorizeParams(clientId, baseUrl, returnTo)
  {
    var parts := AuthorizeParams(clientId, baseUrl, returnTo);
    NoAmpersandAfterPrefix("redirect_uri=", baseUrl + "/api/auth/callback");
    NoAmpersandAfterPrefix("state=", "{\"returnTo\":" + JsonQuote(returnTo) + "}");
    assert '&' !in "client_id=" + clientId by {
      forall k | 0 <= k < |"client_id=" + clientId| ensures ("client_id=" + clientId)[k] != '&' {
        if k >= 10 {
          assert ("client_id=" + clientId)[k] == clientId[k - 10];
        }
      }
    }
    assert "&" == ['&'];
    SplitJoin(parts, '&');
  }

  /** A literal prefix without `&`, followed by an encoding, holds no `&`. */
  lemma NoAmpersandAfterPrefix(prefix: string, s: string)
    requires '&' !in prefix
    ensures '&' !in prefix + EncodeUriComponent(s)
  {
    var enc := EncodeUriComponent(s);
    EncodedIsQuerySafe(s);
    forall k | 0 <= k < |prefix + enc| ensures (prefix + enc)[k] != '&' {
      if k >= |prefix| {
        assert (prefix + enc)[k] == enc[k - |prefix|];
      } else {
        assert (prefix + enc)[k] == prefix[k];
      }
    }
  }
}
