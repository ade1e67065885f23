/**
 * `PinterestSDK` (sdk/pinterest-sdk.js): a browser client of the
 * application's API. The page's `document.cookie` is an input to the
 * operations that read it; a page navigation is recorded in `redirect`.
 */
module PinterestSdk {
  import opened Wrappers
  import opened Js
  import opened Pinterest
  import AuthService

  const DefaultApiBaseUrl := "https://framer-interest.vercel.app"
  const DefaultTokenCookieName := "pinterest_token"

  /** The keys a caller may pass to the constructor; `None` is an absent key. */
  datatype Options = Options(apiBaseUrl: Option<string>, pinterestTokenCookieName: Option<string>)

  /** `_getCookie(name)`: splits `"; " + cookie` on `"; " + name + "="` and
      answers only when there are exactly two pieces, i.e. exactly one
      occurrence; the value runs up to the next `;`. */
  function GetCookie(cookie: string, name: string): (r: Option<string>)
    ensures r.Some? ==> ';' !in r.value
  {
    var parts := Split("; " + cookie, "; " + name + "=");
    if |parts| == 2 then
      var value := Split(parts[1], ";")[0];
      SplitHeadHasNoChar(parts[1], ';');
      Some(value)
    else
      None
  }

  /** The first piece of a split on one character never contains it. */
  lemma SplitHeadHasNoChar(s: string, c: char)
    ensures c !in Split(s, [c])[0]
  {
    SplitPiecesAreFree(s, [c]);
    var head := Split(s, [c])[0];
    if c in head {
      var j :| 0 <= j < |head| && head[j] == c;
      assert head[j..j + 1] == [c];
      assert OccursAt(head, [c], j);
    }
  }

  /** With exactly one occurrence of `"; " + name + "="`, the cookie is the
      text after it, up to the next `;`. */
  lemma GetCookieUnique(cookie: string, name: string, before: string, after: string)
    requires "; " + cookie == before + ("; " + name + "=") + after
    requires forall j: nat :: j < |before| ==> !OccursAt("; " + cookie, "; " + name + "=", j)
    requires IndexOf(after, "; " + name + "=").None?
    ensures GetCookie(cookie, name) == Some(Split(after, ";")[0])
  {
    SplitAtSeam(before, "; " + name + "=", after);
  }

  /** With two or more occurrences, the answer is null. */
  lemma GetCookieDuplicate(cookie: string, name: string, before: string, after: string)
    requires "; " + cookie == before + ("; " + name + "=") + after
    requires forall j: nat :: j < |before| ==> !OccursAt("; " + cookie, "; " + name + "=", j)
    requires IndexOf(after, "; " + name + "=").Some?
    ensures GetCookie(cookie, name) == None
  {
    var sep := "; " + name + "=";
    SplitAtSeam(before, sep, after);
    SplitFound(after, sep);
    assert |Split("; " + cookie, sep)| >= 3;
  }

  /** With no occurrence, the answer is null. */
  lemma GetCookieAbsent(cookie: string, name: string)
    requires IndexOf("; " + cookie, "; " + name + "=").None?
    ensures GetCookie(cookie, name) == None
  {
  }

  /** `verifyAuthentication(accessToken)`: an absent or empty argument falls
      back to the cookie; the token found is judged by its length alone. */
  function VerifyAuthentication(accessToken: Option<string>, cookie: string, cookieName: string): (r: bool)
    ensures Truthy(accessToken) ==> r == AuthService.VerifyToken(accessToken)
    ensures !Truthy(accessToken) ==> r == AuthService.VerifyToken(GetCookie(cookie, cookieName))
  {
    AuthService.VerifyToken(Or(accessToken, GetCookie(cookie, cookieName)))
  }

  class Sdk {
    const apiBaseUrl: string
    const cookieName: string
    var isInitialized: bool
    var isAuthenticated: bool
    var redirect: Option<string>

    /** `new PinterestSDK(config)`: given keys override the defaults. */
    constructor (config: Options)
      ensures apiBaseUrl == config.apiBaseUrl.GetOr(DefaultApiBaseUrl)
      ensures cookieName == config.pinterestTokenCookieName.GetOr(DefaultTokenCookieName)
      ensures !isInitialized && !isAuthenticated && redirect == None
    {
      apiBaseUrl := config.apiBaseUrl.GetOr(DefaultApiBaseUrl);
      cookieName := config.pinterestTokenCookieName.GetOr(DefaultTokenCookieName);
      isInitialized, isAuthenticated, redirect := false, false, None;
    }

    /** `init()`: records whether the cookie holds a plausible token; the
        check cannot throw, so it always answers true. */
    method Init(cookie: string) returns (ok: bool)
      modifies this
      ensures ok && isInitialized
      ensures isAuthenticated == VerifyAuthentication(None, cookie, cookieName)
      ensures redirect == old(redirect)
    {
      isAuthenticated := VerifyAuthentication(None, cookie, cookieName);
      isInitialized := true;
      ok := true;
    }

    /** `isUserAuthenticated()` */
    function IsUserAuthenticated(): (r: bool)
      reads this
      ensures r == isAuthenticated
    {
      isAuthenticated
    }

    /** `login(returnUrl = window.location.href)`: an omitted address (`None`)
        is the current page, `currentHref`. */
    method Login(returnUrl: Option<string>, currentHref: string)
      modifies this
      ensures redirect == Some(apiBaseUrl + AuthService.LoginPath(returnUrl.GetOr(currentHref)))
      ensures isInitialized == old(isInitialized) && isAuthenticated == old(isAuthenticated)
    {
      redirect := Some(apiBaseUrl + AuthService.LoginPath(returnUrl.GetOr(currentHref)));
    }

    /** `handleCallback(success, failure)`: authenticated exactly when the
        token cookie is present and non-empty; the page goes to the matching
        target. */
    method HandleCallback(cookie: string, redirectSuccess: Option<string>, redirectFailure: Option<string>)
      returns (authenticated: bool)
      modifies this
      ensures authenticated == isAuthenticated == Truthy(GetCookie(cookie, cookieName))
      ensures redirect == Some(if authenticated then redirectSuccess.GetOr("/dashboard")
                               else redirectFailure.GetOr("/login?error=pinterest_auth_failed"))
      ensures isInitialized == old(isInitialized)
    {
      var tokenValue := GetCookie(cookie, cookieName);
      isAuthenticated := Truthy(tokenValue);
      if isAuthenticated {
        redirect := Some(redirectSuccess.GetOr("/dashboard"));
      } else {
        redirect := Some(redirectFailure.GetOr("/login?error=pinterest_auth_failed"));
      }
      authenticated := isAuthenticated;
    }

    /** The address `fetchPins` requests. */
    function PinsUrl(accessToken: Option<string>): (r: string)
      ensures Truthy(accessToken) ==> r == apiBaseUrl + "/api/getPins?access_token=" + EncodeUriComponent(accessToken.value)
      ensures !Truthy(accessToken) ==> r == apiBaseUrl + "/api/getPins"
    {
      apiBaseUrl + "/api/getPins" + if Truthy(accessToken) then "?access_token=" + EncodeUriComponent(accessToken.value) else ""
    }

    /** `fetchPins(accessToken)`: initialises if needed; refuses, before any
        request, an explicit token that fails the length check or, without a
        token, an instance that is not authenticated; a reply that is not ok
        throws; otherwise the reply's pins, or []. `requested` is the address
        fetched, if any. */
    method FetchPins(accessToken: Option<string>, cookie: string, reply: PinsReply)
      returns (r: Outcome<seq<Pin>>, requested: Option<string>)
      modifies this
      ensures isInitialized
      ensures !old(isInitialized) ==> isAuthenticated == VerifyAuthentication(None, cookie, cookieName)
      ensures old(isInitialized) ==> isAuthenticated == old(isAuthenticated)
      ensures redirect == old(redirect)
      ensures Truthy(accessToken) && !AuthService.VerifyToken(accessToken) ==>
        r == Thrown("Invalid or expired access token") && requested == None
      ensures !Truthy(accessToken) && !isAuthenticated ==>
        r == Thrown("User is not authenticated with Pinterest") && requested == None
      ensures requested.Some? <==> (if Truthy(accessToken) then AuthService.VerifyToken(accessToken) else isAuthenticated)
      ensures requested.Some? ==> requested.value == PinsUrl(accessToken)
      ensures requested.Some? ==>
        r == if reply.NetworkError? || !reply.ok then Thrown("Failed to fetch pins") else Ok(PinsOf(reply))
    {
      if !isInitialized {
        var _ := Init(cookie);
      }
      if Truthy(accessToken) {
        if !VerifyAuthentication(accessToken, cookie, cookieName) {
          return Thrown("Invalid or expired access token"), None;
        }
      } else if !isAuthenticated {
        return Thrown("User is not authenticated with Pinterest"), None;
      }
      requested := Some(PinsUrl(accessToken));
      if reply.NetworkError? || !reply.ok {
        return Thrown("Failed to fetch pins"), requested;
      }
      r := Ok(PinsOf(reply));
    }
  }
}
