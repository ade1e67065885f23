/**
 * Client-side helpers of the authentication flow (lib/auth/authService.ts):
 * the token-length heuristic, reading a token from the query, removing it
 * again, and starting the provider login.
 */
module AuthService {
  import opened Wrappers
  import opened Js
  import opened Rows
  import opened Query
  import opened BrowserStorage

  /** `verifyToken(token)`: a token is accepted when it is present and longer
      than 20 characters; nothing is sent to the provider. */
  function VerifyToken(token: Option<string>): (r: bool)
  {
    if !Truthy(token) then false else |token.value| > 20
  }

  /** The heuristic's boundary: 20 characters are refused, 21 accepted, and
      absent or empty input is refused. */
  lemma VerifyTokenBoundary(token: Option<string>)
    ensures VerifyToken(token) <==> token.Some? && |token.value| >= 21
    ensures token.Some? && |token.value| == 20 ==> !VerifyToken(token)
    ensures !VerifyToken(None) && !VerifyToken(Some(""))
  {
  }

  /** `getTokenFromUrl(url)`: the `token` parameter if non-empty, else the
      `access_token` parameter. */
  function GetTokenFromUrl(params: Params): (r: Option<string>)
    ensures Truthy(Get(params, "token")) ==> r == Get(params, "token")
    ensures !Truthy(Get(params, "token")) ==> r == Get(params, "access_token")
  {
    Or(Get(params, "token"), Get(params, "access_token"))
  }

  /** The token is found whichever of the two names carries it, and nothing is
      found when neither name occurs. */
  lemma TokenFromEitherName(params: Params)
    ensures !Has(params, "token") && !Has(params, "access_token") ==> GetTokenFromUrl(params).None?
    ensures Truthy(GetTokenFromUrl(params)) <==> Truthy(Get(params, "token")) || Truthy(Get(params, "access_token"))
  {
  }

  predicate IsTokenParam(p: (string, string)) {
    p.0 == "token" || p.0 == "access_token"
  }

  function NotTokenParam(): ((string, string)) -> bool {
    (p: (string, string)) => !IsTokenParam(p)
  }

  /** The query `cleanupUrl` leaves behind: both names deleted if either occurs. */
  function Cleaned(params: Params): (r: Params)
    ensures !Has(r, "token") && !Has(r, "access_token")
  {
    if Has(params, "token") || Has(params, "access_token") then
      var once := Delete(params, "token");
      assert !Has(Delete(once, "access_token"), "token") by {
        var r := Delete(once, "access_token");
        forall k | 0 <= k < |r| ensures r[k].0 != "token" {
          assert multiset(r)[r[k]] > 0;
          assert multiset(once)[r[k]] > 0;
        }
      }
      Delete(once, "access_token")
    else
      params
  }

  /** Cleaning removes exactly the token parameters and keeps every other
      parameter in its original order. */
  lemma CleanedIsFilter(params: Params)
    ensures Cleaned(params) == Filter(params, NotTokenParam())
  {
    if Has(params, "token") || Has(params, "access_token") {
      FilterTwice(params, NamedOtherThan("token"), NamedOtherThan("access_token"), NotTokenParam());
    } else {
      FilterAll(params, NotTokenParam());
    }
  }

  /** Cleaning twice is cleaning once. */
  lemma CleanedIdempotent(params: Params)
    ensures Cleaned(Cleaned(params)) == Cleaned(params)
  {
  }

  /** Cleaning leaves the values of all other parameters as they were. */
  lemma CleanedKeepsOthers(params: Params, name: string)
    requires name != "token" && name != "access_token"
    ensures Get(Cleaned(params), name) == Get(params, name)
  {
    if Has(params, "token") || Has(params, "access_token") {
      DeleteKeepsOthers(params, "token", name);
      DeleteKeepsOthers(Delete(params, "token"), "access_token", name);
    }
  }

  /** The page's address, as far as these helpers read and change it. */
  class Page {
    var params: Params
    var redirect: Option<string>  // where the page was sent, if anywhere

    constructor (params: Params)
      ensures this.params == params && redirect == None
    {
      this.params := params;
      redirect := None;
    }

    /** `cleanupUrl()`: replaces the address, without the token parameters. */
    method CleanupUrl()
      modifies this
      ensures params == Cleaned(old(params))
      ensures redirect == old(redirect)
    {
      if Has(params, "token") || Has(params, "access_token") {
        params := Delete(params, "token");
        params := Delete(params, "access_token");
      }
    }
  }

  /** The path that starts the provider login and comes back to `returnUrl`.
      Whatever the address holds, nothing after the `returnTo=` prefix can
      start another parameter, another value or a fragment. */
  function LoginPath(returnUrl: string): (r: string)
    ensures |r| >= 25 && r[..25] == "/api/auth/login?returnTo="
    ensures forall k :: 25 <= k < |r| ==> r[k] != '?' && r[k] != '&' && r[k] != '=' && r[k] != '#'
  {
    EncodedIsQuerySafe(returnUrl);
    var enc := EncodeUriComponent(returnUrl);
    var r := "/api/auth/login" + "?" + "returnTo=" + enc;
    assert forall k :: 25 <= k < |r| ==> r[k] == enc[k - 25];
    r
  }

  /** The login path has one query parameter, `returnTo`, whatever the
      address it carries. */
  lemma LoginPathHasOneParameter(returnUrl: string)
    ensures Split(LoginPath(returnUrl), "?") == ["/api/auth/login", "returnTo=" + EncodeUriComponent(returnUrl)]
    ensures Split(Split(LoginPath(returnUrl), "?")[1], "&") == ["returnTo=" + EncodeUriComponent(returnUrl)]
  {
    var query := "returnTo=" + EncodeUriComponent(returnUrl);
    ReturnToHasNoSeparators(returnUrl);
    assert '?' !in "/api/auth/login";
    assert "?" == ['?'];
    assert LoginPath(returnUrl) == "/api/auth/login" + ['?'] + query;
    SplitOnce("/api/auth/login", '?', query);
    NoSeparatorNoSplit(query, '&');
    assert "&" == ['&'];
  }

  lemma ReturnToHasNoSeparators(returnUrl: string)
    ensures '?' !in "returnTo=" + EncodeUriComponent(returnUrl)
    ensures '&' !in "returnTo=" + EncodeUriComponent(returnUrl)
  {
    var enc := EncodeUriComponent(returnUrl);
    var query := "returnTo=" + enc;
    EncodedIsQuerySafe(returnUrl);
    forall k | 0 <= k < |query| ensures query[k] != '?' && query[k] != '&' {
      if k >= 9 {
        assert query[k] == enc[k - 9];
      }
    }
  }

  /** `getStoredToken()`: the stored token, or null when there is none or
      reading storage throws. */
  function StoredToken(storage: LocalStorage, fault: Fault): (r: Option<string>)
    reads storage
    ensures fault.Throws(1) ==> r.None?
    ensures !fault.Throws(1) ==> (r.Some? <==> TokenKey in storage.items)
    ensures r.Some? ==> r.value == storage.items[TokenKey]
  {
    if fault.Throws(1) then None else storage.GetItem(TokenKey)
  }

  /** `getStoredEmail()`: the stored address, or null when there is none or
      reading storage throws. */
  function StoredEmail(storage: LocalStorage, fault: Fault): (r: Option<string>)
    reads storage
    ensures fault.Throws(1) ==> r.None?
    ensures !fault.Throws(1) ==> (r.Some? <==> EmailKey in storage.items)
    ensures r.Some? ==> r.value == storage.items[EmailKey]
  {
    if fault.Throws(1) then None else storage.GetItem(EmailKey)
  }

  /** `initiatePinterestLogin(email)`: stores the address, then sends the page
      to the login path for its current address; if storage throws, neither
      happens. */
  method InitiatePinterestLogin(email: string, currentHref: string, storage: LocalStorage, page: Page, fault: Fault)
    modifies storage, page
    ensures page.params == old(page.params)
    ensures fault.Throws(1) ==> storage.items == old(storage.items) && page.redirect == old(page.redirect)
    ensures !fault.Throws(1) ==>
      && storage.items == old(storage.items)[EmailKey := email]
      && StoredEmail(storage, Never) == Some(email)
      && page.redirect == Some(LoginPath(currentHref))
  {
    if fault.Throws(1) {
      return;
    }
    storage.SetItem(EmailKey, email);
    page.redirect := Some(LoginPath(currentHref));
  }
}
