/**
 * `PinterestIntegration` (public/pinterest-integration.js): a script for
 * external sites that signs in through the application, fetches the pins and
 * renders them. The page is not modelled: rendering gives the cards a
 * container would receive (`PinCard`), and which selectors match an element
 * is an input. The answer of the application's verify endpoint is an
 * input (`verified`, false when the request fails).
 */
module PinterestIntegration {
  import opened Wrappers
  import opened Js
  import opened Pinterest
  import AuthService

  /** What the default `pinTemplate` shows for one pin. */
  datatype Image = Picture(src: string, alt: string) | NoImage
  datatype PinCard = PinCard(image: Image, heading: string, text: string, visitLink: Option<string>)

  /** The default `pinTemplate`, as the content it lays out. */
  function DefaultCard(pin: Pin): (card: PinCard)
    ensures card.heading == if Truthy(pin.title) then pin.title.value else "Untitled"
    ensures card.text == if Truthy(pin.description) then pin.description.value else ""
    ensures card.image.NoImage? <==> !Truthy(pin.image600)
    ensures card.image.Picture? ==>
      card.image.src == pin.image600.value && card.image.alt == (if Truthy(pin.title) then pin.title.value else "Pinterest Pin")
    ensures card.visitLink.Some? <==> Truthy(pin.link)
  {
    var titleOr := (fallback: string) => if Truthy(pin.title) then pin.title.value else fallback;
    PinCard(
      if Truthy(pin.image600) then Picture(pin.image600.value, titleOr("Pinterest Pin")) else NoImage,
      titleOr("Untitled"),
      if Truthy(pin.description) then pin.description.value else "",
      if Truthy(pin.link) then pin.link else None)
  }

  /** What `renderPins` leaves in the page. */
  datatype Rendered = NoContainer | NoPinsFound | Cards(cards: seq<PinCard>)

  /** `DEFAULT_CONFIG` */
  datatype Config = Config(
    apiBaseUrl: string,
    pinterestTokenCookieName: string,
    containerSelector: string,
    loadingSelector: string,
    errorSelector: string,
    pinTemplate: Pin -> PinCard)

  const Defaults := Config(
    "https://framer-interest.vercel.app", "pinterest_token",
    "#pinterest-pins", "#pinterest-loading", "#pinterest-error", DefaultCard)

  /** The keys a caller may pass; `None` is an absent key. */
  datatype Options = Options(
    apiBaseUrl: Option<string>,
    pinterestTokenCookieName: Option<string>,
    containerSelector: Option<string>,
    loadingSelector: Option<string>,
    errorSelector: Option<string>,
    pinTemplate: Option<Pin -> PinCard>)

  /** `{ ...DEFAULT_CONFIG, ...config }` */
  function Merge(options: Options): (c: Config)
    ensures c.apiBaseUrl == options.apiBaseUrl.GetOr(Defaults.apiBaseUrl)
    ensures c.pinterestTokenCookieName == options.pinterestTokenCookieName.GetOr(Defaults.pinterestTokenCookieName)
    ensures c.containerSelector == options.containerSelector.GetOr(Defaults.containerSelector)
    ensures c.loadingSelector == options.loadingSelector.GetOr(Defaults.loadingSelector)
    ensures c.errorSelector == options.errorSelector.GetOr(Defaults.errorSelector)
    ensures c.pinTemplate == options.pinTemplate.GetOr(Defaults.pinTemplate)
  {
    Config(
      options.apiBaseUrl.GetOr(Defaults.apiBaseUrl),
      options.pinterestTokenCookieName.GetOr(Defaults.pinterestTokenCookieName),
      options.containerSelector.GetOr(Defaults.containerSelector),
      options.loadingSelector.GetOr(Defaults.loadingSelector),
      options.errorSelector.GetOr(Defaults.errorSelector),
      options.pinTemplate.GetOr(Defaults.pinTemplate))
  }

  /** No options, no change. */
  lemma MergeNothing()
    ensures Merge(Options(None, None, None, None, None, None)) == Defaults
  {
  }

  /** The cookie entries, split on `;`, trimmed. `name=value` matches entry
      `e` when `e` starts with `name=`. */
  predicate EntryMatches(entry: string, name: string) {
    StartsWith(Trim(entry), name + "=")
  }

  /** Entry `i` is the first one that matches. */
  predicate FirstMatchAt(entries: seq<string>, name: string, i: int) {
    && 0 <= i < |entries|
    && EntryMatches(entries[i], name)
    && forall j :: 0 <= j < i ==> !EntryMatches(entries[j], name)
  }

  /** The value of the first matching entry: the rest of it after `name=`. */
  function FirstCookie(entries: seq<string>, name: string): (r: Option<string>)
    decreases |entries|
  {
    if entries == [] then None
    else if EntryMatches(entries[0], name) then Some(Trim(entries[0])[|name| + 1..])
    else FirstCookie(entries[1..], name)
  }

  /** `FirstCookie` answers exactly when some entry matches, and then with the
      value of the first one. */
  lemma {:induction false} FirstCookieIsFirstMatch(entries: seq<string>, name: string)
    ensures FirstCookie(entries, name).None? <==> forall i :: 0 <= i < |entries| ==> !EntryMatches(entries[i], name)
    ensures FirstCookie(entries, name).Some? ==>
      exists i :: FirstMatchAt(entries, name, i) && FirstCookie(entries, name).value == Trim(entries[i])[|name| + 1..]
    decreases |entries|
  {
    if entries != [] && !EntryMatches(entries[0], name) {
      var tail := entries[1..];
      FirstCookieIsFirstMatch(tail, name);
      if FirstCookie(tail, name).Some? {
        var i :| FirstMatchAt(tail, name, i) && FirstCookie(tail, name).value == Trim(tail[i])[|name| + 1..];
        assert FirstMatchAt(entries, name, i + 1) by {
          forall j | 0 <= j < i + 1 ensures !EntryMatches(entries[j], name) {
            if j > 0 {
              assert entries[j] == tail[j - 1];
            }
          }
        }
      } else {
        forall i | 0 <= i < |entries| ensures !EntryMatches(entries[i], name) {
          if i > 0 {
            assert entries[i] == tail[i - 1];
          }
        }
      }
    } else if entries != [] {
      assert FirstMatchAt(entries, name, 0);
    }
  }

  /** Only the first matching entry decides: the cookie counts as set exactly
      when that entry's value is non-empty, whatever later entries hold. */
  lemma FirstCookieDecides(entries: seq<string>, name: string)
    ensures Truthy(FirstCookie(entries, name)) <==>
      exists i :: FirstMatchAt(entries, name, i) && |Trim(entries[i])| > |name| + 1
  {
    FirstCookieIsFirstMatch(entries, name);
    if i :| FirstMatchAt(entries, name, i) && |Trim(entries[i])| > |name| + 1 {
      var k :| FirstMatchAt(entries, name, k) && FirstCookie(entries, name).value == Trim(entries[k])[|name| + 1..];
      assert k == i;
    }
  }

  class Integration {
    const config: Config
    var isInitialized: bool
    var isAuthenticated: bool
    var redirect: Option<string>

    /** `new PinterestIntegration(config)` */
    constructor (options: Options)
      ensures config == Merge(options)
      ensures !isInitialized && !isAuthenticated && redirect == None
    {
      config := Merge(options);
      isInitialized, isAuthenticated, redirect := false, false, None;
    }

    /** `renderPins(pins, containerSelector)`: one card per pin, in order,
        made by the configured template, in the container the override or the
        configured selector names; a notice when there are no pins; nothing
        when no element matches. */
    function RenderPins(pins: seq<Pin>, containerSelector: Option<string>, present: string -> bool): (r: Rendered)
      ensures r.NoContainer? <==> !present(Or(containerSelector, Some(config.containerSelector)).value)
      ensures r.NoPinsFound? <==> present(Or(containerSelector, Some(config.containerSelector)).value) && pins == []
      ensures r.Cards? ==> |r.cards| == |pins| && forall k :: 0 <= k < |pins| ==> r.cards[k] == config.pinTemplate(pins[k])
    {
      if !present(Or(containerSelector, Some(config.containerSelector)).value) then NoContainer
      else if pins == [] then NoPinsFound
      else Cards(seq(|pins|, k requires 0 <= k < |pins| => config.pinTemplate(pins[k])))
    }

    /** `_getCookie(name)`: the first entry that starts with `name=`, after
        trimming, gives the rest of that entry. */
    method GetCookie(cookie: string, name: string) returns (r: Option<string>)
      ensures r == FirstCookie(Split(cookie, ";"), name)
    {
      var cookies := Split(cookie, ";");
      var i := 0;
      while i < |cookies|
        invariant 0 <= i <= |cookies|
        invariant FirstCookie(cookies[i..], name) == FirstCookie(cookies, name)
      {
        var entry := Trim(cookies[i]);
        if StartsWith(entry, name + "=") {
          return Some(entry[|name| + 1..]);
        }
        assert cookies[i..][1..] == cookies[i + 1..];
        i := i + 1;
      }
      return None;
    }

    /** `init()`: records the verify endpoint's answer. */
    method Init(verified: bool) returns (ok: bool)
      modifies this
      ensures ok && isInitialized && isAuthenticated == verified
      ensures redirect == old(redirect)
    {
      isAuthenticated := verified;
      isInitialized := true;
      ok := true;
    }

    /** `login(returnUrl = window.location.href)`: an omitted address (`None`)
        is the current page, `currentHref`. */
    method Login(returnUrl: Option<string>, currentHref: string)
      modifies this
      ensures redirect == Some(config.apiBaseUrl + AuthService.LoginPath(returnUrl.GetOr(currentHref)))
      ensures isInitialized == old(isInitialized) && isAuthenticated == old(isAuthenticated)
    {
      redirect := Some(config.apiBaseUrl + AuthService.LoginPath(returnUrl.GetOr(currentHref)));
    }

    /** `handleCallback()`: authenticated exactly when the token cookie holds
        a non-empty value. */
    method HandleCallback(cookie: string) returns (authenticated: bool)
      modifies this
      ensures authenticated == isAuthenticated
      ensures isInitialized == old(isInitialized) && redirect == old(redirect)
      ensures authenticated == Truthy(FirstCookie(Split(cookie, ";"), config.pinterestTokenCookieName))
      ensures authenticated <==> exists i :: (
        && FirstMatchAt(Split(cookie, ";"), config.pinterestTokenCookieName, i)
        && |Trim(Split(cookie, ";")[i])| > |config.pinterestTokenCookieName| + 1)
    {
      var value := GetCookie(cookie, config.pinterestTokenCookieName);
      FirstCookieDecides(Split(cookie, ";"), config.pinterestTokenCookieName);
      isAuthenticated := Truthy(value);
      authenticated := isAuthenticated;
    }

    /** `fetchPins()`: never throws. Initialises if needed; without
        authentication, or on a failed or not-ok reply, it shows an error and
        answers []; otherwise the reply's pins, or []. */
    method FetchPins(verified: bool, reply: PinsReply) returns (pins: seq<Pin>, showsError: bool, requested: bool)
      modifies this
      ensures isInitialized
      ensures !old(isInitialized) ==> isAuthenticated == verified
      ensures old(isInitialized) ==> isAuthenticated == old(isAuthenticated)
      ensures redirect == old(redirect)
      ensures requested <==> isAuthenticated
      ensures !requested ==> pins == [] && showsError
      ensures requested ==> showsError == (reply.NetworkError? || !reply.ok)
      ensures requested && !showsError ==> pins == PinsOf(reply)
      ensures showsError ==> pins == []
    {
      if !isInitialized {
        var _ := Init(verified);
      }
      if !isAuthenticated {
        return [], true, false;
      }
      if reply.NetworkError? || !reply.ok {
        return [], true, true;
      }
      return PinsOf(reply), false, true;
    }

    /** `loadAndRenderPins(containerSelector)`: fetches, then renders what
        was fetched, and answers the pins. */
    method LoadAndRenderPins(verified: bool, reply: PinsReply, containerSelector: Option<string>, present: string -> bool)
      returns (pins: seq<Pin>, rendered: Rendered)
      modifies this
      ensures isInitialized && redirect == old(redirect)
      ensures rendered == RenderPins(pins, containerSelector, present)
      ensures isAuthenticated && reply.Reply? && reply.ok ==> pins == PinsOf(reply)
      ensures !isAuthenticated || reply.NetworkError? || !reply.ok ==> pins == []
    {
      var showsError, requested;
      pins, showsError, requested := FetchPins(verified, reply);
      rendered := RenderPins(pins, containerSelector, present);
    }
  }
}
