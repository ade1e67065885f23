# framer-interest, modelled in Dafny

framer-interest is a Next.js application. It signs a user in to Pinterest
through OAuth, lists the user's pins, and keeps "moodboards" (named
collections of pins, one set per e-mail address) in a Supabase database. The
project also ships two browser scripts for external sites: the
`PinterestSDK` class and the `PinterestIntegration` script.

The project models the logic under that glue:

- **The moodboard store** (`Supabase`). The `moodboards` and
  `moodboard_pins` tables are sequences of rows in a `Database` class. Its
  methods are the queries and writes of `lib/supabase.ts`. Every call may
  fail, decided by a `fails` input, and timestamps are a given `now`.
  `createDefaultMoodboards` is the insert loop over `moodboard-1` to
  `moodboard-5`, proved against `SeededBoards`/`Survivors`.
- **The get-or-seed step** shared by two routes (`FindOrSeed`). It looks the
  board up, seeds the defaults for a default name, and looks again. It is
  stated once as a function (`Step`) and once as a method on the database
  (`LookupOrSeed`).
- **The HTTP routes.** The pin lookup routes (`MoodboardPinsByNameRoute`,
  `MoodboardsByNameRoute`, `MoodboardsRoute`) and the OAuth routes
  (`LoginRoute`, `VerifyRoute`) are modelled with their guards, status codes,
  bodies and headers. `GetPinsRoute` is the bearer-token aggregation route.
- **Client authentication state.** This covers the Redux slice
  (`AuthSlice.AuthState`) and the React provider (`AuthContext.AuthProvider`).
  Both are classes that mirror `token`/`userEmail`/`isAuthenticated` into a
  `LocalStorage` object (`BrowserStorage`). A `Fault` input says which
  storage access throws. Both classes keep `isAuthenticated <==> token != null`.
- **The helpers of `lib/auth/authService.ts`** (`AuthService`) and the two
  browser clients (`PinterestSdk`, `PinterestIntegration`), including their
  two different cookie readers.
- **The pin picker's selection logic** (`PinSelector`).

The ECMAScript operations the code relies on are defined, not left abstract,
in `Js`:

- truthiness and `||` on possibly-null strings;
- `startsWith`;
- `indexOf` and `split` with a string separator, and `join`;
- `trim`, with the WhiteSpace and LineTerminator set;
- `encodeURIComponent`, with UTF-8 percent-escapes;
- `JSON.stringify` of a string.

This lets URL and cookie properties be proved rather than assumed. For
example:

- The authorization request of the login route splits at `&` into exactly
  its five parameters (`client_id`, `redirect_uri`, `response_type`, `scope`
  and `state`, as in section 4.1.1 of RFC 6749).
- The SDK's cookie reader answers only for a name that occurs exactly once
  after a `"; "` separator (section 4.2.1 of RFC 6265). The integration's
  reader answers with the first match.

The row operations the database performs (`.eq` as `Filter`, and `.order(…,
{ ascending: false })` as a stable descending insertion sort) are in `Rows`.
`URLSearchParams` as a sequence of pairs is in `Query`.

Two observations follow from the model as written:

- `GetPinsRoute.Get` answers 401 to any request without an
  `Authorization: Bearer …` header.
- The three clients of that route send no such header:
  - `PinSelector.PinsUrl` and `PinterestSdk.Sdk.PinsUrl` put the token in
    the query;
  - `PinterestIntegration.Integration.FetchPins` relies on cookies.

The model states each side as its source file defines it.

## Model

| member | source | states |
|---|---|---|
| Rows.Filter | lib/supabase.ts:34 | the kept rows all satisfy the condition and come from the table, never more rows than the table has |
| Rows.SortDesc | lib/supabase.ts:35 | the result is ordered by key, newest first, and is a permutation of its input |
| Supabase.MoodboardsByEmail | lib/supabase.ts:30-39 | exactly the rows owned by the address, each as often as in the table, newest `created_at` first |
| Supabase.OwnsNothing | lib/supabase.ts:154-161 | the listing is empty exactly when no row belongs to the address |
| Supabase.MoodboardByNameAndEmail | lib/supabase.ts:52-68 | a board comes back exactly when one row matches both name and address, and it is that row; no matching row gives null, not an error |
| Supabase.PinsOfMoodboard | lib/supabase.ts:104-113 | exactly the pins of that board, each as often as in the table, newest first |
| Supabase.DefaultBoardNames | app/api/moodboard-pins-by-name/route.ts:51 | `/^moodboard-[1-5]$/` accepts exactly the names `moodboard-1` … `moodboard-5` |
| Supabase.DefaultNameInjective | lib/supabase.ts:170 | different attempts insert different names |
| Supabase.Survivors | lib/supabase.ts:166-181 | the attempts whose insert did not throw, ascending, at most n of them, each in 1..n |
| Supabase.SurvivorsComplete | lib/supabase.ts:168-180 | every attempt whose insert does not throw is kept: a failure skips only its own board |
| Supabase.AllSurvive | lib/supabase.ts:166-177 | with no failing insert all five attempts are kept, in order 1..5 |
| Supabase.SeededSnoc | lib/supabase.ts:169-177 | one more surviving attempt appends exactly its default board, with the next id |
| Supabase.SeededLookup | lib/supabase.ts:166-184 | after seeding an address that owned nothing, `moodboard-k` is found exactly when attempt k succeeded, with description `Default moodboard k` and the given time |
| Supabase.Database.constructor | lib/supabase.ts:10-27 | an empty pair of tables whose id invariant holds |
| Supabase.Database.GetMoodboardsByEmail | lib/supabase.ts:30-39 | throws on a failed read, else answers `MoodboardsByEmail` of the table |
| Supabase.Database.GetMoodboardByNameAndEmail | lib/supabase.ts:52-68 | throws on a failed read, else answers `MoodboardByNameAndEmail` of the table |
| Supabase.Database.GetMoodboardPins | lib/supabase.ts:104-113 | throws on a failed read, else answers `PinsOfMoodboard` of the table |
| Supabase.Database.CreateMoodboard | lib/supabase.ts:70-79 | a failed insert changes nothing; otherwise exactly the new row, with a fresh id and the given fields, is appended and returned |
| Supabase.Database.AddPinToMoodboard | lib/supabase.ts:115-124 | a failed insert changes nothing; otherwise exactly the new pin row is appended and returned |
| Supabase.Database.RemovePinFromMoodboard | lib/supabase.ts:126-134 | every row with that id is gone, every other row stays in order, the board table is untouched |
| Supabase.Database.UpdatePinPosition | lib/supabase.ts:136-146 | only the two position fields of the row with that id change; a non-failing update of an existing id returns Ok with that row's updated value, which is now in the table; no such row, or a failure, throws and changes nothing |
| Supabase.Database.CreateDefaultMoodboards | lib/supabase.ts:149-189 | an address that owns boards gets them back and nothing is written; otherwise the surviving default boards are appended and returned; a failed listing throws |
| Supabase.Database.InsertDefaults | lib/supabase.ts:163-184 | five attempts in order; the table grows by exactly the boards returned, which are `SeededBoards` of the survivors |
| FindOrSeed.Step | app/api/moodboard-pins-by-name/route.ts:47-65 | a failed first lookup throws; the table only grows; a board found is in the table with the requested name and address |
| FindOrSeed.OnlyDefaultNamesSeed | app/api/moodboard-pins-by-name/route.ts:51 | rows are added only for a default name that the address owns no board for |
| FindOrSeed.ExistingBoardReturned | app/api/moodboard-pins-by-name/route.ts:47-51 | an existing board is returned and nothing is written |
| FindOrSeed.OwnerWithoutThatBoard | app/api/moodboard-pins-by-name/route.ts:51-65 | an address with some boards but not the requested one gets null and no writes |
| FindOrSeed.NewAddressFindsDefault | app/api/moodboard-pins-by-name/route.ts:51-61 | a new address asking for `moodboard-k` gets the seeded board exactly when its insert survived |
| FindOrSeed.NewAddressNoFailures | app/api/moodboard-pins-by-name/route.ts:51-61 | with no failures a new address asking for a default name finds it |
| FindOrSeed.LookupOrSeed | app/api/moodboards/by-name/route.ts:28-46 | the database ends as `Step` says and returns its answer; pins are untouched |
| MoodboardPinsByNameRoute.Answer | app/api/moodboard-pins-by-name/route.ts:67-101 | 200 with the board and its own pins, 404 when none was found, 500 for a thrown lookup or pin read, always the CORS headers |
| MoodboardPinsByNameRoute.Get | app/api/moodboard-pins-by-name/route.ts:11-103 | OPTIONS gives 200; a missing email gives 400 before a missing name; guarded requests touch nothing; otherwise the get-or-seed step and `Answer` |
| MoodboardPinsByNameRoute.Options | app/api/moodboard-pins-by-name/route.ts:105-110 | 200 with `{}` and the CORS headers |
| MoodboardPinsByNameRoute.FoundBoardWithItsPins | app/api/moodboard-pins-by-name/route.ts:75-87 | a found board comes back with exactly its pins, newest first |
| MoodboardPinsByNameRoute.NewAddressGetsDefaultBoard | app/api/moodboard-pins-by-name/route.ts:51-87 | a new address asking for `moodboard-k` with no failures gets 200 and that board |
| MoodboardPinsByNameRoute.ServerErrorSources | app/api/moodboard-pins-by-name/route.ts:54-73 | failures while seeding or looking again give 404, never 500; 500 comes only from the first lookup or the pin read |
| MoodboardsByNameRoute.Answer | app/api/moodboards/by-name/route.ts:48-62 | 500 for a thrown lookup, 404 for none, 200 with exactly the board |
| MoodboardsByNameRoute.Get | app/api/moodboards/by-name/route.ts:5-63 | a missing name or email gives 400 with no lookup or write; otherwise the get-or-seed step and `Answer`; the access token plays no part |
| MoodboardsByNameRoute.FoundIsRequested | app/api/moodboards/by-name/route.ts:55 | a 200 carries a board of the requested name and address that is in the table |
| MoodboardsRoute.Get | app/api/moodboards/route.ts:5-36 | 400 without an email, 500 on a failed read, else 200 with exactly that address's listing |
| MoodboardsRoute.ListingIsOwnBoards | app/api/moodboards/route.ts:26-28 | the listing holds only boards of that address, newest first |
| MoodboardsRoute.Post | app/api/moodboards/route.ts:39-76 | an unreadable body or a failed insert gives 500; a falsy name or user email gives 400 and writes nothing; else 201 with the new row carrying the body's fields |
| AuthSlice.AuthState.constructor | lib/redux/authSlice.ts:9-28 | null, null, false, except that in the browser a non-empty stored token sets the token and the flag, and a non-empty stored address the address; the invariant holds |
| AuthSlice.AuthState.SetCredentials | lib/redux/authSlice.ts:34-48 | from any state: token, address and flag are set, and in the browser both keys are written, so state and storage agree again |
| AuthSlice.AuthState.SetToken | lib/redux/authSlice.ts:49-57 | from any state: the token and flag are set, the address is unchanged, only the token key is written; state and storage that agreed still agree |
| AuthSlice.AuthState.SetUserEmail | lib/redux/authSlice.ts:58-65 | from any state: only the address and its key change; state and storage that agreed still agree |
| AuthSlice.AuthState.Logout | lib/redux/authSlice.ts:66-76 | from any state: everything is cleared and both keys are removed, so state and storage agree |
| AuthSlice.LogoutThenReload | lib/redux/authSlice.ts:16-28 | after a logout in the browser a reload starts signed out |
| AuthContext.AuthProvider.constructor | lib/auth/AuthContext.tsx:29-33 | the first render holds nothing and is not initialised |
| AuthContext.AuthProvider.Mount | lib/auth/AuthContext.tsx:36-54 | non-empty stored values are loaded unless a read throws; the provider is initialised either way; the invariant holds |
| AuthContext.AuthProvider.Login | lib/auth/AuthContext.tsx:57-72 | the state is always set; the keys are written up to the access that throws |
| AuthContext.AuthProvider.Logout | lib/auth/AuthContext.tsx:75-90 | the state is always cleared; the keys are removed up to the access that throws |
| AuthContext.AuthProvider.SetToken | lib/auth/AuthContext.tsx:93-106 | the token and flag are set, the address is unchanged, only the token key may be written |
| AuthContext.AuthProvider.SetUserEmail | lib/auth/AuthContext.tsx:109-121 | only the address changes, and only its key may be written |
| AuthContext.AuthProvider.Render | lib/auth/AuthContext.tsx:124-142 | the children are rendered exactly when the provider is initialised |
| AuthContext.MountThenRender | lib/auth/AuthContext.tsx:123-126 | a mounted provider always renders, even when storage throws |
| AuthService.VerifyTokenBoundary | lib/auth/authService.ts:6-22 | a token passes exactly when it has at least 21 characters; 20 fails; null and empty fail |
| AuthService.GetTokenFromUrl | lib/auth/authService.ts:25-33 | a non-empty `token` wins; otherwise `access_token` |
| AuthService.TokenFromEitherName | lib/auth/authService.ts:25-33 | null when neither name occurs; a usable token exactly when either name carries one |
| AuthService.Cleaned | lib/auth/authService.ts:76-93 | neither token name is left in the query |
| AuthService.CleanedIsFilter | lib/auth/authService.ts:81-85 | the cleaned query is the original minus the token pairs, others in their order |
| AuthService.CleanedIdempotent | lib/auth/authService.ts:80-89 | cleaning twice equals cleaning once |
| AuthService.CleanedKeepsOthers | lib/auth/authService.ts:81-85 | every other parameter reads the same before and after |
| AuthService.Page.CleanupUrl | lib/auth/authService.ts:76-93 | the page's query becomes `Cleaned` of the old one and nothing else changes |
| AuthService.LoginPath | lib/auth/authService.ts:69 | the path starts with `/api/auth/login?returnTo=`, and nothing after that prefix is a `?`, `&`, `=` or `#`, so the return address cannot add a parameter or a fragment |
| AuthService.LoginPathHasOneParameter | lib/auth/authService.ts:69 | the path has exactly one query part holding the one parameter `returnTo`, whatever the address |
| AuthService.StoredToken | lib/auth/authService.ts:36-49 | the stored token, or null when none is stored or the read throws |
| AuthService.StoredEmail | lib/auth/authService.ts:52-59 | the stored address, or null when none is stored or the read throws |
| AuthService.InitiatePinterestLogin | lib/auth/authService.ts:62-73 | the address is stored and reads back, then the page goes to the login path; if storage throws, neither happens |
| Query.Get | lib/auth/authService.ts:26 | null exactly when the name is absent; otherwise a value the name carries |
| Query.GetFirst | lib/auth/authService.ts:26 | the first pair with the name wins |
| Query.Delete | lib/auth/authService.ts:83-84 | no pair with the name remains; every other pair stays as often as before |
| Query.DeleteAbsent | lib/auth/authService.ts:81-85 | deleting an absent name changes nothing |
| Query.DeleteKeepsOthers | lib/auth/authService.ts:83-84 | deleting one name leaves the values of all other names unchanged |
| Pinterest.PinsOf | sdk/pinterest-sdk.js:156-157 | the reply's `pins`, or [] when the field is missing |
| PinterestSdk.GetCookie | sdk/pinterest-sdk.js:170-175 | an answer never contains `;` |
| PinterestSdk.GetCookieUnique | sdk/pinterest-sdk.js:170-175 | with exactly one `; name=`, the text after it up to the next `;` |
| PinterestSdk.GetCookieDuplicate | sdk/pinterest-sdk.js:172-174 | with two or more occurrences, null |
| PinterestSdk.GetCookieAbsent | sdk/pinterest-sdk.js:172-174 | with no occurrence, null |
| PinterestSdk.VerifyAuthentication | sdk/pinterest-sdk.js:91-117 | a given non-empty token is judged by the length rule; otherwise the cookie's token is |
| PinterestSdk.Sdk.constructor | sdk/pinterest-sdk.js:15-25 | given keys override the defaults, the others keep them, both flags start false |
| PinterestSdk.Sdk.Init | sdk/pinterest-sdk.js:31-41 | initialised, authenticated as the cookie check says, answers true |
| PinterestSdk.Sdk.IsUserAuthenticated | sdk/pinterest-sdk.js:56-58 | reads the flag |
| PinterestSdk.Sdk.Login | sdk/pinterest-sdk.js:47-50 | goes to the base URL plus the login path for the return address, the current page's address when none is given |
| PinterestSdk.Sdk.HandleCallback | sdk/pinterest-sdk.js:66-84 | authenticated exactly when the cookie holds a non-empty token; goes to the success or failure address, `/dashboard` and `/login?error=pinterest_auth_failed` by default |
| PinterestSdk.Sdk.PinsUrl | sdk/pinterest-sdk.js:142-145 | the encoded `access_token` parameter is added only for a non-empty token |
| PinterestSdk.Sdk.FetchPins | sdk/pinterest-sdk.js:124-162 | refuses before any request a token that fails the length rule or, without a token, an unauthenticated instance; a failed reply throws; otherwise the reply's pins or [] |
| PinterestIntegration.DefaultCard | public/pinterest-integration.js:20-33 | `Untitled` without a title, empty text without a description, no image without a `600x` URL, alt `Pinterest Pin`, a link only when there is one |
| PinterestIntegration.Merge | public/pinterest-integration.js:44-45 | each given key overrides its default; the others keep theirs |
| PinterestIntegration.MergeNothing | public/pinterest-integration.js:45 | no keys give exactly the defaults |
| PinterestIntegration.FirstCookieIsFirstMatch | public/pinterest-integration.js:189-198 | null exactly when no trimmed entry starts with `name=`; otherwise the rest of the first such entry |
| PinterestIntegration.Integration.constructor | public/pinterest-integration.js:44-48 | the merged configuration, both flags false |
| PinterestIntegration.Integration.GetCookie | public/pinterest-integration.js:189-198 | the loop answers `FirstCookie` of the `;`-separated entries |
| PinterestIntegration.Integration.Init | public/pinterest-integration.js:54-65 | initialised, authenticated as the verify endpoint answered, answers true |
| PinterestIntegration.Integration.Login | public/pinterest-integration.js:71-74 | goes to the base URL plus the login path for the return address, the current page's address when none is given |
| PinterestIntegration.FirstCookieDecides | public/pinterest-integration.js:189-198 | the token cookie counts as set exactly when the first matching entry has a non-empty value; later entries never decide |
| PinterestIntegration.Integration.HandleCallback | public/pinterest-integration.js:80-85 | authenticated, and answers so, exactly when the first entry starting with the token cookie's name has a non-empty value |
| PinterestIntegration.Integration.FetchPins | public/pinterest-integration.js:110-140 | never throws; unauthenticated or failed replies show an error and give []; otherwise the reply's pins or [] |
| PinterestIntegration.Integration.RenderPins | public/pinterest-integration.js:147-170 | nothing without a container, a notice for no pins, otherwise one card per pin in order from the template |
| PinterestIntegration.Integration.LoadAndRenderPins | public/pinterest-integration.js:177-181 | renders exactly the pins it fetched and answers them |
| PinSelector.Toggle | app/components/PinSelector.tsx:70-76 | the pin's id ends selected exactly when it was not; an unselected pin is appended at the end |
| PinSelector.ToggleKeepsIdsDistinct | app/components/PinSelector.tsx:70-76 | a selection without repeated ids stays so |
| PinSelector.ToggleLeavesOthers | app/components/PinSelector.tsx:70-76 | the entries with other ids stay, in the same order |
| PinSelector.ToggleTwice | app/components/PinSelector.tsx:70-76 | toggling an unselected pin twice restores the selection |
| PinSelector.AddSelectedPins | app/components/PinSelector.tsx:78-85 | nothing is handed over for an empty selection; otherwise exactly the selection |
| PinSelector.PinsUrl | app/components/PinSelector.tsx:42-47 | the prop token wins over the context token; the parameter is added only when one is non-empty |
| PinSelector.Loaded | app/components/PinSelector.tsx:53-61 | a failed reply gives the error message; otherwise the reply's pins, or [] |
| GetPinsRoute.BearerToken | app/api/getPins/route.ts:43 | the first space-separated field after `Bearer ` |
| GetPinsRoute.BearerTokenIsSecondField | app/api/getPins/route.ts:43 | `Bearer t` gives exactly `t` when `t` has no space |
| GetPinsRoute.FlattenAppend | app/api/getPins/route.ts:54 | flattening keeps board order across a split of the board list |
| GetPinsRoute.AllBoardPins | app/api/getPins/route.ts:50-51 | fails exactly when some board's fetch fails; otherwise every board's list in board order |
| GetPinsRoute.Requests | app/api/getPins/route.ts:9-31 | the board list comes first; every request carries the bearer token and a page size of 100 |
| GetPinsRoute.Get | app/api/getPins/route.ts:33-67 | 401 with no provider request without a bearer header; with one, the provider requests are exactly the board list then one per board, all with that bearer token; 200 exactly for the pin answer, whose count equals its length; otherwise 500 |
| GetPinsRoute.AllRequestsSucceed | app/api/getPins/route.ts:44-59 | when the board list and every board's pins arrive, the answer is 200 with every board's pins in board order and their count |
| GetPinsRoute.PinsInBoardOrder | app/api/getPins/route.ts:47-54 | one more board appends exactly that board's pins |
| GetPinsRoute.NoBoards | app/api/getPins/route.ts:54-59 | no boards give 200 with a count of 0 and no pins |
| GetPinsRoute.AnyFailureFailsAll | app/api/getPins/route.ts:45-66 | any failing fetch gives 500 with no partial pins |
| VerifyRoute.CorsHeaders | app/api/auth/verify/route.ts:6-16 | echoes the origin, empty when absent, and allows credentials |
| VerifyRoute.Options | app/api/auth/verify/route.ts:19-24 | 200 with the CORS headers and no body |
| VerifyRoute.TokenOf | app/api/auth/verify/route.ts:28-36 | a non-empty query token wins; otherwise a non-empty cookie token |
| VerifyRoute.Verify | app/api/auth/verify/route.ts:26-84 | without a token, 401 and no provider call; otherwise 200 exactly when the provider accepts, else 401; always the CORS headers |
| VerifyRoute.QueryBeforeCookie | app/api/auth/verify/route.ts:28-36 | a leading query token is used whatever the cookies say; the cookie counts when the query has none |
| VerifyRoute.NoTokenNoUpstream | app/api/auth/verify/route.ts:38-49 | without a token the answer is 401 whatever the provider would have said |
| LoginRoute.Login | app/api/auth/login/route.ts:3-41 | a missing client id or base URL gives 500 and no redirect; otherwise 302 to the authorize endpoint with the query built from the settings and `returnTo` |
| LoginRoute.ReturnToDefault | app/api/auth/login/route.ts:22 | `returnTo` falls back to the base URL plus `/` |
| LoginRoute.AuthorizeQueryParameters | app/api/auth/login/route.ts:30-32 | the query splits into exactly `client_id`, `redirect_uri` (encoded), `response_type=code`, `scope` and `state` (encoded JSON) |

## Left out

- Supabase: `getMoodboardById`, `updateMoodboard` and `deleteMoodboard` are not part of this model, and nor is the Supabase client (lib/supabase.ts:1-7); the tables are in memory.
- Supabase.MoodboardsByEmail: among boards with equal `created_at`, the database promises no order; the model keeps table order.
- Supabase: each call uses one given timestamp `now`, where the source calls `new Date().toISOString()` per row; timestamps are naturals, not ISO strings.
- FindOrSeed: two first requests of one address may both seed; concurrency is not modelled.
- Console logging everywhere is left out. So are the `details` message texts of thrown database errors, which become one fixed string.
- app/api/auth/callback/route.ts (the token exchange with the provider) is not part of this model.
- VerifyRoute.Verify: the provider's account check is an input (`accepted`). The `Cookie` header is given already parsed as a map, because the `cookie` package's parser is not modelled.
- GetPinsRoute.Get: the provider's board and pin answers are inputs. Pins are records, not the provider's full JSON.
- PinterestSdk.Sdk.FetchPins: the thrown message on a failed reply omits the status code and status text the source appends.
- PinterestIntegration.Integration.Init: the verify endpoint's answer is an input. The error display of `_showError` and `_showLoading` is reduced to a `showsError` flag.
- PinterestIntegration.Integration.RenderPins: the DOM is not modelled. Which selectors match is an input, and cards are values, not HTML.
- PinterestIntegration.DefaultCard: the HTML text of the template is not produced, only what it shows.
- Navigation (`window.location.href`, `history.replaceState`) is recorded as a `redirect` or a new query, not performed. URL serialisation by `new URL`, and its throwing on a malformed address, are not modelled.
- AuthSlice: the slice's storage accesses are taken never to throw, because the source does not catch them.
- AuthContext: the default context value used outside a provider is not modelled.
- PinSelector: React state, effects, `alert` and the rendered markup are left out. The component's logic is modelled as functions.
- Js: string lengths count code points, whereas JavaScript counts UTF-16 units. Strings outside the Basic Multilingual Plane differ, including in the 20-character token rule.
- JSON bodies whose fields are not strings (a `name` that is a number, say) are not modelled. The route models take strings or null.
- The React pages and components other than the picker, the example files and the live database script are not part of this model.
