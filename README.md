# sklep-z-grami front end: session handling and forms, in Dafny

A model of the React front end of the game shop sklep-z-grami, with proofs
about it. It covers the parts that carry logic:

- **The authenticated axios client** (`frontend/src/lib/api.ts`). A request
  interceptor attaches the stored access token as `Authorization: Bearer`,
  following section 2.1 of RFC 6750. A response-error interceptor answers a
  401 by refreshing the access token exactly once, queueing the other 401s
  that arrive meanwhile, and replaying every request with the new token. The
  module state (`isRefreshing`, `queued`) is a class `Api.Interceptor` whose
  methods are the synchronous stretches between two `await`s. Each shared
  request config, with its `_retry` bit and its headers, is an object of
  class `ApiWire.RequestConfig` that those methods update in place. The browser's event loop
  runs each such stretch without interruption. Each transport call is
  recorded on a log (`wire`). The protocol invariant `Api.Protocol`
  says three things about it:
  - at most one refresh call is outstanding at any time;
  - `isRefreshing` is true exactly while a refresh call is outstanding;
  - no request config is replayed twice.
- **The session helpers** (`frontend/src/lib/auth.ts`): `isAuthenticated`
  and `logout` over a `map<string, string>` standing for `localStorage`.
- **The registration and sign-in forms** (`frontend/src/pages/Register.tsx`,
  `frontend/src/pages/Login.tsx`):
  - the e-mail regular expression, proved equal to a direct reading of the
    pattern;
  - the client-side checks and the submit buttons' enabling conditions;
  - `handleSubmit`: its validation gate, the server-error mapping loop, what
    it stores, and the message it shows.
- **The catalogue filter** (`frontend/src/pages/GamesCatalog.tsx`): a
  case-insensitive title search combined with a genre filter.
- **The sidebar** (`frontend/src/components/SideBar.tsx`): the auth/guest
  guard filter, the nickname badge, the collapse toggle and the sidebar's
  logout.

The modules are `Wrappers` (`Option`), `JsString` (JavaScript's `\s`, `trim`,
ASCII case mapping and `includes`), `Seqs` (`Array.prototype.filter`),
`BrowserState` (storage, location, router and the authentication context
flag), `Auth`, `ApiWire` (the wire log and its single-flight and
replayed-once properties), `Api`, `EmailRule`, `Register`, `Login`,
`Catalog`, `SideBar` and `Scenario`. `Scenario` holds end-to-end runs of the
interceptor.

Three things about what the interceptor's code does:

- It does not raise error kinds of its own. A rejection carries the
  intercepted error, or the refresh call's error when the refresh fails
  (api.ts:87-89). `Api.Outcome` records which of the two it is.
- A second 401 on a replayed request is rejected without logging out
  (api.ts:49-51).
- When the refresh call fails, the code logs out and rejects only the
  request that started the refresh. The queued callbacks are neither run nor
  removed, so their callers' promises never settle (api.ts:87-92). The
  `finally` block resets only `isRefreshing`, not the queue.
  `Api.Interceptor.RefreshFailed` and `Scenario.ConcurrentExpiryFails` state
  this.

## Model

| member | source | states |
|---|---|---|
| BrowserState.GetItem | frontend/src/lib/api.ts:54 | `getItem` is `null` exactly for a missing key, and otherwise the stored value |
| BrowserState.RemoveItems | frontend/src/lib/api.ts:19-21 | a run of `removeItem` calls leaves exactly the other keys, with their values |
| BrowserState.AuthFlag.constructor | frontend/src/contexts/AuthContext.tsx:12 | the context starts authenticated exactly when the stored access token is truthy |
| Auth.IsAuthenticated | frontend/src/lib/auth.ts:7-9 | true iff `access_token` is present and non-empty (`!!""` is false) |
| Auth.LoggedOut | frontend/src/lib/auth.ts:2-3 | both tokens are gone; every other key, the nickname included, keeps its value |
| Auth.Logout | frontend/src/lib/auth.ts:1-5 | the store becomes `LoggedOut` of the old store, the location becomes `/login`, and the router is untouched |
| Auth.LogoutDeauthenticates | frontend/src/lib/auth.ts:2-8 | after `logout`, `isAuthenticated()` is false |
| Auth.LogoutKeepsNickname | frontend/src/lib/auth.ts:1-5 | `logout` keeps `nickname`, unlike `hardLogout` |
| Auth.LogoutIdempotent | frontend/src/lib/auth.ts:2-3 | logging out twice leaves the same store as once |
| ApiWire.SingleFlightAppend | frontend/src/lib/api.ts:74-79 | appending an event that keeps 0 or 1 refresh calls outstanding keeps the log single-flight |
| ApiWire.SingleFlightAppendSends | frontend/src/lib/api.ts:38-41 | replays handed to the transport neither start nor settle a refresh |
| ApiWire.InFlightWithoutSettlement | frontend/src/lib/api.ts:74-92 | without a settlement in between, the number of outstanding refresh calls does not drop |
| ApiWire.AtMostOneRefreshInFlight | frontend/src/lib/api.ts:60-79 | on a single-flight log, between any two refresh calls the earlier one has settled |
| ApiWire.ReplayedAppendOther | frontend/src/lib/api.ts:74-79 | events other than replays leave the set of replayed configs unchanged |
| ApiWire.ReplayedAppendReplays | frontend/src/lib/api.ts:38-41 | replaying distinct, never-replayed configs keeps every config replayed at most once, and adds exactly them |
| Api.WithBearer | frontend/src/lib/api.ts:26-32 | with a truthy stored token the header becomes `Bearer <token>`; otherwise the headers are unchanged; other headers are never touched |
| Api.ReplayKeepsBearer | frontend/src/lib/api.ts:26-32 | a replay's new header passes through the request interceptor unchanged once the new token is stored |
| Api.Decide | frontend/src/lib/api.ts:49-79 | pass through iff there is no 401 or `_retry` is set; hard logout iff a first 401 finds no truthy refresh token; otherwise queue while refreshing, else start the refresh |
| Api.ProtocolInitially | frontend/src/lib/api.ts:35-36 | the initial state satisfies the protocol invariant |
| Api.ProtocolRequest | frontend/src/lib/api.ts:26-32 | a first request keeps the invariant and replays nothing |
| Api.ProtocolEnqueue | frontend/src/lib/api.ts:60-72 | queueing a not-yet-tracked config while refreshing keeps the invariant |
| Api.ProtocolStartRefresh | frontend/src/lib/api.ts:74-79 | posting the one refresh call from the idle state keeps the invariant |
| Api.ProtocolRefreshSucceeded | frontend/src/lib/api.ts:76-92 | settling with success and replaying the waiters, then the original, returns to the idle invariant; each of those configs is replayed exactly once |
| Api.ProtocolRefreshFailed | frontend/src/lib/api.ts:87-92 | settling with failure returns to idle with the queue kept as it was |
| Api.Interceptor.constructor | frontend/src/lib/api.ts:35-36 | nothing refreshing, nothing queued, nothing sent; the invariant holds |
| Api.Interceptor.Dispatch | frontend/src/lib/api.ts:26-32 | `api(cfg)` writes the headers `WithBearer` gives and hands the config to the transport with that header |
| Api.Interceptor.Request | frontend/src/lib/api.ts:26-32 | a caller's request keeps the protocol invariant |
| Api.Interceptor.HardLogout | frontend/src/lib/api.ts:18-23 | removes `access_token`, `refresh_token` and `nickname` and sets the location to `/logged-out` |
| Api.Interceptor.OnResponseError | frontend/src/lib/api.ts:45-79 | per `Decide`: pass-through rejects with nothing changed; otherwise `_retry` is set first; no refresh token means hard logout, reject, queue and flag untouched; while refreshing, exactly one entry is appended and nothing is posted; otherwise the flag is set and exactly one refresh call is posted; the invariant is kept |
| Api.Interceptor.FlushQueue | frontend/src/lib/api.ts:38-41 | every queued config gets `Bearer <token>` and is replayed once, in enqueue order; the queue is then empty |
| Api.Interceptor.ReplayOriginal | frontend/src/lib/api.ts:84-92 | the original gets `Bearer <access>` and is replayed, then the flag is cleared |
| Api.Interceptor.RefreshSucceeded | frontend/src/lib/api.ts:81-92 | stores `access`, replays the waiters in order and then the original, all with `Bearer <access>`; the queue is emptied and the flag cleared; the invariant is kept |
| Api.Interceptor.RefreshFailed | frontend/src/lib/api.ts:87-92 | hard logout once, the original rejected with the refresh error, the queue left as it was, the flag cleared; the invariant is kept |
| Scenario.Wait | frontend/src/lib/api.ts:60-72 | a 401 while refreshing only appends to the queue |
| Scenario.Begin | frontend/src/lib/api.ts:74-79 | the first 401 of a fresh client posts the refresh call |
| Scenario.Arrive | frontend/src/lib/api.ts:60-72 | a fresh request answered 401 while refreshing is appended to the queue |
| Scenario.WaitThree | frontend/src/lib/api.ts:60-72 | three such requests queue in arrival order |
| Scenario.ExpireFour | frontend/src/lib/api.ts:45-79 | four 401s give one refresh call and three waiters in arrival order |
| Scenario.ConcurrentExpiry | frontend/src/lib/api.ts:38-92 | the log is exactly one refresh call, its success, then the three waiters in arrival order and then the original, each replayed with `Bearer <token>`; it is single-flight and replayed-once |
| Scenario.ConcurrentExpiryFails | frontend/src/lib/api.ts:87-92 | a failed refresh clears the session once and leaves all three waiters queued |
| Scenario.RejectedWithoutRefresh | frontend/src/lib/api.ts:49-57 | a 401 with no refresh token stored removes the session keys, sends the location to `/logged-out` and rejects with the request's own error |
| Scenario.WrongPasswordSignedOut | frontend/src/pages/Login.tsx:29-42 | a signed-out visitor's rejected `token/` call passes through `hardLogout` before the page's `catch`: the keys are removed and the location is `/logged-out`, while the page sets the bad-credentials message |
| JsString.TrimStart | frontend/src/pages/Register.tsx:43 | drops exactly the leading white-space run |
| JsString.TrimEnd | frontend/src/pages/Register.tsx:43 | drops exactly the trailing white-space run |
| JsString.Trim | frontend/src/pages/Register.tsx:43-44 | the result sits in the string with only white space before and after it, and starts and ends with a non-white-space character |
| JsString.TrimEmptyIff | frontend/src/pages/Register.tsx:43-44 | `!s.trim()` holds iff `s` is all white space |
| JsString.LowerChar | frontend/src/pages/GamesCatalog.tsx:165 | an upper-case letter becomes its lower-case partner (code + 32); nothing else changes; the result is never upper-case |
| JsString.UpperChar | frontend/src/components/SideBar.tsx:77 | a lower-case letter becomes its upper-case partner (code - 32); nothing else changes; the result is never lower-case |
| JsString.ToLower | frontend/src/pages/GamesCatalog.tsx:165 | same length, lower-cased character by character |
| JsString.ToLowerIdempotent | frontend/src/pages/GamesCatalog.tsx:165 | lower-casing twice is lower-casing once |
| JsString.Includes | frontend/src/pages/GamesCatalog.tsx:165 | true iff the text occurs at some position |
| Seqs.Filter | frontend/src/components/SideBar.tsx:48 | `filter` never returns more elements than it is given; what it keeps is stated by the lemmas below |
| Seqs.FilterMembers | frontend/src/pages/GamesCatalog.tsx:164 | `filter` keeps exactly the accepted values (how many times each: `FilterMultiset`) |
| Seqs.FilterMultiset | frontend/src/components/SideBar.tsx:48 | every occurrence of an accepted value is kept, as many times as in the input, and no rejected value; with `FilterIsSubsequence` this fixes the result exactly |
| Seqs.FilterIsSubsequence | frontend/src/pages/GamesCatalog.tsx:164 | the result is an order-preserving subsequence |
| Seqs.FilterKeepsAll | frontend/src/pages/GamesCatalog.tsx:164 | a predicate accepting everything keeps the list |
| Seqs.FilterExtensional | frontend/src/pages/GamesCatalog.tsx:164 | predicates that agree on the elements filter alike |
| Seqs.FilterEmptyIff | frontend/src/pages/GamesCatalog.tsx:213 | the result is empty iff no element is accepted |
| EmailRule.ValidateEmail | frontend/src/pages/Register.tsx:34-35 | an accepted address has at least five characters and starts and ends with a `[^\s@]` character; `ValidateEmailIsPattern` states exactly which strings it accepts |
| EmailRule.FirstIndex | frontend/src/pages/Register.tsx:35 | the position of the first occurrence, with none before it |
| EmailRule.PlainPrefix | frontend/src/pages/Register.tsx:35 | a run of `[^\s@]` holds no `@` |
| EmailRule.AllPlainJoin | frontend/src/pages/Register.tsx:35 | plain runs joined by a plain character are plain |
| EmailRule.ValidateEmailSound | frontend/src/pages/Register.tsx:34-35 | every accepted address matches the regular expression |
| EmailRule.ValidateEmailAt | frontend/src/pages/Register.tsx:34-35 | a string split as the pattern splits it is accepted |
| EmailRule.ValidateEmailComplete | frontend/src/pages/Register.tsx:34-35 | every match of the regular expression is accepted |
| EmailRule.ValidateEmailIsPattern | frontend/src/pages/Login.tsx:19-20 | the test accepts exactly the matches of `^[^\s@]+@[^\s@]+\.[^\s@]+$`; one definition serves both pages |
| EmailRule.ValidEmailShape | frontend/src/pages/Register.tsx:34-35 | an accepted address has no white space and exactly one `@`, with a non-empty local part |
| Register.RunValidation | frontend/src/pages/Register.tsx:38-52 | each key is present iff its check fails (address pattern, nickname under 3, names blank after trim, empty date, password under 8, passwords differ, EULA not accepted), each with its message |
| Register.NameChecks | frontend/src/pages/Register.tsx:41-44 | the address and name checks, read as conditions |
| Register.OtherChecks | frontend/src/pages/Register.tsx:42-49 | the other checks and the messages |
| Register.FormValid | frontend/src/pages/Register.tsx:54 | true iff every check passes and the form is not loading |
| Register.SubmitGateIsFormValid | frontend/src/pages/Register.tsx:54-62 | the submit gate lets a form through exactly when the idle button is enabled |
| Register.Route | frontend/src/pages/Register.tsx:85-86 | `email` and `nickname` go to their own fields, every other key to `nonField` |
| Register.Absorb | frontend/src/pages/Register.tsx:83-87 | a non-empty array puts its first message on the key's field; every other field, and all fields for any other value, stay as they were |
| Register.ServerErrors | frontend/src/pages/Register.tsx:82-88 | only `email`, `nickname` and `nonField` ever receive a server message |
| Register.MapServerErrors | frontend/src/pages/Register.tsx:82-88 | the `forEach` loop builds the fold `ServerErrors` of the entries |
| Register.ServerErrorsKeys | frontend/src/pages/Register.tsx:83-88 | a field gets a message iff some non-empty array entry routes to it |
| Register.ServerErrorsLastWins | frontend/src/pages/Register.tsx:83-88 | the field holds the first message of the last such entry |
| Register.RegisterPage.constructor | frontend/src/pages/Register.tsx:31-32 | no errors, not loading |
| Register.RegisterPage.Submit | frontend/src/pages/Register.tsx:56-66 | with errors they are stored and nothing is sent; otherwise loading is set and the request is sent |
| Register.RegisterPage.Complete | frontend/src/pages/Register.tsx:76-95 | on success exactly the two tokens are stored and the router goes to `/`; on failure the mapped errors or the generic message replace the field errors; loading ends false |
| Register.SignUpKeepsNickname | frontend/src/pages/Register.tsx:76-78 | registration leaves the stored nickname as it was |
| Login.FormValid | frontend/src/pages/Login.tsx:22-23 | true iff the address matches the pattern, the password is non-empty, and not loading |
| Login.ShowEmailHint | frontend/src/pages/Login.tsx:90 | the hint shows iff the address is non-empty and does not match |
| Login.ErrorMessage | frontend/src/pages/Login.tsx:38-41 | status 401 gives the bad-credentials message; anything else, or no response, the generic one |
| Login.HintBlocksSubmit | frontend/src/pages/Login.tsx:90 | while the hint shows the form cannot be submitted |
| Login.LoginPage.constructor | frontend/src/pages/Login.tsx:16-17 | no error, not loading |
| Login.LoginPage.Submit | frontend/src/pages/Login.tsx:25-31 | an invalid form changes nothing and sends nothing; a valid one sets loading |
| Login.LoginPage.Complete | frontend/src/pages/Login.tsx:29-46 | on success the three keys are stored, the context is authenticated and the router goes to `/`; on failure only the message is set; loading ends false |
| Catalog.Matches | frontend/src/pages/GamesCatalog.tsx:164-168 | a game passes iff its lower-cased title contains the lower-cased search and the genre is `All` or equal |
| Catalog.FilteredGames | frontend/src/pages/GamesCatalog.tsx:163-169 | a game is listed iff it is in `gamesData`, its lower-cased title contains the lower-cased search, and the genre is `All` or equal |
| Catalog.FilteredIsSubsequence | frontend/src/pages/GamesCatalog.tsx:164 | the listing keeps catalogue order |
| Catalog.EmptySearchShowsAll | frontend/src/pages/GamesCatalog.tsx:165-166 | an empty search with `All` lists every game |
| Catalog.SearchIsCaseInsensitive | frontend/src/pages/GamesCatalog.tsx:165 | searching `s` and its lower-cased form list the same games |
| Catalog.NoGamesFound | frontend/src/pages/GamesCatalog.tsx:213-214 | "No games found." shows iff no game matches |
| SideBar.Shown | frontend/src/components/SideBar.tsx:48-54 | `auth` items iff signed in, `guest` items iff signed out, unguarded always |
| SideBar.Filtered | frontend/src/components/SideBar.tsx:48-54 | an item is shown iff it is declared and passes its guard |
| SideBar.Labels | frontend/src/components/SideBar.tsx:82 | the items' labels, in order |
| SideBar.FilteredSignedInItems | frontend/src/components/SideBar.tsx:39-54 | signed in, the first five items in declared order |
| SideBar.FilteredSignedIn | frontend/src/components/SideBar.tsx:39-54 | signed in, Home, Store, Cart, Library, Logout |
| SideBar.FilteredSignedOut | frontend/src/components/SideBar.tsx:39-54 | signed out, Home, Store, Login |
| SideBar.ExactlyOneSessionItem | frontend/src/components/SideBar.tsx:44-54 | exactly one of Logout and Login is shown |
| SideBar.UnguardedAlwaysShown | frontend/src/components/SideBar.tsx:40-54 | the unguarded items are Home and Store, and both are always shown |
| SideBar.Badge | frontend/src/components/SideBar.tsx:72-78 | shown iff signed in with a non-empty nickname; the full nickname when open, else its upper-cased first character |
| SideBar.Sidebar.constructor | frontend/src/components/SideBar.tsx:25 | the sidebar starts open |
| SideBar.Sidebar.CurrentBadge | frontend/src/components/SideBar.tsx:29 | the badge shows iff signed in and the stored nickname is truthy |
| SideBar.Sidebar.Toggle | frontend/src/components/SideBar.tsx:64 | the collapse button flips `open` |
| SideBar.Sidebar.Logout | frontend/src/components/SideBar.tsx:31-37 | removes the three session keys, clears the context flag and routes to `/logout`; the location is untouched; afterwards no badge is shown and the items are Home, Store, Login |

## Left out

- Rendering, CSS, icons and animation of every page and component.
- Real asynchrony. Each stretch of code between two `await`s is one atomic
  method. The transport, the refresh endpoint and the replays' own
  responses are abstract: the model records what is sent, and the caller
  supplies what comes back.
- Api.Interceptor.Dispatch: axios runs request interceptors in a later
  microtask, not during the `api(config)` call. The model reads the stored
  token in the same step. Nothing writes storage between the two in the
  code paths modelled.
- Api.Interceptor.OnResponseError: the successful-response pass-through
  (`res => res`) is not modelled, because it returns its argument
  unchanged.
- Api.Interceptor.RefreshSucceeded: a response body without `access` would
  store the string `"undefined"`. The model takes `access` as a string.
- Synchronous exceptions inside the `try` blocks (a `setItem` that throws
  when storage is full) are not modelled.
- Register.RegisterPage.Complete: the error body's array elements are
  taken to be strings. The ordering JavaScript gives to integer-like keys in
  `Object.entries` is not modelled. The entries are taken in the order
  given.
- Login.LoginPage.Complete: a response body without `nickname` (or the
  tokens) would store `"undefined"`. The model takes them as strings.
- Login.LoginPage.Complete: the page takes how `api.post("token/")` ended
  as given. That call goes through the interceptor, so a 401 with no
  refresh token stored runs `hardLogout` (removing the keys and sending the
  location to `/logged-out`) before the page's `catch` runs.
  `Scenario.WrongPasswordSignedOut` composes the two for that case; the
  page model alone does not show it.
- Register.RegisterPage.Complete: likewise, the `register/` and `token/`
  calls go through the interceptor. A 401 on either is first handled there
  (refresh, queue or hard logout) before the page sees an error. The page
  model takes the settled result as given.
- String lengths count characters, not UTF-16 code units. `nickname[0]`
  is the first character.
- Case mapping covers ASCII letters only. Unicode case mapping, and
  `toUpperCase` producing several characters, are not modelled.
- Prices, cover images, `toFixed` formatting and date formatting.
- The `storage` event listener of the authentication context.
- The cart, library, game-detail and home pages, `App.js`, the logged-out
  page, the navigation bar, the Django back end and the tests. These are not
  part of this model.
