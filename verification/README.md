# Child Safety QR front end — a Dafny model

The Child Safety QR web client lets a parent register children, put a QR
code on each, and watch for scans. Whoever finds a child scans the code, and
the parent sees an alert banner and the scan on a map. This project models
the client's decision logic and its two small state machines, and proves
what they promise:

- **Alert store** (`SocketStore`): the live connection follows the session
  token. A token change runs React's cleanup of the old effect, then the
  effect again. The single most recent scan alert is held in one slot.
- **Banner and danger rule** (`Layout`): the banner's message is normalised
  and classified by the case-insensitive substring test for "danger". The
  module also covers the dismiss button, the navigation links and logout.
- **Session** (`AuthSession`): `login`, `register`, `logout`, `refreshUser`
  and the mount effect, with local storage as one `Option<string>` cell.
- **REST client** (`Api`): URL and header construction, the error-message
  fallback chain, the public endpoints, the photo upload and the
  scan-history query string.
- **Add-child form** (`NewChild`): editing the contact list, filtering out
  blank contacts, validating the age with `parseInt`, and the order of the
  requests on submit.
- **Map** (`MapView`): the markers, their popups, and the route through the
  scans in time order. The route uses a stable sort by timestamp.
- **Page decisions**: the route guard (`ProtectedRoute`), the landing page
  (`HomePage`), the dashboard (`Dashboard`) and the theme (`Theme`).
- **JavaScript built-ins** (`Text`, `Seqs`): the parts of `trim`,
  `toLowerCase`, `includes`, `startsWith`, `parseInt`, `String(n)` and
  `Array.prototype.filter` that the code relies on.
- **App**: the logout flow across session, socket, banner and pages.

Server answers, storage contents and the OS colour-scheme preference are
parameters of the functions. Nothing performs I/O.

## Model

| member | source | states |
|---|---|---|
| SocketStore.Init | src/context/SocketContext.tsx:32-36 | The provider starts disconnected, with no alert and no socket, and satisfies the store invariant. |
| SocketStore.Step | src/context/SocketContext.tsx:38-63 | Token changes never touch the alert. Changing to a new token leaves the store disconnected, holding a fresh socket if the token is truthy and none otherwise. The store records the new token, and an event repeating the current token changes nothing. While a socket is live, a scan replaces the alert wholesale and connect sets the flag. Without a socket, connect and scan change nothing, so no alert arrives after logout. Clearing empties the alert and leaves the connection as it was. Disconnect clears the flag. |
| SocketStore.StepKeepsValid | src/context/SocketContext.tsx:38-61 | Every event keeps the invariant: a socket exists exactly while the token is truthy, and only a live socket can be connected. |
| SocketStore.TokenAbsentTearsDown | src/context/SocketContext.tsx:39-45 | A falsy token, null or "", leaves no socket and `connected` false. |
| SocketStore.RunKeepsValid | src/context/SocketContext.tsx:38-63 | The invariant holds after any sequence of events. |
| SocketStore.ScanIdempotent | src/context/SocketContext.tsx:55 | Delivering the same alert twice gives the same state as delivering it once. |
| SocketStore.LatestAlertWins | src/context/SocketContext.tsx:55 | Whatever came before, the alert delivered last is the one held. |
| SocketStore.AlertComesFromAnEvent | src/context/SocketContext.tsx:55-63 | After any run the held alert is nothing, the initial one, or a delivered payload. Alerts are never merged or accumulated. |
| SocketStore.TokenChangesKeepAlert | src/context/SocketContext.tsx:38-61 | Any run of token changes, logout included, leaves the alert exactly as it was. |
| SocketStore.NewTokenNewSocket | src/context/SocketContext.tsx:47-60 | A new truthy token gets the socket numbered by the count created so far. That number is beyond the socket held just before, and the store starts disconnected. |
| Layout.IsDanger | src/components/Layout.tsx:74 | The classification rule: the lower-cased message contains "danger". |
| Layout.DangerIff | src/components/Layout.tsx:74 | A message is danger exactly when "danger" occurs at some index of its lower-cased text. |
| Layout.Normalised | src/components/Layout.tsx:73 | A null message becomes "", and anything else is trimmed. |
| Layout.DangerIgnoresTrim | src/components/Layout.tsx:73-74 | Trimming never changes whether the lower-cased text contains "danger". |
| Layout.NormalisedFacts | src/components/Layout.tsx:73-74 | A normalised message is danger iff the raw message is. It is empty iff the message is absent or all white space. A danger message is never empty. |
| Layout.BannerOf | src/components/Layout.tsx:72-97 | The banner is shown iff an alert is held, with its child name and capture time. Container, text and button share one tone, red iff the message contains "danger" in any case. The message segment is shown iff the message is more than white space, and shows the trimmed text. |
| Layout.Dismiss | src/components/Layout.tsx:96 | Dismiss hides the banner and leaves connection, socket and token unchanged. |
| Layout.NavLinks | src/components/Layout.tsx:33-56 | Each link is active exactly when the path equals its target, and never both at once. |
| Layout.NavIsNotPrefix | src/components/Layout.tsx:37-49 | A page below a link's target does not activate the link. |
| Layout.HandleLogout | src/components/Layout.tsx:16-19 | Logout clears user, token and stored token, then navigates to `/`. |
| Layout.DangerAt | src/components/Layout.tsx:74 | Any six-character window that folds to "danger" makes the message danger. |
| Layout.NegatedIsDanger | src/components/Layout.tsx:74 | "Not in danger" is classed as danger. |
| Layout.CapitalisedIsDanger | src/components/Layout.tsx:74 | "I am in Danger" is classed as danger. |
| Layout.DangerIsNonEmpty | src/components/Layout.tsx:74 | A message classed as danger is at least six characters long, so any shorter message, the empty one included, is never danger. |
| Layout.ShortIsSafe | src/components/Layout.tsx:74 | Two examples: the empty message and "safe" are not danger. |
| AuthSession.Init | src/context/AuthContext.tsx:21-23 | The session starts with no user and no token, loading, and storage as found. |
| AuthSession.SignIn | src/context/AuthContext.tsx:55-67 | On success, stored token, token and user are set together. A failure changes nothing and surfaces the error. |
| AuthSession.Login | src/context/AuthContext.tsx:55-60 | `login` calls the login endpoint, then behaves as `SignIn`. |
| AuthSession.Register | src/context/AuthContext.tsx:62-67 | `register` makes exactly one call, to the register endpoint. |
| AuthSession.RegisterLikeLogin | src/context/AuthContext.tsx:55-67 | `register` ends in the same session state and rethrows the same error as `login` given the same server answer; only the endpoint differs. |
| AuthSession.Logout | src/context/AuthContext.tsx:69-73 | Logout clears the stored token, user and token, and leaves `loading` alone. |
| AuthSession.RefreshUser | src/context/AuthContext.tsx:25-44 | Loading always ends false. With no truthy stored token there is no call and the user is signed out. Otherwise `me` is called: success keeps the token and sets the user; failure removes the stored token and signs out. |
| AuthSession.Mount | src/context/AuthContext.tsx:46-53 | With no stored token only `loading` drops, and no call is made. Otherwise the mount is `refreshUser`. |
| AuthSession.ApplyKeeps | src/context/AuthContext.tsx:25-73 | Every operation, taken as one whole step, keeps the user known exactly when a token is held, with the held token equal to the stored one. Once loading has ended it never restarts. |
| AuthSession.RunKeeps | src/context/AuthContext.tsx:20-73 | The same holds for any sequence of operations that each finish before the next starts. |
| AuthSession.RefreshAnswer | src/context/AuthContext.tsx:33-43 | Once `me(t)` answers: acceptance sets the user and puts back the token `t` read before the call; rejection clears user, token and storage. Loading ends false either way. |
| AuthSession.OverlappingLoginBreaksConsistent | src/context/AuthContext.tsx:25-60 | A login completed while the mount's `me(t1)` is pending is consistent, but a late acceptance leaves token `t1` against stored `t2`, and a late rejection signs the new user out. |
| AuthSession.InitConsistent | src/context/AuthContext.tsx:21-23 | The initial state is consistent. |
| AuthSession.LoginThenRefresh | src/context/AuthContext.tsx:25-60 | After a login, a refresh accepted by the server keeps the same token and stored token. |
| AuthSession.LogoutThenRefresh | src/context/AuthContext.tsx:25-73 | After logout a refresh makes no call and stays signed out. |
| Api.ApiUrl | src/services/api.ts:5 | The base URL is the environment's value when truthy and `http://localhost:5000` otherwise; it is never empty. |
| Api.BuildHeaders | src/services/api.ts:13-17 | Content-Type is JSON unless the caller sets it. Every other caller header is kept. Authorization is `Bearer <token>` exactly when the token is truthy, and there are no other keys. |
| Api.Parsed | src/services/api.ts:20 | A JSON body is passed through as parsed; a body that is not JSON reads as `{}`, which has no message. |
| Api.ErrorMessage | src/services/api.ts:23 | The message is `data.message` if truthy, else the status text if non-empty, else "Request failed". It is never empty. |
| Api.Outcome | src/services/api.ts:19-25 | A request succeeds iff the response is ok. A failure carries a non-empty message chosen by `ErrorMessage` from the parsed body and the status text, including for a body that is not JSON. |
| Api.RouteOf | src/services/api.ts:28-83 | Every path is under `/api/`. Exactly register, login and scan submission carry no token, and the others carry the caller's. DELETE only deletes a child, PATCH only updates the profile or a child, and POST is used for register, login, child creation and scan submission. |
| Api.PublicEndpoints | src/services/api.ts:28-83 | Exactly register, login and scan submission go out without a token. Scan submission sends no Authorization, the others send the bearer header, and all send JSON. |
| Api.UploadCall | src/services/api.ts:50-56 | The photo upload sends only an Authorization header, always `Bearer <token>`. |
| Api.UploadOutcome | src/services/api.ts:57-61 | The upload fails on a body that is not JSON, even when ok. A non-ok JSON response falls back to "Upload failed". An ok JSON response resolves with the parsed data itself. |
| Api.UploadStricterThanRequest | src/services/api.ts:20-59 | On an ok response that is not JSON, `request` succeeds with `{}` while the upload fails. |
| Api.HistoryQuery | src/services/api.ts:71-74 | The query is empty iff neither limit nor skip is given, and `limit` comes first when present. |
| Api.HistoryPath | src/services/api.ts:74-76 | The path gains `?` and the query only when the query is non-empty. |
| Api.HistoryQueryRoundTrip | src/services/api.ts:71-74 | Decoding the query gives back exactly the limit and skip that were given, including 0. |
| NewChild.AddContact | src/app/children/new/page.tsx:20-22 | Adding a contact appends one blank contact and leaves the others unchanged. |
| NewChild.UpdateContact | src/app/children/new/page.tsx:24-30 | Only the named field of the named row changes. The length and every other row and field are kept. |
| NewChild.RemoveContact | src/app/children/new/page.tsx:32-34 | Exactly row `i` is removed and the rest keep their order. An index that names no row changes nothing. |
| NewChild.RemoveUndoesAdd | src/app/children/new/page.tsx:20-34 | Removing the row just added gives the list back. |
| NewChild.KeepFilled | src/app/children/new/page.tsx:50 | The submitted contacts are no more than the rows, and each has a trimmed name or phone that is non-empty. |
| NewChild.KeptIff | src/app/children/new/page.tsx:50 | A contact is submitted iff it is in the list and its trimmed name or trimmed phone is non-empty. |
| NewChild.BlankRowNotSent | src/app/children/new/page.tsx:20-50 | A freshly added blank row changes nothing in what is submitted. |
| NewChild.RelationOnlyDropped | src/app/children/new/page.tsx:50 | A contact whose name and phone are white space only is never submitted, whatever its relation. |
| NewChild.ValidateAge | src/app/children/new/page.tsx:40-44 | The age passes iff `parseInt` gives a number from 0 to 25, and the value is that number. Any failure carries the fixed message. |
| NewChild.AgeRoundTrip | src/app/children/new/page.tsx:40-44 | Every in-range age typed as a number is accepted as itself, and every other printed integer is refused. |
| NewChild.AgeExamples | src/app/children/new/page.tsx:40 | "7 years" is accepted as 7, and "years" is refused. |
| NewChild.Requests | src/app/children/new/page.tsx:45-60 | Create comes first. The upload happens only when a photo was chosen and the create succeeded, and only as the second request. Navigation to `/children/<id>` comes last, only when every request asked for succeeded, and with no error. Otherwise the first failure's message is shown. There is exactly one create and at most three effects. |
| NewChild.Submit | src/app/children/new/page.tsx:36-61 | With no token nothing happens and no error is shown. A bad age makes no request and shows the age message. Otherwise the request carries the trimmed name, the parsed age and the filled contacts. Loading ends false. |
| Seqs.FilterIff | src/app/children/new/page.tsx:50 | An element survives filtering iff it was present and passes. |
| Seqs.FilterAppend | src/app/children/new/page.tsx:50 | Filtering keeps order: the filter of a concatenation is the concatenation of the filters. |
| MapView.AccuracyText | src/components/MapViewClient.tsx:53 | The text is "—" iff there is no accuracy. Otherwise it ends in " m", `parseInt` reads the accuracy back (so 0 is included), and it is exactly the number's shortest spelling plus the two characters " m". |
| MapView.Markers | src/components/MapViewClient.tsx:46-55 | One marker per scan, in the order given, each at the scan's position with that scan's popup. |
| MapView.PopupOf | src/components/MapViewClient.tsx:49-55 | The popup shows the capture time, the message untrimmed iff it is truthy, and the danger style iff that message contains "danger" in any case. |
| MapView.PopupAgreesWithBanner | src/components/MapViewClient.tsx:52 | The popup's danger style and the banner's red tone always agree for the same scan. |
| MapView.BlankMessageShownOnlyOnMap | src/components/MapViewClient.tsx:52 | Every non-empty message of white space only is printed in the popup as sent, but left out of the banner. |
| MapView.SortByTime | src/components/MapViewClient.tsx:58-60 | The sorted copy is ascending by timestamp and is a permutation of the scans. |
| MapView.SortStable | src/components/MapViewClient.tsx:58-60 | Scans with equal timestamps keep their input order. |
| MapView.SortKeepsPositions | src/components/MapViewClient.tsx:58-61 | The route holds exactly the markers' positions, counted with multiplicity. |
| MapView.Draw | src/components/MapViewClient.tsx:36-64 | Nothing is drawn before the map exists or for an empty list. Otherwise there is one marker per scan, in input order, at its coordinates. The route is the positions of the time-sorted scans, and the line is drawn iff there are at least two. |
| MapView.RouteExamples | src/components/MapViewClient.tsx:58-64 | One scan draws no line. Two scans given out of order give a line from the earlier to the later. |
| ProtectedRoute.Guard | src/components/ProtectedRoute.tsx:12-27 | Exactly one outcome holds: a spinner while loading, nothing plus a redirect to `/login` when signed out, and the page in `Layout` when signed in. A redirect is issued exactly when nothing is rendered. |
| HomePage.Home | src/app/page.tsx:12-25 | A redirect to `/dashboard` happens iff loading is over and a user exists, and only behind the spinner. The landing text is shown iff loading is over and there is no user. There is never a redirect while loading. |
| Dashboard.PhotoSrc | src/app/dashboard/page.tsx:63-65 | There is a photo iff `photoUrl` is truthy. A URL starting with "http" is used as is. Anything else gets the API base directly in front: the result starts with the base, ends with the stored URL, and is exactly as long as the two together. |
| Dashboard.PhotoSrcIsAbsolute | src/app/dashboard/page.tsx:65 | With an http(s) API base, every photo address starts with "http". |
| Dashboard.HttpPrefixIsLoose | src/app/dashboard/page.tsx:65 | Every photo URL beginning with the letters "http", a relative path such as "httpdocs/a.png" included, is left unprefixed. Every other non-empty one gets the API base in front. |
| Dashboard.ViewOf | src/app/dashboard/page.tsx:40-98 | The spinner shows iff loading. The empty state shows iff loaded with no children. Otherwise the grid has one card per child, in order, with the child's name, age and photo source and links to `/children/<id>` and `/children/<id>/map`. |
| Dashboard.Start | src/app/dashboard/page.tsx:21-23 | Without a truthy token nothing is requested and nothing changes. Otherwise loading is set and the list is requested. |
| Dashboard.Settle | src/app/dashboard/page.tsx:26-28 | Loading ends false. Success replaces the list, and failure sets the error. |
| Dashboard.NoTokenKeepsSpinner | src/app/dashboard/page.tsx:18-22 | Without a token the page keeps its spinner. |
| Dashboard.ErrorOutlivesRetry | src/app/dashboard/page.tsx:21-28 | A failed fetch followed by a successful one shows the new list but keeps the old error. |
| Theme.StoredTheme | src/components/ThemeProvider.tsx:13 | A missing or empty stored theme is "system". Anything else is used as stored. |
| Theme.Resolve | src/components/ThemeProvider.tsx:17-23 | The result is dark iff the theme is "dark", or "system" with a dark OS, and the root class matches. |
| Theme.Mount | src/components/ThemeProvider.tsx:9-23 | After mounting, the theme is the stored one and the root class is dark exactly by the resolution rule. |
| Theme.MediaChange | src/components/ThemeProvider.tsx:25-32 | As written, an OS change under "system" updates only the resolved theme. Otherwise nothing changes. |
| Theme.MediaChangeLeavesRootStale | src/components/ThemeProvider.tsx:27-29 | Under "system", a switch of the OS from light to dark leaves the root class light while the resolved theme says dark. |
| Theme.MediaChangeSynced | src/components/ThemeProvider.tsx:27-29 | The corrected listener keeps the root class in step with the OS under "system". |
| Theme.RunStaysSynced | src/components/ThemeProvider.tsx:25-32 | With the corrected listener, the root class never disagrees with the resolved theme, and under "system" it follows the latest OS change. |
| Theme.HookMount | src/components/ThemeProvider.tsx:37-41 | `useTheme` starts from the stored theme, defaulting to "system". |
| Theme.SetTheme | src/components/ThemeProvider.tsx:42-45 | `setTheme(t)` stores `t` and shows `t`. |
| Theme.SetThemePersists | src/components/ThemeProvider.tsx:13-45 | A chosen theme comes back on the next mount of the hook or of the provider, and resolves by the usual rule. |
| Text.Trim | src/components/Layout.tsx:73 | `trim` returns the infix between the leading and trailing white space, and has neither at its ends. |
| Text.TrimEmptyIff | src/app/children/new/page.tsx:50 | A trimmed string is empty iff the string is all white space. |
| Text.IncludesIff | src/components/Layout.tsx:74 | `includes` holds iff the pattern occurs at some index. |
| Text.ParseInt | src/app/children/new/page.tsx:40 | `parseInt` gives NaN iff no digit follows the leading white space and the optional sign. |
| Text.ParseIntOfIntToString | src/services/api.ts:72-73 | `parseInt(String(n))` is `n` for every integer. |
| Text.ParseIntOfIntToStringThen | src/components/MapViewClient.tsx:53 | A printed integer followed by text that starts with a non-digit still reads back as the integer. |
| App.LogoutEndsTheSession | src/components/Layout.tsx:16-19 | After logout the socket is gone and disconnected, the landing page shows its text, and a protected page renders nothing and redirects to `/login`, so no banner is on screen. The store still holds the last alert: after the next sign-in a new socket opens and that alert's banner is shown again. |

## Left out

- The socket.io transport, its handshake, reconnection and backoff are left out. A socket is reduced to the `connect`, `disconnect` and `scan` events it delivers, which take effect only while a socket exists.
- `fetch`, JSON parsing, `FormData` and request bodies are left out. Responses are abstract (ok flag, status text, JSON or not, `message`), and the other endpoints' payloads are not modelled.
- `localStorage` is a single `Option<string>` cell per key. The `typeof window` guards are taken as always in the browser.
- Leaflet is left out: map creation, tiles, `fitBounds`, padding, zoom and marker icons. Coordinates are reals that are never computed with.
- `Date` parsing and `toLocaleString` are left out. Timestamps are integers, already milliseconds, so the sort compares them directly. Invalid dates (NaN in the comparator) are out of scope.
- Accuracy is an integer number of metres. Fractional metres and the exponent form `String` uses for huge numbers are not modelled.
- `toLowerCase` folds ASCII letters only. White space for `trim` and `parseInt` is ASCII white space plus U+00A0, U+FEFF, U+2028 and U+2029; the other Unicode space separators are not included.
- Header names are case-sensitive map keys. The `Headers` class's case folding is not modelled.
- JSX markup, Tailwind classes beyond the red/amber choice, icons and the connection indicator's title are left out.
- src/app/login/page.tsx and src/app/register/page.tsx are not part of this model. They are form plumbing around the session's `login` and `register`.
- src/app/layout.tsx, src/components/MapView.tsx and next.config.js are not part of this model. They are page metadata, a dynamic-import wrapper and build configuration.
- src/app/children/[id]/page.tsx is not part of this model. It holds the child's details and QR code download, the scan-history table, and the guard that re-fetches the history when a new scan for this child arrives (`prevLastScanId`, lines 49-59). None of these is modelled.
- src/app/children/[id]/map/page.tsx is not part of this model. It fetches the child and up to 100 scans and hands them to the map; only the map's own drawing is modelled.
- src/app/scan/[secureId]/page.tsx, the public page a finder opens from the QR code, is not part of this model. Geolocation, continuous sharing and the submitted scan body are left out.
- The message is interpolated into the popup's HTML without escaping. The model records which text is shown, not how the markup is parsed.
- Dashboard.Settle: a successful children answer is assumed to carry a list. An ok response whose body is not JSON resolves to `{}`, and the source would then store `undefined` as the list (src/app/dashboard/page.tsx:26) and fail when the render reads its length (src/app/dashboard/page.tsx:44).
- AuthSession.RunKeeps: the invariant holds only when each operation finishes before the next one starts. The source does not ensure this: a login can complete while the mount's `refreshUser` awaits `me`, and its late answer breaks the invariant (AuthSession.OverlappingLoginBreaksConsistent).
- AuthSession.ApplyKeeps: the same restriction; each operation is one atomic step.
- AuthSession.RefreshUser: a successful `me` answer is assumed to carry a `user`. An ok response whose body is not JSON resolves to `{}`, and the source would then set the token with no user (src/context/AuthContext.tsx:34-36). `Consistent`, `ApplyKeeps` and `RunKeeps` hold only for answers that carry a user.
- AuthSession.SignIn: a successful login or register answer is assumed to carry both `user` and `token`. With `{}` the source would store the string "undefined" as the token and set neither state cell to a value (src/context/AuthContext.tsx:56-59).
- AuthSession.Mount: the asynchronous `refreshUser` started by the mount effect is collapsed into one transition. States between the call and its answer are not modelled.
- NewChild.UpdateContact: requires an index of an existing row, the only kind the rendered list passes. An out-of-range `next[i] = …` in JavaScript would grow a sparse array.
- NewChild.Submit: `loading` is modelled as ending false. The intermediate `true` while the requests are in flight is not a separate state. A rejection that is not an `Error` ("Failed to create child") cannot arise, because both clients always throw `Error`.
- MapView.SortByTime: an insertion sort stands in for the engine's sort. It is proved sorted, a permutation and stable, and those three properties fix the result of any stable sort. The statement that they do is not itself proved.
- MapView.Draw: the map-creation effect is reduced to the `mapReady` flag. The cleanup that removes the previous layer group is reflected only in the drawing being a function of the current logs alone.
- Theme: the provider's `theme` state is not updated by `useTheme().setTheme` (they are separate hooks). The model relates them only through storage, on the next mount.

## Findings

| source | as written | input that shows it | evidently intended | confidence | as-written member | corrected member |
|---|---|---|---|---|---|---|
| src/components/ThemeProvider.tsx:27-29 | Under "system", the OS colour-scheme listener updates the `resolved` state only. The root element's `dark` class is toggled only by the theme effect, which re-runs when `theme` changes, not when `resolved` does. | Theme "system" with a light OS, then the OS switches to dark: `resolved` becomes dark but the page stays light until the theme changes or the page reloads. | The listener also toggles the root class, so the page follows the OS live. Nothing reads `resolved`, so the visible result is that the page does not follow the OS. | not executed; medium | Theme.MediaChangeLeavesRootStale | Theme.RunStaysSynced |
