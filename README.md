# CarInsight frontend state layer, in Dafny

This project models the browser-side state layer of the CarInsight vehicle
marketplace frontend:

- **Compare list** (`compare.js`): up to three vehicle IDs in localStorage,
  plus the "best value" highlights of a comparison.
- **Favorites list** (`favorites.js`): an uncapped list of vehicle IDs in
  localStorage. Each add made while logged in also asks the server to save it.
- **Chat session** (`chat.js`): the current session, the message history and
  the loading flag.
- **API client** (`api.js`): the access and refresh tokens, the three storage
  keys behind them, the request procedure with its single refresh and retry,
  and the query strings of the listing calls.
- **Auth coordinator** (`auth.js`): login and register, with their form checks
  and the favorites sync that a login starts.

Each manager whose source updates state in place is a class. Its fields stand
for the module variables and the localStorage slots it owns. Its methods carry
`modifies` clauses and state the whole new state. The logic shared by several
methods is written as functions, and the lemmas are proved about them. The
effect of `_saveTokens` and `logout` on the tokens and storage is one function
each (`Api.Saved`, `Api.LoggedOutOf`), and every method that saves or clears
the session states its new state through them (`Api.AfterFetch` for one
request, `Auth.AfterSync` for a whole favorites sync).

The network is an oracle. A `_fetch` call receives a `Script` with the answers
to the requests it may send: the request itself, the token refresh and the
retry. Each answer is either a network failure or a status with a body. The
chat backend calls receive their outcome (`Ok` or `Err`) as an argument.
`getChatSessionId`, `getChatState` and `resetChat` are called from `chat.js`
but are not defined in `api.js`. The model therefore lets the session lookup
throw, and gives its outcome to `Init` like any other backend answer.

Behaviours of the code that a reader may not expect, which the model keeps:

- After a successful refresh, the retried response's body is returned without
  any status check. A second 401 therefore resolves with its body; it does not
  fail (`Api.Unchecked`, `Api.RetryIgnoresStatus`).
- Toggling a present favorite twice restores membership, not the stored list.
  The ID moves to the end (`Favorites.ToggleTwiceFromPresent`).
- `sendMessage` checks for an active session before it checks for blank text.
- A 2xx answer whose body is JSON `null` makes `_saveTokens` throw: a login
  then fails, and a refresh then logs out (`Api.Authenticated`,
  `Api.RefreshAccepted`).

Files: `wrappers.dfy` (Option, Result), `id_lists.dfy` (stored ID lists),
`compare.dfy`, `favorites.dfy`, `api.dfy`, `chat.dfy`, `auth.dfy`.

## Model

| member | source | states |
|---|---|---|
| Compare.CompareManager.List | compare.js:14-22 | a stored array is read as itself; a missing or unreadable slot as [] |
| Favorites.FavoritesManager.List | favorites.js:13-21 | a stored array is read as itself; a missing or unreadable slot as [] |
| IdLists.ReadList | compare.js:14-22 | a missing or unparsable slot reads as the empty list; a stored array reads as itself |
| IdLists.IndexOf | compare.js:65 | -1 exactly when the ID is absent; otherwise the index of its first occurrence, with no earlier occurrence |
| IdLists.RemoveFirst | compare.js:65-67 | an absent ID leaves the list as is; a present one shortens it by one, keeps the prefix before the first occurrence and shifts the rest left, and removes one copy from the multiset |
| IdLists.AppendKeepsNoDup | compare.js:52 | appending an absent ID keeps the list duplicate-free |
| IdLists.RemoveFirstKeepsNoDup | favorites.js:62-72 | on a duplicate-free list, removal leaves no copy of the ID and stays duplicate-free |
| IdLists.FetchEach | favorites.js:118-141 | at most one vehicle per ID; every result is a successful fetch of a listed ID; all fetches succeed gives them all, in ID order; all fail gives [] |
| IdLists.FetchEachAppend | compare.js:124-135 | fetching a concatenation gives the two results one after the other, so ID order is kept and only failures are dropped |
| Compare.CompareManager.IsInCompare | compare.js:95-97 | `includes` agrees with `indexOf` finding the ID |
| Compare.CompareManager.Count | compare.js:103-105 | zero exactly for the empty list; never above 3 while the list invariant holds |
| Compare.CompareManager.Add | compare.js:41-56 | succeeds exactly when the ID is absent and fewer than 3 are stored; success appends it; failure writes nothing, with the duplicate message checked before the cap message; the list never grows past 3; no duplicates and the cap are preserved |
| Compare.CompareManager.Remove | compare.js:63-73 | true exactly when the ID was present; the new list is the old one minus its first occurrence; an absent ID writes nothing |
| Compare.CompareManager.Toggle | compare.js:80-88 | a present ID is removed and reported out with the removal message; for an absent one, membership is `add`'s success with `add`'s message, so at the cap the result is false, the message is the cap message and nothing is written |
| Compare.CompareManager.Clear | compare.js:110-113 | the stored list becomes [] |
| Compare.CompareManager.GetCompareVehicles | compare.js:119-140 | the successful fetches of the stored IDs, in order; no more than the list length |
| Compare.BestIndex | compare.js:159-181 | the index is the first holding the best value: no vehicle beats it, and it strictly beats every earlier one (lowest price and mileage, highest model year) |
| Compare.GenerateComparison | compare.js:147-185 | null exactly for fewer than 2 vehicles; otherwise highlights for price, mileage and yearModel, each the first best index with that vehicle's ID |
| Favorites.Toggled | favorites.js:79-87 | a present ID loses one copy and an absent one gains one, with the length changing by one |
| Favorites.ToggledKeepsNoDup | favorites.js:79-87 | on a duplicate-free list, a toggle flips membership and keeps the list duplicate-free |
| Favorites.ToggleTwiceFromAbsent | favorites.js:79-87 | starting from an absent ID, two toggles give back exactly the original list |
| Favorites.ToggleTwiceFromPresent | favorites.js:79-87 | starting from a present ID, two toggles restore membership but move the ID to the end; the list is unchanged only if the ID was already last |
| Favorites.DistinctCount | favorites.js:102-104 | a duplicate-free list has as many entries as distinct IDs |
| Favorites.FavoritesManager.IsFavorite | favorites.js:94-96 | `includes` agrees with `indexOf` finding the ID |
| Favorites.FavoritesManager.Count | favorites.js:102-104 | zero exactly for the empty list; for a duplicate-free list, the number of distinct favorites |
| Favorites.FavoritesManager.Add | favorites.js:40-55 | true exactly when the ID was absent, and then it is appended; a present ID writes nothing; a server sync is requested only for a real append while logged in, and the local change does not depend on it |
| Favorites.FavoritesManager.Remove | favorites.js:62-72 | true exactly when the ID was present; the first occurrence is removed; an absent ID writes nothing |
| Favorites.FavoritesManager.Toggle | favorites.js:79-87 | the returned status is the negation of the old membership; the new list is `Toggled` of the old one |
| Favorites.FavoritesManager.Clear | favorites.js:109-112 | the list becomes empty and the count 0 |
| Favorites.FavoritesManager.GetFavoriteVehicles | favorites.js:118-141 | [] for an empty list; otherwise the successful fetches in list order |
| Api.ApiBaseUrl | api.js:6-8 | the production API exactly for the two carinsight.com.br host names; localhost otherwise |
| Api.DecimalString | api.js:176 | a non-empty string of digits with no leading zero |
| Api.DecimalRoundTrip | api.js:176 | reading the printed status back gives the status |
| Api.IntString | api.js:61-66 | a negative number prints as "-" and its magnitude; any other as its decimal numeral |
| Api.ErrorMessage | api.js:174-177 | never empty; the server's message when it has one; otherwise "HTTP " followed by the status |
| Api.ErrorMessageNamesStatus | api.js:174-177 | the generic message names the exact status |
| Api.ParseBody | api.js:179 | `json()` yields the body exactly when it parses |
| Api.IsOk | api.js:174 | the 2xx range; a 401 is never ok |
| Api.BearerHeader | api.js:149-151 | "Bearer " followed by the token |
| Api.MethodOf | api.js:155 | never empty; the given method when truthy, "GET" otherwise |
| Api.Checked | api.js:174-179 | success exactly for a 2xx answer whose body parses; a network failure is rethrown; any other status becomes the error message, or a TypeError when the error body is `null` |
| Api.Unchecked | api.js:170 | the retried answer yields its parsed body, whatever its status |
| Api.RetryIgnoresStatus | api.js:165-171 | a rejected retry still resolves with its body, where the unretried path would fail |
| Api.Authenticated | api.js:19-35 | the `_fetch` outcome, except that a 2xx `null` body fails with a TypeError; success exactly for a checked answer that is not `null` |
| Api.RefreshAccepted | api.js:196-206 | the refresh keeps the session exactly for the answers a login would accept |
| Api.Saved | api.js:209-221 | nothing for a `null` response (it throws first); otherwise each token is replaced in memory and storage only by a truthy value, a truthy user is stored, every other key is kept, and memory keeps mirroring storage |
| Api.SavedIdempotent | api.js:209-221 | saving the same answer twice is saving it once |
| Api.LoggedOutOf | api.js:37-43 | both tokens null, the three keys gone, every other key kept |
| Api.AfterFetch | api.js:143-184 | one request keeps the session unless it is an auth request answered 401 while a refresh token is held; then it leaves `Saved` of an accepted refresh or `LoggedOutOf` the old session; other keys and the memory-storage mirror are always kept |
| Api.ApiClient.WillRefresh | api.js:161 | a refresh is only attempted for an answer that would fail, and never for a request without `auth` or a client without a refresh token |
| Api.ApiClient.constructor | api.js:14-15 | each token starts as the value stored under its key, so memory mirrors storage |
| Api.ApiClient.IsLoggedIn | api.js:49-51 | logged in exactly when the in-memory access token is non-empty; never after logout |
| Api.ApiClient.GetUser | api.js:53-56 | the stored user text when it is non-empty; null otherwise |
| Api.ApiClient.Logout | api.js:37-43 | the new state is `LoggedOutOf` the old one: the three storage keys are removed, both tokens become null and nothing else in storage changes |
| Api.ApiClient.SaveTokens | api.js:209-221 | a `null` response throws with nothing written; otherwise the new state is `Saved` of the old one |
| Api.ApiClient.RefreshTokens | api.js:186-207 | without a refresh token: false, nothing sent, nothing changed; otherwise one POST of the token to /auth/refresh; success exactly for an accepted answer, and the new state is `Saved` of the old one; any failure, a throwing `_saveTokens` included, leaves `LoggedOutOf` the old state |
| Api.ApiClient.Fetch | api.js:143-184 | the first request carries a Bearer header only for auth requests with a token; a refresh happens exactly on a 401 for an auth request holding a refresh token; at most one refresh and one retry; after an accepted refresh the state is `Saved` of the refresh answer, and the retry repeats the request with the token now held (the refreshed one when the answer carries one) and returns its body unchecked; a failed refresh leaves `LoggedOutOf` the old state and the 401 to the error path; without a refresh nothing changes; without a retry, non-2xx becomes an error; the refresh request is the POST of the refresh token; in every case the new state is `AfterFetch` of the old one |
| Api.ApiClient.SaveVehicle | api.js:118-124 | an authenticated POST to /interactions carrying the vehicle ID, with a header exactly when logged in; its result and new state are `_fetch`'s: refresh on a 401 with a refresh token, the retry's unchecked body after an accepted refresh, the checked first answer otherwise; the new state is `AfterFetch` of the old one |
| Api.ApiClient.Authenticate | api.js:19-35 | exactly one unauthenticated POST of the given body, so no refresh; the result is `Authenticated` of the answer; a failure, a `null` body included, changes nothing; a success leaves `Saved` of the old state, so one with an access token logs in |
| Api.ApiClient.Login | api.js:28-35 | one unauthenticated POST of email and password to /auth/login; the result is `Authenticated` of the answer; a failure changes nothing; a success leaves `Saved` of the old state, logged in when it carries an access token |
| Api.ApiClient.Register | api.js:19-26 | as Login, posting email, password and name to /auth/register |
| Api.AllParams | api.js:59-70 | one parameter per entry |
| Api.IsTruthy | api.js:61-66 | a missing filter is falsy; text is truthy exactly when non-empty, a number exactly when non-zero; a truthy filter never gives empty text |
| Api.VehicleEntriesOrder | api.js:61-66 | the listing filters are page, limit, make, model, priceMin and priceMax, in that order, each holding the filter of its name |
| Api.SearchEntriesOrder | api.js:80-87 | the search filters are limit, priceMin, priceMax, yearMin, yearMax, make, bodyType and condition, in that order, each holding the filter of its name |
| Api.RefreshBody | api.js:193 | the refresh token can be read back at its place in the body |
| Api.SavedBody | api.js:121 | the body opens with the vehicleId key, holds the vehicle ID at its place and closes with type SAVED |
| Api.LoginBody | api.js:31 | email and password can each be read back at their place in the body |
| Api.RegisterBody | api.js:22 | email, password and name can each be read back at their place in the body |
| Api.Present | api.js:59-70 | only truthy filters give a parameter; every truthy one does; they keep the fixed entry order; the result is empty exactly when no filter is truthy |
| Api.Query | api.js:68 | the query string is empty exactly when there are no parameters |
| Api.QueryStartsWithFirst | api.js:77-89 | the first parameter opens the query string |
| Api.VehiclesPath | api.js:59-70 | just "/vehicles" exactly when no filter is truthy; otherwise "?" and the query of the truthy filters |
| Api.SearchPath | api.js:77-89 | the path always starts with "/search?q=" and the query text, followed by the truthy filters |
| Chat.TrimStart | chat.js:92 | drops exactly the leading white space |
| Chat.TrimEnd | chat.js:104 | drops exactly the trailing white space |
| Chat.Trim | chat.js:92-94 | empty exactly when the text is all white space; otherwise it neither starts nor ends with white space |
| Chat.TrimKeepsClean | chat.js:104 | text with no white space at either end is its own trim |
| Chat.TrimIsMiddle | chat.js:92 | the trimmed text is the slice of the text that starts where the leading white space ends |
| Chat.TrimIdempotent | chat.js:104 | trimming twice is trimming once |
| Chat.ActionMessage | chat.js:151-159 | a message exactly for the five quick-action codes |
| Chat.ActionMessagesAreClean | chat.js:159-162 | every canned message is non-blank and already trimmed, so a known action is never skipped as blank |
| Chat.ActionLabel | chat.js:241-252 | an unlabelled action shows its own code; the label is empty only for the empty code |
| Chat.ChatManager.constructor | chat.js:8-10 | no session, no messages, not loading |
| Chat.ChatManager.IsActive | chat.js:202-204 | never active without a current session |
| Chat.ChatManager.GetMessages | chat.js:186-188 | the caller receives the history as a value |
| Chat.ChatManager.SetLoading | chat.js:210-215 | sets the flag and touches nothing else |
| Chat.ChatManager.Init | chat.js:23-80 | a failed lookup rethrows with the state untouched; a truthy stored ID whose state comes back without error is restored and the history is left alone; otherwise a new session starts with the greeting as the whole history, or the start failure is rethrown with the state untouched; loading is off at the end |
| Chat.ChatManager.SendMessage | chat.js:87-144 | with no session it throws before the blank check; blank text returns null and appends nothing; otherwise the trimmed user message is appended, then the assistant message on success; on failure the user message stays and the error is rethrown; loading is off at the end |
| Chat.ChatManager.SendAction | chat.js:150-163 | an unknown code sends nothing, returns undefined and changes nothing; a known one behaves as `sendMessage` with its canned message: with no session it throws with history and loading flag untouched; the session itself never changes |
| Chat.ChatManager.Reset | chat.js:168-180 | the server is asked only for an active session; the session and history are always cleared |
| Auth.LoginFormError | auth.js:264-267 | accepted exactly when both fields are filled |
| Auth.RegisterFormError | auth.js:287-295 | accepted exactly when all three fields are filled and the password has at least 6 characters; the empty-field message takes precedence |
| Auth.SyncedState | auth.js:79-87 | the session after the first n saveVehicle calls of a sync, each as `AfterFetch`; other keys and the memory-storage mirror are kept |
| Auth.AfterSync | auth.js:72-89 | a logged-out client or an empty list leaves the session as it was; otherwise it is `SyncedState` after one call per favorite |
| Auth.SyncFavorites | auth.js:72-89 | when logged in, one saveVehicle per local favorite in list order, whatever each call's outcome; nothing when logged out or empty, and then the client is untouched; the new session is `AfterSync` of the old one; the local list is unchanged |
| Auth.OnAuthChange | auth.js:95-108 | a sync runs only on login, leaving `AfterSync` of the old session; a logout changes nothing; no call, no change |
| Auth.Conclude | auth.js:30-58 | a failure becomes `{success: false, error}` with no sync and no change; a success returns the user and leaves `AfterSync` of the session |
| Auth.Login | auth.js:48-58 | never throws; succeeds exactly when `Api.Authenticated` accepts the backend answer; a failure changes nothing and syncs nothing; a success saves the answer's tokens (`Saved`) and then syncs, so the session is `AfterSync` of the saved one, and just the saved one when nothing was synced; a success with an access token syncs every local favorite |
| Auth.Register | auth.js:30-40 | the same as Auth.Login, for registration |
| Auth.Logout | auth.js:63-67 | the new session is `LoggedOutOf` the old one: both tokens and all three storage keys are gone and every other key is kept |
| Auth.HandleLogin | auth.js:259-276 | the backend is called exactly when the form check passes; otherwise the check's message is shown and nothing changes; a failed login shows its error, or the generic login message when the error is empty |
| Auth.HandleRegister | auth.js:281-304 | both field checks run before any backend call; a failed registration shows its error, or the generic register message when the error is empty |

## Left out

- Storage write failures: `saveCompareList` and `saveLocalFavorites` catch and log a failing `setItem`. The model always writes, so it cannot show a reported success whose write was lost.
- Real I/O: `fetch`, localStorage, `JSON.parse`/`JSON.stringify` and `URLSearchParams` percent-encoding. Storage is a field, answers are oracle inputs, request bodies are built without JSON escaping, and the query string is joined without encoding.
- Api.ApiClient.GetUser: the model returns the stored text and does not parse it. It therefore does not show that malformed stored text makes `getUser` throw.
- Api.ErrorMessage: a truthy `message` that is not a string is turned into text by `new Error`; the model keeps its JSON text instead.
- Api.NullRead: the TypeError messages are the V8 wording; other engines word them differently.
- Api.Field: `NaN` filter values are not modelled.
- Compare.Vehicle: price, mileage and model year are integers. Missing or non-numeric fields, which make JavaScript's `<` and `>` false, are not modelled.
- Chat.ChatManager.Init: of the restored state, only `error`, `sessionId` and `currentNode` are modelled. Other spread properties, including a `vehicleId` that would overwrite the argument, are not.
- Chat.ActionMessage: codes that name inherited object properties, such as `toString`, are treated as unknown. The source would look them up on the prototype.
- Chat.ActionLabel: for codes such as `constructor` or `toString`, `labels[action] || action` returns the inherited member in the source; the model returns the code itself.
- Auth.RegisterFormError: the length check counts Unicode scalar values; JavaScript counts UTF-16 code units, which differs for characters outside the Basic Multilingual Plane.
- Concurrency: `Promise.all` in `getCompareVehicles` and `getFavoriteVehicles` is a sequential filter, so their outer `catch` is unreachable. Racing `init`/`sendMessage` calls are not modelled. The unawaited `syncFavorites` in `onAuthChange` and the unawaited favorites sync in `add` are modelled as a completed sync and as a requested sync.
- Timestamps (`new Date()`), `console` logging, and the `onMessageReceived`, `onLoadingChange`, `onSessionStart` and `onError` callbacks are observers only.
- `formatMessage` (regular-expression rewriting) is not modelled.
- The thin `_fetch` wrappers `getProfile`, `getVehicle`, `getSimilarVehicles`, `getSearchStats`, `viewVehicle` and `updatePreferences` are not modelled as their own members. `startChat`, `sendChatMessage` and the three undefined chat calls appear only as the outcomes `Init`, `SendMessage` and `Reset` receive. `getSession` is not modelled.
- DOM work in `auth.js` (`updateAuthUI`, the modal functions, `addAuthStyles`, `dispatchEvent`) is not modelled. An exception thrown there inside `login`/`register` would be reported as a failed login; the model does not show this.
- `main.js`, `search-page.js`, `saved-page.js`, `compare-page.js`, `home-page.js` and `frontend-integration.js` are not part of this model. They render pages and wire UI events.
