# PC builder client: a Dafny model

This project models the rule-bearing parts of the PC-builder web client.
There are two front ends.

- The React client is `pc_builder/src/App.jsx` with its API gateway `pc_builder/src/api/apiService.js`.
- The older single page is `script.js`.

The model covers these parts and proves properties about each one:

- **Gateway** (`gateway.dfy`). The React gateway turns every fetch outcome into one uniform result record. Failed results carry a user-facing message taken from a fixed status table. The chat call retries once on the legacy endpoint when the first call returned 404 or 405. The save payload is normalised with a default title and a rounded total.
- **LegacyApi** (`legacy.dfy`). The single page's request reads a 2xx body that says `success: false` as a failure. A non-2xx status becomes a thrown `HTTP error! status: N`. This module also holds the canned keyword replies of `getAIResponse`.
- **Estimates** (`estimates.dfy`). These are the expression-level rules of the React client:
  - patching one transcript entry by id;
  - reading the AI reply and the structured estimate out of a result;
  - unwrapping estimate lists;
  - reading a listed item the way the gallery shows it;
  - toggling the comparison selection under its cap of three;
  - the "already saved" comparison over eight part categories.
- **AppState** (`app_state.dfy`). This module holds the state of the React component.
  - The state the modelled handlers read or write is a field of class `App`, and each handler is a method. The state variables left out are listed under "## Left out".
  - A handler that awaits a request is split at the await: `Begin…` runs up to the request and `Settle…` runs when it settles.
  - `Search` and `SendChat` run one request from start to finish.
  - `Valid()` keeps three things true: placeholder ids stay unique, the selection stays within the cap with distinct ids, and the last-estimate slot is empty or holds a structured estimate.
- **Users** (`users.dfy`). This is the user registry of the single page: class `UserManager`, whose fields are the user list, the current user and the login keys of the storage. It depends on no module of the React client.
- **Clients** (`clients.dfy`). Both clients read the login from the same storage keys. This module proves that they restore the same user.
- **Signup** (`signup.dfy`). These are the sign-up checks of both forms.
- **Support modules.** `json.dfy` holds decoded JSON values with JavaScript truthiness, `||`, `??` and `?.`. `text.dfy` holds `trim`, `includes`, `String(n)` and `length`. `wrappers.dfy` holds `Option`.

The network is an oracle. A fetch outcome is an input. A method that sends requests takes a transport function from (call number, call) to outcome, so that the two calls of a retry may be answered differently. `JSON.parse` and `JSON.stringify` are the parameter `Codec`. `Date.now()`, `Math.random()` and `new Date().toISOString()` enter as parameters. So do the placeholder ids, which are required to be fresh.

## Model

| member | source | states |
|---|---|---|
| Text.Trim | pc_builder/src/App.jsx:325 | `trim` returns text that neither starts nor ends with white space and is no longer than its input |
| Text.TrimSpec | pc_builder/src/App.jsx:325-326 | the trimmed text is the slice of the input that only white space surrounds; it is empty exactly when the input is all white space, which is the guard of both send handlers |
| Text.TrimIdempotent | script.js:948-949 | trimming twice gives the same text as trimming once |
| Text.ContainsIff | pc_builder/src/api/apiService.js:39-42 | `includes` holds exactly when the pattern occurs at some position of the text |
| Text.Decimal | pc_builder/src/api/apiService.js:31 | `String(n)` of a non-negative integer is a non-empty run of digits, with at least two digits from 10 on |
| Text.DecimalInjective | pc_builder/src/api/apiService.js:31 | different numbers print differently |
| Text.ThreeDigitContains | pc_builder/src/api/apiService.js:39-42 | for a status below 1000, `includes` of a three-digit status holds exactly when the two numbers are equal |
| Text.ContainsAfterDigitFreePrefix | script.js:32 | a prefix without digits neither hides nor creates an occurrence of a pattern that starts with a digit |
| Gateway.StatusLiterals | pc_builder/src/api/apiService.js:39-42 | the four patterns of the message table are the decimal notations of 401, 403, 404 and 500 |
| Gateway.ErrorMessageFor | pc_builder/src/api/apiService.js:38-44 | `getErrorMessage`, the ordered substring tests on the error text. It has no contract of its own; `Gateway.StatusMessageIsTable` and `LegacyApi.HttpErrorMessage` state what it selects for a status |
| Gateway.StatusMessageIsTable | pc_builder/src/api/apiService.js:38-44 | for every status up to 999, the ordered substring tests on `String(status)` select the message of an exact comparison of the status with 401, 403, 404 and 500, with the network message as default |
| Gateway.Request | pc_builder/src/api/apiService.js:16-36 | the result is total. `success` holds exactly when a response arrived with a 2xx status. `status` is present exactly for a response. `data` is the decoded body, or `null` when decoding threw. `message` is the body's truthy `message`, else absent when ok, else the table's message for the status. A thrown fetch gives failure, no status, the error text and the table's message for it. Every failure carries a truthy message |
| Gateway.FailedStatusMessage | pc_builder/src/api/apiService.js:31 | a failed response without a message of its own carries the table entry for its status, so a 404 carries the not-found message |
| Gateway.SendChatMessage | pc_builder/src/api/apiService.js:54-69 | one or two calls are made. The first is a POST of `{session_id, messages:[{role:'user', content}]}` to `/api/chat`. A second call happens exactly when the first outcome was a 404 or 405 response; it goes to `/api/ai/chat` with the same body. The result is the result of the last call |
| Gateway.RequestEstimate | pc_builder/src/api/apiService.js:80-83 | the chat call is for `requirements.query` when that is truthy and for the requirements otherwise. The calls are those of `sendChatMessage`: a second call, to `/api/ai/chat` with the same body, happens exactly when the first outcome was a 404 or 405 response. The result is that of the last call. A `null` requirement throws before any call |
| Gateway.Round | pc_builder/src/api/apiService.js:90-92 | `Math.round` is the integer within half a unit, rounding halves up, and is the identity on integers |
| Gateway.SavePayload | pc_builder/src/api/apiService.js:85-94 | the payload has exactly the keys `session_id`, `title`, `totalPrice` and `estimate`. `estimate` is the input unchanged. `title` is the input's truthy title, else `AI 추천 견적`. `totalPrice` is an integer: the rounded numeric `total_price`, else the rounded numeric `totalPrice`, else 0 |
| Gateway.DeleteCall | pc_builder/src/api/apiService.js:101-105 | a DELETE without body to `/api/estimate/` followed by the id, from which the id can be read back |
| LegacyApi.LegacyRequest | script.js:21-49 | there is never a status field. Success holds exactly for a decoded 2xx body that does not say `success: false`. A non-2xx response is caught as `HTTP error! status: N`. An undecodable body or a thrown fetch is caught with its own error text. A decoded 2xx body is returned as `data` |
| LegacyApi.HttpErrorMessage | script.js:53-65 | for every status up to 999, the message for `HTTP error! status: N` is the table entry for N, the same one the React gateway shows |
| LegacyApi.GatewaysAgreeOnFailedStatus | script.js:31-33 | when the body carries no message of its own, both gateways report a failed status below 1000 as a failure with the same message |
| LegacyApi.LegacyRequestEstimate | script.js:132-135 | the single chat call of the legacy page is for the truthy `query`, else for the requirements. A `null` requirement throws |
| LegacyApi.GetAIResponse | script.js:1017-1034 | the reply is the canned answer of the first keyword, in the order 롤, 게임, 저가, 고사양, that occurs in the message. Otherwise it is the default reply quoting the message |
| Signup.ValidateSignup | pc_builder/src/App.jsx:420-423 | four exact conditions. A field is missing exactly when one is empty. The password is too short exactly when all fields are given and it is under 6 UTF-16 units. The username is refused exactly when it fails `^[a-zA-Z0-9]{4,20}$`. The form is accepted exactly when all three checks pass |
| Signup.LegacyValidateSignup | script.js:948-970 | the legacy form applies the same checks to the trimmed name and username. A name that is all white space is always reported as missing |
| Signup.TrimmedUsernameUnchanged | script.js:949 | trimming leaves a well-formed username unchanged |
| Signup.FormsAgreeOnTrimmedInput | script.js:948-970 | with a trimmed name and a well-formed username, both forms give the same verdict |
| Signup.BlankNameSplitsTheForms | script.js:948-958 | every non-empty name of blanks, with any acceptable username and password, passes the React form but is reported missing by the legacy one |
| Estimates.Patch | pc_builder/src/App.jsx:343-345 | the patch keeps the length and order. Every entry with the placeholder id gets the new content, and every other entry is unchanged |
| Estimates.PatchOne | pc_builder/src/App.jsx:384-386 | with unique ids, the patch changes exactly the one entry that has the id |
| Estimates.PatchPlaceholder | pc_builder/src/App.jsx:330-345 | patching the transcript after the query and a fresh placeholder were appended leaves the earlier entries, then the query, then the placeholder holding the new content |
| Estimates.AppendKeepsUniqueIds | pc_builder/src/App.jsx:330-335 | appending the query and a placeholder with a fresh id keeps the ids unique |
| Estimates.PatchKeepsUniqueIds | pc_builder/src/App.jsx:343-345 | patching keeps the ids unique |
| Estimates.ReplyOf | pc_builder/src/App.jsx:339-342 | a result that is not a soft success gives no reply. A soft success with data always gives one. A truthy choice content is the reply |
| Estimates.IsSuccess | pc_builder/src/App.jsx:339 | the soft-success rule `result.success && result.data?.success !== false` (also App.jsx:376). It has no contract of its own; `Estimates.ReplyOf` and `Estimates.SoftFailureFallsBack` state what follows from it |
| Estimates.StructuredOf | pc_builder/src/App.jsx:347-352 | the slot gets the parsed reply exactly when it is an object with a truthy `cpu` and a defined `total_price`, and `null` otherwise |
| Estimates.IsEstimate | pc_builder/src/App.jsx:350 | the structured-estimate test (also App.jsx:391). It has no contract of its own; `Estimates.StructuredOf` states that the slot is filled exactly when it holds, and `App.Valid()` keeps the slot inside it |
| Estimates.SoftFailureFallsBack | pc_builder/src/App.jsx:339-345 | a failed or soft-failed result leaves a falsy reply, so the fallback text is shown, and it empties the slot |
| Estimates.RenderedIsStored | pc_builder/src/App.jsx:450-453 | whatever renders as an estimate is also what the slot keeps |
| Estimates.ZeroTotalStoredNotRendered | pc_builder/src/App.jsx:453 | an estimate priced 0 is stored in the slot but is not rendered as an estimate |
| Estimates.ListOf | pc_builder/src/App.jsx:202-203 | the list is `data.estimates` if truthy, else `data.data` if truthy, else `[]`, and anything that is not an array becomes `[]` |
| Estimates.EmptyEstimatesHideData | pc_builder/src/App.jsx:202 | an empty `estimates` array is truthy, so it hides a non-empty `data` array |
| Estimates.EstimateOf | pc_builder/src/App.jsx:1090-1092 | the estimate of an item is `null` or truthy |
| Estimates.TitleOf | pc_builder/src/App.jsx:1093 | the title shown is always truthy. It defaults to `견적 #` followed by the one-based position |
| Estimates.TotalOf | pc_builder/src/App.jsx:1094 | a non-nullish `totalPrice` of the item wins. The total is nullish only when the raw data's `totalPrice` and `total_price` are nullish too |
| Estimates.UsernameOf | pc_builder/src/App.jsx:1095 | the "all" tab always shows the anonymous user. The "my" tab shows the item's username, else the user name, else the logged-in user's name or `익명` |
| Estimates.SpreadNames | pc_builder/src/App.jsx:1127 | a spread copies a property whose name is not an index only from an object |
| Estimates.Enrich | pc_builder/src/App.jsx:1127 | the enriched item is an object with the item's id and the given estimate, username, title and total. Every other property the spread copies from the item, such as `data` and `createdAt`, keeps its value |
| Estimates.EnrichReadsBack | pc_builder/src/App.jsx:863-866 | the comparison card reads an enriched object as the gallery card read the item (App.jsx:1090-1093): the same raw data, the same estimate and the same title. So the save button of App.jsx:930 saves the gallery card's estimate |
| Estimates.WithoutId | pc_builder/src/App.jsx:1119 | the filter keeps exactly the entries with another id and never grows the list. It changes the list exactly when the id was selected. Afterwards the id is not selected |
| Estimates.WithoutIdConcat | pc_builder/src/App.jsx:1119 | filtering a concatenation filters each part, and a single entry stays exactly when its id differs. So the filter keeps the order of what it keeps |
| Estimates.WithoutIdCounts | pc_builder/src/App.jsx:183-184 | every copy of an entry with the id is dropped, and every copy of any other entry is kept |
| Estimates.WithoutIdDistinct | pc_builder/src/App.jsx:955 | filtering keeps the ids distinct |
| Estimates.WithoutIdSnoc | pc_builder/src/App.jsx:1119-1127 | removing the id of an entry just appended to a list without it gives the list back |
| Estimates.ToggleKeepsSelectionValid | pc_builder/src/App.jsx:1112-1128 | a toggle keeps the selection within 3 entries with distinct ids. Afterwards the item is selected exactly when it was not before and the cap had not been reached |
| Estimates.ToggleTwice | pc_builder/src/App.jsx:1112-1128 | below the cap, clicking an unselected item twice restores the selection |
| Estimates.Toggle | pc_builder/src/App.jsx:1117-1128 | the comparison click handler: removes the selected item, else appends the enriched item below the cap. It has no contract of its own; `Estimates.ToggleKeepsSelectionValid`, `Estimates.ToggleTwice` and `AppState.App.ToggleComparison` state its properties |
| Estimates.IsAlreadySaved | pc_builder/src/App.jsx:887-900 | the check holds exactly when some entry of the user's estimates has a truthy estimate that names the same part as the item's truthy estimate in all eight categories |
| Estimates.NullEstimateNeverSaved | pc_builder/src/App.jsx:893-899 | an item without an estimate is never "already saved" |
| Estimates.SavedOnceListed | pc_builder/src/App.jsx:887-900 | an estimate counts as already saved once an entry holding it is among the user's estimates |
| Estimates.DifferentBuildLeavesVerdict | pc_builder/src/App.jsx:893-899 | listing an entry whose build names a different part in some category leaves the verdict unchanged |
| AppState.InitialUser | pc_builder/src/App.jsx:5-11 | a user is restored exactly when token, username and name are all stored and non-empty |
| AppState.ClearLogin | pc_builder/src/App.jsx:265-267 | logout removes exactly the three login keys and keeps every other key, so a reload finds no user |
| AppState.GetOrCreateSessionId | pc_builder/src/App.jsx:76-84 | a stored non-empty session id is kept. Otherwise the generated one is stored. The result is never empty and is what the storage then holds |
| AppState.SessionIdStable | pc_builder/src/App.jsx:76-85 | once created, the session id survives every later page load |
| AppState.App.constructor | pc_builder/src/App.jsx:15-102 | the first render shows the main screen and the "all" tab with the stored user and the session id; every list is empty and nothing is running |
| AppState.App.BeginSearch | pc_builder/src/App.jsx:324-335 | a blank query changes nothing. Otherwise the query and a placeholder with the thinking text are appended, the chat screen is shown and the search is marked running |
| AppState.App.SettleSearch | pc_builder/src/App.jsx:337-359 | only the placeholder is patched: with the reply or the fallback text when the request resolved, and with the fallback when it threw. The slot is overwritten on resolution. The search stops running. Nothing else changes |
| AppState.App.AnswerSearch | pc_builder/src/App.jsx:336-353 | the `{query}` chat call is made, retried on `/api/ai/chat` exactly after a 404 or 405 response, and the placeholder is answered from the last result |
| AppState.App.Search | pc_builder/src/App.jsx:324-360 | a blank query changes nothing and sends nothing. Otherwise the chat call is made for the query and retried exactly after a 404 or 405 response. The transcript gains exactly two entries after the old ones, the query and the answered placeholder, and the slot holds the reply's structured estimate |
| AppState.App.BeginSendChat | pc_builder/src/App.jsx:362-372 | a blank message changes nothing. Otherwise the message and a placeholder are appended, the input is cleared and sending is marked running |
| AppState.App.SettleSendChat | pc_builder/src/App.jsx:376-400 | only the placeholder is patched: with the reply or the failure text, or with the network-error text when the request threw. The slot is overwritten on resolution and sending stops |
| AppState.App.AnswerChat | pc_builder/src/App.jsx:373-393 | the chat call is made for the message, retried on `/api/ai/chat` exactly after a 404 or 405 response, and the placeholder is answered from the last result |
| AppState.App.SendChat | pc_builder/src/App.jsx:362-401 | a blank message changes nothing and sends nothing. Otherwise the chat call is made for the message, with the same retry rule. The transcript gains exactly the message and the answered placeholder, and the input is empty |
| AppState.App.SaveLastEstimate | pc_builder/src/App.jsx:403-418 | a save call is made exactly when there is a last estimate, and it posts that estimate unchanged |
| AppState.App.CopyToMine | pc_builder/src/App.jsx:925-941 | a save is offered exactly to a logged-in user for an item whose build is not already saved. It saves the item's estimate, or the item when it has none |
| AppState.App.OpenSavedEstimates | pc_builder/src/App.jsx:196-213 | the modal opens. Only a successful list request replaces the saved estimates, with the unwrapped list |
| AppState.App.LoadGallery | pc_builder/src/App.jsx:215-230 | only a successful list request replaces the gallery; nothing else changes |
| AppState.App.LoadMyEstimates | pc_builder/src/App.jsx:232-251 | a request is made exactly when a user is logged in. Only its success replaces the user's estimates |
| AppState.App.DeleteEstimate | pc_builder/src/App.jsx:179-194 | a DELETE is sent exactly for a truthy, confirmed id. Only a successful reply removes exactly the entries with that id |
| AppState.App.ToggleComparison | pc_builder/src/App.jsx:1112-1128 | the click toggles the enriched item in the selection and keeps the selection valid |
| AppState.App.RemoveFromComparison | pc_builder/src/App.jsx:953-956 | every entry with the item's id leaves the selection, which stays valid |
| AppState.App.ForgetLogin | pc_builder/src/App.jsx:265-268 | the login keys leave the storage and the user is gone |
| AppState.App.ResetScreen | pc_builder/src/App.jsx:271-279 | back to the main screen and the "all" tab, with an empty transcript, slot and search text |
| AppState.App.ClearLists | pc_builder/src/App.jsx:274-277 | every estimate list and the selection are emptied |
| AppState.App.Logout | pc_builder/src/App.jsx:253-282 | whatever the server said: the login keys are gone, the user, transcript, slot, every list, the selection and the search text are cleared, on the main screen and the "all" tab. The state stays valid, and the chat input and the running flags are untouched |
| Users.CredentialsIndex | script.js:298 | `find` by username and password gives the first user with both, or none exactly when no user has both |
| Users.UsernameIndex | script.js:324 | `find` by username gives the first user with that username, or none exactly when nobody has it |
| Users.LoginStorage | script.js:308-312 | a login stores token, username, name and the id as text, and keeps every other key |
| Users.LogoutStorage | script.js:352-355 | logout removes exactly the four login keys, and a reload then restores nobody |
| Users.RestoredUser | script.js:281-293 | a user without an id is restored exactly when token, username and name are all stored and non-empty |
| Users.LoginSurvivesReload | script.js:296-318 | the storage a login leaves restores the same token, username and name on a reload |
| Users.RegisteredUserFound | script.js:321-347 | a user appended under a new username is the first one found by its own credentials |
| Users.UniqueUsernameFound | script.js:324-327 | with unique usernames, each user is the one found under its own username |
| Users.SameUsernameSameIndex | script.js:372-376 | rewriting one user without changing its username leaves every username lookup unchanged |
| Clients.RestoreAgrees | script.js:281-293 | on every storage, the legacy page restores a user exactly when the React client does (App.jsx:5-11), with the same token, username and name |
| Clients.LegacyLogoutLogsOutReact | script.js:352-355 | after a logout on the legacy page, the React client restores no user either |
| Users.UserManager.CurrentIndex | script.js:372 | the current user's entry is found by username, and none exactly when nobody is logged in or nobody has that username |
| Users.UserManager.IsLoggedIn | script.js:358-360 | `isLoggedIn()`, whether a current user is set. It has no contract of its own; `Users.UserManager.Logout` states that nobody is logged in afterwards |
| Users.UserManager.GetPreferences | script.js:385-392 | the preferences of the current user's entry, or `null` when logged out or not registered |
| Users.UserManager.GetEstimates | script.js:421-428 | the estimates of the current user's entry, or `[]` when there are none, when logged out or when not registered |
| Users.UserManager.constructor | script.js:275-278 | the manager starts with whoever the storage restores |
| Users.UserManager.LoadCurrentUser | script.js:281-293 | a complete stored login replaces the current user; anything less keeps it |
| Users.UserManager.Login | script.js:296-318 | login succeeds exactly when some user has both credentials. The first such user becomes the current user, under the token `local-token-` plus the time, and the login is stored. A failure changes nothing and carries the bad-credentials message |
| Users.UserManager.Register | script.js:321-347 | a taken username is refused and keeps the registry. Otherwise exactly one user with the default preferences and no estimates is appended. That user can then log in with its credentials, and unique usernames stay unique |
| Users.UserManager.Logout | script.js:350-356 | nobody is logged in, the four login keys are gone, and there are no estimates to show |
| Users.UserManager.UpdatePreferences | script.js:369-382 | the call fails, with nothing changed, exactly when logged out or not registered. Otherwise the given keys overwrite the found user's preferences, every other key and every other user are kept, and `getPreferences` returns the merge |
| Users.UserManager.SaveEstimate | script.js:395-418 | the call fails, with nothing changed, exactly when logged out or not registered. Otherwise exactly one record is appended to the found user's estimates, which are created when absent. Every other user is kept, and `getEstimates` returns the old list plus the record |

## Left out

- Rendering. JSX, notifications, dark mode and the DOM handlers of `script.js` are UI, not logic. This includes its login and chat forms, `updateLoginButton`, `addLogoutButton` and the mobile menu.
- The network. `fetch` and `response.json()` are the transport oracle and the `Body` input. The `/api/auth/check` bootstrap, the `/api/logout` request of `handleLogout` and `handleLogin` are not modelled. Neither are the thin wrappers `login`, `register`, `getProducts` and `getEstimateList`, which only forward to `request`.
- The order of asynchronous events. Each settlement is one atomic method call. React's batching of state updates and its effects are not modelled.
- State variables of the component that are not fields of `App`:
  - `isDark` is only a display setting.
  - `loginUsername` and `loginPassword` are read only by `handleLogin`.
  - `signupName`, `signupUsername` and `signupPassword` are the parameters of `ValidateSignup`.
  - `estimateLoading`, `galleryLoading`, `loginLoading` and `signupLoading` only drive the UI.
- Nondeterministic values and the clock. `Date.now`, `Math.random`, the placeholder id and the ISO timestamp are parameters.
- The save endpoint. `ENDPOINTS.ESTIMATE_SAVE` and `ENDPOINTS.ESTIMATE_LIST` are not defined in the client configuration, so the save endpoint is a parameter.
- JSON encoding. `JSON.parse` and `JSON.stringify` are the `Codec` parameter. The registry of `script.js` is its decoded `users` list. A malformed stored list, which would throw, is not modelled.
- AppState.App.LoadGallery: modelled as if `apiService.getAllEstimates` existed. As written, the service has no such method, so the call throws inside the `try`, only the error notification appears, and the gallery keeps its contents. That behaviour is the model's non-success path.
- AppState.App.DeleteEstimate: the id's text is given as `idText` rather than derived from the JSON id by template-string conversion.
- Object identity and `undefined` properties. Ids and part names are compared structurally, which agrees with `===` for the primitive values the server sends. A property explicitly set to `undefined` is modelled as absent.
- Numbers. Numbers are reals, and NaN and the infinities are not modelled: JSON decoding cannot produce them. `toLocaleString` and `formatDate` are not modelled.
- Storage failures. `localStorage.setItem` throwing a quota error is not modelled.
- Users.UserManager.SaveEstimate: takes the estimate's `query` and `response` properties as parameters, rather than reading them from an object that could be `null`.
- Gateway.Request: the `credentials` and headers of the fetch configuration are not modelled.
