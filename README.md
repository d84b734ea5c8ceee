# todo_frontend — a Dafny model of the client logic

The repository is a Next.js front-end for a task manager that also has a chat
assistant view. It holds no algorithm of its own. Its behaviour is client
logic, and this project models that logic and proves what it promises:

- **The API client** (`src/lib/api.ts`) builds request headers from the
  stored bearer token. It classifies what `fetch` produced into a value or
  an `ApiError` (status and message), unwraps `{data}` envelopes, filters
  the query parameters of `get` and clears the token on `authApi.logout`.
- **The two session stores** are the live `AuthContext` and the older
  Better-Auth-based `AuthProvider`. Each is a class over the fields `user`,
  `session`, `isAuthenticated`, `isLoading` and `error`. The `authToken`
  entry sits in a shared `localStorage` object. Refresh, login, register
  and logout take the remote call's result as an input.
- **The route guards** are `ProtectedRoute`, the edge `middleware`, the
  landing page and the sign-out page. Each is modelled as the navigations
  it issues and what it renders.
- **The task screens**:
  - the form's validation (trimmed title of at most 200 UTF-16 code units,
    description of at most 500);
  - the form's create and changed-fields-only update bodies;
  - the list's toggle and delete, which report to the page only after the
    server accepted them;
  - the page's replace-by-id, remove-by-id and prepend.
- **The chat page**:
  - it selects the conversation with the latest activity and maps stored
    history into the transcript;
  - on submit it only appends to the transcript;
  - it keeps `conversation_id` in `localStorage`.
- **The sign-in form**: its mode toggle and what it dispatches to the
  session store.

Every remote call (`fetch`, the Better Auth client, `api.*`) is an input to
the operation that awaits it. That input is either the value the call
resolved with, or what it threw (`Outcome<T>`). `err instanceof Error ?
err.message : fallback` is `Wrappers.MessageOr`. Each event handler runs to
completion as one method. React state setters are field assignments in
source order.

One module per source file:

| module | file |
|---|---|
| `Wrappers` | shared value types |
| `Text` | JavaScript string operations |
| `Browser` | `localStorage` |
| `Users` | `src/types/user.ts` plus shared user conversion |
| `ApiClient` | `src/lib/api.ts` |
| `AuthContext` | `src/contexts/AuthContext.tsx` |
| `LegacyAuthProvider` | `src/components/AuthProvider.tsx` |
| `ProtectedRoute` | `src/components/ProtectedRoute.tsx` |
| `Middleware` | `middleware.ts` |
| `HomePage` | `src/app/page.tsx` |
| `LogoutPage` | `src/app/logout/page.tsx` |
| `LoginForm` | `src/components/LoginForm.tsx` |
| `Tasks` | `src/types/task.ts` plus the list transforms |
| `TaskForm` | `src/components/TaskForm.tsx` |
| `TaskList` | `src/components/TaskList.tsx` |
| `TasksPage` | `src/app/tasks/page.tsx` |
| `ChatPage` | `src/app/chat/page.tsx` |

Where the design description of the system and the code disagree, the model
follows the code:

- The completion toggle is not optimistic and has no rollback. The list
  reports the server's task to the page only after the PATCH succeeds
  (`src/components/TaskList.tsx:31-49`).
- `ProtectedRoute` navigates to `fallbackPath` exactly as given. It adds no
  callback parameter (`src/components/ProtectedRoute.tsx:26-28`). Only the
  edge middleware carries `callbackUrl` (`middleware.ts:20-22`).
- A non-2xx response whose body is not JSON is reported as a network error
  with status 0, not with its HTTP status (see Findings).
- A failed remote sign-out keeps `authToken` in storage. The token is
  removed only after `signOut()` resolves
  (`src/contexts/AuthContext.tsx:166-175`), not "even if the remote call
  fails".
- `conversation_id` stays in storage on sign-out. Neither `logout` nor
  `authApi.logout` (`src/lib/api.ts:202-206`) removes it.

## Model

| member | source | states |
|---|---|---|
| Wrappers.MessageOr | src/contexts/AuthContext.tsx:115 | an `Error` contributes its own message; any other thrown value gives the fallback |
| Browser.LocalStorage.GetItem | src/lib/api.ts:36 | null exactly for a missing key, otherwise the stored text |
| Browser.LocalStorage.SetItem | src/contexts/AuthContext.tsx:107 | the key maps to the value; every other key is kept |
| Browser.LocalStorage.RemoveItem | src/lib/api.ts:204 | only that key is removed |
| Text.ContainsAt | src/components/AuthProvider.tsx:173 | `includes` holds whenever the part occurs at some index |
| Text.OccurrenceOf | src/components/AuthProvider.tsx:173 | a contained part occurs at some index (converse of ContainsAt) |
| Text.ContainsTransitive | src/components/AuthProvider.tsx:173 | containment is transitive |
| Text.BeforeFirst | src/contexts/AuthContext.tsx:51 | `split(sep)[0]` is a prefix free of `sep`, ending at the end or just before a `sep` |
| Text.BeforeFirstUnique | src/contexts/AuthContext.tsx:51 | those three facts determine `split(sep)[0]` |
| Text.Trim | src/components/TaskForm.tsx:53 | `trim` never lengthens, and a non-empty result starts and ends with a non-space character |
| Text.TrimSpec | src/components/TaskForm.tsx:53 | `trim` drops white space at both ends only, keeps a text with non-space ends, and is empty iff the input is all white space |
| Text.TrimEmpty | src/components/TaskForm.tsx:53 | the trimmed title is empty exactly when the input is all white space |
| Text.TrimIdempotent | src/components/TaskForm.tsx:53-55 | trimming twice is trimming once |
| Text.CollapseSpaces | src/contexts/AuthContext.tsx:130 | `replace(/\s+/g, '_')` leaves no white space and never lengthens |
| Text.CollapseSpacesKeepsWord | src/contexts/AuthContext.tsx:130 | a prefix without white space passes through unchanged and in order in front of the rest |
| Text.CollapseSpacesRun | src/contexts/AuthContext.tsx:130 | a maximal run of white space, of any length, becomes exactly one '_' |
| Text.CollapseSpacesNoSpace | src/contexts/AuthContext.tsx:130 | a text without white space is unchanged |
| Text.LowerChar | src/contexts/AuthContext.tsx:131 | an ASCII or Latin-1 capital becomes its own lower-case letter (code point + 32); every other character is unchanged (see Left out for capitals beyond Latin-1); the result is never a modelled capital |
| Text.ToLower | src/contexts/AuthContext.tsx:131 | `toLowerCase` lowers each character in place (within the modelled letters, see Left out) |
| Text.ToLowerAppend | src/contexts/AuthContext.tsx:131 | lower-casing distributes over concatenation |
| Text.Utf16Length | src/components/TaskForm.tsx:55 | `.length` lies between the character count and twice it; one character counts 2 code units above U+FFFF and 1 otherwise |
| Text.Utf16LengthBmp | src/components/TaskForm.tsx:55 | on Basic Multilingual Plane text, `.length` is the character count |
| Text.Utf16LengthAstral | src/components/TaskForm.tsx:55 | on text made only of characters above U+FFFF, `.length` is twice the character count |
| Text.Utf16LengthAppend | src/components/TaskForm.tsx:59 | `.length` adds up over concatenation |
| Text.NatToString | src/lib/api.ts:70 | decimal text is non-empty, all digits, and has no leading zero |
| Text.NatToStringRoundTrip | src/lib/api.ts:70 | decimal text reads back as the number |
| Text.DigitRun | src/app/chat/page.tsx:44 | the digit run at the start is all digits and maximal |
| Text.DigitRunValue | src/app/chat/page.tsx:44 | there is no value exactly when the text does not start with a digit |
| Text.ParseInt | src/app/chat/page.tsx:44 | text without any digit parses to NaN (None) |
| Text.ParseIntRoundTrip | src/app/chat/page.tsx:42-44 | `parseInt` of a stored `id.toString()` gives the id back |
| Text.ParseIntDigits | src/app/chat/page.tsx:44 | `parseInt` of a natural number's decimal text gives the number |
| Text.ParseIntNegative | src/app/chat/page.tsx:44 | `parseInt` of '-' followed by decimal text gives the negated number |
| Users.ConvertUser | src/contexts/AuthContext.tsx:47-56 | keeps the id and e-mail and is always active (the name rule is ConvertUserSpec) |
| Users.ConvertUserSpec | src/contexts/AuthContext.tsx:47-56 | identity, e-mail and timestamps are kept; always active; username is `name` when truthy, else the e-mail text before the first '@' |
| Users.UseAuth | src/components/AuthProvider.tsx:253-258 | succeeds iff a provider is mounted, returning its value; otherwise throws 'useAuth must be used within an AuthProvider' |
| ApiClient.StoredToken | src/lib/api.ts:34-39 | the stored `authToken` or null |
| ApiClient.AuthHeaders | src/lib/api.ts:42-48 | always `Content-Type: application/json`; `Authorization: Bearer <token>` iff the token is non-empty; no other header |
| ApiClient.RequestHeaders | src/lib/api.ts:57-63 | the union of the default and caller headers, with the caller's value winning on a shared key |
| ApiClient.AuthorizationIffToken | src/lib/api.ts:34-63 | a request carries the bearer header iff the stored token is non-empty, and always the JSON content type |
| ApiClient.Classify | src/lib/api.ts:65-111 | a rejected `fetch` is the status-0 network error; a success needs a 2xx response (the full classification is FailureKinds) |
| ApiClient.ClassifyAsWritten | src/lib/api.ts:69-85 | the code as written fails on exactly the inputs the corrected reading fails on; only the error differs |
| ApiClient.NonOkFailsWithStatus | src/lib/api.ts:69-107 | a non-2xx response fails with its own status; the message is the body's truthy `message`, else `HTTP Error: <status> <statusText>`; a `message` that `String()` cannot convert makes `new ApiError` throw a `TypeError`, reported as the status-0 network error |
| ApiClient.OwnToStringMessageIsNetworkError | src/lib/api.ts:8-13 | a 404 body `{"message": {"toString": 1}}` comes out as the status-0 network error in both readings; a message object without its own `toString` prints as `[object Object]` |
| ApiClient.AsWrittenLosesStatus | src/lib/api.ts:69-85 | a 500 response with an HTML body comes out as status 0 'Network error or invalid URL' as written, and as status 500 as intended |
| ApiClient.AsWrittenNonJsonErrorIsNetworkError | src/lib/api.ts:73-83 | as written, every non-2xx response whose body is not JSON becomes the status-0 network error |
| ApiClient.AsWrittenAgreesElsewhere | src/lib/api.ts:65-111 | the code as written and the corrected classification agree on all other inputs |
| ApiClient.NoContentIsEmptyObject | src/lib/api.ts:89-91 | status 204 gives `{}` whatever the body |
| ApiClient.SuccessUnwrapsEnvelope | src/lib/api.ts:93-100 | a 2xx JSON body gives its `data` field iff it is a `{data}` object, and is returned as it is otherwise |
| ApiClient.FailureKinds | src/lib/api.ts:101-111 | success iff a 2xx response is 204 or parses; every failure is status 0 (network), status 500 (unparsable 2xx body) or the non-2xx status |
| ApiClient.KeptParams | src/lib/api.ts:120-124 | filtering never adds entries |
| ApiClient.KeptParamsAppend | src/lib/api.ts:120-124 | filtering distributes over concatenation, so entry order is kept |
| ApiClient.KeptParamsMembership | src/lib/api.ts:120-124 | an entry is kept with its key and `toString()` iff its value is neither undefined nor null |
| ApiClient.GetTarget | src/lib/api.ts:118-126 | the `forEach` loop builds exactly the filtered entries; a query is present iff a params object is given, even when nothing survives |
| ApiClient.PostBody | src/lib/api.ts:137 | a body is sent iff `data` is truthy, and it is `data` |
| ApiClient.AuthLogout | src/lib/api.ts:202-206 | only `authToken` is removed from storage |
| AuthContext.ReplyToken | src/contexts/AuthContext.tsx:104 | the token is `token` when truthy, else `access_token` when truthy, else none; a token found is non-empty |
| AuthContext.NormalizeUsername | src/contexts/AuthContext.tsx:129-131 | a derived username holds no white space and no upper-case letter |
| AuthContext.NormalizeUsernameSpec | src/contexts/AuthContext.tsx:129-131 | the username has no white space and no upper-case letter, is no longer than its source (in the model, see Left out), and is the lower-cased source when that has no white space |
| AuthContext.NormalizeUsernameWord | src/contexts/AuthContext.tsx:129-131 | a stretch without white space is kept in order, lower-cased, in front of the rest |
| AuthContext.NormalizeUsernameRun | src/contexts/AuthContext.tsx:129-131 | each maximal run of white space becomes one '_' and the empty text stays empty; with NormalizeUsernameWord this fixes every username |
| AuthContext.NormalizeUsernameIdempotent | src/contexts/AuthContext.tsx:129-131 | normalising a normalised username changes nothing |
| AuthContext.RefreshedUser | src/contexts/AuthContext.tsx:65-80 | a user remains iff the current-user call resolved with one, and it is that user |
| AuthContext.AuthStore.constructor | src/contexts/AuthContext.tsx:40-44 | starts loading, with nobody signed in and no error |
| AuthContext.AuthStore.RefreshUser | src/contexts/AuthContext.tsx:59-90 | authenticated iff a truthy user came back, which is then held; otherwise signed out; never throws; error cleared; loading ends |
| AuthContext.AuthStore.AcceptToken | src/contexts/AuthContext.tsx:104-120 | a truthy token is stored under `authToken` and the user refreshed; with none the no-token error is thrown; every failure is recorded, rethrown, and leaves user, flag and storage unchanged |
| AuthContext.AuthStore.Login | src/contexts/AuthContext.tsx:93-121 | posts the credentials, then the token rules above with 'Login failed - no token returned' and fallback 'Login failed'; loading ends |
| AuthContext.AuthStore.Register | src/contexts/AuthContext.tsx:124-157 | posts the derived username (name or e-mail prefix, white-space runs to '_', lower-cased), then as login with the registration messages |
| AuthContext.AuthStore.Logout | src/contexts/AuthContext.tsx:160-186 | always signed out; the token is removed only when sign-out resolved; a failure records its message |
| LegacyAuthProvider.SessionUser | src/components/AuthProvider.tsx:73 | `user` when present, else `data.user` |
| LegacyAuthProvider.LoginErrorText | src/components/AuthProvider.tsx:132-139 | never empty; any text other than the message itself is one of the three fixed login texts |
| LegacyAuthProvider.LoginErrorTextCases | src/components/AuthProvider.tsx:132-139 | the credential test wins, then the rate-limit test, then the raw message or 'Login failed'; never empty |
| LegacyAuthProvider.RegisterErrorText | src/components/AuthProvider.tsx:172-179 | never empty; any text other than the message itself is one of the three fixed registration texts |
| LegacyAuthProvider.RegisterErrorTextOnlyAlready | src/components/AuthProvider.tsx:172-179 | 'User already exists' implies 'already', so 'already' alone selects the duplicate-account text; otherwise the rate-limit text, the raw message or 'Registration failed' |
| LegacyAuthProvider.ReplyFailure | src/components/AuthProvider.tsx:127-142 | no throw iff the reply is truthy without error; a falsy reply throws the no-response text; an error throws the mapped message or `toString()` |
| LegacyAuthProvider.LegacyAuthStore.constructor | src/components/AuthProvider.tsx:39-43 | starts loading with nobody signed in |
| LegacyAuthProvider.Refreshed | src/components/AuthProvider.tsx:58-109 | a session user is converted and held with the session; otherwise the API user authenticates, keeping the prior session; every other outcome signs out; an error is recorded iff the session call threw; a held user implies the flag |
| LegacyAuthProvider.LegacyAuthStore.RefreshUser | src/components/AuthProvider.tsx:58-109 | the new user, session, flag and error are exactly `Refreshed` of the prior session and the two calls; loading ends |
| LegacyAuthProvider.LegacyAuthStore.AcceptReply | src/components/AuthProvider.tsx:126-150 | after a successful reply the state is exactly `Refreshed` of the follow-up session and user calls; otherwise records and rethrows, leaving user, session and flag unchanged |
| LegacyAuthProvider.LegacyAuthStore.Login | src/components/AuthProvider.tsx:112-151 | signs in with `rememberMe` and `callbackURL` (default '/dashboard'), then as above with the login messages; a successful sign-in ends in the `Refreshed` state |
| LegacyAuthProvider.LegacyAuthStore.Register | src/components/AuthProvider.tsx:154-191 | signs up with `name` or the e-mail prefix as typed (not lower-cased), then as above with the registration messages; a successful sign-up ends in the `Refreshed` state |
| LegacyAuthProvider.LegacyAuthStore.Logout | src/components/AuthProvider.tsx:194-220 | always signed out; the token is removed only when sign-out resolved; a failure records its message |
| ProtectedRoute.RequireAuth | src/components/ProtectedRoute.tsx:16 | an omitted `requireAuth` is true |
| ProtectedRoute.FallbackPath | src/components/ProtectedRoute.tsx:17 | an omitted `fallbackPath` is '/login' |
| ProtectedRoute.Navigations | src/components/ProtectedRoute.tsx:23-34 | no push while loading and at most one push (the full rule is NavigationsSpec) |
| ProtectedRoute.NavigationsSpec | src/components/ProtectedRoute.tsx:23-34 | no push while loading; at most one push; the fallback path unchanged when a session is missing, '/tasks' when an unwanted session is present; a push iff one of those holds |
| ProtectedRoute.Render | src/components/ProtectedRoute.tsx:37-56 | the placeholder shows iff loading; the children never show to a guest on a route that needs a session |
| ProtectedRoute.RenderMatchesNavigations | src/components/ProtectedRoute.tsx:37-56 | the placeholder shows iff loading; once loaded, the children show iff the effect navigates nowhere |
| ProtectedRoute.DefaultProps | src/components/ProtectedRoute.tsx:16-34 | with default props a loaded guest is sent to '/login' and sees nothing, and a signed-in user sees the children |
| Middleware.SecondChar | middleware.ts:12-29 | a path starting with a prefix shares the prefix's second character |
| Middleware.PrefixSetsDisjoint | middleware.ts:12-29 | no path is both protected and a sign-in path |
| Middleware.Decide | middleware.ts:12-35 | the request passes on iff neither redirect condition holds, and redirects go only to '/login' or '/dashboard' |
| Middleware.DecideSpec | middleware.ts:12-35 | a redirect to '/login' with `callbackUrl` = path iff protected without session; to '/dashboard' iff sign-in path with session; otherwise pass on |
| Middleware.RawPrefixMatch | middleware.ts:12-15 | '/profiles' is protected |
| Middleware.ApiProtectedNeverMatched | middleware.ts:47 | the matcher excludes every '/api/protected…' path |
| Middleware.MatchedProtection | middleware.ts:12-47 | on matched paths, protection is decided by '/dashboard' and '/profile' alone |
| HomePage.Navigations | src/app/page.tsx:12-20 | no push while loading; once loaded exactly one, '/tasks' iff authenticated and '/login' iff not |
| LogoutPage.Effects | src/app/logout/page.tsx:12-19 | `logout` is called iff authenticated and comes first; the push to '/login' and then the refresh always end the sequence |
| LogoutPage.HandleLogout | src/app/logout/page.tsx:12-19 | the effects above against the live store; a signed-in store ends with no user or session and not loading, with the token removed and no error when sign-out resolved, or storage kept and 'Logout failed' (or the thrown message) when it threw; a signed-out store and storage are untouched |
| LoginForm.DispatchFor | src/components/LoginForm.tsx:18-31 | login iff in login mode, with callback '/tasks'; register with name = e-mail text before the first '@'; credentials as typed |
| LoginForm.Form.constructor | src/components/LoginForm.tsx:8-12 | empty fields, login mode, no error |
| LoginForm.Form.SetEmail | src/components/LoginForm.tsx:62 | only the e-mail changes |
| LoginForm.Form.SetPassword | src/components/LoginForm.tsx:76 | only the password changes |
| LoginForm.Form.Submit | src/components/LoginForm.tsx:14-35 | dispatches per mode; a failure shows the thrown message or 'An error occurred'; success leaves no error on the form or the store, the token stored under `authToken` and the store holding the refreshed user; a failure leaves storage, user and flag as they were, with the store's error the thrown message, the mode's fallback or the no-token message |
| LoginForm.Form.Toggle | src/components/LoginForm.tsx:93-96 | flips the mode and clears the error; the credentials stay |
| LoginForm.Form.Render | src/components/LoginForm.tsx:37-101 | the form is hidden iff authenticated; heading and labels follow the mode and 'Processing...' while loading |
| Tasks.ReplaceById | src/app/tasks/page.tsx:41 | same length; each entry is the update where the id matches, else unchanged |
| Tasks.RemoveById | src/app/tasks/page.tsx:51 | never longer; a task remains iff it was there and has another id |
| Tasks.FindById | src/components/TaskList.tsx:33 | none iff no task has the id; otherwise the first task with it |
| Tasks.ReplaceByIdIdempotent | src/app/tasks/page.tsx:41 | replacing twice is replacing once |
| Tasks.ReplaceByIdAbsent | src/app/tasks/page.tsx:41 | an absent id leaves the list unchanged |
| Tasks.RemoveByIdAppend | src/app/tasks/page.tsx:51 | removal distributes over concatenation, so relative order is kept |
| Tasks.RemoveByIdAbsent | src/app/tasks/page.tsx:51 | an absent id leaves the list unchanged |
| Tasks.RemoveAfterReplace | src/app/tasks/page.tsx:41-51 | removing after replacing the same id equals removing alone |
| Tasks.FindIffRemoves | src/components/TaskList.tsx:33 | a lookup finds the id iff removal by it shortens the list |
| TaskForm.Validate | src/components/TaskForm.tsx:50-65 | 'Title is required' iff the trimmed title is empty; the too-long title error iff it exceeds 200 code units; the description error iff the untrimmed description exceeds 500 |
| TaskForm.ValidateIgnoresTitlePadding | src/components/TaskForm.tsx:53-56 | validation sees the title only through its trimmed form |
| TaskForm.TitleBoundary | src/components/TaskForm.tsx:55-56 | a 200-character title of Basic Multilingual Plane characters is accepted, 201 refused |
| TaskForm.TitleAstralBoundary | src/components/TaskForm.tsx:55-56 | a title of characters above U+FFFF is accepted at 100 characters and refused at 101, since the limit counts code units |
| TaskForm.ValidCreatePayload | src/components/TaskForm.tsx:102-105 | a valid form creates a non-empty title of at most 200 code units with non-space ends, and a description of at most 500 |
| TaskForm.TrimmedNoLonger | src/components/TaskForm.tsx:104 | trimming never lengthens text in code units |
| TaskForm.UpdatePayload | src/components/TaskForm.tsx:91-93 | a field is sent iff the raw input differs from the task's, and sent trimmed |
| TaskForm.UpdatePayloadUnchanged | src/components/TaskForm.tsx:91-93 | an untouched form sends an empty body; a padding-only title change is still sent |
| TaskForm.SubmitCall | src/components/TaskForm.tsx:89-107 | PUT of the update body to the task's path when editing, POST of the create body otherwise |
| TaskForm.Form.constructor | src/components/TaskForm.tsx:25-30 | empty inputs, no errors, not loading |
| TaskForm.Form.Prefill | src/components/TaskForm.tsx:32-48 | the inputs take the task's values (or clear), the errors clear, loading is kept |
| TaskForm.Form.Change | src/components/TaskForm.tsx:67-77 | the named input is set and only its error cleared |
| TaskForm.Form.Submit | src/components/TaskForm.tsx:79-131 | errors are always replaced by validation; no request when invalid or loading; otherwise the call is sent, a result reaches `onSubmit` if given, a failure's message becomes the title error, and loading ends false |
| TaskList.EditNotice | src/components/TaskList.tsx:71-80 | `onTaskFormToggle` first, else `onTaskEdit`, else none |
| TaskList.List.constructor | src/components/TaskList.tsx:26-28 | no error, no edit |
| TaskList.List.ToggleCompletion | src/components/TaskList.tsx:31-49 | an unknown id sends nothing; otherwise the negated flag is patched, the server's task is reported only on success, and a failure sets the error; once set, the error stays set |
| TaskList.List.Delete | src/components/TaskList.tsx:52-65 | the delete is always sent; reported only on success; a failure sets the error, which stays set |
| TaskList.List.EditClick | src/components/TaskList.tsx:71-80 | notifies per the priority, or starts inline editing with the task's title |
| TaskList.List.SaveEdit | src/components/TaskList.tsx:82-87 | leaves edit mode only when an id is being edited; sends nothing; the text stays |
| TaskList.List.CancelEdit | src/components/TaskList.tsx:89-92 | leaves edit mode and clears the text |
| TasksPage.Page.constructor | src/app/tasks/page.tsx:14-18 | empty list, loading, no error, no form |
| TasksPage.Page.FetchTasks | src/app/tasks/page.tsx:20-33 | nothing without a user id; success replaces the list in server order; failure keeps it with the fixed message; loading ends false |
| TasksPage.Page.HandleTaskUpdate | src/app/tasks/page.tsx:40-43 | the list becomes its replace-by-id |
| TasksPage.Page.HandleTaskEdit | src/app/tasks/page.tsx:45-48 | the form opens on the task |
| TasksPage.Page.HandleTaskDelete | src/app/tasks/page.tsx:50-53 | the list becomes its remove-by-id |
| TasksPage.Page.HandleSubmitTask | src/app/tasks/page.tsx:56-66 | replace-by-id when editing, else prepend; the form closes |
| TasksPage.Page.HandleCancelForm | src/app/tasks/page.tsx:69-72 | the form closes, the list stays |
| TasksPage.Page.AddNewTask | src/app/tasks/page.tsx:91-94 | an empty form opens |
| TasksPage.Page.Deliver | src/app/tasks/page.tsx:114-122 | each list report reaches its handler; both edit callbacks open the form; update and delete reports leave the form state alone |
| TasksPage.Page.ToggleFromList | src/components/TaskList.tsx:31-49 | end to end: a listed id sends the PATCH of its negated flag; the page's list changes only after an accepted toggle, and then by replace-by-id; the page's other fields stay; the list's error is set to the thrown message or fallback on failure and kept otherwise |
| TasksPage.Page.DeleteFromList | src/components/TaskList.tsx:52-65 | end to end: the page drops the task only after an accepted delete; the page's other fields stay; the list's error is kept on success and set to the thrown message or fallback on failure |
| ChatPage.SentConversationId | src/app/chat/page.tsx:152 | the id is sent iff truthy (0 counts as none) |
| ChatPage.MostRecentIndex | src/app/chat/page.tsx:66-68 | the `reduce` ends on a latest conversation, the last one among ties |
| ChatPage.MostRecent | src/app/chat/page.tsx:66-68 | a member of the list with maximal activity |
| ChatPage.MostRecentIndexUnique | src/app/chat/page.tsx:66-68 | those facts determine the chosen index |
| ChatPage.MapHistory | src/app/chat/page.tsx:105-111 | same length and order; id `<id>-<timestamp>`, role from `sender_type`, content kept |
| ChatPage.MapHistoryAppend | src/app/chat/page.tsx:105-111 | the mapping distributes over concatenation |
| ChatPage.ToolMessage | src/app/chat/page.tsx:183-188 | a tool message is an assistant message |
| ChatPage.ToolMessages | src/app/chat/page.tsx:181-191 | one message per tool call, in order |
| ChatPage.Page.constructor | src/app/chat/page.tsx:31-35 | empty transcript, list and selection, not loading |
| ChatPage.Page.LoadConversations | src/app/chat/page.tsx:50-76 | a request iff there is a user id and a stored token; a parsed list of a sent request replaces the conversations, anything else keeps them; with a falsy selection and a non-empty list, the most recent is selected and stored; otherwise selection and storage are unchanged |
| ChatPage.Page.LoadConversationHistory | src/app/chat/page.tsx:93-117 | a parsed history replaces the transcript, non-2xx keeps it, a throw clears it |
| ChatPage.Page.SelectionChanged | src/app/chat/page.tsx:79-83 | history is requested for a truthy selection with a user id and a stored token; the transcript then becomes the mapped history, stays on non-2xx, and empties on a throw; without a request it is unchanged; the input and loading flag never change |
| ChatPage.Page.Mount | src/app/chat/page.tsx:39-47 | nothing when signed out; otherwise the list is requested iff there is a user id and a stored token and a parsed list replaces the conversations; the stored id is parsed into the selection, and an auto-selection from a non-empty list overrides it and is stored as `conversation_id` |
| ChatPage.Page.CreateNewConversation | src/app/chat/page.tsx:120-124 | empty transcript, no selection, `conversation_id` removed |
| ChatPage.Page.AppendToolMessages | src/app/chat/page.tsx:181-191 | the loop appends exactly the tool messages, in order |
| ChatPage.Page.ReceiveReply | src/app/chat/page.tsx:160-191 | appends the answer and then the tool messages; a falsy reply id leaves selection, list and storage alone; a truthy one is selected and stored, the list is reloaded, and when the handler started without a selection a non-empty reloaded list's most recent conversation replaces it in both |
| ChatPage.Page.HandleSubmit | src/app/chat/page.tsx:126-206 | a no-op for blank input or in flight; otherwise the untrimmed input and then the reply and tool messages, or exactly one apology, are appended; the transcript only grows; a truthy reply id is selected and stored and the list reloaded, except that the first message of a new chat ends on the most recent conversation of a non-empty reloaded list; loading ends false |

## Left out

- The network, `fetch`, the Better Auth client and server, and `api.user.getCurrentUser` are not modelled. Each is an input: what it resolved with, or what it threw.
- The base URL (`NEXT_PUBLIC_API_URL`) and the `typeof window` server-side checks are left out. Requests are identified by their path, and storage is always present.
- Floating-point JSON numbers are not modelled: JSON numbers are integers.
- `AuthContext.TokenReply` cannot be null. A login or register reply that resolves with `null` (a JSON `null` body, or an envelope with `data: null`) throws a `TypeError` at `response.token` (`src/contexts/AuthContext.tsx:104`); it is represented as a `Fail(ErrorValue(<that TypeError's message>))` reply, which leads to the same state.
- These are not modelled: `JSON.stringify` formatting of bodies and tool-call arguments, `URLSearchParams` percent-encoding, and the `Headers`-instance form of caller headers.
- `Object.entries` is assumed to give the params in the caller's order. `get` is modelled as the target it builds.
- `ApiClient.ClassifyAsWritten`, `ApiClient.Classify`: an `ApiError`'s `data` for a caught exception is opaque. It is the exception's own text or object.
- The wrappers `put`, `patch`, `del`, `taskApi` and `userApi` are not modelled beyond the calls the task screens send.
- The 5-minute `setInterval` refresh and its teardown are timer concurrency. They are left out in both session stores.
- Interleaving of overlapping async handlers is not modelled: every handler runs to completion.
- React's batched and stale-closure state is modelled only where it changes a result inside one handler. The chat page reloads conversations with the selection the handler started with, and on mount it uses the first render's selection.
- `Text.LowerChar`, `Text.ToLower`: lower-case ASCII and Latin-1 letters only; capitals beyond Latin-1 (U+0100 'Ā', Greek, Cyrillic and others) stay unchanged in the model where `toLowerCase` lowers them, because full Unicode case mapping is out of reach. That it keeps the length holds of the model only: `toLowerCase` can lengthen text (U+0130 becomes two code units).
- `AuthContext.NormalizeUsernameSpec`: "no longer than its source" holds of the model only, for the same reason.
- `Text.ParseInt`: reads decimal text only. `parseInt`'s `0x` prefix is not modelled. NaN is None, which the chat page treats like any falsy id.
- `ChatPage.Page.HandleSubmit`: the message ids use one clock reading `now` (`now`, `now + 1`, `now + 2`, and `now` for every tool message). Separate `Date.now()` calls may differ. The `timestamp` fields are not kept.
- `ChatPage.Conversation`: `last_activity` is its parsed time as an integer, so `Date` parsing is not modelled.
- `ChatPage.Page.HandleSubmit`: the `data.response` of a reply is taken to be a string.
- The chat page's scroll effect and the input `onChange` are presentational. So are all JSX markup, CSS and `Navbar.tsx`.
- `TaskForm.Form.Prefill`: a null `description` on a task is not modelled. Task descriptions are strings.
- `AuthContext.AuthStore.Login`: the live store's login takes no `callbackURL`, so the '/tasks' the sign-in form passes is dropped.
- `Middleware.Matched`: models the matcher's regular expression directly, not Next.js's path-to-regexp compilation of it.
- The Better Auth session lookup is a flag: the middleware sees only whether a session exists.
- These files are configuration, demos or live scripts: `src/lib/auth.ts`, `src/lib/server-auth.ts`, `src/lib/integration-test.ts`, `src/components/AuthProvider.example.tsx`, `src/app/layout.tsx`, `src/app/api/health/route.ts`, `install.js` and `next.config.js`.

## Findings

| source | as written | input that shows it | evidently intended | confidence | as-written member | corrected member |
|---|---|---|---|---|---|---|
| src/lib/api.ts:69-85 | `response.json()` consumes the body even when it fails to parse. The fallback `response.text()` then rejects with a `TypeError`, and the outer catch turns that into status 0 'Network error or invalid URL'. A JSON `null` body fails the same way, at `errorData.message`. | a 500 response with body `<html></html>` | `ApiError('HTTP Error: 500 …', 500, body text)` | not executed | ApiClient.ClassifyAsWritten (AsWrittenLosesStatus, AsWrittenNonJsonErrorIsNetworkError) | ApiClient.Classify (NonOkFailsWithStatus, FailureKinds) |
