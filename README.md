# Timely task front end — session and task-view model

This project models the client-side logic of Timely, a browser front end for
a task list. Users sign in or register, and the app keeps the returned bearer
token under the `token` key of the browser's storage. A route guard and every
task page check that token on mount. The Work page (`Работа`) and the
Personal page (`Личный`) list, add and delete the tasks of one category. The
All page shows every task, grouped by category, sorted by due date or by
title, with a collapse toggle per category.

Modules:

- `Wrappers`: `Option`, for JavaScript fields that may be absent.
- `Api`: the task record, the reply a request can get, the effects a handler
  has (requests sent, toasts shown, navigations), the user-facing texts, and
  how a failure becomes the text the user sees.
- `Session`: the token check (`Check`, `Guard`), the storage entry
  (`TokenStore`), the route guard and logout.
- `Routes`: the static route table, and which routes sit behind the guard.
- `StableSort`: a stable sort by key. It is proved sorted, a permutation and
  order-preserving on ties, and shown to be the only result a stable sort can
  give.
- `TaskViews`: the category page as the class `TaskView`. One class serves
  both pages, with the category as a constructor argument: the Work page is
  a `TaskView` built with `WorkCategory` ("Работа"), the Personal page one
  built with `PersonalCategory` ("Личный"). The category goes into every
  list request and every created task.
- `AllTasks`: grouping, sections and toggles as pure functions with lemmas,
  and the page state as the class `AllView`.
- `Login`: the login/registration form as the class `LoginForm`.

Environment inputs are parameters:

- the JWT decoder is `decode: string -> Option<Claims>`; `None` means the
  decoder throws;
- the clock is an integer `now`, in the same unit as the `exp` claim;
- each network call is a given `Reply`: `Ok(body)`, `HttpError(status,
  error)` for a non-2xx response, or `NetworkFailure(message)` for a call
  that rejected, with the browser's message;
- `localeCompare` is a collation key `collate: string -> real`. Any total
  preorder on strings can be written this way;
- a due date is its parsed time value, an `int`.

Each handler runs atomically given its reply. It returns the effects it had,
in order.

Behaviour kept from the code:

- The expiry test is strict `exp < now`. A token with `exp == now` passes,
  and a token without an `exp` claim never expires.
- On mount, a decodable but expired token is removed, and the user is
  redirected. The list request is still sent with that token, and a
  successful reply still replaces the list.
- On mount, an unexpired token without an email redirects to /login without removing
  the token.
- In add and delete, the token is decoded outside the `try` block. A token
  the decoder rejects abandons the handler with no effect.
- Delete removes every task whose id equals the given id.
- A failure shows the connectivity text only when the thrown message is
  exactly "Failed to fetch". That includes a server error whose message is
  that string. Any other browser message is shown as it is.
- Login stores the string "undefined" when the success body has no token.
- A missing entry in the expanded map reads as collapsed. Toggling it stores
  `true`.
- A task whose category is not one of the six forms its own group, which is
  never shown.
- An empty string in storage is falsy, so it counts as no token: the guard
  and the mount checks show the sign-in notice and leave storage alone, and
  add and delete report an unauthorised user.
- The route guard and the pages' mount checks both decide through the same
  `Session.Check`, so they accept exactly the same tokens.

## Model

| member | source | states |
|---|---|---|
| `Api.ThrownMessage` | src/components/work/Work.jsx:451-466 | a failed reply throws the server's `error` field when it is a non-empty string, and the fallback when it is absent or empty; a rejected call throws the browser's message |
| `Api.Notice` | src/components/work/Work.jsx:469-471 | "Failed to fetch" becomes the connectivity text; any other non-empty message is shown as it is; an empty one gives the fallback |
| `Api.FailureTextCases` | src/components/work/Work.jsx:465-471 | a rejected fetch with the message "Failed to fetch" shows the connectivity text, and one with any other non-empty message shows that message; a server error whose message is "Failed to fetch" also shows the connectivity text; one with any other message shows exactly that message; one without a message shows the fallback; the text is never empty |
| `Api.AfterReply` | src/components/private/Private.jsx:424-450 | after a request: the success effects on a 2xx reply; the expired toast and a redirect to /login on a 401; on any other failure exactly one error toast carrying `FailureText` of the reply, and no further request |
| `Session.Check` | src/components/work/Work.jsx:389-426 | no token (absent or the empty string), undecodable token, expired (`exp < now`) or valid, in terms of the raw token, the decoder and the clock; `exp == now` and a missing `exp` are valid |
| `Session.EmailOf` | src/components/work/Work.jsx:508-509 | the email is non-empty exactly when a present token decodes to claims with a non-empty `email`, and then it is that claim |
| `Session.RejectText` | src/routes/AppRoutes.jsx:21-54 | the sign-in notice exactly for no token, the token-error notice exactly for an undecodable token, the session-expired notice exactly for an expired one |
| `Session.Guard` | src/routes/AppRoutes.jsx:16-65 | no token (absent or empty): redirect to /login with storage untouched; undecodable or `exp < now`: token removed and redirect; otherwise render with storage unchanged |
| `Session.GuardIdempotent` | src/routes/AppRoutes.jsx:33-50 | running the guard again on the storage it leaves gives the same decision and changes nothing more |
| `Session.GuardMonotoneInTime` | src/routes/AppRoutes.jsx:35-36 | a token accepted at some moment is accepted at every earlier moment |
| `Session.TokenStore.ProtectedRoute` | src/routes/AppRoutes.jsx:16-65 | outcome and new stored token are the guard's decision; one error toast exactly when it redirects |
| `Session.TokenStore.Logout` | src/components/sidebar/Sidebar.jsx:180-184 | the token is removed and the user navigated to /login |
| `Routes.MatchInCases` | src/routes/AppRoutes.jsx:92-186 | a path no route declares falls to the redirect to /login; a declared path gets the element of a route with that path |
| `Routes.LoginFirstCases` | src/routes/AppRoutes.jsx:93-186 | in a table headed by the public /login route with every other route guarded, /login shows the login page, other declared paths are guarded and undeclared ones redirect |
| `Routes.RouteTableCases` | src/routes/AppRoutes.jsx:93-185 | /login shows the login page unguarded; every other declared route is guarded; any undeclared path redirects to /login |
| `Routes.Visit` | src/routes/AppRoutes.jsx:94-184 | a page other than login is shown only when the session check passes; every redirect goes to /login |
| `Routes.VisitCases` | src/routes/AppRoutes.jsx:93-185 | a guarded page shows exactly when the check passes; after the guard redirects from a declared page, the storage holds no usable token |
| `StableSort.SortCorrect` | src/components/all/All.jsx:375-383 | the sorted group is ordered by key, is a permutation of the group, and keeps fetch order among equal keys |
| `StableSort.SortUnique` | src/components/all/All.jsx:376-382 | two sequences sorted by key that agree on the order within every key are equal |
| `StableSort.StableSortIsSort` | src/components/all/All.jsx:376 | any sorted result that keeps the order of ties, as a stable `Array.prototype.sort` gives, equals the model's sort |
| `TaskViews.WithField` | src/components/work/Work.jsx:484-486 | the named field takes the typed value; the other fields keep theirs |
| `TaskViews.WithoutIdMembers` | src/components/work/Work.jsx:615 | a task remains exactly when it was in the list and its id differs |
| `TaskViews.WithoutIdCount` | src/components/work/Work.jsx:615 | the list shrinks by exactly the number of tasks with that id, none remains, and nothing new appears |
| `TaskViews.WithoutIdAppend` | src/components/private/Private.jsx:507 | the filter distributes over concatenation, so the kept tasks stay in their original order |
| `TaskViews.WithoutIdStable` | src/components/private/Private.jsx:507 | deleting an absent id changes nothing; deleting twice equals deleting once |
| `TaskViews.TaskView.constructor` | src/components/work/Work.jsx:378-382 | a new page has no tasks, an empty form, and is neither loading nor authenticated |
| `TaskViews.TaskView.Mount` | src/components/work/Work.jsx:389-482 | failed check: the check's own notice (`RejectText`) and a redirect, token cleared unless missing; valid: authenticated; the list request, filtered on the view's category, is sent whenever a user with an email was decoded, even from an expired token, and its reply's effects follow exactly (`AfterReply`, so a failed list shows `FailureText`); a decoded user without an email gets the not-authorised notice and a redirect; success replaces the list, a 401 clears token and authentication, other failures leave the list; `loading` is false after every request |
| `TaskViews.TaskView.FetchTasks` | src/components/private/Private.jsx:320-371 | without an email: redirect only, token kept; otherwise the exact request and reply effects, with the list, token, authentication and `loading` after each reply |
| `TaskViews.TaskView.InputChange` | src/components/private/Private.jsx:376-378 | only the named draft field changes |
| `TaskViews.TaskView.AddTask` | src/components/work/Work.jsx:488-566 | unauthenticated: not-authorised toast and redirect only, checked before the fields; empty title or due date: the required-fields toast, no request, state unchanged; a token the decoder rejects: no effect at all; a token without an email: not-authorised toast and redirect, no request; otherwise one create request with the view's category; success appends exactly the server task and resets the draft; a 401 clears token and authentication; failures leave tasks and draft |
| `TaskViews.TaskView.DeleteTask` | src/components/work/Work.jsx:568-631 | unauthenticated: not-authorised toast and redirect only; a token the decoder rejects: no effect at all; a token without an email: not-authorised toast and redirect, no request; otherwise one delete request; success keeps exactly the tasks with another id, in order; a 401 clears token and authentication; failures leave the list; `loading` false after every request |
| `AllTasks.GroupKey` | src/components/all/All.jsx:368 | the catch-all exactly for a missing or empty category (or one already named so); otherwise the category itself |
| `AllTasks.GroupKeyCases` | src/components/all/All.jsx:367-370 | a task without a category is in the catch-all group; any other task is in the group named by its category |
| `AllTasks.GroupByCategoryLookup` | src/components/all/All.jsx:367-372 | the group of a key exists exactly when a task has that key, and holds exactly those tasks in fetch order |
| `AllTasks.GroupByCategoryDistinct` | src/components/all/All.jsx:369 | no two groups share a key |
| `AllTasks.GroupByCategoryCovers` | src/components/all/All.jsx:367-372 | the groups together hold exactly the fetched tasks, each as often as it was fetched |
| `AllTasks.GroupByCategorySize` | src/components/all/All.jsx:367-372 | the group sizes add up to the number of fetched tasks |
| `AllTasks.SectionsCorrect` | src/components/all/All.jsx:374-449 | one section per fixed category that has tasks, in the fixed order, with its expanded flag, holding the category's tasks sorted by date (`sortBy = "date"`) or title (any other value), stably |
| `AllTasks.SectionsShowExactly` | src/components/all/All.jsx:385-417 | a task is shown exactly when its group is one of the six fixed categories |
| `AllTasks.Toggled` | src/components/all/All.jsx:357-362 | only the toggled key changes, to the negation of its flag, where a missing flag counts as false |
| `AllTasks.ToggleTwice` | src/components/all/All.jsx:358-361 | toggling a present category twice restores the map |
| `AllTasks.AllView.constructor` | src/components/all/All.jsx:238-250 | initially no tasks, sorted by date, all six categories expanded |
| `AllTasks.AllView.Mount` | src/components/all/All.jsx:257-351 | the same session check and exact effects as the category pages, with the check's notice on failure and the list reply's effects after the request; the list request carries no category filter; success replaces the list, a 401 clears token and authentication, other failures leave the list |
| `AllTasks.AllView.FetchTasks` | src/components/all/All.jsx:296-348 | without an email: redirect only; otherwise the unfiltered request and reply effects, with the list, token, authentication and `loading` after each reply |
| `AllTasks.AllView.ChangeSort` | src/components/all/All.jsx:353-355 | only the sort choice changes |
| `AllTasks.AllView.ToggleCategory` | src/components/all/All.jsx:357-362 | the expanded map becomes `Toggled` of the old one; nothing else changes |
| `AllTasks.AllView.Render` | src/components/all/All.jsx:364-451 | blank exactly when not authenticated; the spinner exactly while loading; the empty state exactly with no tasks; otherwise the sections are `Sections` of the tasks, sort choice and toggles, at most six |
| `Login.WithField` | src/components/login/Login.jsx:279-281 | the named input takes the typed value; the others keep theirs |
| `Login.ValidationError` | src/components/login/Login.jsx:288-297 | no error exactly when email and password are non-empty and, in register mode, the username too; a missing email or password gives the fields error; otherwise a missing username in register mode gives the username error |
| `Login.LoginIgnoresUsername` | src/components/login/Login.jsx:293 | in login mode the username never affects validation |
| `Login.Endpoint` | src/components/login/Login.jsx:300 | /auth/register exactly in register mode, /auth/login exactly otherwise |
| `Login.StoredToken` | src/components/login/Login.jsx:315-317 | the stored value is the returned token when the body has one, and the string "undefined" when it has none |
| `Login.SubmitErrorText` | src/components/login/Login.jsx:309-333 | the connectivity text for "Failed to fetch", whether the browser or the server gave it; any other browser message as it is, and the generic error text for an empty one; the server's message when it has one; the submit fallback when it is empty; never empty |
| `Login.LoginForm.constructor` | src/components/login/Login.jsx:267-275 | login mode, empty form, no error, not loading |
| `Login.LoginForm.InputChange` | src/components/login/Login.jsx:279-281 | only the named input changes |
| `Login.LoginForm.ToggleMode` | src/components/login/Login.jsx:400 | the mode flips and nothing else changes |
| `Login.LoginForm.Submit` | src/components/login/Login.jsx:283-347 | the old error is cleared; an invalid form sets its error and sends nothing; otherwise one request to the mode's endpoint; success stores the token, toasts and navigates to /all; failure leaves the token and shows the error; `isLoading` is false on every exit |

## Left out

- Network I/O: `fetch`, `response.json()` and the remote API are replaced by the given reply. A non-JSON error body makes `response.json()` throw, and that is not modelled.
- The JWT decoder is a parameter. The model does not check signatures or claim types; an `exp` that is not a number is outside it.
- The clock: `Date.now() / 1000` is a fraction. With an integer `now`, a token whose `exp` equals the whole second of the current time passes; the real fractional time would reject it whenever the fraction is above zero.
- Date parsing (`new Date(...)`) and an invalid date's NaN comparisons are left out; `toLocaleDateString` and `localeCompare` are locale behaviour, replaced by a parsed date value and a collation key.
- Async interleavings are left out: responses after unmount, overlapping handlers, and the re-render between a storage change and the next handler. Each handler is atomic, and reads the stored token when it runs.
- Navigation is recorded as an effect. Mounting and unmounting pages after a navigation is not modelled.
- Toast styling, animations, layout, `console.log` and card colours are left out.
- The server task appended on a successful add is the reply body's `task` field. A reply without that field is not modelled.
- React Router's path matching is modelled as exact string equality. Case folding and trailing-slash handling are left out.
- The Home, Studies and Weekly pages are routed but their components are not part of this model.
- GroupByCategory: the page groups into a plain object, so a category named after an inherited object member (`constructor`, `toString`, `__proto__`) finds a non-array value already there and the render throws; the model gives such a category an ordinary group.
- The two pages' different API base URLs are configuration and are left out.
- The sidebar's category menu is plain navigation and is left out; its logout is `Session.TokenStore.Logout`.
- `loading` is a field, but no handler is modelled mid-request, so the disabled form controls while a request is in flight are not modelled.
