# Todo client core, modelled in Dafny

This project models the client-side logic of a small todo web client that keeps its data in a
PocketBase backend. It covers three parts:

- **The todo cache** (`TodoService`). It holds the owner's todo records and a `loading` flag.
  Its `todos` view lists the records newest first. Realtime `create`/`update`/`delete` events
  rewrite the list. It also issues the backend requests that load, create, toggle and delete
  todos.
- **The form components.** The todo title form, registration, password-reset confirmation, and
  sign-in with its forgot-password sub-form. Each is a small state machine of fields, flags and
  messages around one awaited call.
- **The two route guards.** `authGuard` and `guestGuard`.

Modules, one per source file or shared concept:

- `Wrappers`: `Option`, `Result`, and `Outcome` (how an awaited call settles).
- `JsRuntime`: `String.prototype.trim` over the exact ECMAScript whitespace set, and the shape
  of thrown values.
- `Todos`: the todo record, the realtime reducer `ApplyEvent`, and the stable newest-first sort.
- `TodoCache`: class `TodoService`.
- `TodoListForm`: class `TodoListComponent`. It calls `TodoService.Create`.
- `AuthCalls`: the auth-service calls the components make, and the password rule shared by
  registration and reset.
- `Register`, `ConfirmReset`, `Login`: one component class each.
- `AuthGuard`: the guards.

How the model treats calls and time:

- Backend and auth-service calls are appended to a request log (`requests` or `calls`).
- Router navigations are appended to `navigations`.
- What an awaited call settles with is a method parameter.
- An async handler is split at its await:
  - the part before the await (`Load`, `OnSubmit`, `OnForgotSubmit`);
  - the continuation after it (`LoadSettled`, `SubmitSettled`, `CreateSettled`, `ForgotSubmitSettled`).

  So the state while the call is pending, for example `submitting == true`, is a state of the
  model. Each auth form's continuation (`SubmitSettled`, `ForgotSubmitSettled`) requires its
  in-flight flag. `LoadSettled` and `CreateSettled` have none: `loading` is cleared whatever its
  state, and the todo form has no such flag.
- In the todo form nothing blocks input while `create` is pending. A second submit in that window
  sends a second request, and `CreateSettled` empties the input even if it was edited meanwhile.

Two points where the model pins down exactly what the code does:

- **Create events.** The `create` handler appends unconditionally
  (`src/app/todo/todo.service.ts:35`), so a create event for an id already present adds a
  second entry. `Todos.CreateEventDuplicates` proves it.
- **The `owner` field.** One unit test (`src/app/todo/todo.service.spec.ts:80`) expects the
  create payload without `owner`. The code sends it (`src/app/todo/todo.service.ts:50`), and so
  does the model.

## Model

| member | source | states |
|---|---|---|
| `JsRuntime.Trim` | src/app/todo/todo.service.ts:47 | the trimmed title is the input with exactly its leading and trailing whitespace removed: the characters before and after it are all whitespace; it is empty exactly when the input is all whitespace, and otherwise starts and ends with a non-whitespace character |
| `JsRuntime.TrimIdempotent` | src/app/todo/todo-list.ts:63 | trimming twice (form, then service) gives the same string as trimming once |
| `Todos.CountIdAppend` | src/app/todo/todo.service.ts:35 | appending a record adds one to the count of its id and leaves every other id's count alone |
| `Todos.ReplaceById` | src/app/todo/todo.service.ts:37-39 | the update transform keeps the length; each entry whose id is the record's id becomes the record, and every other entry is kept |
| `Todos.RemoveById` | src/app/todo/todo.service.ts:41 | the delete transform's result has no entry with the id and is shorter by exactly the number of matching entries |
| `Todos.RemoveByIdKeepsOthers` | src/app/todo/todo.service.ts:41 | the delete transform keeps every record with another id, as often as it occurred |
| `Todos.ApplyEvent` | src/app/todo/todo.service.ts:33-43 | one realtime event adds at most one entry, and every entry afterwards is an entry from before or the event's record |
| `Todos.CreateEventAppends` | src/app/todo/todo.service.ts:34-35 | a create event appends the record at the end; the length and the count of its id grow by exactly one, even when the id is already present |
| `Todos.CreateEventDuplicates` | src/app/todo/todo.service.ts:34-35 | a create event for an id already present leaves at least two entries with that id (no deduplication) |
| `Todos.UpdateEventReplaces` | src/app/todo/todo.service.ts:36-39 | an update event replaces exactly the entries with the record's id, and keeps the length and every other entry in place |
| `Todos.UpdateEventAbsentId` | src/app/todo/todo.service.ts:36-39 | an update event for an id not in the list leaves the list unchanged |
| `Todos.UpdateEventKeepsIdCount` | src/app/todo/todo.service.ts:36-39 | an update event neither adds nor removes entries carrying the record's id |
| `Todos.RemoveByIdConcat` | src/app/todo/todo.service.ts:40-42 | deleting from a concatenation is the concatenation of the deletions, so the remaining entries keep their relative order |
| `Todos.RemoveByIdAbsent` | src/app/todo/todo.service.ts:40-42 | deleting an id that no entry carries leaves the list unchanged |
| `Todos.DeleteEventRemoves` | src/app/todo/todo.service.ts:40-42 | a delete event leaves no entry with the id, shrinks the list by the number of such entries, keeps every other record's multiplicity, and applying it twice equals applying it once |
| `Todos.UnknownEventIgnored` | src/app/todo/todo.service.ts:33-43 | an event whose action is not create, update or delete leaves the list unchanged |
| `Todos.InsertByCreated` | src/app/todo/todo.service.ts:11-12 | inserting into a newest-first list keeps it newest first and adds exactly that record |
| `Todos.SortByCreatedDesc` | src/app/todo/todo.service.ts:10-14 | the view is ordered by `created`, non-increasing, and is a permutation of the stored list |
| `Todos.InsertByCreatedStable` | src/app/todo/todo.service.ts:11-12 | insertion puts the new record before the already placed records with the same `created` |
| `Todos.SortIsStable` | src/app/todo/todo.service.ts:10-14 | records with equal `created` appear in the view in their stored order (the sort is stable) |
| `Todos.SortedIsFixed` | src/app/todo/todo.service.ts:10-14 | a list already newest first, as the fetch with `sort: '-created'` returns it, is its own view |
| `TodoCache.CheckTitle` | src/app/todo/todo.service.ts:47-49 | a title is accepted exactly when its trim is non-empty and at most 200 long, and is then the trim; an all-whitespace title of any length is "required", and a non-blank one over 200 after trim is "too long" |
| `TodoCache.TodoService.constructor` | src/app/todo/todo.service.ts:8-16 | a new service has an empty list, `loading` false, no unsubscribe handle and no requests |
| `TodoCache.TodoService.View` | src/app/todo/todo.service.ts:10-14 | the `todos` view is newest first and a permutation of the stored list; being a function of the state, it changes nothing |
| `TodoCache.TodoService.Load` | src/app/todo/todo.service.ts:18-21 | `loading` becomes true and exactly one request for page 1, size 200, sorted `-created` is logged; the list is unchanged |
| `TodoCache.TodoService.LoadSettled` | src/app/todo/todo.service.ts:21-26 | on success the list becomes the fetched items and one subscribe request is logged; on failure the list and log are unchanged and the error propagates; `loading` is false in both cases |
| `TodoCache.TodoService.SubscribeSettled` | src/app/todo/todo.service.ts:23-33 | a resolved subscription stores its handle; a failed one is swallowed and keeps the previous handle |
| `TodoCache.TodoService.OnRealtimeEvent` | src/app/todo/todo.service.ts:33-43 | the stored list becomes `ApplyEvent` of the old list and the event |
| `TodoCache.TodoService.Create` | src/app/todo/todo.service.ts:46-51 | a blank or over-200 title rejects with the validation message and no request; with no auth record it throws and sends nothing; otherwise exactly one create request with the trimmed title, `completed = false` and the user's id as owner, and the backend's rejection propagates |
| `TodoCache.TodoService.ToggleTodo` | src/app/todo/todo.service.ts:53-55 | exactly one update request with the id and the new `completed`; the call's outcome propagates |
| `TodoCache.TodoService.DeleteTodo` | src/app/todo/todo.service.ts:57-59 | exactly one delete request for the id; the call's outcome propagates |
| `TodoCache.TodoService.OnDestroy` | src/app/todo/todo.service.ts:61-63 | the stored unsubscribe handle is called exactly when one is stored; otherwise nothing happens |
| `TodoListForm.TitleProblem` | src/app/todo/todo-list.ts:63-72 | the form accepts exactly titles whose trim is non-empty and at most 200; blank gives the "required" message (checked first), and over-long gives the "max 200" message |
| `TodoListForm.FormAndServiceAgree` | src/app/todo/todo-list.ts:63-72 | the form and the service accept exactly the same raw titles |
| `TodoListForm.FormOutputPassesService` | src/app/todo/todo-list.ts:63-75 | the trimmed title the form passes to `create` passes the service's check unchanged |
| `TodoListForm.TodoListComponent.constructor` | src/app/todo/todo-list.ts:51-54 | a new form has an empty title and no message |
| `TodoListForm.TodoListComponent.OnTitleInput` | src/app/todo/todo-list.ts:56-59 | the title becomes the input and the message is cleared |
| `TodoListForm.TodoListComponent.OnSubmit` | src/app/todo/todo-list.ts:61-75 | an invalid title sets its message and sends nothing; a valid one clears the message and calls `create` once with the trimmed title, which sends one request when there is an auth record; the settlement it returns is a missing-auth-record rejection, the backend's outcome, and never a validation rejection; the title is not touched |
| `TodoListForm.TodoListComponent.CreateSettled` | src/app/todo/todo-list.ts:75-76 | the title is emptied exactly when `create` resolved, whatever it holds by then; a rejection propagates and keeps the title |
| `AuthCalls.PasswordProblem` | src/app/auth/register/register.ts:83-90 | a password pair passes exactly when the password has at least 8 characters and equals the confirmation; the length message takes precedence over the mismatch message |
| `Register.ExtractMessage` | src/app/auth/register/register.ts:103-108 | the shown error is the error object's message when it has one, and the default "Registration failed" text otherwise |
| `Register.ExtractMessageEmpty` | src/app/auth/register/register.ts:96-97 | the shown error is empty exactly for an error object whose message is the empty string |
| `Register.RegisterComponent.constructor` | src/app/auth/register/register.ts:69-72 | a new form has empty fields, no error, and is not submitting |
| `Register.RegisterComponent.OnInput` | src/app/auth/register/register.ts:74-77 | only the named field changes, and the error is cleared |
| `Register.RegisterComponent.OnSubmit` | src/app/auth/register/register.ts:79-94 | a rejected password sets the length or mismatch message and makes no call; otherwise `submitting` is true and `register(email, password, passwordConfirm)` is called exactly once |
| `Register.RegisterComponent.SubmitSettled` | src/app/auth/register/register.ts:93-100 | success navigates to `/`; failure sets the extracted message; `submitting` is false either way |
| `ConfirmReset.ConfirmResetComponent.constructor` | src/app/auth/confirm-reset/confirm-reset.ts:60-69 | a new form holds the token and empty fields, has no error, is not expired and not submitting |
| `ConfirmReset.ConfirmResetComponent.OnInput` | src/app/auth/confirm-reset/confirm-reset.ts:71-75 | only the named field changes; the error and `tokenExpired` are cleared |
| `ConfirmReset.ConfirmResetComponent.OnSubmit` | src/app/auth/confirm-reset/confirm-reset.ts:77-92 | a rejected password sets the length or mismatch message and makes no call; otherwise `submitting` is true and the reset is confirmed exactly once with the token and both passwords |
| `ConfirmReset.ConfirmResetComponent.SubmitSettled` | src/app/auth/confirm-reset/confirm-reset.ts:92-99 | success navigates to `/auth/login`; any failure, whatever the error, sets `tokenExpired` and the "expired or is invalid" message; `submitting` is false either way; `tokenExpired` always implies a non-empty error |
| `Login.LoginComponent.constructor` | src/app/auth/login/login.ts:89-97 | a new form has empty fields and every flag and message cleared |
| `Login.LoginComponent.OnInput` | src/app/auth/login/login.ts:99-102 | only the named field changes, and the login error is cleared |
| `Login.LoginComponent.OnForgotEmailInput` | src/app/auth/login/login.ts:104-106 | only the reset e-mail changes |
| `Login.LoginComponent.OnSubmit` | src/app/auth/login/login.ts:108-112 | with no client-side check, `submitting` is true and `login(email, password)` is called exactly once with the current fields |
| `Login.LoginComponent.SubmitSettled` | src/app/auth/login/login.ts:112-118 | success navigates to `/`; any failure sets exactly "Invalid email or password."; `submitting` is false either way |
| `Login.LoginComponent.OnForgotSubmit` | src/app/auth/login/login.ts:121-126 | `resetSubmitting` is true, the reset error is cleared, and a reset is requested exactly once for the entered e-mail |
| `Login.LoginComponent.ForgotSubmitSettled` | src/app/auth/login/login.ts:126-132 | success sets `resetSent`; failure sets the reset error; `resetSubmitting` is false either way; `resetSent` is never lowered |
| `AuthGuard.IsAuthenticated` | src/app/auth/auth.service.ts:10 | a session is authenticated exactly when there is a current user record |
| `AuthGuard.AuthGuardDecision` | src/app/auth/auth.guard.ts:5-9 | allows exactly when there is a current user; otherwise redirects to `['/auth/login']` |
| `AuthGuard.GuestGuardDecision` | src/app/auth/auth.guard.ts:11-15 | allows exactly when there is no current user; otherwise redirects to `['/']` |
| `AuthGuard.ExactlyOneGuardAllows` | src/app/auth/auth.guard.ts:5-15 | in every session state exactly one of the two guards allows |

## Left out

- Network, SSE and SDK calls (`getList`, `create`, `update`, `delete`, `subscribe`, the auth calls). They are recorded as request-log entries, and their outcomes are parameters. The backend's schema, access rules and migrations are not part of this model.
- Interleaving of asynchronous steps. Each realtime event, each load continuation and each handler half is an atomic step. Events are accepted in any state, whether or not the subscription has resolved. The fire-and-forget `startRealtime().catch` is the pair of `LoadSettled`, which logs the subscribe request, and `SubscribeSettled`.
- `Todos.SortByCreatedDesc`: `created` is an integer timestamp. The `new Date(...).getTime()` parsing in the comparator is not modelled, so unparsable dates (`NaN`) are outside the model.
- `TodoCache.CheckTitle`: the 200 limit is tested on the number of Unicode scalar values, while `.length` counts UTF-16 code units. A title with characters outside the Basic Multilingual Plane can pass here and be rejected by the code.
- `TodoListForm.TitleProblem`: the same difference in how the 200 limit measures the title as for `CheckTitle`.
- `AuthCalls.PasswordProblem`: the minimum of 8 is tested on Unicode scalar values, not UTF-16 code units. For example, four characters outside the Basic Multilingual Plane have `.length` 8 and pass the code's check, but the model rejects them as too short.
- `Register.RegisterComponent.SubmitSettled`, `ConfirmReset.ConfirmResetComponent.SubmitSettled`, `Login.LoginComponent.SubmitSettled`: `router.navigate` is taken to resolve. A navigation that rejects would land in the same `catch` as a failed call, and that path is not modelled.
- `Register.ExtractMessage`: `String(err.message)` is taken as already computed. The thrown value carries the string form of its message.
- The auth service (`register` = create account then password auth, `login`, `logout`, session change notifications) is not part of this model. Only its definition of "authenticated" (a current user exists) is used, by the guards.
- Templates, markup, CSS, `event.preventDefault()`, the route table, the app shell's error flag, the todo item component's one-line forwards and the SDK singleton.
