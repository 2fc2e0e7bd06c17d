# Task manager client state layer, in Dafny

This project models the client-side state layer of an Angular task manager.
A user signs in by email, and an unknown email gets an account created for it.
The user then keeps a personal list of tasks, and can search it, filter it and
export it.

The model covers:

- **Session store** (`Session.UserService`, from `UserService`). It holds one
  `AuthState` (user, authenticated, loading). Its methods move that state
  between anonymous, loading and authenticated. It mirrors the session in the
  browser's `currentUser` storage slot and seeds itself from that slot at
  start-up.
- **Task store** (`TaskStore.TaskService`, from `TaskService`). It is a cache of
  the user's tasks plus a loading flag. The cache is replaced wholesale on load,
  prepended on create, replaced by id in place on update, and filtered by id on
  delete. A toggle is an update of `completed`. Every cache change happens only
  after the gateway reports success.
- **Filter engine and task page** (`TasksView`, from `TasksComponent`).
  `ApplyFilters` runs a case-insensitive substring search over title and
  description, then a status filter (`all`, `completed`, `pending`). The
  component's handlers keep `filteredTasks` equal to that function of its
  fields. The module also covers the export guards and what the page does with
  a closed dialog.
- **Statistics** (`TaskStats`): total, completed and pending counts, and the
  rounded completion percentage.
- **Task dialog** (`TaskDialog`): the validity rules the form gets from
  Angular's `required` and `maxLength` validators, the prefill, and save/cancel.
- **Route guard** (`AuthGuard`): allow or redirect, as a function of the
  authentication state.

Shared modules:

- `Domain` holds the records.
- `Sequences` holds the generic `Filter` (`Array.prototype.filter`) and the
  order-preserving subsequence relation.
- `Text` holds ASCII `toLowerCase` and `includes`.
- `Scenarios` is client code. It drives the stores through the flows the
  application is built for, using only the stores' contracts: sign-up then
  load, newest-first creation, a failed update, a restart that picks up the
  stored session, and a restart after a user was created with `data: null` or
  with `data` left out.

How the stores are modelled:

- Each store is a class whose fields are the subjects' current values.
- Ghost fields record every value each subject has emitted. `Valid()` ties the
  current value to the last emission, so each method states exactly what it
  emits.
- Ghost fields also record every gateway call, in order.
- A gateway answer is a method parameter: `Ok(Response(data))` or
  `Err(error)`. The `data` member is `Undefined`, `JsonNull` or
  `Present(value)`, because the code treats the two absent forms differently
  in one place. A method's success branch is the source's `tap` body. Its
  failure branch keeps only what ran before the call.
- Nothing here is executed.

Behaviours of the code that the model reproduces rather than corrects:

- Both stores raise `loading` when a call starts and lower it only on success.
  After a failure it stays raised (`GetTasksByUser`, `FindByEmail`,
  `CreateUser`).
- `ToggleTaskCompletion` sends the negation of the flag of the task it is given,
  not of the cached copy.
- Stored text that parses to `null` sets `isAuthenticated` with no user.
  `Consistent` (authenticated iff a user is present) is therefore preserved
  only when the parse does not yield `null`.
- A `createUser` success envelope whose `data` is `undefined` or `null` calls
  `setCurrentUser` with that value. The state then becomes authenticated with
  no user, and `Consistent` is preserved only when data is present. In a
  browser the two differ. For `undefined` the slot gets the text `undefined`,
  which the next start-up cannot parse and removes. For `null` the slot gets
  the text `null`, which the next start-up parses back into "authenticated
  with no user".
- A `createTask`, `updateTask` or `toggleTaskCompletion` success envelope
  whose `data` is `undefined` or `null` makes `parseTaskDates` throw. The
  caller sees a failure (`MissingData`) and the
  cache is untouched.
- Stored text is read only if it is a non-empty string, as in JavaScript's
  `if (userData)`.

Where one might expect something else, the model follows the code:

- One might expect a failed gateway call to leave the store exactly as it was.
  The code leaves `loading` raised.
- One might expect `findByEmail` to normalise or validate the email. The code
  only URL-encodes it into the path. The model records the raw email in the
  request log.
- One might expect malformed stored content to reset the session to
  anonymous. The code only removes the slot and leaves the state as it is.
  During construction that state is anonymous.
- One might expect a session change to clear the task cache. No code does
  that: `logout` does not touch the task store, and the cache changes only
  when the next load succeeds.

## Model

| member | source | states |
|---|---|---|
| `Sequences.Filter` | src/app/components/tasks/tasks.component.ts:280-290 | `filter` never yields more elements than its input |
| `Sequences.FilterMembers` | src/app/components/tasks/tasks.component.ts:280-290 | an element survives `filter` iff it is in the input and the predicate accepts it |
| `Sequences.FilterSubsequence` | src/app/components/tasks/tasks.component.ts:280-290 | the result of `filter` is an order-preserving subsequence of its input |
| `Sequences.FilterKeepsAll` | src/app/components/tasks/tasks.component.ts:276-293 | `filter` returns its input unchanged iff every element is accepted |
| `Sequences.FilterDropsAll` | src/app/components/tasks/tasks.component.ts:234-235 | `filter` returns the empty list iff no element is accepted |
| `Sequences.FilterCompose` | src/app/components/tasks/tasks.component.ts:280-290 | two filters in a row equal one filter by the conjunction of the predicates |
| `Sequences.FilterSplit` | src/app/components/task-stats/task-stats.component.ts:179-185 | filtering by a predicate and by its negation splits the list: the two multisets add up to the input's, and so do the lengths |
| `Text.Lower` | src/app/components/tasks/tasks.component.ts:281-282 | `toLowerCase` keeps the length and lowers each character independently |
| `Text.LowerIdempotent` | src/app/components/tasks/tasks.component.ts:281-282 | lowering a lowered string changes nothing |
| `Text.Includes` | src/app/components/tasks/tasks.component.ts:281-282 | `includes` finds nothing longer than the hay, and always finds the empty needle |
| `Text.IncludesIffOccurs` | src/app/components/tasks/tasks.component.ts:281-282 | `includes` holds iff the needle occurs at some position of the hay |
| `Text.IncludesEmpty` | src/app/components/tasks/tasks.component.ts:279 | every string includes the empty term, so skipping the search for `''` does not change the result |
| `TaskStore.ParseTaskDates` | src/app/services/task.service.ts:72-78 | `parseTaskDates` keeps the length, the order and every non-date field, and rebuilds both timestamps from their text |
| `TaskStore.ParseTaskDatesIdempotent` | src/app/services/task.service.ts:72-78 | parsing the dates twice is the same as parsing them once |
| `TaskStore.ReplaceById` | src/app/services/task.service.ts:48-50 | the `map` in `updateTask` keeps the cache's length |
| `TaskStore.ReplaceByIdAt` | src/app/services/task.service.ts:48-50 | at every position, an entry with the id becomes the returned task and every other entry stays |
| `TaskStore.ReplaceByIdAbsent` | src/app/services/task.service.ts:48-51 | an update for an id no entry carries leaves the cache sequence-equal to before |
| `TaskStore.RemoveById` | src/app/services/task.service.ts:61 | the `filter` in `deleteTask` never lengthens the cache |
| `TaskStore.RemoveByIdSpec` | src/app/services/task.service.ts:59-62 | after a delete, exactly the entries with another id remain, in their order, and the cache shrinks by the number of entries that carried the id |
| `TaskStore.RemoveByIdAbsent` | src/app/services/task.service.ts:61 | deleting an id no entry carries leaves the cache unchanged |
| `TaskStore.TogglePatch` | src/app/services/task.service.ts:69 | the toggle patch sets only `completed`, to the negation of the given task's flag |
| `TaskStore.ToggleTwiceRestores` | src/app/services/task.service.ts:68-70 | against a gateway that applies patches, a toggle flips `completed` and a second toggle restores the task |
| `TaskStore.TaskService.constructor` | src/app/services/task.service.ts:11-17 | the cache starts empty and not loading; each subject has emitted only its initial value |
| `TaskStore.TaskService.GetTasksByUser` | src/app/services/task.service.ts:19-29 | loading is raised at call time. On success the cache becomes the parsed response (or `[]` without data), loading is lowered, and both are emitted. On failure the cache is untouched and loading stays raised |
| `TaskStore.TaskService.CreateTask` | src/app/services/task.service.ts:31-40 | on success the cache is `[newTask] + old` and is emitted; on failure, or a reply without data, the cache is untouched and nothing is emitted |
| `TaskStore.TaskService.UpdateTask` | src/app/services/task.service.ts:42-54 | on success the cache is the old cache with every entry of that id replaced in place; it is emitted even when no entry matched; on failure nothing changes |
| `TaskStore.TaskService.DeleteTask` | src/app/services/task.service.ts:56-66 | on success the cache is the old cache without the entries of that id, and is emitted; on failure nothing changes |
| `TaskStore.TaskService.ToggleTaskCompletion` | src/app/services/task.service.ts:68-70 | sends an update of `task.id` with `completed` set to the negation of the argument's flag. On success the cache entries with that id are replaced by the returned task. A gateway failure is passed through, and a reply without data fails with `MissingData`. Either failure leaves the cache untouched |
| `Session.UserService.constructor` | src/app/services/user.service.ts:13-26 | the first state is `{null, false, false}`; it is then seeded from the slot, with the cases of `LoadUserFromStorage` |
| `Session.UserService.LoadUserFromStorage` | src/app/services/user.service.ts:75-91 | readable content authenticates (with no user if it parses to `null`); unparseable content removes the slot and leaves the state; an empty slot or a non-browser platform changes nothing; consistency is kept unless the parse yields `null` |
| `Session.UserService.SetLoading` | src/app/services/user.service.ts:93-99 | only `loading` changes, and the new state is emitted; consistency is kept |
| `Session.UserService.SetCurrentUser` | src/app/services/user.service.ts:49-58 | the state becomes `{user, true, false}` and is emitted; in a browser the slot holds the serialised user |
| `Session.UserService.GetCurrentUser` | src/app/services/user.service.ts:60-62 | returns the state's user, present exactly when the state is authenticated if the state is consistent |
| `Session.UserService.Logout` | src/app/services/user.service.ts:64-73 | the state becomes `{null, false, false}` and is emitted; in a browser the slot is cleared |
| `Session.UserService.FindByEmail` | src/app/services/user.service.ts:28-35 | loading is raised at call time. On success it returns the data (or nothing) and loading is lowered. On failure loading stays raised. The session's user and flag never change |
| `Session.UserService.CreateUser` | src/app/services/user.service.ts:37-58 | loading is raised at call time. On success the returned user is signed in, written to the slot in a browser, and loading ends false. With `data` undefined or `null` the state is authenticated with no user, and a browser slot holds `undefined` or `null` respectively. On failure only loading changes |
| `TasksView.MatchesSearch` | src/app/components/tasks/tasks.component.ts:280-283 | the search callback accepts a task iff the lowered term occurs at some position of its lowered title or its lowered description |
| `TasksView.ApplyFilters` | src/app/components/tasks/tasks.component.ts:275-294 | the view is never longer than the task list |
| `TasksView.ApplyFiltersIsOneFilter` | src/app/components/tasks/tasks.component.ts:276-293 | the search pass followed by the status pass is one filter by the per-task test `Visible` |
| `TasksView.ApplyFiltersMembers` | src/app/components/tasks/tasks.component.ts:276-293 | a task is visible iff it is in the list, the term (when non-empty) occurs in its title or description ignoring case, and its completion flag passes the status |
| `TasksView.ApplyFiltersSubsequence` | src/app/components/tasks/tasks.component.ts:276-291 | the view is always an order-preserving subsequence of the task list |
| `TasksView.ApplyFiltersNoCriteria` | src/app/components/tasks/tasks.component.ts:276-293 | with the term `''` and status `all` the view equals the task list |
| `TasksView.ApplyFiltersKeepsAll` | src/app/components/tasks/tasks.component.ts:276-293 | the view equals the task list iff every task passes both tests |
| `TasksView.StatusPartition` | src/app/components/tasks/tasks.component.ts:287-291 | the `completed` and `pending` views partition the search result: their multisets and lengths add up to it |
| `TasksView.SingleTaskSearch` | src/app/components/tasks/tasks.component.ts:279-284 | a single task passes a search with status `all` iff the term occurs, ignoring case, in its title or description |
| `TasksView.CreateRequestFrom` | src/app/components/tasks/tasks.component.ts:127-133 | a dialog result together with a signed-in user gives a create request owned by that user; a cancelled dialog or no user gives nothing |
| `TasksView.EditPatchFrom` | src/app/components/tasks/tasks.component.ts:154-156 | a dialog result gives an update of title and description only; a cancelled dialog gives nothing |
| `TasksView.TasksComponent.constructor` | src/app/components/tasks/tasks.component.ts:53-58 | no user, no tasks, an empty view, not loading, term `''`, status `all` |
| `TasksView.TasksComponent.OnAuthState` | src/app/components/tasks/tasks.component.ts:81-90 | records the emitted user and requests a load of that user's tasks exactly when there is one |
| `TasksView.TasksComponent.OnTasks` | src/app/components/tasks/tasks.component.ts:92-99 | the task list becomes the emitted list and the view is recomputed, an order-preserving subsequence of it |
| `TasksView.TasksComponent.OnLoading` | src/app/components/tasks/tasks.component.ts:101-107 | the loading flag becomes the emitted value |
| `TasksView.TasksComponent.OnSearchChange` | src/app/components/tasks/tasks.component.ts:265-268 | the term changes, the status and the tasks do not, and the view is recomputed |
| `TasksView.TasksComponent.OnFilterChange` | src/app/components/tasks/tasks.component.ts:270-273 | the status changes, the term and the tasks do not, and the view is recomputed |
| `TasksView.TasksComponent.ClearFilters` | src/app/components/tasks/tasks.component.ts:296-300 | term `''`, status `all`, and the view equals the task list |
| `TasksView.TasksComponent.OnExport` | src/app/components/tasks/tasks.component.ts:215-251 | nothing is exported iff no task is of the requested kind; otherwise the whole task list, not the view, goes to the export |
| `TaskStats.TotalTasks` | src/app/components/task-stats/task-stats.component.ts:175-185 | `totalTasks`, the list's length, equals the number of completed tasks plus the number of pending ones |
| `TaskStats.CompletedTasks` | src/app/components/task-stats/task-stats.component.ts:179-181 | the completed count never exceeds the total |
| `TaskStats.PendingTasks` | src/app/components/task-stats/task-stats.component.ts:183-185 | the pending count never exceeds the total |
| `TaskStats.TotalIsCompletedPlusPending` | src/app/components/task-stats/task-stats.component.ts:175-185 | `totalTasks`, the list's length, equals `completedTasks + pendingTasks` |
| `TaskStats.CompletionPercentage` | src/app/components/task-stats/task-stats.component.ts:187-190 | 0 for an empty list; otherwise the nearest integer to 100·completed/total, halves up; always within 0..100 |
| `TaskStats.RoundedPercent` | src/app/components/task-stats/task-stats.component.ts:189 | `Math.round(c / t * 100)` lies in 0..100 and within one half of `100c/t` |
| `TaskStats.AllCompletedIsHundred` | src/app/components/task-stats/task-stats.component.ts:189 | a non-empty list of completed tasks gives 100 |
| `TaskStats.NoneCompletedIsZero` | src/app/components/task-stats/task-stats.component.ts:187-190 | a list with no completed task gives 0 |
| `TaskDialog.FormValid` | src/app/components/task-dialog/task-dialog.component.ts:102-112 | the form is valid iff the title has 1 to 100 characters and the description has 1 to 500 |
| `TaskDialog.TaskDialogComponent.constructor` | src/app/components/task-dialog/task-dialog.component.ts:98-113 | the fields are prefilled from the task being edited, or start empty in create mode, which is then not valid |
| `TaskDialog.TaskDialogComponent.EditTitle` | src/app/components/task-dialog/task-dialog.component.ts:35 | typing sets the title control's value |
| `TaskDialog.TaskDialogComponent.EditDescription` | src/app/components/task-dialog/task-dialog.component.ts:46-51 | typing sets the description control's value |
| `TaskDialog.TaskDialogComponent.OnSave` | src/app/components/task-dialog/task-dialog.component.ts:115-119 | closes with the form value iff the form is valid; otherwise the dialog stays open |
| `TaskDialog.TaskDialogComponent.OnCancel` | src/app/components/task-dialog/task-dialog.component.ts:121-123 | closes with no value |
| `AuthGuard.CanActivate` | src/app/guards/auth.guard.ts:10-19 | allows iff `isAuthenticated`; when it refuses it requests navigation to `/login`, and only then |
| `AuthGuard.DecisionIgnoresUserAndLoading` | src/app/guards/auth.guard.ts:11-18 | two states with the same `isAuthenticated` get the same decision, whatever their user and loading flag |
| `AuthGuard.GuardFollowsSession` | src/app/guards/auth.guard.ts:11-18 | the state after `setCurrentUser` is let through; the state after `logout` is redirected to `/login` |

## Left out

- src/app/services/api.service.ts (HTTP transport, URL building, error-message formatting) is not part of this model. Each gateway answer is a parameter of the store method that makes the call. Failures carry an opaque message.
- src/app/services/export.service.ts (spreadsheet and CSV generation, file saving, date formatting) is not part of this model. `OnExport` returns the list the export would be handed.
- src/app/components/login/login.component.ts and src/app/app.routes.ts are not part of this model. They are dialog/router orchestration and static route configuration. The session transitions they trigger are the `UserService` methods.
- Asynchrony and RxJS machinery are not modelled: subscription lifecycle, `takeUntil`, interleaving of in-flight calls, and "last response wins" races. Each call runs to completion with the answer it is given.
- The link between stores and page is not modelled as one program. Store emissions reach the page through `OnAuthState`, `OnTasks` and `OnLoading`, called by hand. `OnAuthState` returns the user id to load for, rather than calling the task store itself.
- Snackbar messages, console logging, templates and styles are left out.
- `Session.Codec`: `JSON.stringify` and `JSON.parse` are a pair of functions given to the store. A parse that yields a non-null value other than a user object is treated as a user. Nothing forces the codec to parse the text `null` to `null` or to reject the text `undefined`. The two scenarios that depend on this state it as a precondition.
- `Session.UserService.constructor`: `isPlatformBrowser` is a boolean fixed at construction, and `localStorage` is a single optional-string slot.
- `TaskStore.ParseTaskDates`: `new Date(...)` is an opaque timestamp built from the original text. Date parsing and validity are not modelled.
- `TaskStore.ToggleTwiceRestores`: the gateway's treatment of a patch is not part of the source. The lemma assumes a gateway that overwrites exactly the fields the patch gives.
- `TaskStats.CompletionPercentage`: integer arithmetic replaces floating point. The browser computes `Math.round(c / t * 100)` in binary floating point, which could differ from `(200c + t) / (2t)` where `c / t * 100` falls on a half.
- `Text.Lower`: lowers only the ASCII letters `A` to `Z`. JavaScript's `toLowerCase` is Unicode-aware.
- `TaskDialog.FormValid`: lengths count Dafny characters. JavaScript's `length` counts UTF-16 code units, so texts outside the Basic Multilingual Plane measure differently.
- `TaskDialog.TaskDialogComponent.OnSave`: saving, cancelling or typing after the dialog has closed is not modelled. These actions require an open dialog.
- `AuthGuard.CanActivate`: the guard returns an observable that the router reads once. Only the decision on the current state is modelled.
