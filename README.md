# Taskify core in Dafny

This project models the client-side state logic of the Taskify to-do app, a
React/Redux application. It covers four parts:

- **The task store** (`taskSlice.js`). It holds the state `{tasks, displayedTasks, isLoading, error}`.
  The model has one `TaskStore` method per reducer case: search, filter,
  toggle completion, set displayed tasks, and the pending, fulfilled and
  rejected cases of fetch, add, update and delete. It also models, as pure
  functions, the rule `enhanceTaskData` that decorates the records the task
  service returns, and the `{...task, ...data}` merge that builds an update's
  payload.
- **The pagination window** (`useInfiniteScroll.js`). It is a prefix of the
  displayed tasks that grows one page per visibility trigger. It is modelled
  as the `ScrollState` class with `Trigger` and `Recompute`.
- **The task form** (`TaskForm.jsx`). It has the status rule applied on every
  change, the validation, and the routing of a submit to an edit or an add.
- **The controller hook** (`useTasks.js`). It has the fetch-when-empty effect,
  the non-blank-title guard on add, and the update payload built by a
  completion toggle. Each is a function that returns the store actions it
  dispatches. The list is paginated with `ItemsPerPage` = 10.

Modules: `Wrappers` (Option), `Text` (ASCII `toLowerCase`, `trim`,
`includes`), `Seqs` (order-preserving subsequences and `filter`),
`TaskSlice`, `InfiniteScroll`, `TaskForm`, `UseTasks`.

Each reducer case becomes one atomic method on `TaskStore`. Its `ensures`
gives the new state as a function of the old one. Methods change only the
fields named in their `modifies` frame. `Coherent()` states that
`displayedTasks` is an order-preserving subsequence of `tasks`. Every reducer
except `setDisplayedTasks` keeps it.

Modelling conventions:
- The random status choice, the random progress and the due date of
  `enhanceTaskData` are a `Draw` parameter. `ValidDraw` limits the draw to the
  values `Math.floor(Math.random() * n)` can produce.
- The form's `null` id is 0. Both are falsy, and the routing test `task?.id`
  treats them the same way.
- A service response to an update is a `ServerFields` record. Each field is
  optional.

## Model

| member | source | states |
|---|---|---|
| `Text.Lower` | src/store/taskSlice.js:127 | `toLowerCase` keeps the length, maps each character to its lower-case form, leaves no upper-case ASCII letter and keeps whitespace where it was |
| `Text.Trim` | src/store/taskSlice.js:124 | `trim` returns a contiguous piece of its input that neither starts nor ends with whitespace, with only whitespace before and after it; the result is empty exactly when the input is all whitespace |
| `Text.TrimUnique` | src/store/taskSlice.js:124 | a string has only one such piece, so the contract of `Trim` determines its value |
| `Text.TrimmedPieceUnique` | src/store/taskSlice.js:124 | two pieces of the same string that both meet the `trim` contract are equal |
| `Text.PieceEmptyIffAllSpace` | src/store/taskSlice.js:124 | such a piece is empty exactly when the string is all whitespace |
| `Text.TrimIdempotent` | src/store/taskSlice.js:124 | trimming a trimmed string changes nothing |
| `Text.TrimKeepsNoUpperCase` | src/store/taskSlice.js:124 | trimming a lower-cased string leaves it free of upper-case letters, as `toLowerCase().trim()` relies on |
| `Text.Contains` | src/store/taskSlice.js:127 | `includes`: the empty string and every prefix of `s` are in `s`; nothing longer than `s` is in `s` |
| `Seqs.Filter` | src/store/taskSlice.js:126-128 | `filter` returns an order-preserving subsequence; it keeps every occurrence of each value that passes the predicate and drops every value that fails it; if every element passes, the input comes back unchanged |
| `TaskSlice.Enhance` | src/store/taskSlice.js:11-40 | the service fields are kept and the description is "Task description for " + title; a completed record becomes status "completed" with progress 100; any other record gets status "pending" with progress 0 or "in-progress" with progress in 1..99, picked by the draw; the result is `WellFormed` |
| `TaskSlice.FetchPayload` | src/store/taskSlice.js:48 | `data.map(enhanceTaskData)`: same length, and each element is the record at its position decorated with its own draw (so ids, titles and completion are kept and every result is `WellFormed`) |
| `TaskSlice.AddPayload` | src/store/taskSlice.js:67-68 | an add's payload is the service's record decorated: its id, user, title and completion are kept, and the result is `WellFormed` |
| `TaskSlice.CreatedRecord` | src/store/taskSlice.js:56-62 | the record the service creates from the POST body: the new id, `userId` 1, the form's title and `completed` false |
| `TaskSlice.AddedTaskKeepsOnlyTitle` | src/store/taskSlice.js:56-68 | if the service echoes the create body, only the title typed in the form reaches the store; description and due date come from decoration, the status is the drawn open status and the progress is 0 for pending or the drawn value plus 1 for in-progress; the task is not completed |
| `TaskSlice.Merge` | src/store/taskSlice.js:93 | `{...task, ...data}`: each field the server sends overrides the task's; every field it does not send, and status, progress, description and due date, keep the task's value |
| `TaskSlice.MergeEmpty` | src/store/taskSlice.js:93 | a response with no fields leaves the task as sent |
| `TaskSlice.MergeIdempotent` | src/store/taskSlice.js:93 | merging the same response twice has the same effect as merging it once |
| `TaskSlice.UpdateBody` | src/store/taskSlice.js:80-87 | the PUT body carries the task's id, title and completion, and `userId` 1 |
| `TaskSlice.EchoedUpdate` | src/store/taskSlice.js:80-93 | if the service echoes the update body, the payload is the sent task with `userId` set to 1; it equals the sent task exactly when `userId` was already 1 |
| `TaskSlice.FindIndex` | src/store/taskSlice.js:192-194 | `findIndex` returns the first position whose id matches; it returns none exactly when no task has that id |
| `TaskSlice.Normalized` | src/store/taskSlice.js:124 | `toLowerCase().trim()` (also at line 134): no upper-case letter is left, and the term is empty exactly when the payload is all whitespace |
| `TaskSlice.NormalizedIdempotent` | src/store/taskSlice.js:124 | normalising a normalised term changes nothing |
| `TaskSlice.SearchResult` | src/store/taskSlice.js:123-130 | a term that is empty after lower-casing and trimming shows exactly `tasks`; otherwise the result is the order-preserving subsequence of `tasks` whose lower-cased title contains the term, with exact occurrence counts |
| `TaskSlice.FilterResult` | src/store/taskSlice.js:133-141 | "all" (after lower-casing and trimming) shows exactly `tasks`; any other filter shows the order-preserving subsequence whose lower-cased status equals the filter, with exact occurrence counts |
| `TaskSlice.FilterResultEmpty` | src/store/taskSlice.js:135-140 | a filter other than "all" that matches no task's lower-cased status shows nothing |
| `TaskSlice.WithoutId` | src/store/taskSlice.js:211 | delete keeps the order of the remaining tasks and every task with another id, and drops every task with the id; an absent id leaves `tasks` unchanged |
| `TaskSlice.WithoutIdMembers` | src/store/taskSlice.js:211 | a task survives delete exactly when it was present and has a different id |
| `TaskSlice.Toggled` | src/store/taskSlice.js:147-149 | the toggle flips `completed` and sets status and progress to completed/100 or pending/0 to match; id, user, title, description and due date stay the same |
| `TaskSlice.ToggleFirst` | src/store/taskSlice.js:145-150 | only the first task with the id is toggled and the length is kept; every other position stays the same; an absent id changes nothing |
| `TaskSlice.ToggleFirstKeepsIds` | src/store/taskSlice.js:145-150 | a toggle keeps every id at its position, so the first match of any id is unchanged |
| `TaskSlice.ToggledTwice` | src/store/taskSlice.js:147-149 | two toggles restore `completed`; they restore the whole task exactly when it started settled (completed/100 or pending/0); an open task comes back pending/0 |
| `TaskSlice.ToggleFirstTwice` | src/store/taskSlice.js:144-151 | toggling an id twice restores every task's `completed`; the sequence comes back unchanged exactly when the id is absent or the toggled task was settled |
| `TaskSlice.ReplaceFirst` | src/store/taskSlice.js:192-197 | update replaces only the first task whose id matches the payload's and keeps the length and all other entries; with no match nothing changes |
| `TaskSlice.ReplaceFirstSame` | src/store/taskSlice.js:196 | replacing a task with the record already at its position changes nothing |
| `TaskSlice.TaskStore.constructor` | src/store/taskSlice.js:3-8 | the initial state is empty sequences, not loading, no error |
| `TaskSlice.TaskStore.SetDisplayedTasks` | src/store/taskSlice.js:118-120 | `displayedTasks` becomes the payload and nothing else changes; coherence survives only when the payload is a subsequence of `tasks` |
| `TaskSlice.TaskStore.SearchTasks` | src/store/taskSlice.js:123-130 | `displayedTasks` is computed from `tasks` alone; `tasks`, loading and error are unchanged |
| `TaskSlice.TaskStore.FilterTasks` | src/store/taskSlice.js:133-141 | `displayedTasks` is computed from `tasks` alone; `tasks`, loading and error are unchanged |
| `TaskSlice.TaskStore.ToggleTaskCompletion` | src/store/taskSlice.js:144-152 | the first task with the id is toggled in place, then `displayedTasks == tasks`, also for an absent id |
| `TaskSlice.TaskStore.FetchPending` | src/store/taskSlice.js:158-161 | sets loading and clears the error; `tasks` and `displayedTasks` are untouched |
| `TaskSlice.TaskStore.FetchFulfilled` | src/store/taskSlice.js:162-166 | both sequences become the payload and loading stops |
| `TaskSlice.TaskStore.FetchRejected` | src/store/taskSlice.js:167-170 | loading stops and the error is the message; the sequences are untouched |
| `TaskSlice.TaskStore.AddPending` | src/store/taskSlice.js:172-175 | sets loading and clears the error; the sequences are untouched |
| `TaskSlice.TaskStore.AddFulfilled` | src/store/taskSlice.js:176-180 | the payload goes to index 0, the old tasks shift right by one, the length grows by one, and `displayedTasks == tasks` |
| `TaskSlice.TaskStore.AddRejected` | src/store/taskSlice.js:181-184 | loading stops and the error is the message; the sequences are untouched |
| `TaskSlice.TaskStore.UpdatePending` | src/store/taskSlice.js:186-189 | sets loading and clears the error; the sequences are untouched |
| `TaskSlice.TaskStore.UpdateFulfilled` | src/store/taskSlice.js:190-199 | loading stops and the first match is replaced; `displayedTasks == tasks` when the id matched; with no match both sequences stay as they were |
| `TaskSlice.TaskStore.UpdateRejected` | src/store/taskSlice.js:200-203 | loading stops and the error is the message; the sequences are untouched |
| `TaskSlice.TaskStore.DeletePending` | src/store/taskSlice.js:205-208 | sets loading and clears the error; the sequences are untouched |
| `TaskSlice.TaskStore.DeleteFulfilled` | src/store/taskSlice.js:209-213 | loading stops, every task with the id is removed, and `displayedTasks == tasks` |
| `TaskSlice.TaskStore.DeleteRejected` | src/store/taskSlice.js:214-217 | loading stops and the error is the message; the sequences are untouched |
| `InfiniteScroll.Window` | src/hooks/useInfiniteScroll.js:35-37 | the window is the prefix of the items of length `min(page * itemsPerPage, length)` |
| `InfiniteScroll.HasMore` | src/hooks/useInfiniteScroll.js:40 | `endIndex < items.length` holds exactly when the window is shorter than the items |
| `InfiniteScroll.HasMoreIffWindowShort` | src/hooks/useInfiniteScroll.js:36-40 | `hasMore` holds exactly when the window leaves some item out |
| `InfiniteScroll.WindowGrows` | src/hooks/useInfiniteScroll.js:36-37 | for fixed items, a later page's window extends an earlier one, so it never gets shorter |
| `InfiniteScroll.ShortItemsShownWhole` | src/hooks/useInfiniteScroll.js:35-40 | items no longer than the page depth are shown whole and `hasMore` is false (the page is not reset) |
| `InfiniteScroll.ScrollState.constructor` | src/hooks/useInfiniteScroll.js:5-8 | starts at page 1 with nothing displayed, `hasMore` true and not loading |
| `InfiniteScroll.ScrollState.Trigger` | src/hooks/useInfiniteScroll.js:14-21 | a trigger fires exactly when nothing is loading, the sentinel is visible and `hasMore` holds; the page then grows by exactly 1 and loading starts; otherwise nothing changes |
| `InfiniteScroll.ScrollState.Recompute` | src/hooks/useInfiniteScroll.js:30-47 | keeps the page; the window and `hasMore` follow the formulas and loading stops; absent items change nothing; the first page is always shown in full |
| `TaskForm.ApplyChange` | src/components/TaskForm.jsx:30-45 | "completed" forces 100 and completed; "pending" forces 0 and not completed; any other status keeps the progress and clears completed; any other field change updates only that field |
| `TaskForm.StatusProperties` | src/components/TaskForm.jsx:34-38 | `getTaskPropertiesByStatus`: completion holds exactly for "completed"; progress is 100 for "completed", 0 for "pending" and the current progress otherwise |
| `TaskForm.StatusChangeSettles` | src/components/TaskForm.jsx:34-38 | choosing completed or pending leaves the task settled; choosing in-progress gives a well-formed task exactly when the kept progress is in 1..99 |
| `TaskForm.ValidationErrors` | src/components/TaskForm.jsx:48-51 | the error map has key `title` exactly when the trimmed title is empty and key `dueDate` exactly when the due date is empty, with the source's messages, and no other keys |
| `TaskForm.ValidIff` | src/components/TaskForm.jsx:48-53 | validation succeeds exactly when the trimmed title and the due date are both non-empty |
| `TaskForm.SubmitRoute` | src/components/TaskForm.jsx:65-71 | an invalid form calls nothing; a valid one calls `editTask` exactly when the id is truthy, otherwise `addTask`, with the form's task |
| `TaskForm.Form.constructor` | src/components/TaskForm.jsx:4-22 | the form starts with `INITIALSTATE` and no errors |
| `TaskForm.Form.Populate` | src/components/TaskForm.jsx:25-27 | a given task to edit replaces the form's task; none leaves it alone |
| `TaskForm.Form.HandleChange` | src/components/TaskForm.jsx:30-45 | the task becomes `ApplyChange` of the old task and the event |
| `TaskForm.Form.ValidateForm` | src/components/TaskForm.jsx:48-54 | the error map is built check by check and equals `ValidationErrors`; the result is true exactly when both checks pass |
| `TaskForm.Form.CloseForm` | src/components/TaskForm.jsx:57-62 | the form's task and errors are reset |
| `TaskForm.Form.HandleSubmit` | src/components/TaskForm.jsx:65-71 | the call is `SubmitRoute` of the task; an invalid form keeps its task and shows its errors; a valid one resets |
| `UseTasks.PaginateTasks` | src/hooks/useTasks.js:24-30 | the list is paginated ten per page: after the first slice the first ten displayed tasks (or all, if fewer) are shown, and there is more exactly when there are more than ten |
| `UseTasks.FetchOnLoad` | src/hooks/useTasks.js:33-37 | a fetch is dispatched exactly when `tasks` is empty |
| `UseTasks.AddTask` | src/hooks/useTasks.js:40-45 | the add is dispatched exactly when the trimmed title is non-empty; otherwise nothing is dispatched |
| `UseTasks.TogglePayload` | src/hooks/useTasks.js:66-72 | the update payload built from the pre-toggle snapshot equals what the local toggle reducer produces |
| `UseTasks.ToggleCheckTask` | src/hooks/useTasks.js:58-75 | the local toggle is dispatched first; the update is dispatched exactly when the snapshot holds the id, and its payload is the task the local toggle produced |
| `UseTasks.FormAddIsDispatched` | src/hooks/useTasks.js:40-45 | an add routed by a valid form always passes the hook's title guard |
| `UseTasks.EchoedToggleUpdate` | src/hooks/useTasks.js:58-75 | if the service echoes the body, the update after a local toggle leaves the toggled task as the toggle left it, except `userId` becomes 1 |
| `UseTasks.ToggleCheckRoundTrip` | src/hooks/useTasks.js:58-75 | running the toggle, update pending and echoed update fulfilled on a store leaves `tasks` as the local toggle did (up to `userId`), with `displayedTasks == tasks` and no error |

## Left out

- Network I/O in the thunks (`fetch`, JSON, HTTP verbs, the URL). Each thunk is modelled only as the payload it hands to its fulfilled reducer (`FetchPayload`, `AddPayload`, `Merge`, the id for delete), or as the message it hands to its rejected reducer.
- Redux Toolkit, Immer and the store configuration (`store.jsx`). These are library plumbing; each reducer case is a direct state transition.
- Interleaving of concurrent thunks. Each reducer case is atomic, and the store methods can be called in any order.
- `Math.random` and `Date.now()`. They are the `Draw` parameter.
- `IntersectionObserver` creation, `observe` and `disconnect`, and the unmount cleanup. These are browser lifecycle; only the trigger's guard and effect are kept. A stale observer's callback is not modelled.
- `formatDate`. It uses `Date` arithmetic, floating point and locale formatting.
- Presentation components and the styling table. They hold UI state only.
- Unicode semantics of `toLowerCase` and `trim`. Only ASCII letters are lower-cased, and only ASCII whitespace is trimmed.
- `deleteTask`, `editTask`, `handleSearch` and `handleFilter` in `useTasks.js`. They forward their argument to one store action without any guard; the `Action` constructors stand for them.
- `setShowModalLoading` in `useTasks.js` and the `toggleForm` and `setTaskToEdit` calls in `closeForm`. These are UI flags owned by parent components.
- TaskForm.ApplyChange: the range input delivers progress as a string; it is modelled as the integer it denotes. `getTaskPropertiesByStatus` reads the current render's task, while the spread reads the previous state; the model takes them to be the same task.
- TaskSlice.TaskStore.FetchRejected: the source reads the message from `action.error.message`, and the other rejected cases read it from `action.payload`; both are the message parameter here.
