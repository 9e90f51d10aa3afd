# Task manager: the task-list page and the task collection handler

A model of the two pieces of the task manager that carry logic:

- the **collection handler** for `/api/tasks` (`src/app/api/tasks/route.ts`):
  GET lists every stored task newest first; POST trims the title, answers
  400 "Title is required" for a blank one without touching the store, and
  otherwise creates a task from the title alone and answers 201 with it;
- the **task-list page** (`src/app/tasks/page.tsx`): the page state
  (`tasks`, the drafts `title`, `description` and `dueDate`, the flags
  `loading` and `submitting`, and `error`) and its handlers `loadTasks`,
  `addTask`, `toggleTask` and `deleteTask`, with the optimistic change each
  of the last two applies and the rollback it performs when the server
  refuses.

Layout:

- `wrappers.dfy` (`Wrappers`): `Option`, with `GetOr` for `??`.
- `text.dfy` (`Text`): `String.prototype.trim` over the ECMAScript
  whitespace and line-terminator characters, and its properties.
- `task_model.dfy` (`TaskModel`): the `Task` record.
- `task_route.dfy` (`TaskRoute`): request and response shapes, title
  validation, the newest-first ordering of GET, an abstract task store
  (`TaskStore`, a class whose `rows` the store's `Create` appends to) and
  the POST handler as a method over it.
- `tasks_page.dfy` (`TasksPage`): the list transforms the handlers apply
  (`map`, `filter`, prepend, the `completedCount` filter), and the page
  state as the class `TasksPageState`. Every network reply is a method
  parameter. A handler that awaits between its first state change and its
  last is split into a `Begin…` and a `Finish…` method; for toggle and
  delete these are the optimistic step and the commit-or-rollback step.
- `client_server.dfy` (`ClientServer`): the page's create request against
  the POST handler's check.

Timestamps are integers standing for instants; the JSON's ISO-8601 strings
are not modelled. `dueDate` is an opaque string.

Behaviour of the code worth knowing:

- POST creates the record from `{ title }` only (route.ts:19-21): a
  description or due date in the body is dropped, and the stored task has
  neither.
- `toggleTask` and `deleteTask` roll back only when the reply is not ok
  (page.tsx:113, 128). They have no `catch`, so when `fetch` itself rejects
  the optimistic change stays and no error is shown (`Ack.NetworkError` in
  `FinishToggle` and `FinishDelete`).
- The failed-delete rollback restores the whole list captured before the
  removal (page.tsx:122, 129), so anything that changed the list between the
  two steps is undone with it.

## Model

| member | source | states |
|---|---|---|
| Text.TrimStart | src/app/api/tasks/route.ts:14 | the result is a suffix of the input, the dropped prefix is all whitespace, and the result does not start with whitespace |
| Text.TrimEnd | src/app/api/tasks/route.ts:14 | the result is a prefix of the input, the dropped suffix is all whitespace, and the result does not end with whitespace |
| Text.Trim | src/app/api/tasks/route.ts:14 | the trimmed string has whitespace at neither end |
| Text.TrimIsInfix | src/app/api/tasks/route.ts:14 | the trimmed string is an infix of the input and everything around it is whitespace |
| Text.TrimEmptyIff | src/app/api/tasks/route.ts:15 | trimming yields the empty string exactly when the input is all whitespace |
| Text.TrimFixedIff | src/app/api/tasks/route.ts:14 | trimming leaves a string alone exactly when neither of its ends is whitespace |
| Text.TrimIdempotent | src/app/api/tasks/route.ts:14 | trimming twice gives the same as trimming once |
| Text.NonBlank | src/app/api/tasks/route.ts:14-15 | a trimmed string is kept exactly when the input is not all whitespace, and what is kept is non-empty with no whitespace at either end |
| TaskRoute.ValidTitle | src/app/api/tasks/route.ts:12-17 | POST rejects exactly the bodies whose title is all whitespace (absent counts as empty); otherwise it uses the trimmed title, non-empty and with no surrounding whitespace |
| TaskRoute.AbsentTitleRejected | src/app/api/tasks/route.ts:12-15 | an unparsable body, or one without a title, is rejected like a blank title rather than failing |
| TaskRoute.InsertByCreated | src/app/api/tasks/route.ts:5-7 | inserting adds exactly the one task to the list's multiset |
| TaskRoute.InsertKeepsDescending | src/app/api/tasks/route.ts:5-7 | inserting into a newest-first list keeps it newest first |
| TaskRoute.SortByCreatedDesc | src/app/api/tasks/route.ts:5-7 | the ordering is a permutation of the rows with `createdAt` non-increasing |
| TaskRoute.Get | src/app/api/tasks/route.ts:4-9 | GET answers 200 with exactly the stored tasks, none added or dropped, ordered by `createdAt` descending |
| TaskRoute.InsertOlderLast | src/app/api/tasks/route.ts:5-7 | a task older than every task of the list is inserted at its end |
| TaskRoute.SortCreationOrderReverses | src/app/api/tasks/route.ts:5-7 | rows created at strictly increasing times are ordered in reverse creation order |
| TaskRoute.GetNewestFirst | src/app/api/tasks/route.ts:4-9 | tasks created at T1 < T2 < ... < Tn are listed as Tn, ..., T2, T1 |
| TaskRoute.TaskStore.Create | src/app/api/tasks/route.ts:19-21 | the store appends one row with the given title, a fresh positive id, no description or due date, not completed, and both timestamps equal; ids stay unique |
| TaskRoute.Post | src/app/api/tasks/route.ts:11-24 | a blank title gets 400 "Title is required" and leaves the store unchanged; otherwise exactly one task is created from the trimmed title alone and returned with 201; stored titles stay non-empty and trimmed |
| TasksPage.ToggleById | src/app/tasks/page.tsx:103-105 | the optimistic toggle keeps length and order, negates `completed` on every task with the target id and leaves every other task as it was |
| TasksPage.ReplaceById | src/app/tasks/page.tsx:115 | the toggle rollback keeps length and order, puts the snapshot in place of every task with its id and leaves the others alone |
| TasksPage.RemoveById | src/app/tasks/page.tsx:125 | the optimistic delete leaves no task with that id, keeps every other task with its multiplicity, and is a subsequence of the prior list |
| TasksPage.CountCompleted | src/app/tasks/page.tsx:24-27 | the completed count is at most the number of tasks, equals it exactly when all are completed, and is zero exactly when none is |
| TasksPage.ToggleTwice | src/app/tasks/page.tsx:103-105 | toggling the same id twice gives back the list |
| TasksPage.ToggleThenRollback | src/app/tasks/page.tsx:99-117 | a toggle followed by its rollback gives back the prior list when every entry with that id equalled the snapshot |
| TasksPage.CountAfterToggle | src/app/tasks/page.tsx:24-27 | with one task of the toggled id, the completed count moves by exactly one, down if it was completed and up otherwise |
| TasksPage.DraftRequest | src/app/tasks/page.tsx:57-77 | nothing is sent exactly when the title is all whitespace; otherwise the request carries the trimmed title, and the trimmed description and due date, each absent exactly when blank |
| TasksPage.TasksPageState.constructor | src/app/tasks/page.tsx:16-22 | the page starts with no tasks, empty drafts, loading, not submitting and no error |
| TasksPage.TasksPageState.CompletedCount | src/app/tasks/page.tsx:24-27 | the shown completed count never exceeds the number of tasks and equals it exactly when all are completed |
| TasksPage.TasksPageState.BeginLoad | src/app/tasks/page.tsx:35-39 | the error is cleared and loading starts; the list, the drafts and submitting are untouched |
| TasksPage.TasksPageState.FinishLoad | src/app/tasks/page.tsx:40-47 | a decoded list replaces the tasks; a refused reply keeps the list and shows "Gagal memuat tasks"; a rejected fetch keeps the list and shows its message or "Terjadi error"; loading is false afterwards, the error otherwise untouched, and the drafts and submitting unchanged |
| TasksPage.TasksPageState.BeginAdd | src/app/tasks/page.tsx:54-67 | an all-whitespace title sends nothing and changes nothing; otherwise the draft request is sent, submitting starts and the error is cleared, the list untouched |
| TasksPage.TasksPageState.FinishAdd | src/app/tasks/page.tsx:80-96 | the created task is prepended to the old list and the three drafts are reset to ""; on failure the list and drafts stay and the error is the server's message or "Gagal menambah task" (or the thrown message or "Terjadi error"); submitting is false afterwards |
| TasksPage.TasksPageState.BeginToggle | src/app/tasks/page.tsx:99-111 | the error is cleared, the list is the optimistic toggle of the old one, and the request asks for the negation of the snapshot's flag |
| TasksPage.TasksPageState.FinishToggle | src/app/tasks/page.tsx:113-117 | a refused update replaces every task with the snapshot's id by the snapshot and shows "Gagal update status task"; otherwise nothing changes |
| TasksPage.TasksPageState.BeginDelete | src/app/tasks/page.tsx:120-125 | the error is cleared, the snapshot is the whole prior list and the list loses every task with that id |
| TasksPage.TasksPageState.FinishDelete | src/app/tasks/page.tsx:127-131 | a refused delete restores exactly the snapshot and shows "Gagal menghapus task"; otherwise nothing changes |
| ClientServer.AsBody | src/app/tasks/page.tsx:73-77 | the body posted for a request with a non-empty trimmed title passes POST's title check with that title unchanged |
| ClientServer.DraftSentIffServerAccepts | src/app/api/tasks/route.ts:14-17 | the page sends a create request exactly for the titles POST accepts |
| ClientServer.ServerAcceptsDraft | src/app/api/tasks/route.ts:14-21 | a request with a non-empty trimmed title, which is every request the page sends, passes POST's check with its title unchanged |

## Left out

- Network transport and awaiting: each fetch's outcome is a parameter (`Reply`, `Ack`) and the steps of a handler run one after another; interleavings of several in-flight toggles or deletes are not modelled.
- The conversion of the due date with `new Date(cleanDue).toISOString()` (src/app/tasks/page.tsx:64) is a foreign library call: the request carries the trimmed datetime-local text, and the `RangeError` an invalid date throws there is not modelled.
- `formatDueDate` (src/app/tasks/page.tsx:29-33): locale-dependent date formatting.
- The calls to `e.preventDefault()` and the `useEffect` that runs `loadTasks` on mount, and all rendering (src/app/tasks/page.tsx:134-250, src/app/layout.tsx, src/app/page.tsx).
- The database client and its configuration (src/lib/prisma.ts, prisma.config.ts): the store assigns ids from a counter and takes the clock as the `now` parameter, which stands in for the database's autoincrement and `now()` defaults; ordering ties are broken one fixed way, which the database leaves open.
- A storage failure in GET or POST: route.ts has no `catch`, so the framework answers with its own error; not modelled.
- `String(...)` of a non-string title (src/app/api/tasks/route.ts:14): the body's title is a string or absent.
- JSON decoding on the page (`as Task[]`, `as Task`) checks nothing at run time; the model takes the decoded values as tasks.
- Characters are Unicode scalar values rather than UTF-16 code units; every character `trim` removes is a single code unit, so trimming agrees.
- Server-side update and delete by id (src/app/api/tasks/[id]/route.ts) are not part of this model; only the page's side of toggle and delete is.
- `deleteTask` takes its snapshot from the list of the render it was called from; with the steps run one after another this is the current list.
