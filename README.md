# Kanban board: a Dafny model of its stores, views and server reactions

The board keeps tasks in four workflow columns: backlog, in progress, review and done. Its logic
lives in these parts, and each has a module here:

- **Task store** (`TaskSlice`) holds all tasks, the tasks on show after the search filter, the
  search term, page entries, a loading flag and an error. `Reduce` gives each of its nine actions
  its meaning. The class `TaskStore` updates the same fields in place, and every method is proved
  to agree with `Reduce`.
- **UI store** (`UiSlice`) holds the task dialog: open or closed, the mode, and the task.
- **Column** (`ColumnView`) chooses a column's tasks, pages them three at a time, keeps the
  current page and picks the empty-state messages.
- **Board** (`Board`) has the drop handler, which decides whether a finished drag asks the server
  to move a task.
- **Task dialog** (`TaskModalForm`) has the form. It is loaded on open, edited field by field,
  validated, trimmed and submitted as a create or an update.
- **Server reactions** (`UseTasks`) say, for each request that settles, what lands in the query
  cache and which action goes to the store.
- **Configuration** (`Constants`) has the column identifiers, titles and colours, and the page size.

`JsArray` and `JsString` model the JavaScript built-ins this code relies on: `filter`,
`findIndex`/`find`, `map`, `slice` with negative bounds, `toLowerCase`, `includes`, `trim`,
`parseInt` and `toString`.

Where the code and its description differ, the model follows the code:

- `setTasks` puts its payload in the shown list unfiltered, even when a search term is set. See
  `TaskSlice.SetTasksCanShowNonMatching`.
- The page count of an empty column is `Math.ceil(0 / 3) == 0`, not 1. Only that count differs:
  the pager needs more than one page, so it stays hidden for an empty column either way.
- `moveTask` searches each list for its own first task with the identifier. With unique
  identifiers the two lists stay in step (`TaskSlice.MoveKeepsSync`). When identifiers repeat
  they can drift apart: the shown list can then hold a task the task list does not
  (`TaskSlice.MoveDriftsOnDuplicateIds`).
- In edit mode with no task, submitting a valid form reads `taskModal.task.id` from `null` and
  throws. The model calls this outcome `Faulted`.

## Model

| member | source | states |
|---|---|---|
| Constants.ParseColumn | src/utils/constants.js:1-6 | Recognises a string exactly when it is one of the four column identifiers, and returns that column. |
| Constants.ColumnId | src/utils/constants.js:1-6 | Every identifier is a non-empty lower-case snake-case word. `ParseColumnId` gives its inverse, and `ColumnIdInjective` shows no two columns share one. |
| Constants.ColumnsEnumerated | src/utils/constants.js:1-6 | The enumeration has four values, none listed twice, and contains every column. |
| Constants.ColumnIdInjective | src/utils/constants.js:1-6 | Distinct columns have distinct identifiers. |
| Constants.ParseColumnId | src/utils/constants.js:1-6 | Every column's identifier is recognised as that column. |
| Constants.ColumnTitle | src/utils/constants.js:8-13 | Every column has a non-empty title. |
| Constants.ColumnTitlesDistinct | src/utils/constants.js:8-13 | The four titles are pairwise distinct. |
| Constants.ColumnColour | src/utils/constants.js:15-20 | Every column's colour is a `#rrggbb` hex colour. |
| Constants.PageSizePositive | src/utils/constants.js:23 | The page size is positive. |
| JsArray.Filter | src/store/taskSlice.js:28-31 | The result is no longer than the input, and all of it satisfies the predicate. |
| JsArray.FilterIsSubsequence | src/store/taskSlice.js:46-47 | `filter` returns a subsequence of its input, in order. |
| JsArray.SubsequenceCons | src/store/taskSlice.js:46-47 | Prepending to the longer sequence keeps the subsequence relation. |
| JsArray.SubsequenceRefl | src/store/taskSlice.js:21-24 | Every list is a subsequence of itself, as after `setTasks` puts one payload in both lists. |
| JsArray.SubsequenceMembership | src/store/taskSlice.js:45-60 | Whatever a subsequence holds, the larger sequence holds too. |
| JsArray.FilterKeepsSubsequence | src/store/taskSlice.js:46-47 | Filtering two sequences with one predicate keeps one a subsequence of the other. |
| JsArray.FilterMembership | src/store/taskSlice.js:28-31 | An element is in the result exactly when it is in the input and satisfies the predicate. |
| JsArray.FilterCount | src/store/taskSlice.js:28-31 | A kept element occurs in the result as often as in the input; a rejected one never occurs. |
| JsArray.FilterKeeps | src/store/taskSlice.js:28-31 | For every element at once: it is kept exactly when it is in the input and passes; a kept one occurs as often as in the input; the order stays. |
| JsArray.FilterAll | src/store/taskSlice.js:64-67 | When every element passes, `filter` returns its input. |
| JsArray.FilterNone | src/store/taskSlice.js:64-67 | When no element passes, `filter` returns the empty sequence. |
| JsArray.FilterAppend | src/store/taskSlice.js:27-31 | Filtering after a push is filtering before it plus the new element, if it passes. |
| JsArray.FilterCommute | src/store/taskSlice.js:45-48 | Two filters can be applied in either order. |
| JsArray.FindIndex | src/store/taskSlice.js:35 | Returns the first index whose element passes, or None exactly when no element passes. |
| JsArray.Map | src/hooks/useTasks.js:43 | Same length, and each element is the function applied to the input element at that position. |
| JsArray.RelativeIndex | src/components/Column.js:35 | `slice`'s index: a non-negative one is clamped to the length, and a negative one counts back from the end, at least 0. |
| JsArray.Slice | src/components/Column.js:35 | With non-negative bounds, the slice between the clamped bounds; empty when the start is past the end. |
| JsString.LowerChar | src/store/taskSlice.js:29 | ASCII letters are lower-cased (a shift of 32), and other characters are unchanged. |
| JsString.ToLower | src/store/taskSlice.js:29 | Same length; each character is lower-cased. |
| JsString.Includes | src/store/taskSlice.js:29-30 | The empty term is always included, and a longer term than the text never is. `IncludesIff` gives the full meaning. |
| JsString.IncludesIff | src/store/taskSlice.js:29-30 | `includes` holds exactly when the term occurs at some index. |
| JsString.LeadingSpace | src/components/TaskModal.js:70 | Counts the white space `s` starts with: every character before the count is white space, and the one at the count is not. |
| JsString.TrailingSpaceStart | src/components/TaskModal.js:70 | Gives where the trailing white space begins: every character from there on is white space, and the one just before is not. |
| JsString.Trim | src/components/TaskModal.js:70 | The result is no longer than the input, and it neither starts nor ends with white space. `TrimShape` and `TrimIdempotent` give the rest. |
| JsString.TrimShape | src/components/TaskModal.js:86-87 | `trim` keeps a middle slice of the string, with only white space cut before and after it, and the slice has no white space at either end. |
| JsString.BlankIffWhitespace | src/components/TaskModal.js:70-76 | A text is blank once trimmed exactly when it is all white space. |
| JsString.TrimIdempotent | src/components/TaskModal.js:86-87 | Trimming twice is trimming once. |
| JsString.DigitPrefixLength | src/components/Board.js:36 | Gives the length of the longest run of leading decimal digits. |
| JsString.ParseInt | src/components/Board.js:36 | `parseInt` is NaN (None) exactly when no digit follows the optional sign. |
| JsString.NatToString | src/components/TaskCard.js:29 | Gives a non-empty string of digits whose decimal value is the number, with no leading zero. |
| JsString.IntToString | src/components/TaskCard.js:29 | `toString` gives a non-empty text of digits, led by `-` exactly for a negative number. `ParseIntToString` shows `parseInt` inverts it. |
| JsString.ParseIntToString | src/components/Board.js:36 | `parseInt` of an integer's decimal text gives back the integer. |
| TaskSlice.Matches | src/store/taskSlice.js:28-31 | The empty term matches every task, and a term longer than both texts matches none. |
| TaskSlice.FilterByTerm | src/store/taskSlice.js:28-31 | Gives, in order, exactly the tasks that match the term. `SyncedShowsMatches` adds the counts. |
| TaskSlice.FirstWithId | src/store/taskSlice.js:35 | Gives the index of the first task with the identifier, or None exactly when no task has it. |
| TaskSlice.ReplaceFirst | src/store/taskSlice.js:34-37 | Only the first task with the identifier is replaced, and other positions and the length stay. Nothing changes when no task has the identifier. |
| TaskSlice.MoveFirst | src/store/taskSlice.js:50-59 | Only the first task with the identifier gets the new column. Identifiers, titles, descriptions, order and length stay. |
| TaskSlice.RemoveId | src/store/taskSlice.js:45-48 | No task with the identifier remains. Every other task stays, as often as it was there, in the same order. |
| TaskSlice.InitialState | src/store/taskSlice.js:3-15 | The initial store has no tasks, searches for nothing, is in sync, is not loading and has no error. `InitialStateShape` gives the page entries. |
| TaskSlice.Reduce | src/store/taskSlice.js:20-82 | Only `setSearchTerm`, `setLoading`, `setError` and `setPagination` change their own fields. Those last three keep both lists. `addTask` and `setSearchTerm` leave the store in sync. `addTask` adds one task, and every other action except `setTasks` and `deleteTask` keeps the number of tasks. The lemmas below state each action in full. |
| TaskSlice.InitialStateShape | src/store/taskSlice.js:3-15 | The initial store is empty and searches for nothing. It holds page 1 of 1 for exactly the four column identifiers, and it is in sync. |
| TaskSlice.SyncedShowsMatches | src/store/taskSlice.js:28-31 | In a synced store, the shown list keeps the store's order and holds exactly the matching tasks, every copy of each. |
| TaskSlice.SetTasksIgnoresTerm | src/store/taskSlice.js:21-24 | `setTasks` puts its payload in both lists and keeps the term. |
| TaskSlice.SetTasksCanShowNonMatching | src/store/taskSlice.js:21-24 | After `setTasks` under a term, the store can show a task that does not match. |
| TaskSlice.AddTaskAppends | src/store/taskSlice.js:26-32 | `addTask` appends at the end, keeps the old tasks in place and leaves the store in sync. |
| TaskSlice.AddTaskShowsNewIfMatching | src/store/taskSlice.js:26-32 | From a synced store, the shown list grows by the new task exactly when it matches. |
| TaskSlice.SetSearchTermSyncs | src/store/taskSlice.js:62-68 | `setSearchTerm` stores the term, keeps the tasks and shows exactly the matches. |
| TaskSlice.ClearSearchShowsAll | src/store/taskSlice.js:62-68 | The empty term shows every task. |
| TaskSlice.UpdateUnknownIsNoOp | src/store/taskSlice.js:34-43 | An update with an unknown identifier changes nothing. |
| TaskSlice.UpdateKnownReplacesFirst | src/store/taskSlice.js:34-43 | An update with a known identifier replaces the first such task, keeps every other position and re-filters. |
| TaskSlice.DeleteRemovesEveryCopy | src/store/taskSlice.js:45-48 | Delete drops every copy of the identifier from both lists. Every other task stays in each list, as often as it was there, in order. No other field changes. |
| TaskSlice.DeleteKeepsSync | src/store/taskSlice.js:45-48 | Deleting from both lists separately keeps a synced store synced. |
| TaskSlice.DeleteKeepsSubsequence | src/store/taskSlice.js:45-48 | Delete keeps the shown list a subsequence of the task list. |
| TaskSlice.MoveChangesOnlyColumn | src/store/taskSlice.js:50-60 | A move changes only the column, and only of the first task with the identifier, in each list. Every other position of both lists and every other field stay. |
| TaskSlice.MoveUnknownIsNoOp | src/store/taskSlice.js:50-60 | A move with an identifier in neither list changes nothing. |
| TaskSlice.MoveFirstCons | src/store/taskSlice.js:52-55 | The first-match move unrolled by one element. |
| TaskSlice.MoveCommutesWithFilter | src/store/taskSlice.js:50-60 | With unique identifiers, moving then filtering equals filtering then moving. |
| TaskSlice.MoveKeepsSync | src/store/taskSlice.js:50-60 | With unique identifiers, a move keeps a synced store synced. |
| TaskSlice.MoveKeepsSubsequence | src/store/taskSlice.js:50-60 | Over a list with unique identifiers, moving the first match in it and in a subsequence of it keeps the subsequence relation. |
| TaskSlice.ReducePreservesSubsequence | src/store/taskSlice.js:20-82 | Every action keeps the shown list an in-order selection of the task list, given unique identifiers when a task is moved. |
| TaskSlice.MoveDriftsOnDuplicateIds | src/store/taskSlice.js:50-60 | With a duplicated identifier, a move from a synced store can leave the shown list out of sync. The shown list then holds a task the task list lacks, so it is no longer a subsequence. |
| TaskSlice.SetPaginationOnlyNamed | src/store/taskSlice.js:70-73 | `setPagination` sets the named column's entry and nothing else. |
| TaskSlice.FlagsOnlyTheirField | src/store/taskSlice.js:75-81 | `setLoading` and `setError` each change only their own field. |
| TaskSlice.TaskStore.constructor | src/store/taskSlice.js:3-15 | The new store is the initial state. |
| TaskSlice.TaskStore.SetTasks | src/store/taskSlice.js:21-24 | The in-place update agrees with the reducer's meaning. |
| TaskSlice.TaskStore.AddTask | src/store/taskSlice.js:26-32 | The push and re-filter agree with the reducer's meaning. |
| TaskSlice.TaskStore.UpdateTask | src/store/taskSlice.js:34-43 | The in-place replacement agrees with the reducer's meaning. |
| TaskSlice.TaskStore.DeleteTask | src/store/taskSlice.js:45-48 | The in-place update agrees with the reducer's meaning. |
| TaskSlice.TaskStore.MoveTask | src/store/taskSlice.js:50-60 | Setting the column on each list's found task agrees with the reducer's meaning. |
| TaskSlice.TaskStore.SetSearchTerm | src/store/taskSlice.js:62-68 | The in-place update agrees with the reducer's meaning. |
| TaskSlice.TaskStore.SetPagination | src/store/taskSlice.js:70-73 | The in-place update agrees with the reducer's meaning. |
| TaskSlice.TaskStore.SetLoading | src/store/taskSlice.js:75-77 | The in-place update agrees with the reducer's meaning. |
| TaskSlice.TaskStore.SetError | src/store/taskSlice.js:79-81 | The in-place update agrees with the reducer's meaning. |
| TaskSlice.TaskStore.Dispatch | src/store/taskSlice.js:85-97 | Dispatching any action agrees with the reducer's meaning. |
| UiSlice.FromTask | src/components/TaskCard.js:19 | The dialog receives the stored task's identifier, title, description and column. |
| UiSlice.InitialTaskModal | src/store/uiSlice.js:3-9 | The initial dialog is closed, in create mode, with no task. |
| UiSlice.Opened | src/store/uiSlice.js:15-19 | Opening sets the dialog open with the given mode and task. |
| UiSlice.Closed | src/store/uiSlice.js:21-25 | Closing sets the dialog closed, in create mode, with no task. |
| UiSlice.CloseIsInitial | src/store/uiSlice.js:3-9 | Closing from any state gives the initial state, so closing twice is closing once. |
| UiSlice.OpenThenClose | src/store/uiSlice.js:15-25 | Opening and then closing returns to the initial state. |
| UiSlice.UiStore.constructor | src/store/uiSlice.js:3-9 | The new dialog state is the initial one. |
| UiSlice.UiStore.OpenTaskModal | src/store/uiSlice.js:15-19 | The in-place update agrees with `Opened`. |
| UiSlice.UiStore.CloseTaskModal | src/store/uiSlice.js:21-25 | The in-place update agrees with `Closed`. |
| ColumnView.ColumnTasks | src/components/Column.js:22-24 | Gives only tasks in this column, no more than are shown. `ColumnTasksSelects` gives the full selection. |
| ColumnView.ColumnTasksSelects | src/components/Column.js:22-24 | A column shows, in store order, exactly the shown tasks in that column, every copy of each. |
| ColumnView.TotalPages | src/components/Column.js:32 | Gives the fewest pages of three that hold the tasks; zero exactly when there are none. |
| ColumnView.StartIndex | src/components/Column.js:33 | Page `p` from 1 on starts after exactly `p - 1` full pages. |
| ColumnView.EndIndex | src/components/Column.js:34 | A page ends where the next one starts. |
| ColumnView.PageTasks | src/components/Column.js:33-35 | Page `p` from 1 on holds tasks `3(p-1)` to `3p` or to the end: at most three, none past the end. Page 0 is empty. |
| ColumnView.FirstPages | src/components/Column.js:32-35 | The first `k` pages together are the first `3k` tasks. |
| ColumnView.PagesCoverColumn | src/components/Column.js:32-35 | Reading every page in order gives back the column: no task twice, none left out. |
| ColumnView.PagesInRangeNonEmpty | src/components/Column.js:32-35 | Every page the pager offers holds one to three tasks. |
| ColumnView.FourTasksTwoPages | src/components/Column.js:32-35 | Four tasks make two pages: three, then one. |
| ColumnView.ShowsPagerIff | src/components/Column.js:172 | The pager appears exactly when the column holds more than three tasks. |
| ColumnView.EmptyStates | src/components/Column.js:135-167 | "No tasks in this column" shows exactly for an empty column. "No tasks found on this page" shows exactly for an empty page of a non-empty column, never both, and never on an offered page. |
| ColumnView.AddTaskPayload | src/components/Column.js:37-42 | "Add Task" asks for create mode with a blank template in this column. |
| ColumnView.Pager.constructor | src/components/Column.js:19 | The page starts at 1. |
| ColumnView.Pager.AfterRender | src/components/Column.js:27-29 | The page resets to 1 exactly when the term or the column size changed since the last render. |
| ColumnView.Pager.HandlePageChange | src/components/Column.js:44-46 | The chosen page becomes current. |
| Board.HandleDragEnd | src/components/Board.js:21-46 | No destination leads to `DroppedOutside` and only that. A drop on its own slot leads to `SameSlot` and only that. An `InvalidColumn` carries the target, and no column has that identifier. |
| Board.IssuedMove | src/components/Board.js:21-46 | A move is issued exactly when all three guards pass. It carries the parsed card identifier and the target column. |
| Board.NoDestinationNoMove | src/components/Board.js:25 | A drop outside every column issues nothing. |
| Board.SameSlotNoMove | src/components/Board.js:28-33 | A drop back on its own slot issues nothing. |
| Board.UnknownColumnNoMove | src/components/Board.js:39-43 | A drop on an unknown target issues nothing and is logged. |
| Board.MoveCarriesCardId | src/components/Board.js:36-45 | A card whose draggable id is its task identifier asks to move that task. |
| Board.ReorderInColumnSendsSameColumn | src/components/Board.js:28-45 | Reordering inside a column still asks for a move, to the same column. |
| Board.SameSlotCheckedBeforeColumn | src/components/Board.js:28-43 | The same-slot guard is checked before the column guard. |
| Board.DropSevenOnReview | src/components/Board.js:21-46 | Dragging task 7 onto review asks to move task 7 to review. |
| TaskModalForm.ApplyEdit | src/components/TaskModal.js:52-56 | An edit sets its own field and keeps the other two. |
| TaskModalForm.ClearError | src/components/TaskModal.js:58-64 | The edited field has no error afterwards, and every other field's message stays. |
| TaskModalForm.ValidationErrors | src/components/TaskModal.js:67-80 | There is exactly one message per blank field, none for the column, and none at all exactly when both texts are non-blank. |
| TaskModalForm.ToTaskData | src/components/TaskModal.js:85-89 | The data sent is the form's own title and description, trimmed, and its chosen column. Trimming it again changes nothing, and it is no longer than the form's text. |
| TaskModalForm.SubmittedDataIsTrimmed | src/components/TaskModal.js:85-89 | A valid form's data has a non-empty title and description with no white space at either end. |
| TaskModalForm.FormOnOpen | src/components/TaskModal.js:33-50 | Edit mode with a task loads its fields. Otherwise the form is blank, in the given task's column or the backlog. |
| TaskModalForm.SubmitDecision | src/components/TaskModal.js:82-98 | A request is made exactly when the form is valid and edit mode has a task. The fault happens exactly when edit mode has none. A request carries the trimmed data, and it is an update exactly in edit mode. |
| TaskModalForm.InvalidFormMakesNoRequest | src/components/TaskModal.js:82-83 | A form with a blank title or description makes no request. |
| TaskModalForm.ValidFormMakesOneRequest | src/components/TaskModal.js:82-98 | A valid form makes one request: an update of the dialog's task in edit mode, otherwise a create, always with the trimmed data. |
| TaskModalForm.AddTaskOpensBlankForm | src/components/TaskModal.js:41-46 | "Add Task" opens a blank form in its column. |
| TaskModalForm.EditRoundTrip | src/components/TaskModal.js:33-98 | Editing a stored task and submitting it unchanged asks to update that task with its own fields. |
| TaskModalForm.TaskForm.constructor | src/components/TaskModal.js:25-31 | The form starts blank in the backlog, with no errors. |
| TaskModalForm.TaskForm.OnTaskModalChange | src/components/TaskModal.js:33-50 | An open dialog reloads the form and clears the errors; a closed one changes nothing. |
| TaskModalForm.TaskForm.HandleInputChange | src/components/TaskModal.js:52-65 | Agrees with `ApplyEdit` and `ClearError`. |
| TaskModalForm.TaskForm.ValidateForm | src/components/TaskModal.js:67-80 | Stores `ValidationErrors`, and succeeds exactly when the form is valid. |
| TaskModalForm.TaskForm.HandleClose | src/components/TaskModal.js:100-108 | The dialog closes, the form is blanked and the errors are cleared. |
| TaskModalForm.TaskForm.HandleSubmit | src/components/TaskModal.js:82-98 | Its outcome is `SubmitDecision`. An invalid form keeps the data and shows the errors. A submitted one resets the form and closes the dialog. |
| UseTasks.AppendUpdater | src/hooks/useTasks.js:30 | The cached list (empty when none) is kept, with the new task at the end. |
| UseTasks.ReplaceUpdater | src/hooks/useTasks.js:42-44 | Every cached task with the answer's identifier becomes the answer; the others stay. |
| UseTasks.RemoveUpdater | src/hooks/useTasks.js:56-58 | No cached task with the identifier remains. Every other cached task stays, as often as it was cached, in order. |
| UseTasks.OnError | src/hooks/useTasks.js:21-23 | The cache stays as it was, and the dispatched action changes nothing in the store but the error message. |
| UseTasks.FetchSettled | src/hooks/useTasks.js:11-24 | On success the answer is cached, and the store holds it whatever it held before. On failure only the error is recorded. |
| UseTasks.CreateSettled | src/hooks/useTasks.js:27-36 | On success the new task is appended to the cache and sent to the store. On failure only the error is recorded. `CreateDeleteKeepAgreement` shows cache and store stay equal. |
| UseTasks.UpdateSettled | src/hooks/useTasks.js:39-50 | On success every cached task with the answer's identifier becomes the answer, and the others stay. The answer is sent to the store. On failure only the error is recorded. |
| UseTasks.DeleteSettled | src/hooks/useTasks.js:53-64 | On success the cache goes through the delete updater: no cached task keeps the identifier, and every other one stays in order (`RemoveUpdater`). The identifier is sent to the store. On failure only the error is recorded. |
| UseTasks.MoveSettled | src/hooks/useTasks.js:67-78 | On success the cache takes the whole answer in every position with its identifier, while the store is sent only the identifier and column. On failure only the error is recorded. |
| UseTasks.FailureOnlySetsError | src/hooks/useTasks.js:21-23 | Any failed request leaves the cache and both task lists unchanged and only sets the error message. |
| UseTasks.CreateDeleteKeepAgreement | src/hooks/useTasks.js:27-64 | After a create or a delete, the cache still equals the store's task list. |
| UseTasks.UpdateKeepsAgreement | src/hooks/useTasks.js:39-50 | With unique identifiers, after an update the cache still equals the store's task list. |
| UseTasks.MoveKeepsAgreement | src/hooks/useTasks.js:67-78 | With unique identifiers, and an answer that differs from the stored task only in column, the cache still equals the store's list. |
| UseTasks.UpdateDiffersOnDuplicateIds | src/hooks/useTasks.js:42-45 | With a duplicated identifier, the cache replaces both copies but the store only the first. |
| UseTasks.MoveCacheTakesWholeAnswer | src/hooks/useTasks.js:70-73 | The cache stores the server's whole answer, while the store takes only its column. |
| UseTasks.DropMovesTaskInStore | src/hooks/useTasks.js:67-78 | Dropping task 7 on review, once answered, moves only task 7 to review and changes nothing else in it. |

## Left out

- The server (`src/services/api.js`) and the network are not part of this model. A request's
  answer is a parameter: a value or an error message.
- React Query's own behaviour is left out: refetching, retries, the `isLoading` flags, and the
  `data: tasks = []` default the hook returns. Only the cache updaters and the callbacks follow
  the code.
- Concurrency is left out. Two requests in flight can settle in either order, and the lemmas
  treat one settled request at a time.
- Rendering is left out: the markup, styling, the loading spinner and the error banner. The
  components' displayed choices (pager, empty messages) are modelled as predicates.
- The drag-and-drop library's internals and `handleDragStart`/`handleDragUpdate` are left out.
  Those two handlers have empty bodies.
- `TaskCard` and `SearchBar` are not part of this model beyond the payload the edit button hands
  the dialog. The search term arrives as the `setSearchTerm` payload.
- `console.error` in the drop handler is not modelled as output. It becomes the `InvalidColumn`
  decision.
- JsString.LowerChar: lower-cases ASCII letters only, while JavaScript's `toLowerCase` also
  folds non-ASCII letters.
- JsString.LeadingSpace, JsString.TrailingSpaceStart: count ASCII white space only, while
  JavaScript's `trim` also strips no-break space, the Unicode space separators, U+2028, U+2029
  and U+FEFF.
- JsString.ParseInt: does not skip leading white space and reads decimal only. JavaScript's
  `parseInt` also skips white space and reads a `0x` prefix as hexadecimal. Draggable ids
  are the decimal text of integers, and `JsString.ParseIntToString` covers that round trip.
- Every mode other than `'edit'` is one mode, `CreateMode`, because the code compares the mode
  only with `'edit'`.
- `openTaskModal` stores `task || null`. The model stores the optional task as given: every
  task object is truthy, so only a missing task becomes null.
- Immer's drafts are left out. Each list's task is drafted and copied on its own path, so the
  model treats tasks as values, and a move through one list never shows through the other.
- Pagination entries in the store (`setPagination`) are not written by any component in this
  core. The reducer is modelled, but no caller is.
- Numbers are unbounded integers, not IEEE doubles.
- Page numbers below 1 are not offered by the pager. `PageTasks` follows JavaScript `slice` for
  them (a negative start counts from the end), but its contract states only page 0.
