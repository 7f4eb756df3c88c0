# To-do client: a verified model of its own logic

This project models the parts of a browser to-do client that the client
decides itself. The remote REST service stores the items. A table library
filters, sorts and pages the rows, and a query library sends requests and
refetches.

What the client decides, and this model states:

- the create form's name rule (2 to 50 UTF-16 code units, with its two
  messages);
- the HTTP request each mutation sends, and the toast, refetch and form
  reset that follow success or failure;
- the loading flag;
- the single pending-action slot. A row menu fills it, and the dialog's
  confirm button dispatches one update or delete for it, then clears its id;
- the row menus, status badges, date cells, the direction the Name header
  requests, the column list and the table's initial state;
- the dialog's text and buttons;
- the completion chart's counts;
- the theme toggle.

One module per source file: `Query` (the `Todos` record, `API_URL`), `Utils`
(`typeModalAction`, `DataUpdateProps`), `MainContainer`, `TableTodos`,
`TodoActionModal`, `ChartCompletedTodo` and `ThemeToggleButton`. There are
also two helper modules. `Wrappers` holds Option and Result. `AppTestFixtures`
holds the test suite's six mock records, used as a concrete list.

The `dataUpdate` state is the class `MainContainer.ActionController`, with
fields `pendingId` and `pendingType`. Its methods are `HandleUpdate`,
`HandleModalAction` and `Click`, a press of a dialog button. The same
transitions also exist as the pure `Step`/`Replay` over event sequences. The
lemmas about sequences of user actions are proved over `Replay`, and each
method's `ensures` states its result as the result of `Step`. The four `useState` slots of the table
are the class `TableTodos.TableState`.

Three behaviours of the code that are easy to miss:

- Cancel has no click handler, and the dialog's `open` is controlled with
  no `onOpenChange`. So Cancel dispatches nothing and leaves the pending id,
  and with it the dialog, as they were (`CancelKeepsSlot`).
- The Name header always passes an explicit direction to `toggleSorting`.
  So clicks alternate between ascending and descending and never return to
  the unsorted fetch order (`HeaderNeverUnsorts`).
- The table reads `updateAt`, while the test suite's records carry
  `updatedAt`. A record without `updateAt` shows an empty updated-date cell
  (`MockUpdatedCellsEmpty`). That is why the date fields are optional in
  `Query.Todo`.

## Model

| member | source | states |
|---|---|---|
| `MainContainer.Utf16Length` | src/components/MainContainer.tsx:55-60 | a string's JS `length` in UTF-16 code units lies between its character count and twice that |
| `MainContainer.BmpLength` | src/components/MainContainer.tsx:55-60 | for text inside the Basic Multilingual Plane the code-unit length is the character count |
| `MainContainer.ValidateName` | src/components/MainContainer.tsx:52-61 | a name is accepted iff 2 ≤ length ≤ 50; if shorter it fails with "Todo Name must be at least 2 characters.", if longer with "Todo Name max 50 characters."; an accepted name is kept as given |
| `MainContainer.NameBounds` | src/components/MainContainer.tsx:52-61 | an accepted name has 1 to 50 characters; for BMP-only names it is accepted iff 2 ≤ \|name\| ≤ 50 |
| `MainContainer.AstralCharacterCountsTwice` | src/components/MainContainer.tsx:55-57 | a single emoji (two code units) passes the minimum; a single letter fails it with the short-name message |
| `MainContainer.SubmitForm` | src/components/MainContainer.tsx:181-183 | a request is posted iff the name is valid, and it is the create request for that name; otherwise the validation message is shown and nothing is sent |
| `MainContainer.CreateRequest` | src/components/MainContainer.tsx:93-97 | create POSTs to `API_URL` the form's name with `isComplete: false` |
| `MainContainer.ItemPath` | src/components/MainContainer.tsx:123 | `API_URL + "/" + id`: the prefix is the collection path plus a slash, and the rest is exactly the id |
| `MainContainer.ItemPathInjective` | src/components/MainContainer.tsx:150 | different ids give different item paths |
| `MainContainer.ToHttp` | src/components/MainContainer.tsx:122-125 | update PUTs `{isComplete: true}` and delete sends DELETE with no body, both to the item's path; neither is a POST |
| `MainContainer.FromHttp` | src/components/MainContainer.tsx:149-150 | reading a request back: only a PUT or DELETE on an item path is read as a mutation, never a POST; the id read is the path after `API_URL + "/"`, and the mutation is an update iff the verb is PUT |
| `MainContainer.HttpRoundTrip` | src/components/MainContainer.tsx:122-150 | every update or delete request is read back as the same mutation with the same id |
| `MainContainer.NoUncompleteRequest` | src/components/MainContainer.tsx:123-125 | no request ever sends `isComplete: false` for an existing item, and every item request that has a body says `isComplete: true`: the client cannot un-complete |
| `MainContainer.SuccessToast` | src/components/MainContainer.tsx:99-106 | each success toast uses the default variant and differs from the error toast |
| `MainContainer.Outcome` | src/components/MainContainer.tsx:99-170 | a failure gives only the destructive "Uh oh! Something went wrong." toast; a success gives that operation's own success toast, then a refetch, and for create then a form reset; so the sequence has 3 effects for a successful create, 2 for a successful update or delete and 1 for a failure; a refetch happens iff the mutation succeeded, a reset iff a create succeeded |
| `MainContainer.OperationOf` | src/components/MainContainer.tsx:185-190 | a dispatched update runs the update mutation and a delete the delete mutation, never create |
| `MainContainer.FailuresIndistinguishable` | src/components/MainContainer.tsx:110-118 | every operation's failure sequence is the same, and different operations' success sequences differ |
| `MainContainer.IsLoading` | src/components/MainContainer.tsx:173-179 | loading iff the list is loading or a create or an update is pending |
| `MainContainer.DeleteNeverLoads` | src/components/MainContainer.tsx:173-179 | the delete mutation's status never changes the flag; a pending delete alone shows no spinner |
| `MainContainer.HandleName` | src/components/MainContainer.tsx:266-277 | "isComplete" → "Status"; "createdAt" and "updatedAt" → "Created Date"; every other id, including "todoName" and "updateAt", → "Title" |
| `MainContainer.HandleNameCorrected` | src/components/MainContainer.tsx:266-277 | "isComplete" → "Status", "createdAt" → "Created Date", "updateAt" → "Updated Date", every other id → "Title"; unlike the code, "updatedAt" (which is not a column id) now falls to "Title" |
| `MainContainer.ColumnMenu` | src/components/MainContainer.tsx:262-290 | the columns menu has one entry per hideable column, in column order, each labelled by the mapping |
| `MainContainer.ColumnMenuOfColumnsTodo` | src/components/MainContainer.tsx:262-265 | the menu lists the todoName, isComplete, createdAt and updateAt columns, in that order |
| `MainContainer.ColumnMenuAsWritten` | src/components/MainContainer.tsx:266-287 | as written, the menu reads Title, Status, Created Date, Title; the updated-date column is not labelled by its header |
| `MainContainer.ColumnMenuCorrected` | src/components/MainContainer.tsx:266-287 | with the corrected mapping the menu reads Title, Status, Created Date, Updated Date |
| `MainContainer.OpenDialog` | src/components/MainContainer.tsx:372 | `!!dataUpdate.id`: the dialog is open iff the pending id is non-empty |
| `MainContainer.Step` | src/components/MainContainer.tsx:78-81 | one user event: a pick makes the slot exactly the picked value and sends nothing; pressing the button wired to `handleAction` sends the request for the slot and leaves `("", same type)`; any other press changes nothing and sends nothing (lines 185-194) |
| `MainContainer.Replay` | src/components/MainContainer.tsx:185-194 | a sequence of events sends at most one request per event, and the empty sequence changes nothing |
| `MainContainer.RequestFor` | src/components/MainContainer.tsx:185-190 | the dispatched request carries the pending id, and it is an update iff the pending type is UPDATE |
| `MainContainer.ReplayAppend` | src/components/MainContainer.tsx:78-81 | replaying two runs of user events one after the other equals replaying their concatenation |
| `MainContainer.OneRequestPerConfirm` | src/components/MainContainer.tsx:185-194 | the requests dispatched over any event sequence number exactly the confirm presses |
| `MainContainer.LastPickWins` | src/components/MainContainer.tsx:78-81 | a single slot: after any history, a pick leaves exactly that id and type pending and dispatches nothing |
| `MainContainer.ConfirmDispatchesPending` | src/components/MainContainer.tsx:185-194 | confirming dispatches one request, built from the pending value before the id is cleared; afterwards the dialog is closed and the type is unchanged |
| `MainContainer.CancelKeepsSlot` | src/components/TodoActionModal.tsx:39-41 | pressing a button without a handler dispatches nothing and leaves the slot, and so the dialog, as it was |
| `MainContainer.MenuThenConfirm` | src/components/TableTodos.tsx:104-128 | picking a row's menu entry and confirming sends one request to that row's path; the dialog title equals the entry's caption; a PUT is only sent for an incomplete row; the dialog ends closed |
| `MainContainer.ActionController.constructor` | src/components/MainContainer.tsx:68-71 | the slot starts as `("", UPDATE)`, so the dialog starts closed |
| `MainContainer.ActionController.HandleUpdate` | src/components/MainContainer.tsx:78-81 | both fields are overwritten by the picked id and type; the dialog is open iff that id is non-empty |
| `MainContainer.ActionController.HandleModalAction` | src/components/MainContainer.tsx:185-195 | returns the request for the old pending value; the id becomes "" and the type is kept; agrees with `Step` for a press of the confirm button |
| `MainContainer.ActionController.Click` | src/components/MainContainer.tsx:371-375 | a press of the button wired to `handleAction` confirms; any other press changes nothing and sends nothing; agrees with `Step` |
| `MainContainer.Page` | src/components/MainContainer.tsx:369-375 | the table and the chart both get the whole fetched list (`todosList ?? []`); the dialog is open iff an id is pending, titled by the pending type; the spinner follows `isLoading` |
| `MainContainer.InitialPage` | src/components/MainContainer.tsx:68-71 | before any event the dialog is closed, and with no data the chart shows [0, 0] |
| `TableTodos.RowMenu` | src/components/TableTodos.tsx:104-128 | "Update Todo Status" is offered iff the row is not complete, and "Delete Todo" always comes last; every entry targets the row's id; an entry is the update entry iff it emits UPDATE |
| `TableTodos.UpdateItem` | src/components/TableTodos.tsx:107-117 | "Update Todo Status", test id `action-update-<id>`, emitting `(row._id, UPDATE)` |
| `TableTodos.DeleteItem` | src/components/TableTodos.tsx:121-127 | "Delete Todo", test id `action-delete-<id>`, emitting `(row._id, DELETE)` |
| `TableTodos.MenuTargetsOwnRow` | src/components/TableTodos.tsx:107-124 | entries of rows with different ids emit different targets and carry different test ids |
| `TableTodos.Status` | src/components/TableTodos.tsx:55-60 | the badge reads "Finish" iff the item is complete and "Unfinish" otherwise, green for finished and blue otherwise |
| `TableTodos.DateCell` | src/components/TableTodos.tsx:69-73 | an absent or empty date gives ""; any other date gives the formatter's output for the column's pattern |
| `TableTodos.CreatedDateCell` | src/components/TableTodos.tsx:66-74 | an absent or empty `createdAt` gives ""; any other value is formatted with "dd MMMM yyyy" |
| `TableTodos.UpdatedDateCell` | src/components/TableTodos.tsx:77-85 | an absent or empty `updateAt` gives ""; any other value is formatted with "dddd, dd MMMM YYYY" |
| `TableTodos.ToggleSortingArg` | src/components/TableTodos.tsx:38 | the argument is `getIsSorted() === "asc"`: true iff the column is sorted ascending, so false when unsorted |
| `TableTodos.HeaderClick` | src/components/TableTodos.tsx:38 | a click asks for descending iff the column is now ascending, and never asks for the sort to be removed |
| `TableTodos.HeaderNeverUnsorts` | src/components/TableTodos.tsx:38 | after one or more clicks the column is sorted; the clicks alternate ascending and descending |
| `TableTodos.ColumnsTodo` | src/components/TableTodos.tsx:31-135 | five columns in order: todoName, isComplete, createdAt, updateAt, actions; only "actions" has hiding disabled |
| `TableTodos.Hideable` | src/components/MainContainer.tsx:264 | keeps exactly the columns whose hiding is enabled; a one-column list is kept iff that column can be hidden |
| `TableTodos.HideableAppend` | src/components/MainContainer.tsx:264 | like `.filter`, it keeps order and multiplicity: filtering a concatenation concatenates the filtered parts |
| `TableTodos.HideableColumns` | src/components/TableTodos.tsx:88-89 | the hideable columns are the first four |
| `TableTodos.TableState.constructor` | src/components/TableTodos.tsx:145-154 | sorting `[]`, column filters `[]`, pagination `{pageIndex: 0, pageSize: 5}`, visibility `{}` |
| `TableTodos.TableState.SetSorting` | src/components/TableTodos.tsx:159 | the sorting slot takes the new value and the other slots are unchanged |
| `TableTodos.TableState.SetColumnFilters` | src/components/TableTodos.tsx:160 | the filter slot takes the new value and the other slots are unchanged |
| `TableTodos.TableState.SetPagination` | src/components/TableTodos.tsx:166 | the pagination slot takes the new value and the other slots are unchanged |
| `TableTodos.TableState.SetColumnVisibility` | src/components/TableTodos.tsx:165 | the visibility slot takes the new value and the other slots are unchanged |
| `TodoActionModal.Title` | src/components/TodoActionModal.tsx:27-31 | "Update Todo Status" for UPDATE and "Delete Todo" for DELETE |
| `TodoActionModal.Description` | src/components/TodoActionModal.tsx:32-36 | "Are you completed todo item?" for UPDATE and "Are you sure to delete todo item?" for DELETE |
| `TodoActionModal.CancelButton` | src/components/TodoActionModal.tsx:39-41 | the "Cancel" button, variant secondary, with no click handler |
| `TodoActionModal.ConfirmButton` | src/components/TodoActionModal.tsx:42-51 | labelled "Update" on bg-blue-400 for UPDATE and "Delete" on bg-red-400 for DELETE; it calls the action |
| `TodoActionModal.Modal` | src/components/TodoActionModal.tsx:24-53 | `open` equals `openDialog`; there are two buttons, Cancel then confirm, and only the confirm button calls `handleAction` |
| `TodoActionModal.TextDeterminesKind` | src/components/TodoActionModal.tsx:27-50 | title, description and confirm button each tell UPDATE and DELETE apart |
| `ChartCompletedTodo.ReduceFinished` | src/components/ChartCompletedTodo.tsx:9-12 | the `reduce` step folded left to right: starting from `prev`, the total lies between `prev` and `prev` plus the list length |
| `ChartCompletedTodo.FinishCount` | src/components/ChartCompletedTodo.tsx:9-12 | `finishTodo`, the fold from 0: at most the list length, and 0 for an empty list |
| `ChartCompletedTodo.Completed` | src/components/ChartCompletedTodo.tsx:9-12 | the completed items of the list: exactly the items with `isComplete` set |
| `ChartCompletedTodo.Incomplete` | src/components/ChartCompletedTodo.tsx:13 | the items of the list with `isComplete` unset |
| `ChartCompletedTodo.FinishIsCompleted` | src/components/ChartCompletedTodo.tsx:9-12 | the `reduce` fold counts exactly the completed items |
| `ChartCompletedTodo.PartitionSizes` | src/components/ChartCompletedTodo.tsx:13 | completed and incomplete items together are the list, as a multiset and in number |
| `ChartCompletedTodo.Data` | src/components/ChartCompletedTodo.tsx:8-26 | labels `["Finish", "Unfinish"]` over `[finish, unfinish]`; finish counts completed and unfinish incomplete items; they add up to the length and each lies in [0, length] |
| `ChartCompletedTodo.FinishPermutation` | src/components/ChartCompletedTodo.tsx:9-12 | the count does not depend on the order of the list |
| `ChartCompletedTodo.DataPermutation` | src/components/ChartCompletedTodo.tsx:8-19 | reordering the list leaves the chart data unchanged |
| `ChartCompletedTodo.EmptyData` | src/components/ChartCompletedTodo.tsx:9-13 | an empty list gives [0, 0] |
| `ThemeToggleButton.CurrentTheme` | src/components/ThemeToggleButton.tsx:6 | "system" is read as "light"; "light" and "dark" are kept |
| `ThemeToggleButton.IsDark` | src/components/ThemeToggleButton.tsx:7 | `isDark` holds iff the theme is "dark"; "system" is not dark |
| `ThemeToggleButton.NextTheme` | src/components/ThemeToggleButton.tsx:7-13 | a click sets "light" iff the theme is dark, and "dark" otherwise; never "system"; always differs from the current theme |
| `ThemeToggleButton.ButtonIcon` | src/components/ThemeToggleButton.tsx:15 | the sun iff the theme is dark, the moon otherwise |
| `ThemeToggleButton.ToggleTwice` | src/components/ThemeToggleButton.tsx:13-15 | two clicks from "light" or "dark" return to it, and each click flips the icon |
| `ThemeToggleButton.ClicksLeaveSystem` | src/components/ThemeToggleButton.tsx:6-13 | after any clicks the theme is never "system"; from "system" it alternates dark, light, …; from an explicit theme it alternates with its opposite |
| `AppTestFixtures.MockChart` | src/__tests__/App.test.tsx:46-93 | the six mock records chart as [2, 4] |
| `AppTestFixtures.MockMenus` | src/__tests__/App.test.tsx:46-93 | of the mock rows, only the two finished ones lack the update entry |
| `AppTestFixtures.MockUpdatedCellsEmpty` | src/__tests__/App.test.tsx:52 | records carrying `updatedAt` instead of `updateAt` show an empty updated-date cell |

## Findings

| source | as written | input that shows it | evidently intended | confidence | as-written member | corrected member |
|---|---|---|---|---|---|---|
| src/components/MainContainer.tsx:272-273 | `handleName` has a case for "updatedAt", but the column id is "updateAt" (src/components/TableTodos.tsx:77), so that column falls through to "Title" | the columns menu of `columnsTodo`: it reads Title, Status, Created Date, Title | the updated-date column labelled "Updated Date", as its header reads | medium; not executed | `MainContainer.ColumnMenuAsWritten` (over `MainContainer.HandleName`) | `MainContainer.ColumnMenuCorrected` (over `MainContainer.HandleNameCorrected`) |

## Left out

- The filtered, sorted and paged row projection is left out: `getRowModel`, page count, next/previous availability and the filter match rule. The table library computes them; the client only supplies the initial state and the setters (`TableState`).
- How the table library applies `toggleSorting(desc)` is left out. `HeaderClick` states the direction the explicit argument requests. The library code itself is not part of this model.
- Network and caching are left out: the axios calls, the query and mutation lifecycles, unwrapping `data.data`, and refetch ordering. Requests are modelled as the values that would be sent, and mutation results as a success flag passed to `Outcome`.
- Date formatting is not modelled. The Luxon formatter is a function parameter of `DateCell`; only its two patterns are constants here.
- Rendering is left out: Chart.js rendering and slice colours, toast display and toast class names, the dialog library's open and close mechanics, and the JSX layout.
- The theme provider's storage is not part of this model. `AfterClicks` assumes each click's theme is stored as given.
- The layout-only components `App`, `Navbar` and `Background` are left out, as is the `cn` class-name helper.
- `Utf16Length`: Dafny characters are Unicode scalar values, so JavaScript strings that hold lone surrogates cannot be represented.
