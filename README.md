# kanban-craft board core in Dafny

This project models the state logic of the kanban-craft React board. A
**board** holds **columns** and a column holds **cards**. Each card and
each column carries an `order` field that should equal its position. A
**drag state** records a drag gesture: the dragged card, the column it
came from, and the column and index it is hovering over.

The model covers these parts of the source:

- **Store** (`store.dfy`): the zustand store. It holds the board and the
  drag state, and its actions move, add, update and delete cards, add,
  update and delete columns, and patch or reset the drag state. Every
  action is a method of the class `KanbanStore`. Each method is proved
  equal to a function on the columns (`Moved`, `CardAdded`, …). The
  lemmas about those functions state what the actions promise:
  - the moved card lands at the clamped index;
  - the source column loses exactly that card;
  - both touched columns are renumbered;
  - no card is lost or duplicated;
  - the board invariant (dense orders, cards point back at their column)
    is preserved;
  - a move repeated at the same time changes nothing.
- **Board helpers** (`task_utils.dfy`, `column_utils.dfy`):
  `reorderTasks`, `moveTaskBetweenColumns`, `reorderColumns`,
  `getInitials`, `getPriorityColor`, `isAtWIPLimit`, `isOverWIPLimit` and
  `getColumnStatusColor`.
- **Drag hook** (`drag_and_drop.dfy`): the `useDragAndDrop` hook as a
  state machine over drag events, and as a class whose methods take one
  step each.
- **Board component** (`kanban_board.dfy`): the component's own drag
  state, its move and add-card wrappers, the search filter and the
  header's count of tasks.
- **Column component** (`kanban_column.dfy`): how it computes the insertion
  index, what a drop sends, the limit that disables the add buttons, and
  the title editor.
- **Index page** (`index_page.dfy`): the demo page's copy-on-write board
  handlers.

The remaining files support these:

- `types.dfy`: the entities.
- `array_splice.dfy`: JavaScript's `splice` for removing one element and
  inserting one.
- `js_string.dfy`: the string built-ins the code calls: `toLowerCase`,
  `toUpperCase`, `includes`, `trim` and `split(' ')`.

There is no clock and no random source. `new Date()` becomes a timestamp
`now` that the caller passes in. `generateId()` becomes an `id` that the
caller passes in. A component's props callbacks are not called: a handler
returns the call it would make (`Option<MoveRequest>` and the like), and
whether the prop is supplied is a boolean parameter.

Facts about the code that the model keeps, and where to find them:

- **Drag over without a drag.** The hook's `handleDragOver` has no
  `isDragging` guard. It writes the target fields in any state, idle
  included (`DragAndDrop.OverOnlyTargets`).
- **Negative splice indices.** `splice` also accepts a negative index,
  which counts back from the end and is floored at 0
  (`ArraySplice.StartIndex`). This holds for insertion in `moveCard` and
  for removal in `reorderTasks`, `moveTaskBetweenColumns` and
  `reorderColumns` (`TaskUtils.ReorderTasksNegativeStart`,
  `TaskUtils.ReorderTasksFarNegativeStart`).
- **Duplicate ids.** Nothing enforces unique ids, so the model allows
  duplicates:
  - the store acts on the first match;
  - the page's card creation and column replacement act on every match.

  Lemmas that need unique ids state that as a precondition.
- **Repeated moves.** With no column holding the card's id twice,
  repeating a move at the same time gives the same board
  (`Store.MoveIdempotent`). Only `updatedAt` can differ when the clock
  has moved on.
- **Same-column index.** The column view computes the drop index against
  the children it displays, which still include the dragged card. See
  "Findings".

## Model

| member | source | states |
|---|---|---|
| ArraySplice.StartIndex | src/kanban/store.ts:53 | The position `splice(start, 0, x)` inserts at. It is never past the end, and for a non-negative start it is `min(start, length)`. A start from `-length` to `-1` gives `length + start`, an element of the array. |
| ArraySplice.Removed | src/kanban/store.ts:49 | `splice(i, 1)` shortens the array by exactly one. |
| ArraySplice.Inserted | src/kanban/store.ts:53 | `splice(start, 0, x)` lengthens the array by exactly one. |
| ArraySplice.InsertedAt | src/kanban/store.ts:53 | After an insertion, `x` sits at the clamped index, the elements before it are unchanged, and the elements after it are the old tail. |
| ArraySplice.RemoveInserted | src/kanban/store.ts:49-53 | Removing at the insertion point undoes the insertion. |
| ArraySplice.InsertRemoved | src/kanban/utils/task.utils.ts:41-42 | Putting a removed element back at its own index restores the array. |
| ArraySplice.RemovedMultiset | src/kanban/store.ts:49 | The removed element and the remaining elements together are the old elements. |
| ArraySplice.InsertedMultiset | src/kanban/store.ts:53 | An insertion adds exactly one occurrence of `x`. |
| JsString.Lower | src/kanban/components/KanbanBoard.tsx:86 | `toLowerCase` keeps the length. |
| JsString.Upper | src/kanban/utils/task.utils.ts:16 | `toUpperCase` keeps the length. |
| JsString.LowerIgnoresCase | src/kanban/components/KanbanBoard.tsx:86-87 | Lower-casing an upper-cased or a lower-cased text gives its lower-cased form. |
| JsString.IncludesIff | src/kanban/components/KanbanBoard.tsx:86-87 | The left-to-right `includes` scan succeeds exactly when the pattern occurs at some position. |
| JsString.IncludesEmpty | src/kanban/components/KanbanBoard.tsx:86-87 | Every text includes the empty pattern. |
| JsString.TrimStart | src/kanban/components/KanbanColumn.tsx:93 | The result is a suffix of the text that does not start with white space, and everything dropped is white space. |
| JsString.TrimEnd | src/kanban/components/KanbanColumn.tsx:93 | The result is a prefix of the text that does not end with white space, and everything dropped is white space. |
| JsString.TrimSpec | src/kanban/components/KanbanColumn.tsx:93-94 | `trim()` is a slice of the text. It is empty exactly when the text is all white space, and otherwise neither starts nor ends with white space. |
| JsString.TrimIdempotent | src/kanban/components/KanbanColumn.tsx:94 | Trimming twice is trimming once. |
| JsString.Split | src/kanban/utils/task.utils.ts:13 | `split(' ')` always yields at least one part. |
| JsString.SplitJoin | src/kanban/utils/task.utils.ts:13 | Joining the parts with single spaces gives the text back, and no part contains a space. |
| Store.ColumnIndex | src/kanban/store.ts:41-42 | `find` by id returns the first column with that id, or nothing when no column has it. |
| Store.CardIndex | src/kanban/store.ts:46-47 | `findIndex` by id returns the first card with that id, or −1 (`None`) when no card has it. |
| Store.Renumbered | src/kanban/store.ts:56-57 | After renumbering, every card's `order` is its position, the cards are otherwise unchanged and in place, and the ids are the same. |
| Store.RenumberedColumns | src/kanban/store.ts:137 | After renumbering, every column's `order` is its position and the columns are otherwise unchanged. |
| Store.RenumberCards | src/kanban/store.ts:56 | The `forEach` loop computes exactly `Renumbered`. |
| Store.RenumberColumns | src/kanban/store.ts:137 | The `forEach` loop computes exactly `RenumberedColumns`. |
| Store.RenumberedTwice | src/kanban/store.ts:56-57 | Renumbering twice is renumbering once, so renumbering one column as both source and target is harmless. |
| Store.Plan | src/kanban/store.ts:41-47 | The three lookups of `moveCard`. The plan is absent exactly when the source column, the target column or the card in the source is not found; otherwise it gives the first matches. |
| Store.MoveUnknownIsNoOp | src/kanban/store.ts:44-47 | An unknown source column, an unknown target column, or a card that is not in the source leaves the board unchanged. |
| Store.MovePlacesCard | src/kanban/store.ts:49-57 | The moved card lands in the target at `min(newIndex, length)` (clamped for negative indices), with `columnId` and `updatedAt` refreshed, its other fields unchanged and `order` equal to its index. The target's other cards keep their order around it. |
| Store.MoveRemovesFromSource | src/kanban/store.ts:49 | Between two different columns, the source keeps exactly its other cards in order. A card that was there once is no longer there. |
| Store.MoveRenumbers | src/kanban/store.ts:55-57 | Both touched columns are numbered densely. |
| Store.MoveFrame | src/kanban/store.ts:37-58 | Columns other than the source and the target are untouched, and no column's own fields change. |
| Store.MoveConservesCards | src/kanban/store.ts:49-53 | The board holds the same card ids, with the same multiplicities, before and after a move. |
| Store.MovePreservesWellFormed | src/kanban/store.ts:49-57 | A well-formed board stays well formed: dense column and card orders, and every card's `columnId` is its column's id. |
| Store.MoveIdempotent | src/kanban/store.ts:37-58 | When no column holds the card's id twice, repeating the same move at the same time changes nothing. |
| Store.CardAddedSpec | src/kanban/store.ts:60-77 | An unknown column is a no-op. Otherwise the first column with that id gains exactly one card at its end. That card has the fresh id, the column's id, `order` equal to the old length, both timestamps `now`, and the caller's other fields. Everything else is unchanged. |
| Store.CardAddedConserves | src/kanban/store.ts:76 | Adding a card adds exactly its id to the board. |
| Store.CardAddedPreservesWellFormed | src/kanban/store.ts:67-76 | Adding a card keeps a well-formed board well formed. |
| Store.ColumnWithCard | src/kanban/store.ts:83-88 | The `for … of` loop with `break` finds the first column that holds a card with that id, or reports that none does. |
| Store.CardUpdatedSpec | src/kanban/store.ts:79-90 | Only the first matching card changes. It takes exactly the fields the update mentions, and `updatedAt` becomes `now` whatever the update says. An update naming no field changes only `updatedAt`. An unknown id changes nothing. |
| Store.CardDeletedSpec | src/kanban/store.ts:92-104 | The first matching card leaves the first column holding it. That column's other cards keep their order and are renumbered densely, and nothing else changes. An unknown id changes nothing. |
| Store.CardDeletedConserves | src/kanban/store.ts:99 | Deleting a found card removes exactly one occurrence of its id from the board. |
| Store.CardDeletedPreservesWellFormed | src/kanban/store.ts:99-100 | Deleting a card keeps a well-formed board well formed. |
| Store.ColumnAddedSpec | src/kanban/store.ts:106-118 | One empty column is appended, with the fresh id, the caller's fields and `order` equal to the old column count. A well-formed board stays well formed. |
| Store.MergeColumnSpec | src/kanban/store.ts:125 | `Object.assign(column, updates)`: each field the update names takes the update's value, each field it leaves out keeps the column's value, and an empty update changes nothing. |
| Store.ColumnUpdatedSpec | src/kanban/store.ts:120-128 | Only the first column with that id takes the update, field by field. An unknown id changes nothing. |
| Store.ColumnDeletedSpec | src/kanban/store.ts:130-139 | The first column with that id is removed, and the others keep their order and contents and are renumbered densely. An unknown id changes nothing. A well-formed board stays well formed. |
| Store.PatchedSpec | src/kanban/store.ts:141-144 | `setDragState` overwrites exactly the supplied fields, including an explicit `null`. An empty patch changes nothing. |
| Store.KanbanStore.constructor | src/kanban/store.ts:32-33 | The store starts with no board and the initial drag state. |
| Store.KanbanStore.SetBoard | src/kanban/store.ts:35 | The board is replaced and the drag state is kept. |
| Store.KanbanStore.MoveCard | src/kanban/store.ts:37-58 | The new board is the old one with columns `Moved`. Without a board nothing happens, and the drag state is kept. |
| Store.KanbanStore.AddCard | src/kanban/store.ts:60-77 | The new board is the old one with columns `CardAdded`. Without a board nothing happens. |
| Store.KanbanStore.UpdateCard | src/kanban/store.ts:79-90 | The scanning loop leaves the board with columns `CardUpdated`. |
| Store.KanbanStore.DeleteCard | src/kanban/store.ts:92-104 | The scanning loop leaves the board with columns `CardDeleted`. |
| Store.KanbanStore.AddColumn | src/kanban/store.ts:106-118 | The new board is the old one with columns `ColumnAdded`. |
| Store.KanbanStore.UpdateColumn | src/kanban/store.ts:120-128 | The new board is the old one with columns `ColumnUpdated`. |
| Store.KanbanStore.DeleteColumn | src/kanban/store.ts:130-139 | The new board is the old one with columns `ColumnDeleted`. |
| Store.KanbanStore.SetDragState | src/kanban/store.ts:141-144 | The drag state becomes the patched drag state, and the board is kept. |
| Store.KanbanStore.ResetDragState | src/kanban/store.ts:146 | The drag state is the initial one: not dragging, every field null. |
| TaskUtils.ReorderTasks | src/kanban/utils/task.utils.ts:35-44 | `reorderTasks` keeps the length. Any start index below `n` is accepted on a non-empty array. A negative one counts from the end and stops at 0. |
| TaskUtils.ReorderTasksNegativeStart | src/kanban/utils/task.utils.ts:41-42 | `reorderTasks([a, b, c], -1, 0)` takes `c` from the end and puts it first: `[c, a, b]`. |
| TaskUtils.ReorderTasksFarNegativeStart | src/kanban/utils/task.utils.ts:41-42 | `reorderTasks([a, b, c], -10, 2)` stops the start at 0 and moves `a` to the end: `[b, c, a]`. |
| TaskUtils.Landing | src/kanban/utils/task.utils.ts:42 | The moved task lands at `endIndex`, clamped to the last position. |
| TaskUtils.ReorderTasksAt | src/kanban/utils/task.utils.ts:40-43 | Position by position, the result is the reference description of moving one element: the elements between the two positions shift one place toward the vacated one. |
| TaskUtils.ReorderTasksPermutes | src/kanban/utils/task.utils.ts:40-43 | The result is a permutation of the input. |
| TaskUtils.ReorderTasksMovesOne | src/kanban/utils/task.utils.ts:41-42 | The element at `startIndex`, counted from the end when negative and stopped at 0, ends at the landing index. Taking it out again leaves the others in their old order. |
| TaskUtils.ReorderTasksSameIndex | src/kanban/utils/task.utils.ts:41-42 | Moving an element to its own index changes nothing. |
| TaskUtils.MoveTaskBetweenColumns | src/kanban/utils/task.utils.ts:49-64 | The source copy is one shorter and the destination copy one longer. |
| TaskUtils.MoveTaskBetweenColumnsSpec | src/kanban/utils/task.utils.ts:55-63 | The moved element is the one at `sourceIndex`, counted from the end when negative and stopped at 0, and it lands at the clamped `destIndex`. Both copies keep their other elements in order, and no element is lost or duplicated. |
| TaskUtils.GetInitials | src/kanban/utils/task.utils.ts:11-18 | There are at most two initials. |
| TaskUtils.HeadsSplit | src/kanban/utils/task.utils.ts:13-15 | The first characters of the parts of `split(' ')` are the characters that start a word. |
| TaskUtils.GetInitialsSpec | src/kanban/utils/task.utils.ts:11-18 | The initials are the upper-cased first characters of the name's words, cut to two, and an empty part adds nothing. |
| TaskUtils.WordStartsAreLetters | src/kanban/utils/task.utils.ts:14 | Every initial is a non-space character of the name. |
| TaskUtils.GetInitialsExample | src/pages/Index.tsx:7 | "Alex Johnson" gives "AJ", the initials the sample data records. |
| TaskUtils.GetPriorityColorSpec | src/kanban/utils/task.utils.ts:23-30 | "low" and "high" get their own classes and every other name gets the medium class. The three classes are distinct. |
| ColumnUtils.ReorderColumns | src/kanban/utils/column.utils.ts:6-15 | The result has as many columns as the input, and every column's `order` is its new index. |
| ColumnUtils.ReorderColumnsAt | src/kanban/utils/column.utils.ts:11-14 | Column `j` of the result is the column the move puts there, with `order` equal to `j`. |
| ColumnUtils.UnorderedReorder | src/kanban/utils/column.utils.ts:11-14 | Apart from `order`, `reorderColumns` moves columns exactly as `reorderTasks` moves tasks. |
| ColumnUtils.ReorderColumnsPermutes | src/kanban/utils/column.utils.ts:11-14 | Apart from `order`, the result is a permutation of the input. |
| ColumnUtils.ReorderColumnsMovesOne | src/kanban/utils/column.utils.ts:12-14 | The moved column lands at the clamped `endIndex` with that index as its `order`, and the others keep their relative order. |
| ColumnUtils.IsAtWIPLimit | src/kanban/utils/column.utils.ts:20-23 | With no limit or a limit of 0 the function is false. Otherwise it is true exactly when the card count is at least the limit. |
| ColumnUtils.IsOverWIPLimit | src/kanban/utils/column.utils.ts:28-31 | With no limit or a limit of 0 the function is false. Otherwise it is true exactly when the card count exceeds the limit. |
| ColumnUtils.WIPLimits | src/kanban/utils/column.utils.ts:20-31 | Over the limit implies at the limit. A column below its limit that gains one card is not over it. |
| ColumnUtils.GetColumnStatusColorSpec | src/kanban/utils/column.utils.ts:36-44 | The four statuses get four distinct classes, and any other name gets the todo class. |
| DragAndDrop.InitialIdle | src/kanban/hooks/useDragAndDrop.ts:4-10 | The initial state is idle, with every field null, and consistent. |
| DragAndDrop.RunConsistent | src/kanban/hooks/useDragAndDrop.ts:19-43 | Every sequence of hook calls keeps the fields consistent: dragging exactly when a card and a source are recorded, and the target column and the index set together. |
| DragAndDrop.StartForgets | src/kanban/hooks/useDragAndDrop.ts:19-27 | A drag start ignores the previous state: it records the card and source, sets dragging, and clears the target. |
| DragAndDrop.OverOnlyTargets | src/kanban/hooks/useDragAndDrop.ts:29-35 | A drag over changes only the two target fields, even when no drag is in progress, and the last drag over wins. |
| DragAndDrop.EndIdempotent | src/kanban/hooks/useDragAndDrop.ts:37-43 | End and reset both return to the initial state, and repeating them changes nothing. |
| DragAndDrop.RunAppend | src/kanban/hooks/useDragAndDrop.ts:17 | Running two event sequences one after the other is running their concatenation. |
| DragAndDrop.OversKeepDrag | src/kanban/hooks/useDragAndDrop.ts:29-35 | During drag overs the recorded card, source and dragging flag stay the same, and the target is the last drag over's. |
| DragAndDrop.GestureEndsIdle | src/kanban/hooks/useDragAndDrop.ts:19-39 | After a start and drag overs, a drag is in progress for that card and source. The gesture's end brings the state back to the initial one. |
| DragAndDrop.DragAndDropHook.constructor | src/kanban/hooks/useDragAndDrop.ts:17 | The hook starts in the initial state. |
| DragAndDrop.DragAndDropHook.HandleDragStart | src/kanban/hooks/useDragAndDrop.ts:19-27 | The state takes the machine's start step. |
| DragAndDrop.DragAndDropHook.HandleDragOver | src/kanban/hooks/useDragAndDrop.ts:29-35 | The state takes the machine's drag-over step. |
| DragAndDrop.DragAndDropHook.HandleDragEnd | src/kanban/hooks/useDragAndDrop.ts:37-39 | The state takes the machine's end step. |
| DragAndDrop.DragAndDropHook.ResetDragState | src/kanban/hooks/useDragAndDrop.ts:41-43 | The state takes the machine's reset step. |
| KanbanBoard.FilterCards | src/kanban/components/KanbanBoard.tsx:84-88 | A card is kept exactly when its lower-cased title, or its present lower-cased description, includes the lower-cased query, and no card is added. |
| KanbanBoard.FilterCounts | src/kanban/components/KanbanBoard.tsx:84-88 | Each matching card is kept as many times as it occurs, and other cards do not occur, so the filter does not merge duplicates. |
| KanbanBoard.EmbedsShift | src/kanban/components/KanbanBoard.tsx:84 | An embedding into a column's tail shifts into the whole column, with or without the head in front. |
| KanbanBoard.FilterIsSubsequence | src/kanban/components/KanbanBoard.tsx:84-88 | The filtered cards keep their order: they are a subsequence of the column's cards. |
| KanbanBoard.FilteredBoardSpec | src/kanban/components/KanbanBoard.tsx:79-91 | An empty query shows the board itself. Otherwise the same columns are shown, with their other fields, each listing in order exactly its matching cards, each as often as the column holds it. |
| KanbanBoard.FilterIgnoresCase | src/kanban/components/KanbanBoard.tsx:86-87 | Two non-empty queries that lower-case alike filter the board alike. |
| KanbanBoard.FilterSameQuery | src/kanban/components/KanbanBoard.tsx:84-88 | Queries that lower-case alike select the same cards. |
| KanbanBoard.TaskCount | src/kanban/components/KanbanBoard.tsx:100 | The header count is the number of cards on the board. |
| KanbanBoard.TaskCountChanges | src/kanban/components/KanbanBoard.tsx:100 | A move keeps the count, adding to a known column raises it by one, and deleting a found card lowers it by one. |
| KanbanBoard.BoardView.constructor | src/kanban/components/KanbanBoard.tsx:30-32 | The component starts with the initial drag state, an empty query and no pending column. |
| KanbanBoard.BoardView.HandleDragStart | src/kanban/components/KanbanBoard.tsx:34-42 | The component's drag state takes the hook's start step, and nothing else changes. |
| KanbanBoard.BoardView.HandleDragEnd | src/kanban/components/KanbanBoard.tsx:44-46 | The component's drag state takes the hook's end step. |
| KanbanBoard.BoardView.HandleDragOver | src/kanban/components/KanbanBoard.tsx:48-54 | The component's drag state takes the hook's drag-over step. |
| KanbanBoard.BoardView.HandleCardMove | src/kanban/components/KanbanBoard.tsx:56-62 | The four arguments go unchanged to `onCardMove` when there is one, and the drag state is reset either way. |
| KanbanBoard.BoardView.HandleCardCreate | src/kanban/components/KanbanBoard.tsx:64-66 | The column id is remembered for the add-card modal. |
| KanbanBoard.BoardView.HandleAddCard | src/kanban/components/KanbanBoard.tsx:68-76 | `onCardCreate` is called, with the pending id only, exactly when an id is pending and the callback exists. The typed title, description and priority are dropped, and the modal closes. |
| KanbanBoard.BoardView.CloseModal | src/kanban/components/KanbanBoard.tsx:195 | Closing the modal clears the pending column. |
| KanbanBoard.BoardView.SetSearchQuery | src/kanban/components/KanbanBoard.tsx:112 | The search box sets the query and nothing else. |
| KanbanColumn.InsertionPoint | src/kanban/components/KanbanColumn.tsx:52-64 | The insertion index is the first child whose midpoint lies below the pointer, or the number of children when there is none. |
| KanbanColumn.InsertIndex | src/kanban/components/KanbanColumn.tsx:53-64 | The `for` loop with `break` computes exactly `InsertionPoint`. |
| KanbanColumn.DropRequest | src/kanban/components/KanbanColumn.tsx:83-87 | As written, no move is sent exactly when the carried id is empty or no source column is recorded. Otherwise the move names that card, the recorded source and this column, at the recorded index or else at the end. |
| KanbanColumn.DropAfterGesture | src/kanban/components/KanbanColumn.tsx:83-87 | A drop ending a hook gesture asks to move the started card from its source into this column, at the last drag over's index or at the end. |
| KanbanColumn.SameColumnDropOvershoots | src/kanban/components/KanbanColumn.tsx:52-67 | A concrete drop within one column lands one place after the gap it was dropped at. |
| KanbanColumn.AsWrittenDropLandsOneGapLate | src/kanban/components/KanbanColumn.tsx:52-67 | As written, a same-column drop into a gap below the dragged card lands in the next gap, a different place unless that card is the dragged card itself. |
| KanbanColumn.CorrectedDropIndex | src/kanban/components/KanbanColumn.tsx:86 | The corrected index is the reported one, or one less. |
| KanbanColumn.CorrectedDropLands | src/kanban/components/KanbanColumn.tsx:52-67 | With the corrected index, a same-column drop lands at exactly the gap it was dropped at. |
| KanbanColumn.CorrectedDropRequest | src/kanban/components/KanbanColumn.tsx:83-87 | The corrected drop sends a move exactly when the original does, with the corrected index. |
| KanbanColumn.IsOverLimitIsAtWIPLimit | src/kanban/components/KanbanColumn.tsx:34 | The column's own limit check is exactly `isAtWIPLimit`. |
| KanbanColumn.AddCardClick | src/kanban/components/KanbanColumn.tsx:177-179 | An enabled add button asks for this column's id. |
| KanbanColumn.AddCardClickRespectsLimit | src/kanban/components/KanbanColumn.tsx:255-257 | The add buttons work exactly when the column is not at its limit, so a card added through them never takes it over the limit. |
| KanbanColumn.SubmittedTitleSpec | src/kanban/components/KanbanColumn.tsx:92-99 | A title is sent exactly when the edit has a non-space character and differs from the current title. What is sent is non-empty and already trimmed. |
| KanbanColumn.ColumnView.constructor | src/kanban/components/KanbanColumn.tsx:29-31 | The column starts not editing, with the title in the editor and no drop indicator. |
| KanbanColumn.ColumnView.HandleDragOver | src/kanban/components/KanbanColumn.tsx:36-70 | Before mount, nothing is reported. Without a cards container, index 0 is reported. Otherwise the insertion point of the pointer is reported, and the indicator shows the reported index. |
| KanbanColumn.ColumnView.HandleDragLeave | src/kanban/components/KanbanColumn.tsx:72-76 | The indicator goes away exactly when the pointer leaves the column element. |
| KanbanColumn.ColumnView.HandleDrop | src/kanban/components/KanbanColumn.tsx:78-90 | The indicator is hidden. When `onCardMove` exists, the `DropRequest` move is sent, with the index corrected as described in "Findings". |
| KanbanColumn.ColumnView.StartEditing | src/kanban/components/KanbanColumn.tsx:154 | Clicking the title opens the editor. |
| KanbanColumn.ColumnView.SetEditTitle | src/kanban/components/KanbanColumn.tsx:142 | Typing replaces the editor's text. |
| KanbanColumn.ColumnView.HandleTitleSubmit | src/kanban/components/KanbanColumn.tsx:92-99 | The column is sent with the trimmed title when `SubmittedTitle` gives one; otherwise the current title goes back into the editor. Editing ends either way. |
| KanbanColumn.ColumnView.HandleTitleKeyDown | src/kanban/components/KanbanColumn.tsx:101-111 | Enter submits. Escape reverts the text and ends editing without an update. Any other key changes nothing. |
| IndexPage.HandleCardMove | src/pages/Index.tsx:166-196 | The page's copy-on-write move gives exactly the store's `Moved` columns, and the previous board itself when a column or the card is missing. |
| IndexPage.CardMoveKeepsColumns | src/pages/Index.tsx:169-192 | The page's move keeps the board's id, title, column count, column ids and column orders, and with a failed lookup it returns the previous board. |
| IndexPage.Prepended | src/pages/Index.tsx:222-225 | The prepended list is one card longer. |
| IndexPage.CardCreatedSpec | src/pages/Index.tsx:202-230 | Every column with that id gets the "New Task" card first, with order 0, and its old cards after it, in order and numbered from 1. Other columns are unchanged, and with no match nothing changes. |
| IndexPage.CardCreatedPreservesWellFormed | src/pages/Index.tsx:216-229 | Prepending keeps a well-formed board well formed. |
| IndexPage.ColumnCreated | src/pages/Index.tsx:232-245 | One empty "New Column" is appended, numbered with the column count of the render the handler came from. |
| IndexPage.ColumnCreatedAsStore | src/pages/Index.tsx:232-245 | From the latest render, the page appends what the store's `addColumn` appends, and dense column orders stay dense. |
| IndexPage.ColumnReplaced | src/pages/Index.tsx:247-254 | Replacement keeps the column count. |
| IndexPage.ColumnReplacedSpec | src/pages/Index.tsx:250-252 | Every column with the updated column's id is replaced by it, and the rest and the id list are unchanged. |
| IndexPage.ColumnReplacedAsStore | src/pages/Index.tsx:247-254 | With unique ids, replacing a column by itself with a new title is the store's `updateColumn` with only that title. |

## Left out

- Time and ids: `new Date()` and `generateId()` (src/kanban/store.ts:28) are
  parameters. `addCard` and `IndexPage.PageNewCard` (src/pages/Index.tsx:211-212)
  use one `now` for both `createdAt` and `updatedAt`, where the source
  reads the clock twice.
- `isOverdue` and `formatDueDate` in src/kanban/utils/task.utils.ts depend
  on the current date and on locale formatting. They are not part of this
  model.
- Rendering, styling, animation, `AddCardModal`'s own form and its trim
  guard, `KanbanCard`, the stories and the sample data are not modelled.
- React, zustand and immer plumbing is not modelled: re-render
  scheduling, batching of `setState` updaters and immer's draft
  semantics. Each store action is
  one atomic method. Each component's state is a class.
- DOM geometry: each child of the cards container is an integer midpoint.
  A pointer position is an integer. Fractional pixels are not represented.
  The model takes the container's children as given. In the DOM the end
  drop indicator and the empty-state element are children too, and the
  model does not say which children are present.
- The drag data (`text/plain` card id) is a parameter of the drop.
- Filtered view vs stored board: indices reported by a column of the
  filtered board are passed to a move on the full board unchanged. The
  model does not relate the two.
- IndexPage.HandleCardMove: the page copies the arrays but not the cards.
  In the source, its writes to `columnId`, `updatedAt` and `order` also
  reach the card objects of the previous board. The model works on values
  and does not capture that aliasing.
- IndexPage.ColumnCreated: the stale column count the handler captures is
  the parameter `renderedCount`. The model does not say which render a
  handler comes from.
- JsString.Lower: `toLowerCase` is restricted to the ASCII letters, and
  so is `toUpperCase` in `JsString.Upper`. Other case mappings, including ones that change the
  length, are not modelled.
- JsString.Split: a string is a sequence of characters, not of UTF-16 code
  units. So `part[0]` of a surrogate pair in `getInitials` is a whole
  character here.
- ColumnUtils.IsAtWIPLimit: the limit is an integer. Fractional and `NaN`
  limits are not modelled.
- TaskUtils.GetPriorityColorSpec: only own keys of the colour table are
  looked up. Inherited object keys such as "constructor", which the
  source's lookup would also find, are not modelled. The same applies to
  `ColumnUtils.GetColumnStatusColor`.
- TaskUtils.ReorderTasks: requires a non-empty array and `startIndex < n`,
  so that `splice(startIndex, 1)` removes an element. With a start of `n`
  or more, or an empty array, the source removes nothing and inserts
  `undefined`.
  `ColumnUtils.ReorderColumns` and `TaskUtils.MoveTaskBetweenColumns`
  have the same requirement.
- Store.CardUpdatedSpec: `updateCard` can overwrite `id`, `columnId` or
  `order`. The model does not claim it preserves the board invariant.
- The store's `board: null` case is `None`. Every action on it is a no-op.

## Findings

| source | as written | input that shows it | evidently intended | confidence | as-written member | corrected member |
|---|---|---|---|---|---|---|
| src/kanban/components/KanbanColumn.tsx:52-67 | The insertion index is computed over the displayed children, which still include the dragged card. `moveCard` applies that index after taking the card out of the same column. | Column [a, b, c] with midpoints 10, 30 and 50. Drag a and drop at height 40, between b and c. The index is 2, and the column becomes [b, c, a]. | The card lands in the gap it was dropped at, giving [b, a, c]. When the card comes from this column at a position before the index, the index is one less. | not executed | KanbanColumn.AsWrittenDropLandsOneGapLate | KanbanColumn.CorrectedDropLands |

`KanbanColumn.DropRequest` is the drop as written. `KanbanColumn.SameColumnDropOvershoots` works through the example input. `KanbanColumn.ColumnView.HandleDrop` sends `KanbanColumn.CorrectedDropRequest`, which applies `KanbanColumn.CorrectedDropIndex`.
