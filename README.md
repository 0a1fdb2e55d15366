# Kanban board state, drag resolution and views — a Dafny model

This project models the core of a small React Kanban app. The app keeps boards of lists of cards in one reducer-owned state. It offers:

- a board view with drag-and-drop;
- a board selector;
- list columns;
- a calendar view that lays the current board's cards out by due date.

The model covers five parts:

- **`BoardReducer`** (`board_reducer.dfy`) is the pure `boardReducer`.
  - It has twelve action types, plus an unrecognised type.
  - It returns `Result<State>`: `TypeError` stands for the JavaScript `TypeError` a lists action throws when a matching board has no `lists` key.
  - It uses the exact JavaScript `splice` index normalisation, the shallow `{ ...x, ...updates }` merge, `map` and `filter` (module `Seqs`).
- **`BoardContext`** (`board_context.dfy`) holds the action constructors and a `Session` class.
  - `Session` owns the state (what `useReducer` owns) and a `failed` flag. The flag records that the reducer threw, after which React unmounts the tree and no handler runs.
  - Fresh ids (`uuidv4`) are method parameters.
- **`DragResolution`** (`drag_resolution.dfy`) covers the `find*` helpers and the decision `handleDragEnd` takes, as the function `ResolveDrag`. `findCardById` keeps its loop with early return as a method.
- **The views** are one class each, over a shared `Session`:
  - `BoardComponent.BoardView` (`board_view.dfy`);
  - `BoardSelector.BoardSelectorView` (`board_selector.dfy`);
  - `ListComponent.ListView` (`list_view.dfy`);
  - `Calendar.CalendarView` (`calendar_view.dfy`).

  Their fields are the components' `useState` values. Each handler is a method, proved against the reducer or against a specification function: `ResolveDrag`, `NextCurrentBoardId`, `AcceptedTitle` or `AllTasks`.
- **`Corrections`** (`corrections.dfy`) is the reducer with the two defects listed under Findings corrected, and proved correct.

`Text` models `String.prototype.trim` over the ECMAScript white-space set, and the `if (s && s.trim())` guard used by every title input and prompt. `SampleData` is the initial fixture and the priority palette.

Behaviour worth knowing, as the code has it:

- `addCard` defaults the title to "新卡片".
- Deleting the last board leaves `currentBoardId` on the deleted id.
- `updateBoard` replaces the board rather than merging into it.
- A task added from the calendar keeps its title untrimmed. The guard trims, but the payload spreads the raw draft.

## Model

| member | source | states |
|---|---|---|
| Text.Trim | src/components/Board.jsx:18-19 | the trimmed text is no longer than the input and, unless empty, starts and ends with a non-white-space character |
| Text.TrimSplits | src/components/Board.jsx:18-19 | the input is an all-white-space prefix, then the trimmed text, then an all-white-space suffix |
| Text.TrimEmptyIff | src/components/Board.jsx:18 | `s.trim()` is falsy exactly when `s` is all white space |
| Text.TrimIdempotent | src/components/Board.jsx:18-19 | trimming twice is trimming once |
| Text.AcceptedTitle | src/components/Board.jsx:96-98 | the guard accepts exactly an input that was given and is not all white space, and then yields its non-empty trimmed text |
| Seqs.FindIndex | src/components/Board.jsx:45-48 | `findIndex` returns -1 exactly when nothing passes, otherwise the first passing index |
| Seqs.Find | src/components/Board.jsx:13-15 | `find` is `undefined` exactly when nothing passes, otherwise the element at `findIndex` |
| Seqs.MapWhereNoMatch | src/context/BoardContext.jsx:42-44 | a conditional `map` (`MapWhere`) that matches nothing returns the sequence unchanged; what it does to matching elements is stated by `UpdateListMerges`, `AddCardAppends` and `UpdateCardMerges` |
| Seqs.Filter | src/context/BoardContext.jsx:50 | `filter` keeps each passing element as often as it occurred and drops every other one |
| Seqs.FilterMembership | src/context/BoardContext.jsx:50 | an element is in the filtered sequence exactly when it is in the input and passes |
| Seqs.FilterAllKept | src/context/BoardContext.jsx:50 | filtering with nothing to remove returns the input |
| Seqs.FilterAppend | src/context/BoardContext.jsx:87-89 | filtering distributes over concatenation |
| Seqs.FilterKeepsOrder | src/context/BoardContext.jsx:47-51 | the kept elements keep their relative order (strictly increasing positions in the input) |
| Seqs.FilterKeeps | src/context/BoardContext.jsx:47-51 | what `filter` leaves (`KeptInOrder`): exactly the passing elements, each as often as it occurred, in their relative order |
| Seqs.FindFilter | src/components/BoardSelector.jsx:35-37 | looking for something the filter keeps finds the same element before and after filtering |
| Seqs.FilterHeadIsFind | src/components/BoardSelector.jsx:35-39 | `remainingBoards[0]` is the first board in the original order that passes the filter |
| Seqs.SpliceStart | src/context/BoardContext.jsx:178 | `splice`'s start lies in `0..length` and equals the index when that is already in range |
| Seqs.SpliceRemove | src/context/BoardContext.jsx:177-178 | `splice(i, 1)` on a copy shortens a non-empty sequence by one for any `i < length` (negative counts from the end); for a valid index it drops exactly that element |
| Seqs.SpliceInsert | src/context/BoardContext.jsx:182-183 | `splice(i, 0, x)` adds exactly `x`, and at a valid index places it there with the rest shifted |
| Seqs.SpliceInsertRemove | src/context/BoardContext.jsx:177-183 | inserting at a valid index and removing there gives back the original |
| Entities.MergeCard | src/context/BoardContext.jsx:125 | `{ ...card, ...updates }`: for each of id, title, description, priority, dueDate and labels, a key present in `updates` wins and an absent key is kept |
| Entities.MergeList | src/context/BoardContext.jsx:72 | `{ ...list, ...updates }`: for each of id, title and cards, a key present in `updates` wins and an absent key is kept |
| Entities.CurrentBoard | src/components/Board.jsx:13-15 | the current board is missing exactly when no board has the current id, and otherwise is a board with that id |
| SampleData.InitialStateRenders | src/data/sampleData.js:2-59 | the initial state's current board renders, with three lists with distinct ids holding four cards |
| BoardReducer.MapBoardLists | src/context/BoardContext.jsx:56-58 | mapping the matching boards' `lists` throws exactly when a matching board has no `lists`; otherwise only matching boards change, and only their lists |
| BoardReducer.MoveInList | src/context/BoardContext.jsx:174-186 | the `MOVE_CARD` callback on one list keeps its id and title; the source list loses exactly the card at a valid `sourceIndex`, a destination that is not also the source gains exactly `card`, and any other list is returned as is |
| BoardReducer.Reduce | src/context/BoardContext.jsx:28-199 | `boardReducer`: only an action that reads a board's `lists` can throw, and only `SET_CURRENT_BOARD` moves the current-board pointer |
| BoardReducer.ReduceThrowsIff | src/context/BoardContext.jsx:53-191 | the reducer throws exactly for a lists action whose board id matches a board without `lists` |
| BoardReducer.AddBoardAppends | src/context/BoardContext.jsx:33-37 | `ADD_BOARD` appends the board last and keeps every other board and the pointer |
| BoardReducer.AddListAppends | src/context/BoardContext.jsx:53-61 | `ADD_LIST` appends the list last on the matching boards; other boards are untouched |
| BoardReducer.AddCardAppends | src/context/BoardContext.jsx:95-110 | `ADD_CARD` appends the card last on the matching lists of the matching boards; those boards keep their id and title, those lists their id and title, and all other boards and lists are untouched |
| BoardReducer.UpdateBoardReplaces | src/context/BoardContext.jsx:39-45 | `UPDATE_BOARD` makes each matching board exactly the payload and leaves the others alone |
| BoardReducer.UpdateBoardIdempotent | src/context/BoardContext.jsx:39-45 | applying the same `UPDATE_BOARD` twice equals applying it once |
| BoardReducer.UpdateListMerges | src/context/BoardContext.jsx:63-78 | `UPDATE_LIST` shallow-merges into the matching lists of the matching boards only |
| BoardReducer.UpdateCardMerges | src/context/BoardContext.jsx:112-134 | `UPDATE_CARD` shallow-merges into the matching cards of the matching lists only; the matching boards keep their id and title, the matching lists their id, title and length |
| BoardReducer.DeleteBoardRemoves | src/context/BoardContext.jsx:47-51 | `DELETE_BOARD` keeps exactly the boards with another id, each as often as it occurred and in order (`KeptInOrder`), keeps the pointer, and is a no-op for an unknown id |
| BoardReducer.InAllCards | src/components/CalendarView.jsx:45-51 | a card is among a board's cards exactly when one of its lists holds it |
| BoardReducer.DeleteListInCascades | src/context/BoardContext.jsx:87-89 | on one board, the remaining lists are the others, as often as they occurred and in order, and the remaining cards are exactly those of the other lists |
| BoardReducer.DeleteListCascades | src/context/BoardContext.jsx:80-93 | `DELETE_LIST` removes the matching lists, keeping the other lists in order and with their multiplicity, and with them their cards, on the matching boards only, which keep their id and title |
| BoardReducer.DeleteCardRemoves | src/context/BoardContext.jsx:136-156 | `DELETE_CARD` keeps exactly the cards with another id in the matching lists, as often as they occurred and in order; the boards and lists keep their id and title, and nothing else changes |
| BoardReducer.MoveBetweenLists | src/context/BoardContext.jsx:158-191 | between two different lists with valid indices, `MoveCardIn` takes exactly the element at `sourceIndex` out of the source, puts the card at `destinationIndex` of the destination, and leaves the other lists unchanged |
| BoardReducer.MoveKeepsCards | src/context/BoardContext.jsx:158-191 | such a move keeps the card count, and keeps the exact multiset of cards when the card is the one at `sourceIndex` |
| BoardReducer.SameListMoveOnlyRemoves | src/context/BoardContext.jsx:174-186 | as written, a move within one list only removes, so the board has one card fewer |
| BoardReducer.SetBoardsReplacesBoards | src/context/BoardContext.jsx:30-31 | `SET_BOARDS` replaces the boards and keeps the pointer |
| BoardReducer.PointerAndDefaultCases | src/context/BoardContext.jsx:193-197 | `SET_CURRENT_BOARD` replaces only the pointer, without checking that the board exists; an unknown type returns the state |
| BoardReducer.UnknownTargetIsNoOp | src/context/BoardContext.jsx:28-199 | an action naming a board, list or card that is not there returns the state unchanged, provided it does not throw |
| BoardContext.NewCard | src/context/BoardContext.jsx:271-286 | `addCard` builds the defaults (`DefaultCard`: "新卡片", "", "medium", "", []) and merges `cardData` over them, so every key `cardData` carries wins, `id` and an empty title included; the title falls back to the default through `OrElse` only where `cardData` has none |
| BoardContext.RenameDropsLists | src/context/BoardContext.jsx:236-241 | a title-only `updateBoard` builds the payload `UpdateBoardPayload` = `{ id, title }` with no `lists`, which replaces each matching board, so the next `addList` on an existing board throws |
| BoardContext.Session.constructor | src/context/BoardContext.jsx:206 | the session starts from the initial state (the sample boards, `board-1` current) |
| BoardContext.Session.Dispatch | src/context/BoardContext.jsx:206 | the new state is the reducer's result, or the old state with `failed` set when it throws |
| BoardContext.Session.AddBoard | src/context/BoardContext.jsx:226-234 | appends a board with the title and empty lists under the fresh id, and returns that id |
| BoardContext.Session.UpdateBoard | src/context/BoardContext.jsx:236-241 | reduces `UPDATE_BOARD` with the payload `UpdateBoardPayload` (`{ id: boardId, ...updates }`); never throws |
| BoardContext.Session.DeleteBoard | src/context/BoardContext.jsx:243-245 | reduces `DELETE_BOARD`; never throws |
| BoardContext.Session.AddList | src/context/BoardContext.jsx:247-258 | reduces `ADD_LIST` with an empty list under the fresh id, and returns that id |
| BoardContext.Session.UpdateList | src/context/BoardContext.jsx:260-265 | reduces `UPDATE_LIST` |
| BoardContext.Session.DeleteList | src/context/BoardContext.jsx:267-269 | reduces `DELETE_LIST` |
| BoardContext.Session.AddCard | src/context/BoardContext.jsx:271-286 | reduces `ADD_CARD` with `NewCard`, and returns the id of the inserted card |
| BoardContext.Session.UpdateCard | src/context/BoardContext.jsx:288-293 | reduces `UPDATE_CARD` |
| BoardContext.Session.DeleteCard | src/context/BoardContext.jsx:295-300 | reduces `DELETE_CARD` |
| BoardContext.Session.MoveCard | src/context/BoardContext.jsx:302-321 | reduces `MOVE_CARD` with the six arguments as given |
| BoardContext.Session.SetCurrentBoard | src/context/BoardContext.jsx:323-325 | changes only the pointer; never throws |
| DragResolution.CardById | src/components/Board.jsx:66-72 | `findCardById` finds nothing exactly when no list holds a card with the id, and otherwise a card with that id |
| DragResolution.CardIndex | src/components/Board.jsx:45-48 | `findIndex` by card id: -1 exactly when no card has the id, otherwise the first position of one |
| DragResolution.ListByCardId | src/components/Board.jsx:74-78 | `findListByCardId`: none exactly when no list holds a card with the id, otherwise a list of the board that holds one |
| DragResolution.ListById | src/components/Board.jsx:80-82 | `findListById`: none exactly when no list has the id, otherwise a list of the board with that id |
| DragResolution.DestinationList | src/components/Board.jsx:41 | the drop target: none exactly when neither a card nor a list has the over id; a list holding a card with that id wins over a list with that id |
| DragResolution.ResolveDrag | src/components/Board.jsx:31-63 | a dispatched move is always between two different lists, for a drop on something other than the dragged card, and carries the dragged card |
| DragResolution.FindCardById | src/components/Board.jsx:66-72 | the loop with early return computes `CardById` |
| DragResolution.CardByIdInItsList | src/components/Board.jsx:37-45 | the found card, its list (`findListByCardId`) and its index in that list agree, and the index is valid |
| DragResolution.ResolveDragSomeIff | src/components/Board.jsx:35-53 | a move is dispatched exactly when `over` is given, differs from `active`, the card's list and a destination are found, and they are different lists |
| DragResolution.ResolveDragIntent | src/components/Board.jsx:40-61 | a dispatched move carries the dragged card and its valid index in its own list; the destination is the over-card's list (insert before it) when one holds it, and only otherwise the list with the over id (append) |
| DragResolution.SameListDropIsNoOp | src/components/Board.jsx:50-53 | a drop within the card's own list never dispatches, whatever the indices |
| DragResolution.DropOnListAppends | src/components/List.jsx:24-26 | dropping on another list's own droppable id appends the card to that list |
| DragResolution.DragThenMoveKeepsCards | src/components/Board.jsx:55-62 | reducing the resolved move removes the card at its index from its list, inserts it at the computed index in the destination, touches no other list, and keeps the board's cards |
| DragResolution.DropOnCardExample | src/components/Board.jsx:41-48 | with lists [A,B,C] and [X,Y], dropping B on X resolves to a move from index 1 to index 0 of the second list |
| DragResolution.DropOnCardExampleMoves | src/components/Board.jsx:55-62 | that move gives [A,C] and [B,X,Y] |
| DragResolution.DropOnListExample | src/components/Board.jsx:60 | dropping A on the second list's area resolves to index 2, the list's length |
| DragResolution.DropOnListExampleMoves | src/components/Board.jsx:55-62 | that move gives [X,Y,A] |
| DragResolution.NoOpExamples | src/components/Board.jsx:35-53 | dropping A on itself, on B in its own list, or on nothing dispatches nothing |
| BoardComponent.MoveOnCurrentBoard | src/components/Board.jsx:55-62 | a move on the current board does not throw when every board with that id has lists; the board still renders, its lists are `MoveCardIn` of the old ones, and other boards are untouched |
| BoardComponent.DragEndKeepsCards | src/components/Board.jsx:31-64 | a drop that dispatches keeps the current board's exact multiset of cards |
| BoardComponent.RenameBreaksRender | src/components/Board.jsx:94-117 | after the header rename the current board is `{ id, title }` and the board view can no longer render its lists |
| BoardComponent.BoardView.constructor | src/components/Board.jsx:9-11 | the form is closed and empty, and no card is dragged |
| BoardComponent.BoardView.StartAddingList | src/components/Board.jsx:165 | opens the add-list form |
| BoardComponent.BoardView.EditNewListTitle | src/components/Board.jsx:135 | the field holds the typed text |
| BoardComponent.BoardView.CancelAddingList | src/components/Board.jsx:152-157 | closes the form and clears the field |
| BoardComponent.BoardView.HandleAddList | src/components/Board.jsx:17-23 | a blank title changes nothing; otherwise adds a list with the trimmed title to the current board, then clears and closes the form |
| BoardComponent.BoardView.HandleDragStart | src/components/Board.jsx:25-29 | the overlay card is `findCardById(active.id)` |
| BoardComponent.BoardView.HandleDragEnd | src/components/Board.jsx:31-64 | clears the overlay on every drop, and dispatches exactly the move `ResolveDrag` gives on the current board, or nothing |
| BoardComponent.BoardView.RenameBoard | src/components/Board.jsx:94-101 | a cancelled or blank answer changes nothing; otherwise `updateBoard(currentBoardId, { title: trimmed })` |
| BoardSelector.DeleteCurrentShowsFirstOther | src/components/BoardSelector.jsx:34-40 | deleting the current board while another exists points at the first board, in the pre-delete order, with a different id, and that board is shown |
| BoardSelector.DeleteOtherKeepsCurrent | src/components/BoardSelector.jsx:34 | deleting another board keeps the pointer and the same current board |
| BoardSelector.DeleteLastKeepsDeletedId | src/components/BoardSelector.jsx:38-41 | deleting the only remaining board id leaves no boards and the pointer on the deleted id |
| BoardSelector.AddedBoardIsShown | src/components/BoardSelector.jsx:17-18 | a board added under a fresh id and then selected is the current board, renders, and has no lists |
| BoardSelector.RemainingBoards | src/components/BoardSelector.jsx:35 | `remainingBoards`: every board with another id, as often as it occurred and in order |
| BoardSelector.NextCurrentBoardId | src/components/BoardSelector.jsx:34-40 | the pointer lands on the deleted id exactly when the current board was deleted and no other board remains; it moves only when the current board is deleted, and then to a board that existed |
| BoardSelector.BoardSelectorView.constructor | src/components/BoardSelector.jsx:7-9 | closed, not adding, empty title |
| BoardSelector.BoardSelectorView.ToggleOpen | src/components/BoardSelector.jsx:50 | flips the drop-down |
| BoardSelector.BoardSelectorView.StartAddingBoard | src/components/BoardSelector.jsx:134 | opens the add-board form |
| BoardSelector.BoardSelectorView.EditNewBoardTitle | src/components/BoardSelector.jsx:104-105 | the field holds the typed text |
| BoardSelector.BoardSelectorView.CancelAddingBoard | src/components/BoardSelector.jsx:123-126 | closes the form and clears the field |
| BoardSelector.BoardSelectorView.HandleAddBoard | src/components/BoardSelector.jsx:15-23 | a blank title changes nothing; otherwise appends a board with the trimmed title and empty lists, makes it current, and closes the form and the drop-down |
| BoardSelector.BoardSelectorView.HandleSelectBoard | src/components/BoardSelector.jsx:25-28 | sets the pointer to the id and closes the drop-down |
| BoardSelector.BoardSelectorView.HandleDeleteBoard | src/components/BoardSelector.jsx:30-43 | unconfirmed changes nothing; confirmed leaves the boards with another id and the pointer `NextCurrentBoardId` computes from the pre-delete state |
| BoardSelector.BoardSelectorView.RenameBoard | src/components/BoardSelector.jsx:73-80 | a cancelled or blank answer changes nothing; otherwise `updateBoard(board.id, { title: trimmed })` |
| ListComponent.ListView.constructor | src/components/List.jsx:19-22 | form closed and empty, not editing, editor text = the list's title |
| ListComponent.ListView.ReceiveList | src/components/List.jsx:22 | a new `list` prop leaves all local state as it was, the editor text included |
| ListComponent.ListView.StartEditingList | src/components/List.jsx:70 | opens the title editor |
| ListComponent.ListView.EditListTitle | src/components/List.jsx:56 | the editor holds the typed text |
| ListComponent.ListView.HandleEditList | src/components/List.jsx:36-41 | renames (`RenamesList`) with the trimmed text exactly when it is not blank and the raw text differs from the title; leaves editing mode either way |
| ListComponent.ListView.HandleCancelEdit | src/components/List.jsx:43-46 | restores the list's title and leaves editing mode |
| ListComponent.ListView.HandleDeleteList | src/components/List.jsx:84 | deletes this list of this board, with no confirmation |
| ListComponent.ListView.StartAddingCard | src/components/List.jsx:139 | opens the add-card form |
| ListComponent.ListView.EditNewCardTitle | src/components/List.jsx:115 | the field holds the typed text |
| ListComponent.ListView.CancelAddingCard | src/components/List.jsx:127-130 | closes the form and clears the field |
| ListComponent.ListView.HandleAddCard | src/components/List.jsx:28-34 | a blank title changes nothing; otherwise adds a card with only the trimmed title (and the defaults) to this list, then clears and closes the form |
| ListComponent.ListView.EditCard | src/components/List.jsx:103-105 | a card edit is routed with this board's and this list's ids |
| ListComponent.ListView.DeleteCard | src/components/List.jsx:106 | a card delete is routed with this board's and this list's ids |
| Calendar.TasksOfLists | src/components/CalendarView.jsx:45-51 | the tasks (`TagCards` over each list) are one per card, and their cards are exactly the board's cards in list order, then card order |
| Calendar.TaskInItsList | src/components/CalendarView.jsx:46-50 | each task is tagged with the id and title of a list that holds its card |
| Calendar.AllTasks | src/components/CalendarView.jsx:43-52 | no current board gives no tasks; a current board without lists throws; otherwise the tasks of its lists |
| Calendar.TaskTargetsItsCard | src/components/CalendarView.jsx:123-137 | the board, list and card ids that edit and delete pass for a task name a card that is there |
| Calendar.TasksForDate | src/components/CalendarView.jsx:55-60 | `getTasksForDate`: exactly the tasks `DueOn` the day, each as often as it occurs, in order |
| Calendar.TasksForDateMembers | src/components/CalendarView.jsx:55-60 | a task is listed under a day (`DueOn`) exactly when its due date is set and matches the day; an empty due date matches no day |
| Calendar.ShownTasks | src/components/CalendarView.jsx:282 | at most three tasks are shown, a prefix of the day's tasks, all of them when there are at most three |
| Calendar.MoreCount | src/components/CalendarView.jsx:317-319 | the "+n" badge appears exactly when more than three tasks are due |
| Calendar.ShownAndMoreCoverDay | src/components/CalendarView.jsx:317-319 | shown tasks plus n account for every task of the day |
| Calendar.PriorityColor | src/components/CalendarView.jsx:139-142 | low, medium and high map to their palette colours, and any other priority falls back to "#61bd4f" |
| Calendar.DraftBecomesCard | src/components/CalendarView.jsx:106-109 | the added card carries every draft field, the untrimmed title included, and is due on the selected day |
| Calendar.CalendarView.constructor | src/components/CalendarView.jsx:29-37 | no day selected, form closed, draft at its defaults |
| Calendar.CalendarView.HandleDateClick | src/components/CalendarView.jsx:92-98 | selects the day and sets the draft's due date to it |
| Calendar.CalendarView.HandleTaskClick | src/components/CalendarView.jsx:289-292 | selects the task's day and leaves the draft alone |
| Calendar.CalendarView.StartAddingTask | src/components/CalendarView.jsx:173 | opens the add-task form |
| Calendar.CalendarView.EditDraft | src/components/CalendarView.jsx:194-219 | updates title, description and priority of the draft, keeping the rest |
| Calendar.CalendarView.CancelAddingTask | src/components/CalendarView.jsx:233-242 | closes the form and resets the draft |
| Calendar.CalendarView.HandleAddTask | src/components/CalendarView.jsx:101-120 | adds (`AddsTask`) exactly when the title is not blank, a day is selected and the current board has a first list: the draft becomes a card due on that day at the end of the first list, then the draft resets and the form closes; otherwise nothing changes |
| Calendar.CalendarView.HandleEditTask | src/components/CalendarView.jsx:123-130 | a cancelled or blank answer changes nothing; otherwise renames the task's card, trimmed, in the task's own list |
| Calendar.CalendarView.HandleDeleteTask | src/components/CalendarView.jsx:133-137 | only a confirmed delete removes the task's card from the task's own list |
| Corrections.CorrectedAgreesElsewhere | src/context/BoardContext.jsx:28-199 | the corrected reducer agrees with the original on every other action |
| Corrections.ReduceCorrected | src/context/BoardContext.jsx:28-199 | the corrected reducer throws exactly where the original does |
| Corrections.CorrectedRenameKeepsLists | src/context/BoardContext.jsx:39-45 | with the merge (`MergeBoard`), a title-only update retitles the matching boards, keeps every board's lists, and the current board still renders |
| Corrections.CorrectedSameListReorders | src/context/BoardContext.jsx:174-186 | with the re-insertion, a same-list move takes the card out and puts it at the destination index, with the same length and the other lists untouched |
| Corrections.CorrectedMoveKeepsCards | src/context/BoardContext.jsx:158-191 | with the re-insertion (`CorrectedMoveCardIn`), every move of the card at `sourceIndex`, same list or not, keeps the board's exact multiset of cards |

## Left out

- Loading and saving boards through `localStorage` (src/context/BoardContext.jsx:209-222) is browser I/O. The unguarded `JSON.parse` there is outside the model.
- `uuidv4`: the fresh id is a parameter of each adding method. Nothing assumes the ids are unique. Lemmas that need distinct list ids say so in their `requires`.
- React plumbing: context, `useReducer` and `useBoard`. So are re-render timing and batching. A handler that dispatches twice is modelled as two reductions in order, which is what React's queue does. The reducer's throw is modelled at the dispatch that queues the bad action.
- dnd-kit: collision detection and the sortable and droppable internals. `over` is an input to `HandleDragEnd`. `DragResolution.DropOnListAppends` uses the fact that a list registers under its own id.
- Date handling:
  - the calendar grid;
  - month navigation;
  - `format`, `new Date` and `isSameDay`;
  - the due-date display helpers of `Card.jsx`.

  A selected day is carried as its "yyyy-MM-dd" text, and whether a due date falls on a day is the caller's `matchesDay`.
- `prompt` and `confirm` answers are method inputs: an `Option<string>` (`None` for cancel) and a `bool`.
- JSX rendering. A rendered view is a precondition: `CurrentBoardRenders`, or `AllTasks(...).Ok?` for the calendar.
- Card.jsx, EditableTitle.jsx, ViewSwitcher.jsx and App.jsx are not part of this model. The card's edit form supplies the `updates` that `ListView.EditCard` receives, as a parameter.
- Keys an `updates` object may carry beyond the entity's own fields are not modelled. Neither are non-string values in string fields.
- `Text.Trim` uses the ECMAScript white-space set as listed in `Text.IsWhiteSpace`. A character later added to Unicode's Zs category is not included.
- `Session`: its handlers require `!failed`. After the reducer throws, React unmounts the tree, so the model says nothing about later events.
- That every card id sits in exactly one list of a board is not stated as an invariant. The fresh ids of `ADD_CARD` are unconstrained parameters, and a title-only rename drops every list of the board, so the model proves the narrower fact that a move keeps the board's exact multiset of cards (`BoardReducer.MoveKeepsCards`, `BoardComponent.DragEndKeepsCards`, `Corrections.CorrectedMoveKeepsCards`).
- Keyboard events are not modelled. The Escape branches sit in `onKeyPress` handlers (src/components/Board.jsx:139-146, src/components/List.jsx:60-65, src/components/BoardSelector.jsx:109-115), and browsers generally fire no `keypress` for Escape. `handleCancelEdit` is wired only there, so `ListComponent.ListView.HandleCancelEdit` models a handler that may never run; the cancel buttons are modelled as the way out of the add forms.

## Findings

| source | as written | input that shows it | evidently intended | confidence | as-written member | corrected member |
|---|---|---|---|---|---|---|
| src/context/BoardContext.jsx:39-45 | `UPDATE_BOARD` replaces the board with `{ id, ...updates }`. A rename (src/components/Board.jsx:97-99, src/components/BoardSelector.jsx:77-79) therefore drops `lists`, and the next render of the board view maps over a missing `lists` and throws | rename "board-1" to "X" from the board header | merge the payload into the board, like the list and card updates do | high (not executed) | BoardContext.RenameDropsLists | Corrections.CorrectedRenameKeepsLists |
| src/context/BoardContext.jsx:174-186 | `MOVE_CARD` with the same source and destination list only removes the card, because of the `else if` | `MOVE_CARD` on board-1 from list-1 to list-1, index 0 to 1, card-1: list-1 ends up holding only card-2 | remove and then re-insert in the same list | medium (not executed; the board view never dispatches such a move) | BoardReducer.SameListMoveOnlyRemoves | Corrections.CorrectedMoveKeepsCards |

`Session` and the views keep the code as written, so that every handler matches the source. `Corrections.ReduceCorrected` is the reducer with both fixes. `Corrections.CorrectedAgreesElsewhere` proves that it differs from the original only on these two inputs.
