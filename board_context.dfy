/**
 * The `actions` object of the board context: each action builds its payload
 * (new entities get an id from the caller-supplied fresh-id source standing
 * in for `uuidv4`) and dispatches it to the reducer owned by the session.
 */
module BoardContext {
  import opened Common
  import opened Entities
  import opened BoardReducer
  import SampleData

  /** `value || fallback` for a string key: a missing or empty value is falsy. */
  function OrElse(value: Option<string>, fallback: string): string {
    if value.Some? && value.value != "" then value.value else fallback
  }

  /** The defaults `addCard` fills in, keyed by a fresh id. */
  function DefaultCard(freshId: string): Card {
    Card(freshId, "新卡片", "", "medium", "", [])
  }

  /**
   * The card `addCard(boardId, listId, cardData)` builds: the `||` defaults
   * first, then `...cardData`. Because the spread comes last, the result is
   * the defaults merged with `cardData`: every key `cardData` carries wins,
   * even an empty title or an `id`.
   */
  function NewCard(freshId: string, cardData: CardFields): (card: Card)
    ensures card == MergeCard(DefaultCard(freshId), cardData)
  {
    var withDefaults := Card(
      freshId,
      OrElse(cardData.title, "新卡片"),
      OrElse(cardData.description, ""),
      OrElse(cardData.priority, "medium"),
      OrElse(cardData.dueDate, ""),
      cardData.labels.GetOr([]));
    MergeCard(withDefaults, cardData)
  }

  /** The payload `updateBoard(boardId, updates)` dispatches: `{ id: boardId, ...updates }`. */
  function UpdateBoardPayload(boardId: string, updates: BoardFields): Board {
    Board(updates.id.GetOr(boardId), updates.title, updates.lists)
  }

  /**
   * A title-only `updateBoard` leaves every board with that id without `lists`,
   * so the next action on its lists throws.
   */
  lemma RenameDropsLists(s: State, boardId: string, title: string, list: List)
    ensures var r := Reduce(s, UpdateBoard(UpdateBoardPayload(boardId, TitleOnlyBoard(title))));
            && r.Ok?
            && (forall i :: 0 <= i < |r.value.boards| && r.value.boards[i].id == boardId ==>
                  r.value.boards[i] == Board(boardId, Some(title), None))
            && (BoardExists(s, boardId) ==> Reduce(r.value, AddList(boardId, list)).TypeError?)
  {
    var r := Reduce(s, UpdateBoard(UpdateBoardPayload(boardId, TitleOnlyBoard(title)))).value;
    if BoardExists(s, boardId) {
      var i :| 0 <= i < |s.boards| && s.boards[i].id == boardId;
      assert r.boards[i].lists.None?;
    }
  }

  /** Whether the state after `action` is what the reducer gives, the session having failed if it threw. */
  ghost predicate Applied(before: State, action: Action, after: State, failedAfter: bool) {
    match Reduce(before, action)
    case Ok(next) => after == next && !failedAfter
    case TypeError => after == before && failedAfter
  }

  /**
   * The state `useReducer` owns, with the actions that dispatch to it. `failed`
   * records that the reducer threw: React then unmounts the tree, so no handler
   * can run again.
   */
  class Session {
    var state: State
    var failed: bool

    /** `useReducer(boardReducer, initialState)`. */
    constructor()
      ensures state == SampleData.InitialState && !failed
    {
      state := SampleData.InitialState;
      failed := false;
    }

    /** `dispatch(action)`. */
    method Dispatch(action: Action)
      requires !failed
      modifies this
      ensures Applied(old(state), action, state, failed)
    {
      match Reduce(state, action)
      case Ok(next) => state := next;
      case TypeError => failed := true;
    }

    /** `addBoard(title)`: appends a board with no lists and returns its id. */
    method AddBoard(freshId: string, title: string) returns (boardId: string)
      requires !failed
      modifies this
      ensures boardId == freshId && !failed
      ensures state == old(state).(boards := old(state).boards + [Board(freshId, Some(title), Some([]))])
    {
      Dispatch(BoardReducer.AddBoard(Board(freshId, Some(title), Some([]))));
      boardId := freshId;
    }

    /** `updateBoard(boardId, updates)`: replaces the board with `{ id: boardId, ...updates }`. */
    method UpdateBoard(boardId: string, updates: BoardFields)
      requires !failed
      modifies this
      ensures !failed
      ensures state == Reduce(old(state), BoardReducer.UpdateBoard(UpdateBoardPayload(boardId, updates))).value
    {
      Dispatch(BoardReducer.UpdateBoard(UpdateBoardPayload(boardId, updates)));
    }

    /** `deleteBoard(boardId)`. */
    method DeleteBoard(boardId: string)
      requires !failed
      modifies this
      ensures !failed
      ensures state == Reduce(old(state), BoardReducer.DeleteBoard(boardId)).value
    {
      Dispatch(BoardReducer.DeleteBoard(boardId));
    }

    /** `addList(boardId, title)`: appends a list with no cards and returns its id. */
    method AddList(boardId: string, freshId: string, title: string) returns (listId: string)
      requires !failed
      modifies this
      ensures listId == freshId
      ensures Applied(old(state), BoardReducer.AddList(boardId, List(freshId, title, [])), state, failed)
    {
      Dispatch(BoardReducer.AddList(boardId, List(freshId, title, [])));
      listId := freshId;
    }

    /** `updateList(boardId, listId, updates)`. */
    method UpdateList(boardId: string, listId: string, updates: ListFields)
      requires !failed
      modifies this
      ensures Applied(old(state), BoardReducer.UpdateList(boardId, listId, updates), state, failed)
    {
      Dispatch(BoardReducer.UpdateList(boardId, listId, updates));
    }

    /** `deleteList(boardId, listId)`. */
    method DeleteList(boardId: string, listId: string)
      requires !failed
      modifies this
      ensures Applied(old(state), BoardReducer.DeleteList(boardId, listId), state, failed)
    {
      Dispatch(BoardReducer.DeleteList(boardId, listId));
    }

    /** `addCard(boardId, listId, cardData)`: appends `NewCard` and returns the id it carries. */
    method AddCard(boardId: string, listId: string, freshId: string, cardData: CardFields) returns (cardId: string)
      requires !failed
      modifies this
      ensures cardId == NewCard(freshId, cardData).id
      ensures Applied(old(state), BoardReducer.AddCard(boardId, listId, NewCard(freshId, cardData)), state, failed)
    {
      var card := NewCard(freshId, cardData);
      Dispatch(BoardReducer.AddCard(boardId, listId, card));
      cardId := card.id;
    }

    /** `updateCard(boardId, listId, cardId, updates)`. */
    method UpdateCard(boardId: string, listId: string, cardId: string, updates: CardFields)
      requires !failed
      modifies this
      ensures Applied(old(state), BoardReducer.UpdateCard(boardId, listId, cardId, updates), state, failed)
    {
      Dispatch(BoardReducer.UpdateCard(boardId, listId, cardId, updates));
    }

    /** `deleteCard(boardId, listId, cardId)`. */
    method DeleteCard(boardId: string, listId: string, cardId: string)
      requires !failed
      modifies this
      ensures Applied(old(state), BoardReducer.DeleteCard(boardId, listId, cardId), state, failed)
    {
      Dispatch(BoardReducer.DeleteCard(boardId, listId, cardId));
    }

    /** `moveCard(boardId, sourceListId, destinationListId, sourceIndex, destinationIndex, card)`. */
    method MoveCard(boardId: string, sourceListId: string, destinationListId: string,
                    sourceIndex: int, destinationIndex: int, card: Card)
      requires !failed
      modifies this
      ensures Applied(old(state), BoardReducer.MoveCard(boardId, sourceListId, destinationListId,
                                                        sourceIndex, destinationIndex, card), state, failed)
    {
      Dispatch(BoardReducer.MoveCard(boardId, sourceListId, destinationListId, sourceIndex, destinationIndex, card));
    }

    /** `setCurrentBoard(boardId)`: points at `boardId` whether or not such a board exists. */
    method SetCurrentBoard(boardId: string)
      requires !failed
      modifies this
      ensures !failed
      ensures state == old(state).(currentBoardId := boardId)
    {
      Dispatch(BoardReducer.SetCurrentBoard(boardId));
    }
  }
}
