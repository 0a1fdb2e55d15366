/**
 * `boardReducer`: the twelve action types and what each does to the state.
 * The reducer is pure; the only way it fails is a `TypeError` when an action
 * that works on a board's lists meets a matching board that has no `lists`.
 */
module BoardReducer {
  import opened Common
  import opened Seqs
  import opened Entities

  datatype Action =
    | SetBoards(boards: seq<Board>)
    | AddBoard(board: Board)
    | UpdateBoard(board: Board)
    | DeleteBoard(boardId: string)
    | AddList(boardId: string, list: List)
    | UpdateList(boardId: string, listId: string, listUpdates: ListFields)
    | DeleteList(boardId: string, listId: string)
    | AddCard(boardId: string, listId: string, card: Card)
    | UpdateCard(boardId: string, listId: string, cardId: string, cardUpdates: CardFields)
    | DeleteCard(boardId: string, listId: string, cardId: string)
    | MoveCard(boardId: string, sourceListId: string, destinationListId: string,
               sourceIndex: int, destinationIndex: int, card: Card)
    | SetCurrentBoard(boardId: string)
    | Unrecognized(actionType: string)
  {
    /** The actions whose case reads `board.lists` of the boards matching `boardId`. */
    predicate ReadsLists() {
      AddList? || UpdateList? || DeleteList? || AddCard? || UpdateCard? || DeleteCard? || MoveCard?
    }
  }

  /** Some board with id `boardId` has no `lists` key. */
  predicate ListsMissing(boards: seq<Board>, boardId: string) {
    exists i :: 0 <= i < |boards| && boards[i].id == boardId && boards[i].lists.None?
  }

  /**
   * `boards.map(b => b.id === boardId ? { ...b, lists: f(b.lists) } : b)`,
   * which throws as soon as a matching board has no `lists`.
   */
  function MapBoardLists(boards: seq<Board>, boardId: string, f: seq<List> -> seq<List>): (r: Result<seq<Board>>)
    ensures r.TypeError? <==> ListsMissing(boards, boardId)
    ensures r.Ok? ==> |r.value| == |boards|
    ensures r.Ok? ==> forall i :: 0 <= i < |boards| ==>
              if boards[i].id == boardId
              then boards[i].lists.Some? && r.value[i] == boards[i].(lists := Some(f(boards[i].lists.value)))
              else r.value[i] == boards[i]
  {
    if |boards| == 0 then Ok([])
    else
      var b := boards[0];
      var rest := MapBoardLists(boards[1..], boardId, f);
      if b.id == boardId && b.lists.None? then TypeError
      else if rest.TypeError? then
        assert ListsMissing(boards, boardId) by {
          var j :| 0 <= j < |boards[1..]| && boards[1..][j].id == boardId && boards[1..][j].lists.None?;
          assert boards[j + 1] == boards[1..][j];
        }
        TypeError
      else
        var b' := if b.id == boardId then b.(lists := Some(f(b.lists.value))) else b;
        Ok([b'] + rest.value)
  }

  function WithBoards(state: State, boards: Result<seq<Board>>): Result<State> {
    match boards
    case Ok(bs) => Ok(state.(boards := bs))
    case TypeError => TypeError
  }

  /** The `UPDATE_LIST` case on one board's lists. */
  function UpdateListIn(lists: seq<List>, listId: string, updates: ListFields): seq<List> {
    MapWhere(lists, (l: List) => l.id == listId, (l: List) => MergeList(l, updates))
  }

  /** The `DELETE_LIST` case on one board's lists. */
  function DeleteListIn(lists: seq<List>, listId: string): seq<List> {
    Filter(lists, (l: List) => l.id != listId)
  }

  /** The `ADD_CARD` case on one board's lists. */
  function AddCardIn(lists: seq<List>, listId: string, card: Card): seq<List> {
    MapWhere(lists, (l: List) => l.id == listId, (l: List) => l.(cards := l.cards + [card]))
  }

  /** The `UPDATE_CARD` case on one board's lists. */
  function UpdateCardIn(lists: seq<List>, listId: string, cardId: string, updates: CardFields): seq<List> {
    MapWhere(lists, (l: List) => l.id == listId,
      (l: List) => l.(cards := MapWhere(l.cards, (c: Card) => c.id == cardId, (c: Card) => MergeCard(c, updates))))
  }

  /** The `DELETE_CARD` case on one board's lists. */
  function DeleteCardIn(lists: seq<List>, listId: string, cardId: string): seq<List> {
    MapWhere(lists, (l: List) => l.id == listId,
      (l: List) => l.(cards := Filter(l.cards, (c: Card) => c.id != cardId)))
  }

  /**
   * The `MOVE_CARD` callback on one list: the source list loses the element at
   * `sourceIndex`; otherwise the destination list gets `card` spliced in at
   * `destinationIndex`. The `else if` means a list that is both is only the source.
   */
  function MoveInList(list: List, sourceListId: string, destinationListId: string,
                      sourceIndex: int, destinationIndex: int, card: Card): (r: List)
    ensures r.id == list.id && r.title == list.title
    ensures list.id != sourceListId && list.id != destinationListId ==> r == list
    ensures list.id == sourceListId && 0 <= sourceIndex < |list.cards| ==>
              multiset(r.cards) + multiset{list.cards[sourceIndex]} == multiset(list.cards)
    ensures list.id != sourceListId && list.id == destinationListId ==>
              multiset(r.cards) == multiset(list.cards) + multiset{card}
  {
    if list.id == sourceListId then list.(cards := SpliceRemove(list.cards, sourceIndex))
    else if list.id == destinationListId then list.(cards := SpliceInsert(list.cards, destinationIndex, card))
    else list
  }

  /** The `MOVE_CARD` case on one board's lists. */
  function MoveCardIn(lists: seq<List>, sourceListId: string, destinationListId: string,
                      sourceIndex: int, destinationIndex: int, card: Card): (r: seq<List>)
    ensures |r| == |lists|
    ensures forall i :: 0 <= i < |lists| ==>
              r[i] == MoveInList(lists[i], sourceListId, destinationListId, sourceIndex, destinationIndex, card)
  {
    seq(|lists|, i requires 0 <= i < |lists| =>
      MoveInList(lists[i], sourceListId, destinationListId, sourceIndex, destinationIndex, card))
  }

  /**
   * `boardReducer(state, action)`; `TypeError` where the JavaScript throws.
   * Only an action that reads a board's lists can throw, and only
   * `SET_CURRENT_BOARD` moves the current-board pointer.
   */
  function Reduce(state: State, action: Action): (r: Result<State>)
    ensures r.TypeError? ==> action.ReadsLists()
    ensures r.Ok? ==> r.value.currentBoardId == if action.SetCurrentBoard? then action.boardId else state.currentBoardId
  {
    match action
    case SetBoards(boards) => Ok(state.(boards := boards))
    case AddBoard(board) => Ok(state.(boards := state.boards + [board]))
    case UpdateBoard(board) =>
      Ok(state.(boards := MapWhere(state.boards, (b: Board) => b.id == board.id, (b: Board) => board)))
    case DeleteBoard(boardId) =>
      Ok(state.(boards := Filter(state.boards, (b: Board) => b.id != boardId)))
    case AddList(boardId, list) =>
      WithBoards(state, MapBoardLists(state.boards, boardId, (ls: seq<List>) => ls + [list]))
    case UpdateList(boardId, listId, updates) =>
      WithBoards(state, MapBoardLists(state.boards, boardId, (ls: seq<List>) => UpdateListIn(ls, listId, updates)))
    case DeleteList(boardId, listId) =>
      WithBoards(state, MapBoardLists(state.boards, boardId, (ls: seq<List>) => DeleteListIn(ls, listId)))
    case AddCard(boardId, listId, card) =>
      WithBoards(state, MapBoardLists(state.boards, boardId, (ls: seq<List>) => AddCardIn(ls, listId, card)))
    case UpdateCard(boardId, listId, cardId, updates) =>
      WithBoards(state, MapBoardLists(state.boards, boardId,
        (ls: seq<List>) => UpdateCardIn(ls, listId, cardId, updates)))
    case DeleteCard(boardId, listId, cardId) =>
      WithBoards(state, MapBoardLists(state.boards, boardId, (ls: seq<List>) => DeleteCardIn(ls, listId, cardId)))
    case MoveCard(boardId, sourceListId, destinationListId, sourceIndex, destinationIndex, card) =>
      WithBoards(state, MapBoardLists(state.boards, boardId,
        (ls: seq<List>) => MoveCardIn(ls, sourceListId, destinationListId, sourceIndex, destinationIndex, card)))
    case SetCurrentBoard(boardId) => Ok(state.(currentBoardId := boardId))
    case Unrecognized(_) => Ok(state)
  }

  // ---------------------------------------------------------------------------
  // What each case does

  /** The reducer throws exactly for a lists action on a board id some matching board has no `lists` for. */
  lemma ReduceThrowsIff(s: State, a: Action)
    ensures Reduce(s, a).TypeError? <==> a.ReadsLists() && ListsMissing(s.boards, a.boardId)
  {
  }

  /** `ADD_BOARD` appends the board as the last one and changes nothing else. */
  lemma AddBoardAppends(s: State, board: Board)
    ensures Reduce(s, AddBoard(board)).Ok?
    ensures var r := Reduce(s, AddBoard(board)).value;
            && |r.boards| == |s.boards| + 1
            && r.boards[|s.boards|] == board
            && r.boards[..|s.boards|] == s.boards
            && r.currentBoardId == s.currentBoardId
  {
  }

  /** `ADD_LIST` appends `list` as the last list of every matching board; other boards are untouched. */
  lemma AddListAppends(s: State, boardId: string, list: List)
    requires !ListsMissing(s.boards, boardId)
    ensures Reduce(s, AddList(boardId, list)).Ok?
    ensures var r := Reduce(s, AddList(boardId, list)).value;
            && r.currentBoardId == s.currentBoardId
            && |r.boards| == |s.boards|
            && forall i :: 0 <= i < |s.boards| ==>
                 if s.boards[i].id == boardId then
                   var old_ := s.boards[i].lists.value;
                   && r.boards[i].id == s.boards[i].id && r.boards[i].title == s.boards[i].title
                   && r.boards[i].lists.Some?
                   && |r.boards[i].lists.value| == |old_| + 1
                   && r.boards[i].lists.value[|old_|] == list
                   && r.boards[i].lists.value[..|old_|] == old_
                 else r.boards[i] == s.boards[i]
  {
  }

  /** `ADD_CARD` appends `card` as the last card of every matching list of every matching board. */
  lemma AddCardAppends(s: State, boardId: string, listId: string, card: Card)
    requires !ListsMissing(s.boards, boardId)
    ensures Reduce(s, AddCard(boardId, listId, card)).Ok?
    ensures var r := Reduce(s, AddCard(boardId, listId, card)).value;
            && r.currentBoardId == s.currentBoardId
            && |r.boards| == |s.boards|
            && forall i :: 0 <= i < |s.boards| ==>
                 if s.boards[i].id == boardId then
                   var ls, ls' := s.boards[i].lists.value, r.boards[i].lists.value;
                   && r.boards[i].lists.Some? && r.boards[i].id == boardId && r.boards[i].title == s.boards[i].title
                   && |ls'| == |ls|
                   && forall j :: 0 <= j < |ls| ==>
                        if ls[j].id == listId then
                          && ls'[j].id == ls[j].id && ls'[j].title == ls[j].title
                          && |ls'[j].cards| == |ls[j].cards| + 1
                          && ls'[j].cards[|ls[j].cards|] == card
                          && ls'[j].cards[..|ls[j].cards|] == ls[j].cards
                        else ls'[j] == ls[j]
                 else r.boards[i] == s.boards[i]
  {
    var r := Reduce(s, AddCard(boardId, listId, card)).value;
    forall i | 0 <= i < |s.boards| && s.boards[i].id == boardId
      ensures var ls, ls' := s.boards[i].lists.value, r.boards[i].lists.value;
              forall j :: 0 <= j < |ls| && ls[j].id == listId ==> ls'[j].cards[..|ls[j].cards|] == ls[j].cards
    {
      var ls, ls' := s.boards[i].lists.value, r.boards[i].lists.value;
      forall j | 0 <= j < |ls| && ls[j].id == listId ensures ls'[j].cards[..|ls[j].cards|] == ls[j].cards {
        assert ls'[j].cards == ls[j].cards + [card];
      }
    }
  }

  /** `UPDATE_BOARD` makes every matching board exactly the payload and leaves the others alone. */
  lemma UpdateBoardReplaces(s: State, payload: Board)
    ensures Reduce(s, UpdateBoard(payload)).Ok?
    ensures var r := Reduce(s, UpdateBoard(payload)).value;
            && r.currentBoardId == s.currentBoardId
            && |r.boards| == |s.boards|
            && forall i :: 0 <= i < |s.boards| ==>
                 r.boards[i] == if s.boards[i].id == payload.id then payload else s.boards[i]
  {
  }

  /** Dispatching the same `UPDATE_BOARD` twice gives the state once gives. */
  lemma UpdateBoardIdempotent(s: State, payload: Board)
    ensures Reduce(s, UpdateBoard(payload)).Ok?
    ensures Reduce(Reduce(s, UpdateBoard(payload)).value, UpdateBoard(payload)) == Reduce(s, UpdateBoard(payload))
  {
    var once := Reduce(s, UpdateBoard(payload)).value;
    var twice := Reduce(once, UpdateBoard(payload)).value;
    assert twice.boards == once.boards;
  }

  /** `UPDATE_LIST` shallow-merges `updates` into every matching list of every matching board, and into nothing else. */
  lemma UpdateListMerges(s: State, boardId: string, listId: string, updates: ListFields)
    requires !ListsMissing(s.boards, boardId)
    ensures Reduce(s, UpdateList(boardId, listId, updates)).Ok?
    ensures var r := Reduce(s, UpdateList(boardId, listId, updates)).value;
            && r.currentBoardId == s.currentBoardId
            && |r.boards| == |s.boards|
            && forall i :: 0 <= i < |s.boards| ==>
                 if s.boards[i].id == boardId then
                   var ls, ls' := s.boards[i].lists.value, r.boards[i].lists.value;
                   && r.boards[i].lists.Some? && r.boards[i].id == boardId && r.boards[i].title == s.boards[i].title
                   && |ls'| == |ls|
                   && forall j :: 0 <= j < |ls| ==>
                        ls'[j] == if ls[j].id == listId then MergeList(ls[j], updates) else ls[j]
                 else r.boards[i] == s.boards[i]
  {
  }

  /** `UPDATE_CARD` shallow-merges `updates` into every matching card of the matching lists and boards only. */
  lemma UpdateCardMerges(s: State, boardId: string, listId: string, cardId: string, updates: CardFields)
    requires !ListsMissing(s.boards, boardId)
    ensures Reduce(s, UpdateCard(boardId, listId, cardId, updates)).Ok?
    ensures var r := Reduce(s, UpdateCard(boardId, listId, cardId, updates)).value;
            && r.currentBoardId == s.currentBoardId
            && |r.boards| == |s.boards|
            && forall i :: 0 <= i < |s.boards| ==>
                 if s.boards[i].id == boardId then
                   var ls, ls' := s.boards[i].lists.value, r.boards[i].lists.value;
                   && r.boards[i].lists.Some? && r.boards[i].id == boardId && r.boards[i].title == s.boards[i].title
                   && |ls'| == |ls|
                   && forall j :: 0 <= j < |ls| ==>
                        if ls[j].id == listId then
                          && ls'[j].id == ls[j].id && ls'[j].title == ls[j].title
                          && |ls'[j].cards| == |ls[j].cards|
                          && forall k :: 0 <= k < |ls[j].cards| ==>
                               ls'[j].cards[k] == if ls[j].cards[k].id == cardId
                                                  then MergeCard(ls[j].cards[k], updates)
                                                  else ls[j].cards[k]
                        else ls'[j] == ls[j]
                 else r.boards[i] == s.boards[i]
  {
  }

  /**
   * `DELETE_BOARD` removes every board with the id and keeps every other one,
   * as often as it occurred and in its relative order; the current-board
   * pointer is kept.
   */
  lemma DeleteBoardRemoves(s: State, boardId: string)
    ensures Reduce(s, DeleteBoard(boardId)).Ok?
    ensures var r := Reduce(s, DeleteBoard(boardId)).value;
            && r.currentBoardId == s.currentBoardId
            && KeptInOrder(s.boards, r.boards, (b: Board) => b.id != boardId)
            && ((forall i :: 0 <= i < |s.boards| ==> s.boards[i].id != boardId) ==> r.boards == s.boards)
  {
    var keep := (b: Board) => b.id != boardId;
    assert Reduce(s, DeleteBoard(boardId)) == Ok(State(Filter(s.boards, keep), s.currentBoardId));
    FilterKeeps(s.boards, keep);
    if forall i :: 0 <= i < |s.boards| ==> s.boards[i].id != boardId {
      FilterAllKept(s.boards, keep);
    }
  }

  /** A card is among a board's cards exactly when one of its lists holds it. */
  lemma {:induction false} InAllCards(lists: seq<List>, c: Card)
    ensures c in AllCards(lists) <==> exists j :: 0 <= j < |lists| && c in lists[j].cards
  {
    if |lists| > 0 {
      InAllCards(lists[1..], c);
      if c in AllCards(lists[1..]) {
        var j :| 0 <= j < |lists[1..]| && c in lists[1..][j].cards;
        assert lists[j + 1] == lists[1..][j];
      }
      if exists j :: 0 <= j < |lists| && c in lists[j].cards {
        var j :| 0 <= j < |lists| && c in lists[j].cards;
        if j > 0 { assert lists[1..][j - 1] == lists[j]; }
      }
    }
  }

  /** On one board: the lists that remain, and the cards that remain with them. */
  lemma DeleteListInCascades(ls: seq<List>, listId: string)
    ensures var ls' := DeleteListIn(ls, listId);
            && KeptInOrder(ls, ls', (l: List) => l.id != listId)
            && (forall c :: c in AllCards(ls') <==> exists j :: 0 <= j < |ls| && ls[j].id != listId && c in ls[j].cards)
  {
    var ls' := DeleteListIn(ls, listId);
    FilterKeeps(ls, (l: List) => l.id != listId);
    forall c ensures c in AllCards(ls') <==> exists j :: 0 <= j < |ls| && ls[j].id != listId && c in ls[j].cards {
      CardsOfKeptLists(ls, ls', listId, c);
    }
  }

  /** When `ls'` holds exactly the lists of `ls` without the id, a card is in `ls'` exactly when another list of `ls` held it. */
  lemma CardsOfKeptLists(ls: seq<List>, ls': seq<List>, listId: string, c: Card)
    requires forall l :: l in ls' <==> l in ls && l.id != listId
    ensures c in AllCards(ls') <==> exists j :: 0 <= j < |ls| && ls[j].id != listId && c in ls[j].cards
  {
    InAllCards(ls', c);
    InAllCards(ls, c);
    if c in AllCards(ls') {
      var j' :| 0 <= j' < |ls'| && c in ls'[j'].cards;
      assert ls'[j'] in ls';
      var j :| 0 <= j < |ls| && ls[j] == ls'[j'];
    }
    if exists j :: 0 <= j < |ls| && ls[j].id != listId && c in ls[j].cards {
      var j :| 0 <= j < |ls| && ls[j].id != listId && c in ls[j].cards;
      assert ls[j] in ls;
      var j' :| 0 <= j' < |ls'| && ls'[j'] == ls[j];
    }
  }

  /**
   * `DELETE_LIST` removes the matching lists of the matching boards, keeping
   * the other lists as often as they occurred and in order, and with them
   * their cards: afterwards a board holds a card exactly when one of its other
   * lists held it.
   */
  lemma DeleteListCascades(s: State, boardId: string, listId: string)
    requires !ListsMissing(s.boards, boardId)
    ensures Reduce(s, DeleteList(boardId, listId)).Ok?
    ensures var r := Reduce(s, DeleteList(boardId, listId)).value;
            && r.currentBoardId == s.currentBoardId
            && |r.boards| == |s.boards|
            && forall i :: 0 <= i < |s.boards| ==>
                 if s.boards[i].id == boardId then
                   var ls, ls' := s.boards[i].lists.value, r.boards[i].lists.value;
                   && r.boards[i].lists.Some? && r.boards[i].id == boardId && r.boards[i].title == s.boards[i].title
                   && KeptInOrder(ls, ls', (l: List) => l.id != listId)
                   && (forall c :: c in AllCards(ls') <==> exists j :: 0 <= j < |ls| && ls[j].id != listId && c in ls[j].cards)
                 else r.boards[i] == s.boards[i]
  {
    var r := Reduce(s, DeleteList(boardId, listId)).value;
    forall i | 0 <= i < |s.boards| && s.boards[i].id == boardId
      ensures r.boards[i].lists == Some(DeleteListIn(s.boards[i].lists.value, listId))
    {
    }
    forall i | 0 <= i < |s.boards| && s.boards[i].id == boardId {
      DeleteListInCascades(s.boards[i].lists.value, listId);
    }
  }

  /**
   * `DELETE_CARD` removes every card with the id from the matching lists of
   * the matching boards, keeps their other cards as often as they occurred and
   * in order, and changes nothing else.
   */
  lemma DeleteCardRemoves(s: State, boardId: string, listId: string, cardId: string)
    requires !ListsMissing(s.boards, boardId)
    ensures Reduce(s, DeleteCard(boardId, listId, cardId)).Ok?
    ensures var r := Reduce(s, DeleteCard(boardId, listId, cardId)).value;
            && r.currentBoardId == s.currentBoardId
            && |r.boards| == |s.boards|
            && forall i :: 0 <= i < |s.boards| ==>
                 if s.boards[i].id == boardId then
                   var ls, ls' := s.boards[i].lists.value, r.boards[i].lists.value;
                   && r.boards[i].lists.Some? && r.boards[i].id == boardId && r.boards[i].title == s.boards[i].title
                   && |ls'| == |ls|
                   && forall j :: 0 <= j < |ls| ==>
                        if ls[j].id == listId then
                          && ls'[j].id == ls[j].id && ls'[j].title == ls[j].title
                          && KeptInOrder(ls[j].cards, ls'[j].cards, (c: Card) => c.id != cardId)
                        else ls'[j] == ls[j]
                 else r.boards[i] == s.boards[i]
  {
    var r := Reduce(s, DeleteCard(boardId, listId, cardId)).value;
    var keep := (c: Card) => c.id != cardId;
    forall i, j | 0 <= i < |s.boards| && s.boards[i].id == boardId
               && 0 <= j < |s.boards[i].lists.value| && s.boards[i].lists.value[j].id == listId
      ensures KeptInOrder(s.boards[i].lists.value[j].cards, r.boards[i].lists.value[j].cards, keep)
    {
      FilterKeeps(s.boards[i].lists.value[j].cards, keep);
    }
  }

  /** With unique list ids, a move changes at most the source and the destination list. */
  lemma MoveTouchesTwo(lists: seq<List>, src: nat, dst: nat, sourceIndex: int, destinationIndex: int, card: Card)
    requires UniqueListIds(lists)
    requires src < |lists| && dst < |lists|
    ensures var r := MoveCardIn(lists, lists[src].id, lists[dst].id, sourceIndex, destinationIndex, card);
            r == lists[src := r[src]][dst := r[dst]]
  {
  }

  /** Replacing one list changes the number of cards by the difference of the two lists' sizes. */
  lemma AllCardsReplaceCount(lists: seq<List>, i: nat, list: List)
    requires i < |lists|
    ensures |AllCards(lists[i := list])| + |lists[i].cards| == |AllCards(lists)| + |list.cards|
  {
    AllCardsReplace(lists, i, list);
    assert |multiset(AllCards(lists[i := list])) + multiset(lists[i].cards)|
        == |multiset(AllCards(lists)) + multiset(list.cards)|;
  }

  /**
   * `MOVE_CARD` between two different lists of a board whose list ids are
   * unique: the source loses exactly the card at `sourceIndex`, the destination
   * gains `card` at `destinationIndex`, and every other list is unchanged.
   */
  lemma MoveBetweenLists(lists: seq<List>, src: nat, dst: nat, sourceIndex: int, destinationIndex: int, card: Card)
    requires UniqueListIds(lists)
    requires src < |lists| && dst < |lists| && src != dst
    requires 0 <= sourceIndex < |lists[src].cards|
    requires 0 <= destinationIndex <= |lists[dst].cards|
    ensures var r := MoveCardIn(lists, lists[src].id, lists[dst].id, sourceIndex, destinationIndex, card);
            && r[src] == lists[src].(cards := lists[src].cards[..sourceIndex] + lists[src].cards[sourceIndex + 1..])
            && r[dst] == lists[dst].(cards := lists[dst].cards[..destinationIndex] + [card] + lists[dst].cards[destinationIndex..])
            && (forall j :: 0 <= j < |lists| && j != src && j != dst ==> r[j] == lists[j])
  {
    var r := MoveCardIn(lists, lists[src].id, lists[dst].id, sourceIndex, destinationIndex, card);
    var insert := SpliceInsert(lists[dst].cards, destinationIndex, card);
    assert r[dst].cards == insert;
    assert insert == insert[..destinationIndex] + [insert[destinationIndex]] + insert[destinationIndex + 1..];
  }

  /**
   * A move between two different lists keeps the board's number of cards, and
   * when `card` is the card at `sourceIndex` (as the drag handler guarantees)
   * the board keeps exactly the same cards: none lost, none duplicated.
   */
  lemma MoveKeepsCards(lists: seq<List>, src: nat, dst: nat, sourceIndex: int, destinationIndex: int, card: Card)
    requires UniqueListIds(lists)
    requires src < |lists| && dst < |lists| && src != dst
    requires 0 <= sourceIndex < |lists[src].cards|
    ensures var r := MoveCardIn(lists, lists[src].id, lists[dst].id, sourceIndex, destinationIndex, card);
            && |AllCards(r)| == |AllCards(lists)|
            && (card == lists[src].cards[sourceIndex] ==> multiset(AllCards(r)) == multiset(AllCards(lists)))
  {
    var r := MoveCardIn(lists, lists[src].id, lists[dst].id, sourceIndex, destinationIndex, card);
    var s', d' := r[src], r[dst];
    MoveTouchesTwo(lists, src, dst, sourceIndex, destinationIndex, card);
    var mid := lists[src := s'];
    assert mid[dst] == lists[dst];
    assert r == mid[dst := d'];
    AllCardsReplaceCount(lists, src, s');
    AllCardsReplaceCount(mid, dst, d');
    if card == lists[src].cards[sourceIndex] {
      AllCardsReplace(lists, src, s');
      AllCardsReplace(mid, dst, d');
      MovedMultisets(multiset(AllCards(lists)), multiset(AllCards(mid)), multiset(AllCards(r)),
                     multiset(lists[src].cards), multiset(s'.cards), multiset(lists[dst].cards), multiset(d'.cards),
                     multiset{card});
    }
  }

  /** The bookkeeping of `MoveKeepsCards`: taking `c` out of one list and putting it into another. */
  lemma MovedMultisets<T>(all: multiset<T>, mid: multiset<T>, after: multiset<T>,
                          src: multiset<T>, src': multiset<T>, dst: multiset<T>, dst': multiset<T>, c: multiset<T>)
    requires mid + src == all + src'
    requires after + dst == mid + dst'
    requires src' + c == src
    requires dst' == dst + c
    ensures after == all
  {
    forall x ensures after[x] == all[x] {
      assert (mid + src)[x] == (all + src')[x];
      assert (after + dst)[x] == (mid + dst')[x];
      assert (src' + c)[x] == src[x];
    }
  }

  /**
   * `MOVE_CARD` with the same source and destination list only removes: every
   * list with that id loses its element at `sourceIndex` and no list gains the
   * card, so with unique list ids and a valid index the board has one card fewer.
   */
  lemma SameListMoveOnlyRemoves(lists: seq<List>, listId: string, sourceIndex: int, destinationIndex: int, card: Card)
    ensures var r := MoveCardIn(lists, listId, listId, sourceIndex, destinationIndex, card);
            forall j :: 0 <= j < |lists| ==>
              r[j] == if lists[j].id == listId then lists[j].(cards := SpliceRemove(lists[j].cards, sourceIndex)) else lists[j]
    ensures forall src :: 0 <= src < |lists| && lists[src].id == listId && UniqueListIds(lists)
                          && 0 <= sourceIndex < |lists[src].cards| ==>
              |AllCards(MoveCardIn(lists, listId, listId, sourceIndex, destinationIndex, card))| == |AllCards(lists)| - 1
  {
    var r := MoveCardIn(lists, listId, listId, sourceIndex, destinationIndex, card);
    forall src | 0 <= src < |lists| && lists[src].id == listId && UniqueListIds(lists) && 0 <= sourceIndex < |lists[src].cards|
      ensures |AllCards(r)| == |AllCards(lists)| - 1
    {
      assert r == lists[src := r[src]];
      AllCardsReplaceCount(lists, src, r[src]);
    }
  }

  /** `SET_BOARDS` replaces the boards and keeps the current-board pointer. */
  lemma SetBoardsReplacesBoards(s: State, boards: seq<Board>)
    ensures Reduce(s, SetBoards(boards)) == Ok(State(boards, s.currentBoardId))
  {
  }

  /** `SET_CURRENT_BOARD` replaces only the pointer, whether or not such a board exists; an unknown type changes nothing. */
  lemma PointerAndDefaultCases(s: State, boardId: string, actionType: string)
    ensures Reduce(s, SetCurrentBoard(boardId)) == Ok(State(s.boards, boardId))
    ensures Reduce(s, Unrecognized(actionType)) == Ok(s)
  {
  }

  // ---------------------------------------------------------------------------
  // Unknown ids are silent no-ops

  predicate BoardExists(s: State, boardId: string) {
    exists i :: 0 <= i < |s.boards| && s.boards[i].id == boardId
  }

  predicate ListExists(s: State, boardId: string, listId: string) {
    exists i :: 0 <= i < |s.boards| && s.boards[i].id == boardId && s.boards[i].lists.Some?
      && (exists j :: 0 <= j < |s.boards[i].lists.value| && s.boards[i].lists.value[j].id == listId)
  }

  predicate CardExists(s: State, boardId: string, listId: string, cardId: string) {
    exists i :: 0 <= i < |s.boards| && s.boards[i].id == boardId && s.boards[i].lists.Some?
      && (exists j :: 0 <= j < |s.boards[i].lists.value| && s.boards[i].lists.value[j].id == listId
            && HasCardId(s.boards[i].lists.value[j], cardId))
  }

  /** Whether the entity an action names is present (always, for the actions that name none). */
  predicate TargetExists(s: State, a: Action) {
    match a
    case SetBoards(_) => true
    case AddBoard(_) => true
    case UpdateBoard(b) => BoardExists(s, b.id)
    case DeleteBoard(boardId) => BoardExists(s, boardId)
    case AddList(boardId, _) => BoardExists(s, boardId)
    case UpdateList(boardId, listId, _) => ListExists(s, boardId, listId)
    case DeleteList(boardId, listId) => ListExists(s, boardId, listId)
    case AddCard(boardId, listId, _) => ListExists(s, boardId, listId)
    case UpdateCard(boardId, listId, cardId, _) => CardExists(s, boardId, listId, cardId)
    case DeleteCard(boardId, listId, cardId) => CardExists(s, boardId, listId, cardId)
    case MoveCard(boardId, src, dst, _, _, _) => ListExists(s, boardId, src) || ListExists(s, boardId, dst)
    case SetCurrentBoard(_) => true
    case Unrecognized(_) => false
  }

  lemma MapBoardListsIdentity(boards: seq<Board>, boardId: string, f: seq<List> -> seq<List>)
    requires forall i :: 0 <= i < |boards| && boards[i].id == boardId ==>
               boards[i].lists.Some? && f(boards[i].lists.value) == boards[i].lists.value
    ensures MapBoardLists(boards, boardId, f) == Ok(boards)
  {
    var r := MapBoardLists(boards, boardId, f);
    assert r.Ok?;
    assert r.value == boards;
  }

  /**
   * Any action naming a board, list or card that is not there returns the state
   * unchanged (as long as it does not throw, which `ReduceThrowsIff` settles).
   */
  lemma UnknownTargetIsNoOp(s: State, a: Action)
    requires !TargetExists(s, a)
    requires !(a.ReadsLists() && ListsMissing(s.boards, a.boardId))
    ensures Reduce(s, a) == Ok(s)
  {
    match a
    case UpdateBoard(b) =>
      MapWhereNoMatch(s.boards, (x: Board) => x.id == b.id, (x: Board) => b);
    case DeleteBoard(boardId) =>
      FilterAllKept(s.boards, (x: Board) => x.id != boardId);
    case AddList(boardId, list) =>
      MapBoardListsIdentity(s.boards, boardId, (ls: seq<List>) => ls + [list]);
    case UpdateList(_, _, _) => UnknownListIsNoOp(s, a);
    case DeleteList(_, _) => UnknownListIsNoOp(s, a);
    case AddCard(_, _, _) => UnknownListIsNoOp(s, a);
    case UpdateCard(_, _, _, _) => UnknownCardIsNoOp(s, a);
    case DeleteCard(_, _, _) => UnknownCardIsNoOp(s, a);
    case MoveCard(boardId, src, dst, si, di, card) =>
      forall i | 0 <= i < |s.boards| && s.boards[i].id == boardId
        ensures MoveCardIn(s.boards[i].lists.value, src, dst, si, di, card) == s.boards[i].lists.value
      {
      }
      MapBoardListsIdentity(s.boards, boardId, (ls: seq<List>) => MoveCardIn(ls, src, dst, si, di, card));
    case Unrecognized(_) =>
  }

  /** `UnknownTargetIsNoOp` for the actions that name a list of a board. */
  lemma UnknownListIsNoOp(s: State, a: Action)
    requires a.UpdateList? || a.DeleteList? || a.AddCard?
    requires !TargetExists(s, a) && !ListsMissing(s.boards, a.boardId)
    ensures Reduce(s, a) == Ok(s)
  {
    var boardId, listId := a.boardId, a.listId;
    if a.UpdateList? {
      var updates := a.listUpdates;
      forall i | 0 <= i < |s.boards| && s.boards[i].id == boardId
        ensures UpdateListIn(s.boards[i].lists.value, listId, updates) == s.boards[i].lists.value
      {
        MapWhereNoMatch(s.boards[i].lists.value, (l: List) => l.id == listId, (l: List) => MergeList(l, updates));
      }
      MapBoardListsIdentity(s.boards, boardId, (ls: seq<List>) => UpdateListIn(ls, listId, updates));
    } else if a.DeleteList? {
      forall i | 0 <= i < |s.boards| && s.boards[i].id == boardId
        ensures DeleteListIn(s.boards[i].lists.value, listId) == s.boards[i].lists.value
      {
        FilterAllKept(s.boards[i].lists.value, (l: List) => l.id != listId);
      }
      MapBoardListsIdentity(s.boards, boardId, (ls: seq<List>) => DeleteListIn(ls, listId));
    } else {
      var card := a.card;
      forall i | 0 <= i < |s.boards| && s.boards[i].id == boardId
        ensures AddCardIn(s.boards[i].lists.value, listId, card) == s.boards[i].lists.value
      {
        MapWhereNoMatch(s.boards[i].lists.value, (l: List) => l.id == listId, (l: List) => l.(cards := l.cards + [card]));
      }
      MapBoardListsIdentity(s.boards, boardId, (ls: seq<List>) => AddCardIn(ls, listId, card));
    }
  }

  /** `UnknownTargetIsNoOp` for the actions that name a card of a list. */
  lemma UnknownCardIsNoOp(s: State, a: Action)
    requires a.UpdateCard? || a.DeleteCard?
    requires !TargetExists(s, a) && !ListsMissing(s.boards, a.boardId)
    ensures Reduce(s, a) == Ok(s)
  {
    var boardId, listId, cardId := a.boardId, a.listId, a.cardId;
    if a.UpdateCard? {
      var updates := a.cardUpdates;
      forall i | 0 <= i < |s.boards| && s.boards[i].id == boardId
        ensures UpdateCardIn(s.boards[i].lists.value, listId, cardId, updates) == s.boards[i].lists.value
      {
        var ls := s.boards[i].lists.value;
        forall j | 0 <= j < |ls| && ls[j].id == listId
          ensures MapWhere(ls[j].cards, (c: Card) => c.id == cardId, (c: Card) => MergeCard(c, updates)) == ls[j].cards
        {
          MapWhereNoMatch(ls[j].cards, (c: Card) => c.id == cardId, (c: Card) => MergeCard(c, updates));
        }
      }
      MapBoardListsIdentity(s.boards, boardId, (ls: seq<List>) => UpdateCardIn(ls, listId, cardId, updates));
    } else {
      forall i | 0 <= i < |s.boards| && s.boards[i].id == boardId
        ensures DeleteCardIn(s.boards[i].lists.value, listId, cardId) == s.boards[i].lists.value
      {
        var ls := s.boards[i].lists.value;
        forall j | 0 <= j < |ls| && ls[j].id == listId
          ensures Filter(ls[j].cards, (c: Card) => c.id != cardId) == ls[j].cards
        {
          FilterAllKept(ls[j].cards, (c: Card) => c.id != cardId);
        }
      }
      MapBoardListsIdentity(s.boards, boardId, (ls: seq<List>) => DeleteCardIn(ls, listId, cardId));
    }
  }
}
