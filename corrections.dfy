/**
 * The reducer with its two defects corrected: `UPDATE_BOARD` merges the
 * payload into the board instead of replacing it, and `MOVE_CARD` within one
 * list removes the card and puts it back at the destination index. Every
 * other action is reduced as before.
 */
module Corrections {
  import opened Common
  import opened Seqs
  import opened Entities
  import opened BoardReducer
  import opened BoardContext

  /** `{ ...board, ...payload }`: the keys the payload carries win, the others are kept. */
  function MergeBoard(board: Board, payload: Board): (r: Board)
    ensures r.id == payload.id
    ensures r.title == if payload.title.Some? then payload.title else board.title
    ensures r.lists == if payload.lists.Some? then payload.lists else board.lists
  {
    Board(payload.id,
          if payload.title.Some? then payload.title else board.title,
          if payload.lists.Some? then payload.lists else board.lists)
  }

  /** The `MOVE_CARD` callback on one list, with a move inside the list re-inserting the card. */
  function CorrectedMoveInList(list: List, sourceListId: string, destinationListId: string,
                               sourceIndex: int, destinationIndex: int, card: Card): List
  {
    if list.id == sourceListId && list.id == destinationListId
    then list.(cards := SpliceInsert(SpliceRemove(list.cards, sourceIndex), destinationIndex, card))
    else MoveInList(list, sourceListId, destinationListId, sourceIndex, destinationIndex, card)
  }

  function CorrectedMoveCardIn(lists: seq<List>, sourceListId: string, destinationListId: string,
                               sourceIndex: int, destinationIndex: int, card: Card): (r: seq<List>)
    ensures |r| == |lists|
    ensures forall i :: 0 <= i < |lists| ==>
              r[i] == CorrectedMoveInList(lists[i], sourceListId, destinationListId, sourceIndex, destinationIndex, card)
  {
    seq(|lists|, i requires 0 <= i < |lists| =>
      CorrectedMoveInList(lists[i], sourceListId, destinationListId, sourceIndex, destinationIndex, card))
  }

  /** `boardReducer` with both corrections, which throws exactly where the original does. */
  function ReduceCorrected(state: State, action: Action): (r: Result<State>)
    ensures r.TypeError? <==> Reduce(state, action).TypeError?
  {
    match action
    case UpdateBoard(payload) =>
      Ok(state.(boards := MapWhere(state.boards, (b: Board) => b.id == payload.id, (b: Board) => MergeBoard(b, payload))))
    case MoveCard(boardId, sourceListId, destinationListId, sourceIndex, destinationIndex, card) =>
      WithBoards(state, MapBoardLists(state.boards, boardId,
        (ls: seq<List>) => CorrectedMoveCardIn(ls, sourceListId, destinationListId, sourceIndex, destinationIndex, card)))
    case _ => Reduce(state, action)
  }

  /**
   * The corrections change nothing else: every action other than
   * `UPDATE_BOARD` and a move within one list is reduced exactly as before.
   */
  lemma CorrectedAgreesElsewhere(s: State, a: Action)
    requires !a.UpdateBoard? && !(a.MoveCard? && a.sourceListId == a.destinationListId)
    ensures ReduceCorrected(s, a) == Reduce(s, a)
  {
    if a.MoveCard? {
      var f := (ls: seq<List>) => CorrectedMoveCardIn(ls, a.sourceListId, a.destinationListId, a.sourceIndex, a.destinationIndex, a.card);
      var g := (ls: seq<List>) => MoveCardIn(ls, a.sourceListId, a.destinationListId, a.sourceIndex, a.destinationIndex, a.card);
      forall ls: seq<List> ensures f(ls) == g(ls) {
        assert |f(ls)| == |g(ls)|;
      }
      var mf, mg := MapBoardLists(s.boards, a.boardId, f), MapBoardLists(s.boards, a.boardId, g);
      if mf.Ok? {
        assert mf.value == mg.value;
      }
    }
  }

  /**
   * With the merge, renaming a board through `updateBoard(boardId, { title })`
   * retitles every board with that id and keeps every board's lists, so the
   * current board renders after the rename when it rendered before it.
   */
  lemma CorrectedRenameKeepsLists(s: State, boardId: string, title: string)
    ensures var r := ReduceCorrected(s, UpdateBoard(UpdateBoardPayload(boardId, TitleOnlyBoard(title))));
            && r.Ok? && r.value.currentBoardId == s.currentBoardId
            && |r.value.boards| == |s.boards|
            && (forall i :: 0 <= i < |s.boards| ==>
                  && r.value.boards[i].id == s.boards[i].id
                  && r.value.boards[i].lists == s.boards[i].lists
                  && r.value.boards[i].title == if s.boards[i].id == boardId then Some(title) else s.boards[i].title)
            && (CurrentBoardRenders(s) ==> CurrentBoardRenders(r.value) && CurrentLists(r.value) == CurrentLists(s))
  {
    var r := ReduceCorrected(s, UpdateBoard(UpdateBoardPayload(boardId, TitleOnlyBoard(title)))).value;
    var p := (b: Board) => b.id == s.currentBoardId;
    FindIndexSamePasses(s.boards, p, r.boards, p);
  }

  /**
   * With the re-insertion, a move within one list of a board whose list ids
   * are unique takes the card out at `sourceIndex` and puts it at
   * `destinationIndex` of what is left, leaving every other list alone.
   */
  lemma CorrectedSameListReorders(lists: seq<List>, k: nat, sourceIndex: int, destinationIndex: int)
    requires UniqueListIds(lists) && k < |lists|
    requires 0 <= sourceIndex < |lists[k].cards| && 0 <= destinationIndex < |lists[k].cards|
    ensures var card := lists[k].cards[sourceIndex];
            var r := CorrectedMoveCardIn(lists, lists[k].id, lists[k].id, sourceIndex, destinationIndex, card);
            var rest := lists[k].cards[..sourceIndex] + lists[k].cards[sourceIndex + 1..];
            && r[k].cards == rest[..destinationIndex] + [card] + rest[destinationIndex..]
            && |r[k].cards| == |lists[k].cards| && r[k].cards[destinationIndex] == card
            && forall j :: 0 <= j < |lists| && j != k ==> r[j] == lists[j]
  {
    var card := lists[k].cards[sourceIndex];
    var r := CorrectedMoveCardIn(lists, lists[k].id, lists[k].id, sourceIndex, destinationIndex, card);
    var rest := SpliceRemove(lists[k].cards, sourceIndex);
    var moved := SpliceInsert(rest, destinationIndex, card);
    assert r[k].cards == moved;
    assert moved == moved[..destinationIndex] + [moved[destinationIndex]] + moved[destinationIndex + 1..];
  }

  /**
   * With the re-insertion, every move of the card found at `sourceIndex`
   * keeps the board's cards, whether it stays in its list or not.
   */
  lemma CorrectedMoveKeepsCards(lists: seq<List>, src: nat, dst: nat, sourceIndex: int, destinationIndex: int)
    requires UniqueListIds(lists) && src < |lists| && dst < |lists|
    requires 0 <= sourceIndex < |lists[src].cards|
    ensures var card := lists[src].cards[sourceIndex];
            var r := CorrectedMoveCardIn(lists, lists[src].id, lists[dst].id, sourceIndex, destinationIndex, card);
            multiset(AllCards(r)) == multiset(AllCards(lists))
  {
    if src == dst {
      SameListKeepsCards(lists, src, sourceIndex, destinationIndex);
    } else {
      var card := lists[src].cards[sourceIndex];
      var r := CorrectedMoveCardIn(lists, lists[src].id, lists[dst].id, sourceIndex, destinationIndex, card);
      assert r == MoveCardIn(lists, lists[src].id, lists[dst].id, sourceIndex, destinationIndex, card);
      MoveKeepsCards(lists, src, dst, sourceIndex, destinationIndex, card);
    }
  }

  /** The case of `CorrectedMoveKeepsCards` where the card stays in its list. */
  lemma SameListKeepsCards(lists: seq<List>, k: nat, sourceIndex: int, destinationIndex: int)
    requires UniqueListIds(lists) && k < |lists|
    requires 0 <= sourceIndex < |lists[k].cards|
    ensures var card := lists[k].cards[sourceIndex];
            var r := CorrectedMoveCardIn(lists, lists[k].id, lists[k].id, sourceIndex, destinationIndex, card);
            multiset(AllCards(r)) == multiset(AllCards(lists))
  {
    var card := lists[k].cards[sourceIndex];
    var r := CorrectedMoveCardIn(lists, lists[k].id, lists[k].id, sourceIndex, destinationIndex, card);
    var moved := SpliceInsert(SpliceRemove(lists[k].cards, sourceIndex), destinationIndex, card);
    var list' := lists[k].(cards := moved);
    assert multiset(list'.cards) == multiset(lists[k].cards);
    assert r == lists[k := list'] by {
      forall j | 0 <= j < |lists| ensures r[j] == lists[k := list'][j] {
        if j != k {
          assert lists[j].id != lists[k].id;
        }
      }
    }
    AllCardsReplace(lists, k, list');
    MultisetCancel(multiset(AllCards(r)), multiset(AllCards(lists)), multiset(list'.cards));
  }

  lemma MultisetCancel<T>(a: multiset<T>, b: multiset<T>, m: multiset<T>)
    requires a + m == b + m
    ensures a == b
  {
    forall x ensures a[x] == b[x] {
      assert (a + m)[x] == (b + m)[x];
    }
  }
}
