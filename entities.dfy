/**
 * Boards, lists and cards as the app stores them, and the shallow merge
 * `{ ...entity, ...updates }` the reducer applies to them.
 */
module Entities {
  import opened Common
  import opened Seqs

  /** A task card. `priority` is free text: the views fall back for unknown values. */
  datatype Card = Card(
    id: string,
    title: string,
    description: string,
    priority: string,
    dueDate: string,
    labels: seq<string>)

  /** A named, ordered column of cards. */
  datatype List = List(id: string, title: string, cards: seq<Card>)

  /**
   * A board. `title` and `lists` are optional because `UPDATE_BOARD` replaces a
   * board with whatever payload it is given, which need not carry them.
   */
  datatype Board = Board(id: string, title: Option<string>, lists: Option<seq<List>>)

  /** The reducer's state: every board, and the id of the one on screen. */
  datatype State = State(boards: seq<Board>, currentBoardId: string)

  /** The keys an `updates` (or `cardData`) object may carry; `None` is an absent key. */
  datatype CardFields = CardFields(
    id: Option<string>,
    title: Option<string>,
    description: Option<string>,
    priority: Option<string>,
    dueDate: Option<string>,
    labels: Option<seq<string>>)

  datatype ListFields = ListFields(id: Option<string>, title: Option<string>, cards: Option<seq<Card>>)

  datatype BoardFields = BoardFields(id: Option<string>, title: Option<string>, lists: Option<seq<List>>)

  /** An `updates` object holding only `title`. */
  function TitleOnlyCard(title: string): CardFields {
    CardFields(None, Some(title), None, None, None, None)
  }

  function TitleOnlyList(title: string): ListFields {
    ListFields(None, Some(title), None)
  }

  function TitleOnlyBoard(title: string): BoardFields {
    BoardFields(None, Some(title), None)
  }

  /** `{ ...card, ...updates }`: every key present in `updates` wins, every other key is kept. */
  function MergeCard(card: Card, updates: CardFields): (r: Card)
    ensures updates.id.None? ==> r.id == card.id
    ensures updates.title.None? ==> r.title == card.title
    ensures updates.description.None? ==> r.description == card.description
    ensures updates.priority.None? ==> r.priority == card.priority
    ensures updates.dueDate.None? ==> r.dueDate == card.dueDate
    ensures updates.labels.None? ==> r.labels == card.labels
    ensures updates.id.Some? ==> r.id == updates.id.value
    ensures updates.title.Some? ==> r.title == updates.title.value
    ensures updates.description.Some? ==> r.description == updates.description.value
    ensures updates.priority.Some? ==> r.priority == updates.priority.value
    ensures updates.dueDate.Some? ==> r.dueDate == updates.dueDate.value
    ensures updates.labels.Some? ==> r.labels == updates.labels.value
  {
    Card(
      updates.id.GetOr(card.id),
      updates.title.GetOr(card.title),
      updates.description.GetOr(card.description),
      updates.priority.GetOr(card.priority),
      updates.dueDate.GetOr(card.dueDate),
      updates.labels.GetOr(card.labels))
  }

  /** `{ ...list, ...updates }`: every key present in `updates` wins, every other key is kept. */
  function MergeList(list: List, updates: ListFields): (r: List)
    ensures updates.id.None? ==> r.id == list.id
    ensures updates.title.None? ==> r.title == list.title
    ensures updates.cards.None? ==> r.cards == list.cards
    ensures updates.id.Some? ==> r.id == updates.id.value
    ensures updates.title.Some? ==> r.title == updates.title.value
    ensures updates.cards.Some? ==> r.cards == updates.cards.value
  {
    List(updates.id.GetOr(list.id), updates.title.GetOr(list.title), updates.cards.GetOr(list.cards))
  }

  predicate HasCardId(list: List, cardId: string) {
    exists i :: 0 <= i < |list.cards| && list.cards[i].id == cardId
  }

  /** No two lists of a board share an id (what a fresh-id source gives). */
  predicate UniqueListIds(lists: seq<List>) {
    forall i, j :: 0 <= i < j < |lists| ==> lists[i].id != lists[j].id
  }

  /** Every card of `lists`, in list order and then card order. */
  function AllCards(lists: seq<List>): seq<Card> {
    if |lists| == 0 then [] else lists[0].cards + AllCards(lists[1..])
  }

  lemma {:induction false} AllCardsAppend(a: seq<List>, b: seq<List>)
    ensures AllCards(a + b) == AllCards(a) + AllCards(b)
  {
    if |a| == 0 {
      assert a + b == b;
    } else {
      assert (a + b)[1..] == a[1..] + b;
      AllCardsAppend(a[1..], b);
    }
  }

  /** Replacing one list changes the board's cards by exactly that list's cards. */
  lemma AllCardsReplace(lists: seq<List>, i: nat, list: List)
    requires i < |lists|
    ensures multiset(AllCards(lists[i := list])) + multiset(lists[i].cards)
         == multiset(AllCards(lists)) + multiset(list.cards)
  {
    var before, after := lists[..i], lists[i + 1..];
    assert lists == before + [lists[i]] + after;
    assert lists[i := list] == before + [list] + after;
    AllCardsAppend(before + [lists[i]], after);
    AllCardsAppend(before, [lists[i]]);
    AllCardsAppend(before + [list], after);
    AllCardsAppend(before, [list]);
    assert AllCards([lists[i]]) == lists[i].cards + AllCards([]);
    assert AllCards([list]) == list.cards + AllCards([]);
  }

  /** `state.boards.find(board => board.id === state.currentBoardId)`. */
  function CurrentBoard(s: State): (r: Option<Board>)
    ensures r.None? <==> forall i :: 0 <= i < |s.boards| ==> s.boards[i].id != s.currentBoardId
    ensures r.Some? ==> r.value in s.boards && r.value.id == s.currentBoardId
  {
    Find(s.boards, (b: Board) => b.id == s.currentBoardId)
  }

  /** The board views render (rather than throw) when the current board exists and has its lists. */
  predicate CurrentBoardRenders(s: State) {
    CurrentBoard(s).Some? && CurrentBoard(s).value.lists.Some?
  }

  /** The lists of the current board, when it renders. */
  function CurrentLists(s: State): seq<List>
    requires CurrentBoardRenders(s)
  {
    CurrentBoard(s).value.lists.value
  }
}
