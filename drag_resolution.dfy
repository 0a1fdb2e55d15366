/**
 * How the board turns the end of a drag into at most one `moveCard`: the
 * `find*` lookups over the current board's lists and the decision in
 * `handleDragEnd`. `overId` is whatever the drag library reports under the
 * pointer: a card id (every card is sortable under its id) or a list id (every
 * list registers as a droppable under its own id).
 */
module DragResolution {
  import opened Common
  import opened Seqs
  import opened Entities
  import opened BoardReducer

  /** The arguments `handleDragEnd` passes to `moveCard`, apart from the board id. */
  datatype MoveIntent = MoveIntent(
    sourceListId: string,
    destinationListId: string,
    sourceIndex: int,
    destinationIndex: int,
    card: Card)

  /** `cards.findIndex(c => c.id === cardId)`: the first position of a card with the id, or -1. */
  function CardIndex(cards: seq<Card>, cardId: string): (k: int)
    ensures -1 <= k < |cards|
    ensures k == -1 <==> forall i :: 0 <= i < |cards| ==> cards[i].id != cardId
    ensures 0 <= k ==> cards[k].id == cardId && forall i :: 0 <= i < k ==> cards[i].id != cardId
  {
    FindIndex(cards, (c: Card) => c.id == cardId)
  }

  /** `findCardById`: the first card with the id, scanning the lists in order. */
  function CardById(lists: seq<List>, cardId: string): (r: Option<Card>)
    ensures r.None? <==> forall j :: 0 <= j < |lists| ==> !HasCardId(lists[j], cardId)
    ensures r.Some? ==> r.value.id == cardId
  {
    if |lists| == 0 then None
    else
      match Find(lists[0].cards, (c: Card) => c.id == cardId)
      case Some(card) => Some(card)
      case None =>
        var r := CardById(lists[1..], cardId);
        assert forall j :: 1 <= j < |lists| ==> lists[j] == lists[1..][j - 1];
        r
  }

  /** The loop of `findCardById`, with its early return. */
  method FindCardById(lists: seq<List>, cardId: string) returns (card: Option<Card>)
    ensures card == CardById(lists, cardId)
  {
    for i := 0 to |lists|
      invariant CardById(lists, cardId) == CardById(lists[i..], cardId)
    {
      assert lists[i..][1..] == lists[i + 1..];
      var found := Find(lists[i].cards, (c: Card) => c.id == cardId);
      if found.Some? {
        return found;
      }
    }
    return None;
  }

  /** `findListByCardId`: the first list holding a card with the id. */
  function ListByCardId(lists: seq<List>, cardId: string): (r: Option<List>)
    ensures r.None? <==> forall j :: 0 <= j < |lists| ==> !HasCardId(lists[j], cardId)
    ensures r.Some? ==> r.value in lists && HasCardId(r.value, cardId)
  {
    Find(lists, (l: List) => HasCardId(l, cardId))
  }

  /** `findListById`: the first list with the id. */
  function ListById(lists: seq<List>, listId: string): (r: Option<List>)
    ensures r.None? <==> forall j :: 0 <= j < |lists| ==> lists[j].id != listId
    ensures r.Some? ==> r.value in lists && r.value.id == listId
  {
    Find(lists, (l: List) => l.id == listId)
  }

  /**
   * `findListByCardId(overId) || findListById(overId)`: a card under the
   * pointer wins over a list, and a list is found only when no list holds a
   * card with that id.
   */
  function DestinationList(lists: seq<List>, overId: string): (r: Option<List>)
    ensures r.None? <==> forall j :: 0 <= j < |lists| ==> !HasCardId(lists[j], overId) && lists[j].id != overId
    ensures r.Some? ==> r.value in lists && (HasCardId(r.value, overId) || r.value.id == overId)
    ensures ListByCardId(lists, overId).Some? ==> r.Some? && HasCardId(r.value, overId)
  {
    match ListByCardId(lists, overId)
    case Some(list) => Some(list)
    case None => ListById(lists, overId)
  }

  /**
   * The decision `handleDragEnd` takes: the move to dispatch, or none. A move
   * is only ever between two different lists, for a drop somewhere else than
   * on the dragged card, and carries the dragged card.
   */
  function ResolveDrag(lists: seq<List>, activeId: string, overId: Option<string>): (r: Option<MoveIntent>)
    ensures r.Some? ==> overId.Some? && overId.value != activeId
    ensures r.Some? ==> r.value.sourceListId != r.value.destinationListId && r.value.card.id == activeId
  {
    if overId.None? || activeId == overId.value then None
    else
      match CardById(lists, activeId)
      case None => None
      case Some(card) =>
        var source := ListByCardId(lists, activeId);
        var destination := DestinationList(lists, overId.value);
        if source.None? || destination.None? then None
        else
          var sourceIndex := CardIndex(source.value.cards, activeId);
          var destinationIndex := CardIndex(destination.value.cards, overId.value);
          if source.value.id == destination.value.id then None
          else
            Some(MoveIntent(source.value.id, destination.value.id, sourceIndex,
              if destinationIndex >= 0 then destinationIndex else |destination.value.cards|, card))
  }

  // ---------------------------------------------------------------------------
  // Properties

  /**
   * The card `findCardById` finds is the one at `findIndex` in the list
   * `findListByCardId` finds: the dragged card, its list and its index agree.
   */
  lemma {:induction false} CardByIdInItsList(lists: seq<List>, cardId: string)
    ensures CardById(lists, cardId).Some? <==> ListByCardId(lists, cardId).Some?
    ensures ListByCardId(lists, cardId).Some? ==>
              var source := ListByCardId(lists, cardId).value;
              && 0 <= CardIndex(source.cards, cardId) < |source.cards|
              && CardById(lists, cardId) == Some(source.cards[CardIndex(source.cards, cardId)])
  {
    if |lists| > 0 {
      var p := (l: List) => HasCardId(l, cardId);
      if !HasCardId(lists[0], cardId) {
        CardByIdInItsList(lists[1..], cardId);
        assert FindIndex(lists, p) == (if FindIndex(lists[1..], p) < 0 then -1 else FindIndex(lists[1..], p) + 1);
      }
    }
  }

  /** A move is dispatched exactly when every guard of `handleDragEnd` passes. */
  lemma ResolveDragSomeIff(lists: seq<List>, activeId: string, overId: Option<string>)
    ensures ResolveDrag(lists, activeId, overId).Some? <==>
              && overId.Some? && overId.value != activeId
              && ListByCardId(lists, activeId).Some?
              && DestinationList(lists, overId.value).Some?
              && ListByCardId(lists, activeId).value.id != DestinationList(lists, overId.value).value.id
  {
    CardByIdInItsList(lists, activeId);
  }

  /**
   * What a dispatched move says: the dragged card, its own list and its valid
   * index there; the destination is the list of the card under the pointer if
   * there is one (insert before that card), and only otherwise the list whose
   * id is under the pointer (append).
   */
  lemma ResolveDragIntent(lists: seq<List>, activeId: string, overId: string)
    requires ResolveDrag(lists, activeId, Some(overId)).Some?
    ensures var m := ResolveDrag(lists, activeId, Some(overId)).value;
            var source := ListByCardId(lists, activeId).value;
            && source.id == m.sourceListId && HasCardId(source, activeId)
            && 0 <= m.sourceIndex < |source.cards|
            && source.cards[m.sourceIndex] == m.card && m.card.id == activeId
            && (ListByCardId(lists, overId).Some? ==>
                  var destination := ListByCardId(lists, overId).value;
                  && m.destinationListId == destination.id
                  && 0 <= m.destinationIndex < |destination.cards|
                  && destination.cards[m.destinationIndex].id == overId)
            && (ListByCardId(lists, overId).None? ==>
                  var destination := ListById(lists, overId).value;
                  && m.destinationListId == destination.id == overId
                  && m.destinationIndex == |destination.cards|)
  {
    CardByIdInItsList(lists, activeId);
    if ListByCardId(lists, overId).None? {
      var destination := ListById(lists, overId).value;
      assert !HasCardId(destination, overId);
    }
  }

  /** A drop inside the dragged card's own list never dispatches, whatever the indices. */
  lemma SameListDropIsNoOp(lists: seq<List>, activeId: string, overId: string)
    requires ListByCardId(lists, activeId).Some? && DestinationList(lists, overId).Some?
    requires ListByCardId(lists, activeId).value.id == DestinationList(lists, overId).value.id
    ensures ResolveDrag(lists, activeId, Some(overId)).None?
  {
  }

  /**
   * Dropping on a list's own droppable area (no card carries that id) appends
   * the card to that list, when it is not the card's own list.
   */
  lemma DropOnListAppends(lists: seq<List>, k: nat, activeId: string)
    requires k < |lists| && UniqueListIds(lists)
    requires forall j :: 0 <= j < |lists| ==> !HasCardId(lists[j], lists[k].id)
    requires ListByCardId(lists, activeId).Some? && ListByCardId(lists, activeId).value.id != lists[k].id
    requires activeId != lists[k].id
    ensures ResolveDrag(lists, activeId, Some(lists[k].id)).Some?
    ensures var m := ResolveDrag(lists, activeId, Some(lists[k].id)).value;
            m.destinationListId == lists[k].id && m.destinationIndex == |lists[k].cards|
  {
    var p := (l: List) => l.id == lists[k].id;
    assert FindIndex(lists, p) == k;
    ResolveDragSomeIff(lists, activeId, Some(lists[k].id));
  }

  /**
   * Resolving a drag and reducing the move it yields on a board whose list ids
   * are unique: the dragged card leaves its list from its own position, lands
   * in the destination at the computed index, every other list is untouched,
   * and the board keeps exactly the same cards.
   */
  lemma DragThenMoveKeepsCards(lists: seq<List>, activeId: string, overId: string)
    requires UniqueListIds(lists)
    requires ResolveDrag(lists, activeId, Some(overId)).Some?
    ensures var m := ResolveDrag(lists, activeId, Some(overId)).value;
            var src := FindIndex(lists, (l: List) => HasCardId(l, activeId));
            var r := MoveCardIn(lists, m.sourceListId, m.destinationListId, m.sourceIndex, m.destinationIndex, m.card);
            && 0 <= src < |lists| && 0 <= m.sourceIndex < |lists[src].cards|
            && lists[src].cards[m.sourceIndex] == m.card
            && r[src].cards == lists[src].cards[..m.sourceIndex] + lists[src].cards[m.sourceIndex + 1..]
            && (exists dst :: 0 <= dst < |lists| && dst != src && lists[dst].id == m.destinationListId
                  && 0 <= m.destinationIndex <= |lists[dst].cards|
                  && r[dst].cards == lists[dst].cards[..m.destinationIndex] + [m.card] + lists[dst].cards[m.destinationIndex..]
                  && forall j :: 0 <= j < |lists| && j != src && j != dst ==> r[j] == lists[j])
            && multiset(AllCards(r)) == multiset(AllCards(lists))
  {
    var m := ResolveDrag(lists, activeId, Some(overId)).value;
    var src, dst := DragIndices(lists, activeId, overId);
    MoveBetweenLists(lists, src, dst, m.sourceIndex, m.destinationIndex, m.card);
    MoveKeepsCards(lists, src, dst, m.sourceIndex, m.destinationIndex, m.card);
  }

  /** The positions, in the board's lists, of the source and destination lists of a resolved drag. */
  lemma DragIndices(lists: seq<List>, activeId: string, overId: string) returns (src: nat, dst: nat)
    requires UniqueListIds(lists)
    requires ResolveDrag(lists, activeId, Some(overId)).Some?
    ensures var m := ResolveDrag(lists, activeId, Some(overId)).value;
            && src == FindIndex(lists, (l: List) => HasCardId(l, activeId))
            && src < |lists| && dst < |lists| && src != dst
            && lists[src].id == m.sourceListId && lists[dst].id == m.destinationListId
            && 0 <= m.sourceIndex < |lists[src].cards| && lists[src].cards[m.sourceIndex] == m.card
            && 0 <= m.destinationIndex <= |lists[dst].cards|
  {
    var m := ResolveDrag(lists, activeId, Some(overId)).value;
    ResolveDragIntent(lists, activeId, overId);
    src := FindIndex(lists, (l: List) => HasCardId(l, activeId));
    var destination := DestinationList(lists, overId).value;
    if ListByCardId(lists, overId).Some? {
      dst := FindIndex(lists, (l: List) => HasCardId(l, overId));
    } else {
      dst := FindIndex(lists, (l: List) => l.id == overId);
    }
    assert lists[dst] == destination && lists[src].id == m.sourceListId;
  }

  // ---------------------------------------------------------------------------
  // Worked examples: lists L1 = [A, B, C] and L2 = [X, Y]

  function ExampleCard(id: string): Card {
    Card(id, id, "", "medium", "", [])
  }

  function ExampleLists(): seq<List> {
    [ List("L1", "todo", [ExampleCard("A"), ExampleCard("B"), ExampleCard("C")]),
      List("L2", "doing", [ExampleCard("X"), ExampleCard("Y")]) ]
  }

  /** Dropping B on X moves it in front of X. */
  lemma DropOnCardExample()
    ensures ResolveDrag(ExampleLists(), "B", Some("X")) == Some(MoveIntent("L1", "L2", 1, 0, ExampleCard("B")))
  {
    ExampleFindsB();
    ExampleFindsX();
  }

  /** B sits at index 1 of L1. */
  lemma ExampleFindsB()
    ensures ListByCardId(ExampleLists(), "B") == Some(ExampleLists()[0])
    ensures CardIndex(ExampleLists()[0].cards, "B") == 1
    ensures CardById(ExampleLists(), "B") == Some(ExampleCard("B"))
  {
    var ls := ExampleLists();
    var a, b, c := ExampleCard("A"), ExampleCard("B"), ExampleCard("C");
    assert HasCardId(ls[0], "B") by { assert ls[0].cards[1].id == "B"; }
    assert FindIndex(ls, (l: List) => HasCardId(l, "B")) == 0;
    assert FindIndex(ls[0].cards, (card: Card) => card.id == "B") == 1 by {
      assert ls[0].cards[1..] == [b, c];
    }
  }

  /** X sits at index 0 of L2, and L1 holds no X. */
  lemma ExampleFindsX()
    ensures ListByCardId(ExampleLists(), "X") == Some(ExampleLists()[1])
    ensures CardIndex(ExampleLists()[1].cards, "X") == 0
  {
    var ls := ExampleLists();
    var a, b, c := ExampleCard("A"), ExampleCard("B"), ExampleCard("C");
    assert !HasCardId(ls[0], "X") by { assert ls[0].cards == [a, b, c]; }
    assert HasCardId(ls[1], "X") by { assert ls[1].cards[0].id == "X"; }
    assert FindIndex(ls[1..], (l: List) => HasCardId(l, "X")) == 0;
  }

  /** ... which leaves L1 = [A, C] and L2 = [B, X, Y]. */
  lemma DropOnCardExampleMoves()
    ensures MoveCardIn(ExampleLists(), "L1", "L2", 1, 0, ExampleCard("B"))
         == [ List("L1", "todo", [ExampleCard("A"), ExampleCard("C")]),
              List("L2", "doing", [ExampleCard("B"), ExampleCard("X"), ExampleCard("Y")]) ]
  {
    var a, b, c, x, y := ExampleCard("A"), ExampleCard("B"), ExampleCard("C"), ExampleCard("X"), ExampleCard("Y");
    var l1, l2 := List("L1", "todo", [a, b, c]), List("L2", "doing", [x, y]);
    ExampleSourceLoses();
    ExampleDestinationGains();
    MoveCardInPair(l1, l2, "L1", "L2", 1, 0, b);
  }

  /** L1 loses B. */
  lemma ExampleSourceLoses()
    ensures MoveInList(List("L1", "todo", [ExampleCard("A"), ExampleCard("B"), ExampleCard("C")]), "L1", "L2", 1, 0, ExampleCard("B"))
         == List("L1", "todo", [ExampleCard("A"), ExampleCard("C")])
  {
    var a, b, c := ExampleCard("A"), ExampleCard("B"), ExampleCard("C");
    assert SpliceRemove([a, b, c], 1) == [a, c];
  }

  /** L2 gains B in front. */
  lemma ExampleDestinationGains()
    ensures MoveInList(List("L2", "doing", [ExampleCard("X"), ExampleCard("Y")]), "L1", "L2", 1, 0, ExampleCard("B"))
         == List("L2", "doing", [ExampleCard("B"), ExampleCard("X"), ExampleCard("Y")])
  {
    var b, x, y := ExampleCard("B"), ExampleCard("X"), ExampleCard("Y");
    assert "L2"[1] != "L1"[1];
    assert SpliceInsert([x, y], 0, b) == [b, x, y];
  }

  /** `MoveCardIn` on two lists moves each of them on its own. */
  lemma MoveCardInPair(l1: List, l2: List, sourceListId: string, destinationListId: string,
                       sourceIndex: int, destinationIndex: int, card: Card)
    ensures MoveCardIn([l1, l2], sourceListId, destinationListId, sourceIndex, destinationIndex, card)
         == [MoveInList(l1, sourceListId, destinationListId, sourceIndex, destinationIndex, card),
             MoveInList(l2, sourceListId, destinationListId, sourceIndex, destinationIndex, card)]
  {
    var r := MoveCardIn([l1, l2], sourceListId, destinationListId, sourceIndex, destinationIndex, card);
    assert r == [r[0], r[1]];
  }

  /** Dropping A on the free area of L2 appends it ... */
  lemma DropOnListExample()
    ensures ResolveDrag(ExampleLists(), "A", Some("L2")) == Some(MoveIntent("L1", "L2", 0, 2, ExampleCard("A")))
  {
    ExampleFindsA();
    ExampleFindsL2();
  }

  /** A sits at index 0 of L1. */
  lemma ExampleFindsA()
    ensures ListByCardId(ExampleLists(), "A") == Some(ExampleLists()[0])
    ensures CardIndex(ExampleLists()[0].cards, "A") == 0
    ensures CardById(ExampleLists(), "A") == Some(ExampleCard("A"))
  {
    var ls := ExampleLists();
    assert HasCardId(ls[0], "A") by { assert ls[0].cards[0].id == "A"; }
  }

  /** No card is called L2, so the pointer's id names the list L2 itself. */
  lemma ExampleFindsL2()
    ensures DestinationList(ExampleLists(), "L2") == Some(ExampleLists()[1])
    ensures CardIndex(ExampleLists()[1].cards, "L2") == -1
  {
    var ls := ExampleLists();
    var a, b, c, x, y := ExampleCard("A"), ExampleCard("B"), ExampleCard("C"), ExampleCard("X"), ExampleCard("Y");
    assert !HasCardId(ls[0], "L2") by { assert ls[0].cards == [a, b, c]; }
    assert !HasCardId(ls[1], "L2") by { assert ls[1].cards == [x, y]; }
    assert ListByCardId(ls, "L2") == None;
    assert FindIndex(ls, (l: List) => l.id == "L2") == 1;
  }

  /** ... giving L2 = [X, Y, A]. */
  lemma DropOnListExampleMoves()
    ensures MoveCardIn(ExampleLists(), "L1", "L2", 0, 2, ExampleCard("A"))[1]
         == List("L2", "doing", [ExampleCard("X"), ExampleCard("Y"), ExampleCard("A")])
  {
    var ls := ExampleLists();
    var a, x, y := ExampleCard("A"), ExampleCard("X"), ExampleCard("Y");
    assert MoveCardIn(ls, "L1", "L2", 0, 2, a)[1].cards == SpliceInsert([x, y], 2, a) == [x, y] + [a] + [];
  }

  /** Dropping A on itself, on B in its own list, or on nothing dispatches nothing. */
  lemma NoOpExamples()
    ensures ResolveDrag(ExampleLists(), "A", Some("A")).None?
    ensures ResolveDrag(ExampleLists(), "A", Some("B")).None?
    ensures ResolveDrag(ExampleLists(), "A", None).None?
  {
    var ls := ExampleLists();
    assert HasCardId(ls[0], "A") by { assert ls[0].cards[0].id == "A"; }
    assert HasCardId(ls[0], "B") by { assert ls[0].cards[1].id == "B"; }
  }
}
