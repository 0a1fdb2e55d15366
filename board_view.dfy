/**
 * The board screen: its local state (the add-list form and the card being
 * dragged) and its handlers, each of which calls the board context's actions
 * on the current board.
 */
module BoardComponent {
  import opened Common
  import opened Seqs
  import opened Text
  import opened Entities
  import opened BoardReducer
  import opened BoardContext
  import opened DragResolution

  /**
   * A move on the current board's lists, on a state where no board with the
   * current id lacks `lists`: the reducer does not throw, the board still
   * renders, its lists become `MoveCardIn` of the old ones and every other
   * board is untouched.
   */
  lemma MoveOnCurrentBoard(s: State, m: MoveIntent)
    requires CurrentBoardRenders(s) && !ListsMissing(s.boards, s.currentBoardId)
    ensures var r := Reduce(s, MoveCard(s.currentBoardId, m.sourceListId, m.destinationListId,
                                        m.sourceIndex, m.destinationIndex, m.card));
            && r.Ok? && r.value.currentBoardId == s.currentBoardId
            && CurrentBoardRenders(r.value)
            && CurrentLists(r.value)
               == MoveCardIn(CurrentLists(s), m.sourceListId, m.destinationListId, m.sourceIndex, m.destinationIndex, m.card)
            && |r.value.boards| == |s.boards|
            && forall i :: 0 <= i < |s.boards| && s.boards[i].id != s.currentBoardId ==> r.value.boards[i] == s.boards[i]
  {
    var r := Reduce(s, MoveCard(s.currentBoardId, m.sourceListId, m.destinationListId,
                                m.sourceIndex, m.destinationIndex, m.card)).value;
    var p := (b: Board) => b.id == s.currentBoardId;
    FindIndexSamePasses(s.boards, p, r.boards, p);
  }

  /**
   * A drop that resolves to a move, on a board whose list ids are unique,
   * keeps the current board's cards: the same multiset before and after.
   */
  lemma DragEndKeepsCards(s: State, activeId: string, overId: string)
    requires CurrentBoardRenders(s) && !ListsMissing(s.boards, s.currentBoardId)
    requires UniqueListIds(CurrentLists(s))
    requires ResolveDrag(CurrentLists(s), activeId, Some(overId)).Some?
    ensures var m := ResolveDrag(CurrentLists(s), activeId, Some(overId)).value;
            var r := Reduce(s, MoveCard(s.currentBoardId, m.sourceListId, m.destinationListId,
                                        m.sourceIndex, m.destinationIndex, m.card));
            && r.Ok? && CurrentBoardRenders(r.value)
            && multiset(AllCards(CurrentLists(r.value))) == multiset(AllCards(CurrentLists(s)))
  {
    var m := ResolveDrag(CurrentLists(s), activeId, Some(overId)).value;
    MoveOnCurrentBoard(s, m);
    DragThenMoveKeepsCards(CurrentLists(s), activeId, overId);
  }

  /**
   * Renaming the current board through the title prompt leaves it without
   * `lists`, so the board screen can no longer render it.
   */
  lemma RenameBreaksRender(s: State, title: string)
    requires CurrentBoard(s).Some?
    ensures var r := Reduce(s, UpdateBoard(UpdateBoardPayload(s.currentBoardId, TitleOnlyBoard(title))));
            && r.Ok? && CurrentBoard(r.value) == Some(Board(s.currentBoardId, Some(title), None))
            && !CurrentBoardRenders(r.value)
  {
    var r := Reduce(s, UpdateBoard(UpdateBoardPayload(s.currentBoardId, TitleOnlyBoard(title)))).value;
    var p := (b: Board) => b.id == s.currentBoardId;
    FindIndexSamePasses(s.boards, p, r.boards, p);
  }

  /** The board screen's local state, over the session it reads and dispatches to. */
  class BoardView {
    const session: Session
    var isAddingList: bool
    var newListTitle: string
    /** The card shown under the pointer while it is dragged. */
    var activeCard: Option<Card>

    constructor(session: Session)
      ensures this.session == session
      ensures !isAddingList && newListTitle == "" && activeCard == None
    {
      this.session := session;
      isAddingList := false;
      newListTitle := "";
      activeCard := None;
    }

    /** The "add list" button opens the form. */
    method StartAddingList()
      modifies this
      ensures isAddingList && newListTitle == old(newListTitle) && activeCard == old(activeCard)
    {
      isAddingList := true;
    }

    /** Typing into the new list's title field. */
    method EditNewListTitle(text: string)
      modifies this
      ensures newListTitle == text && isAddingList == old(isAddingList) && activeCard == old(activeCard)
    {
      newListTitle := text;
    }

    /** The cancel button closes the form and clears the field. */
    method CancelAddingList()
      modifies this
      ensures !isAddingList && newListTitle == "" && activeCard == old(activeCard)
    {
      isAddingList := false;
      newListTitle := "";
    }

    /**
     * `handleAddList`: a title that is not blank adds a list, trimmed, to the
     * current board and resets the form; a blank one changes nothing.
     */
    method HandleAddList(freshId: string)
      requires !session.failed
      modifies this, session
      ensures activeCard == old(activeCard)
      ensures var title := AcceptedTitle(Some(old(newListTitle)));
              && (title.None? ==>
                    && session.state == old(session.state) && !session.failed
                    && isAddingList == old(isAddingList) && newListTitle == old(newListTitle))
              && (title.Some? ==>
                    && Applied(old(session.state), AddList(old(session.state).currentBoardId, List(freshId, title.value, [])),
                               session.state, session.failed)
                    && !isAddingList && newListTitle == "")
    {
      var trimmed := Trim(newListTitle);
      if trimmed != [] {
        var _ := session.AddList(session.state.currentBoardId, freshId, trimmed);
        newListTitle := "";
        isAddingList := false;
      }
    }

    /** `handleDragStart`: remembers the dragged card for the overlay. */
    method HandleDragStart(activeId: string)
      requires CurrentBoardRenders(session.state)
      modifies this
      ensures activeCard == CardById(CurrentLists(session.state), activeId)
      ensures isAddingList == old(isAddingList) && newListTitle == old(newListTitle)
    {
      activeCard := FindCardById(CurrentLists(session.state), activeId);
    }

    /**
     * `handleDragEnd`: clears the overlay and dispatches exactly the move
     * `ResolveDrag` decides on the current board, or nothing.
     */
    method HandleDragEnd(activeId: string, overId: Option<string>)
      requires !session.failed && CurrentBoardRenders(session.state)
      modifies this, session
      ensures activeCard == None && isAddingList == old(isAddingList) && newListTitle == old(newListTitle)
      ensures var m := ResolveDrag(CurrentLists(old(session.state)), activeId, overId);
              && (m.None? ==> session.state == old(session.state) && !session.failed)
              && (m.Some? ==>
                    Applied(old(session.state),
                            MoveCard(old(session.state).currentBoardId, m.value.sourceListId, m.value.destinationListId,
                                     m.value.sourceIndex, m.value.destinationIndex, m.value.card),
                            session.state, session.failed))
    {
      activeCard := None;
      if overId.None? || activeId == overId.value {
        return;
      }
      var lists := CurrentLists(session.state);
      var card := FindCardById(lists, activeId);
      if card.None? {
        return;
      }
      var sourceList := ListByCardId(lists, activeId);
      var destinationList := DestinationList(lists, overId.value);
      if sourceList.None? || destinationList.None? {
        return;
      }
      var sourceIndex := CardIndex(sourceList.value.cards, activeId);
      var destinationIndex := CardIndex(destinationList.value.cards, overId.value);
      if sourceList.value.id == destinationList.value.id {
        if sourceIndex == destinationIndex {
          return;
        }
      } else {
        session.MoveCard(session.state.currentBoardId, sourceList.value.id, destinationList.value.id, sourceIndex,
                         if destinationIndex >= 0 then destinationIndex else |destinationList.value.cards|, card.value);
      }
    }

    /**
     * The header's rename button: a prompt answer that is not cancelled and
     * not blank becomes `updateBoard(currentBoardId, { title })`, trimmed.
     */
    method RenameBoard(answer: Option<string>)
      requires !session.failed
      modifies session
      ensures !session.failed
      ensures var title := AcceptedTitle(answer);
              && (title.None? ==> session.state == old(session.state))
              && (title.Some? ==>
                    session.state == Reduce(old(session.state),
                      UpdateBoard(UpdateBoardPayload(old(session.state).currentBoardId, TitleOnlyBoard(title.value)))).value)
    {
      if answer.Some? && answer.value != "" && Trim(answer.value) != "" {
        session.UpdateBoard(session.state.currentBoardId, TitleOnlyBoard(Trim(answer.value)));
      }
    }
  }
}
