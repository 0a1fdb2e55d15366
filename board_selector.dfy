/**
 * The board selector: the drop-down of boards with add, select, rename and
 * delete, and the rule that picks a new current board when the current one is
 * deleted.
 */
module BoardSelector {
  import opened Common
  import opened Seqs
  import opened Text
  import opened Entities
  import opened BoardReducer
  import opened BoardContext

  /** The boards left after deleting every board with id `boardId`: every other board, in order. */
  function RemainingBoards(boards: seq<Board>, boardId: string): (r: seq<Board>)
    ensures KeptInOrder(boards, r, (b: Board) => b.id != boardId)
  {
    FilterKeeps(boards, (b: Board) => b.id != boardId);
    Filter(boards, (b: Board) => b.id != boardId)
  }

  /**
   * The current board id after `handleDeleteBoard(boardId)`: when the current
   * board is deleted and some board remains, the first remaining one (in the
   * order before the deletion); otherwise the pointer stays where it was, even
   * on the deleted id.
   */
  function NextCurrentBoardId(s: State, boardId: string): (r: string)
    ensures r == boardId <==> boardId == s.currentBoardId && RemainingBoards(s.boards, boardId) == []
    ensures r != s.currentBoardId ==>
              boardId == s.currentBoardId && exists i :: 0 <= i < |s.boards| && s.boards[i].id == r
  {
    var remaining := RemainingBoards(s.boards, boardId);
    assert |remaining| > 0 ==> remaining[0] in remaining;
    if boardId == s.currentBoardId && |remaining| > 0 then remaining[0].id else s.currentBoardId
  }

  /**
   * Deleting the current board while another board exists moves the pointer to
   * the first board with a different id, which is then shown.
   */
  lemma DeleteCurrentShowsFirstOther(s: State)
    requires exists i :: 0 <= i < |s.boards| && s.boards[i].id != s.currentBoardId
    ensures var other := Find(s.boards, (b: Board) => b.id != s.currentBoardId);
            var after := State(RemainingBoards(s.boards, s.currentBoardId), NextCurrentBoardId(s, s.currentBoardId));
            && other.Some?
            && after.currentBoardId == other.value.id
            && CurrentBoard(after) == other
  {
    var keep := (b: Board) => b.id != s.currentBoardId;
    var remaining := RemainingBoards(s.boards, s.currentBoardId);
    var i :| 0 <= i < |s.boards| && s.boards[i].id != s.currentBoardId;
    FilterMembership(s.boards, keep, s.boards[i]);
    FilterHeadIsFind(s.boards, keep);
    var after := State(remaining, NextCurrentBoardId(s, s.currentBoardId));
    assert FindIndex(remaining, (b: Board) => b.id == after.currentBoardId) == 0;
  }

  /** Deleting another board keeps the pointer, and the same board stays current. */
  lemma DeleteOtherKeepsCurrent(s: State, boardId: string)
    requires boardId != s.currentBoardId
    ensures var after := State(RemainingBoards(s.boards, boardId), NextCurrentBoardId(s, boardId));
            after.currentBoardId == s.currentBoardId && CurrentBoard(after) == CurrentBoard(s)
  {
    FindFilter(s.boards, (b: Board) => b.id != boardId, (b: Board) => b.id == s.currentBoardId);
  }

  /** Deleting the current board when no other board exists leaves no boards and a pointer to the deleted id. */
  lemma DeleteLastKeepsDeletedId(s: State)
    requires forall i :: 0 <= i < |s.boards| ==> s.boards[i].id == s.currentBoardId
    ensures var after := State(RemainingBoards(s.boards, s.currentBoardId), NextCurrentBoardId(s, s.currentBoardId));
            after == State([], s.currentBoardId) && CurrentBoard(after).None?
  {
    var keep := (b: Board) => b.id != s.currentBoardId;
    var remaining := RemainingBoards(s.boards, s.currentBoardId);
    if |remaining| > 0 {
      FilterMembership(s.boards, keep, remaining[0]);
    }
  }

  /** A board added under a fresh id and then selected is shown, with no lists yet. */
  lemma AddedBoardIsShown(s: State, freshId: string, title: string)
    requires forall i :: 0 <= i < |s.boards| ==> s.boards[i].id != freshId
    ensures var after := State(s.boards + [Board(freshId, Some(title), Some([]))], freshId);
            && CurrentBoard(after) == Some(Board(freshId, Some(title), Some([])))
            && CurrentBoardRenders(after) && CurrentLists(after) == []
  {
    var after := State(s.boards + [Board(freshId, Some(title), Some([]))], freshId);
    assert forall i :: 0 <= i < |s.boards| ==> after.boards[i] == s.boards[i];
    assert after.boards[|s.boards|].id == freshId;
    assert FindIndex(after.boards, (b: Board) => b.id == freshId) == |s.boards|;
  }

  /** The selector's local state, over the session it reads and dispatches to. */
  class BoardSelectorView {
    const session: Session
    var isOpen: bool
    var isAddingBoard: bool
    var newBoardTitle: string

    constructor(session: Session)
      ensures this.session == session
      ensures !isOpen && !isAddingBoard && newBoardTitle == ""
    {
      this.session := session;
      isOpen := false;
      isAddingBoard := false;
      newBoardTitle := "";
    }

    /** The header button opens or closes the drop-down. */
    method ToggleOpen()
      modifies this
      ensures isOpen == !old(isOpen)
      ensures isAddingBoard == old(isAddingBoard) && newBoardTitle == old(newBoardTitle)
    {
      isOpen := !isOpen;
    }

    /** The "new board" button opens the form. */
    method StartAddingBoard()
      modifies this
      ensures isAddingBoard && isOpen == old(isOpen) && newBoardTitle == old(newBoardTitle)
    {
      isAddingBoard := true;
    }

    /** Typing into the new board's title field. */
    method EditNewBoardTitle(text: string)
      modifies this
      ensures newBoardTitle == text && isOpen == old(isOpen) && isAddingBoard == old(isAddingBoard)
    {
      newBoardTitle := text;
    }

    /** The cancel button closes the form and clears the field. */
    method CancelAddingBoard()
      modifies this
      ensures !isAddingBoard && newBoardTitle == "" && isOpen == old(isOpen)
    {
      isAddingBoard := false;
      newBoardTitle := "";
    }

    /**
     * `handleAddBoard`: a title that is not blank appends a board with that
     * title, trimmed, makes it current and closes the form and the drop-down;
     * a blank one changes nothing.
     */
    method HandleAddBoard(freshId: string)
      requires !session.failed
      modifies this, session
      ensures !session.failed
      ensures var title := AcceptedTitle(Some(old(newBoardTitle)));
              && (title.None? ==>
                    && session.state == old(session.state)
                    && isOpen == old(isOpen) && isAddingBoard == old(isAddingBoard) && newBoardTitle == old(newBoardTitle))
              && (title.Some? ==>
                    && session.state == State(old(session.state).boards + [Board(freshId, title, Some([]))], freshId)
                    && !isOpen && !isAddingBoard && newBoardTitle == "")
    {
      var trimmed := Trim(newBoardTitle);
      if trimmed != [] {
        var boardId := session.AddBoard(freshId, trimmed);
        session.SetCurrentBoard(boardId);
        newBoardTitle := "";
        isAddingBoard := false;
        isOpen := false;
      }
    }

    /** `handleSelectBoard`: makes the board current and closes the drop-down. */
    method HandleSelectBoard(boardId: string)
      requires !session.failed
      modifies this, session
      ensures !session.failed
      ensures session.state == old(session.state).(currentBoardId := boardId)
      ensures !isOpen && isAddingBoard == old(isAddingBoard) && newBoardTitle == old(newBoardTitle)
    {
      session.SetCurrentBoard(boardId);
      isOpen := false;
    }

    /**
     * `handleDeleteBoard`: once confirmed, every board with the id goes and
     * the pointer moves as `NextCurrentBoardId` says; the remaining boards are
     * computed from the state the handler was rendered with.
     */
    method HandleDeleteBoard(boardId: string, confirmed: bool)
      requires !session.failed
      modifies session
      ensures !session.failed
      ensures !confirmed ==> session.state == old(session.state)
      ensures confirmed ==>
                session.state == State(RemainingBoards(old(session.state).boards, boardId),
                                       NextCurrentBoardId(old(session.state), boardId))
    {
      if confirmed {
        var rendered := session.state;
        session.DeleteBoard(boardId);
        if boardId == rendered.currentBoardId {
          var remainingBoards := RemainingBoards(rendered.boards, boardId);
          if |remainingBoards| > 0 {
            session.SetCurrentBoard(remainingBoards[0].id);
          }
        }
      }
    }

    /**
     * A board's rename button: a prompt answer that is not cancelled and not
     * blank becomes `updateBoard(boardId, { title })`, trimmed.
     */
    method RenameBoard(boardId: string, answer: Option<string>)
      requires !session.failed
      modifies session
      ensures !session.failed
      ensures var title := AcceptedTitle(answer);
              && (title.None? ==> session.state == old(session.state))
              && (title.Some? ==>
                    session.state == Reduce(old(session.state), UpdateBoard(UpdateBoardPayload(boardId, TitleOnlyBoard(title.value)))).value)
    {
      if answer.Some? && answer.value != "" && Trim(answer.value) != "" {
        session.UpdateBoard(boardId, TitleOnlyBoard(Trim(answer.value)));
      }
    }
  }
}
