/**
 * One list column: its local state (the add-card form and the title editor)
 * and the handlers that route its own and its cards' edits to the board
 * context, tagged with the board id and the list's id.
 */
module ListComponent {
  import opened Common
  import opened Text
  import opened Entities
  import opened BoardReducer
  import opened BoardContext

  /**
   * Whether finishing the title editor dispatches a rename: the text is not
   * blank and differs, untrimmed, from the list's title.
   */
  predicate RenamesList(listTitle: string, list: List) {
    AcceptedTitle(Some(listTitle)).Some? && listTitle != list.title
  }

  /** The column's local state, over the session its callbacks dispatch to. */
  class ListView {
    const session: Session
    const boardId: string
    /** The `list` prop, as of the last render. */
    var list: List
    var isAddingCard: bool
    var newCardTitle: string
    var isEditingList: bool
    /** The title editor's text; initialised from the prop on mount only. */
    var listTitle: string

    constructor(session: Session, boardId: string, list: List)
      ensures this.session == session && this.boardId == boardId && this.list == list
      ensures !isAddingCard && newCardTitle == "" && !isEditingList && listTitle == list.title
    {
      this.session := session;
      this.boardId := boardId;
      this.list := list;
      isAddingCard := false;
      newCardTitle := "";
      isEditingList := false;
      listTitle := list.title;
    }

    /** A re-render with a new `list` prop keeps every piece of local state, the editor's text included. */
    method ReceiveList(list: List)
      modifies this
      ensures this.list == list
      ensures isAddingCard == old(isAddingCard) && newCardTitle == old(newCardTitle)
      ensures isEditingList == old(isEditingList) && listTitle == old(listTitle)
    {
      this.list := list;
    }

    /** Clicking the title or the edit button opens the editor. */
    method StartEditingList()
      modifies this
      ensures isEditingList && listTitle == old(listTitle) && list == old(list)
      ensures isAddingCard == old(isAddingCard) && newCardTitle == old(newCardTitle)
    {
      isEditingList := true;
    }

    /** Typing into the title editor. */
    method EditListTitle(text: string)
      modifies this
      ensures listTitle == text && isEditingList == old(isEditingList) && list == old(list)
      ensures isAddingCard == old(isAddingCard) && newCardTitle == old(newCardTitle)
    {
      listTitle := text;
    }

    /**
     * `handleEditList` (Enter or leaving the field): renames the list to the
     * trimmed text when `RenamesList` holds, and closes the editor either way.
     */
    method HandleEditList()
      requires !session.failed
      modifies this, session
      ensures !isEditingList && listTitle == old(listTitle) && list == old(list)
      ensures isAddingCard == old(isAddingCard) && newCardTitle == old(newCardTitle)
      ensures !RenamesList(old(listTitle), old(list)) ==> session.state == old(session.state) && !session.failed
      ensures RenamesList(old(listTitle), old(list)) ==>
                Applied(old(session.state),
                        UpdateList(boardId, old(list).id, TitleOnlyList(Trim(old(listTitle)))),
                        session.state, session.failed)
    {
      if Trim(listTitle) != [] && listTitle != list.title {
        session.UpdateList(boardId, list.id, TitleOnlyList(Trim(listTitle)));
      }
      isEditingList := false;
    }

    /** `handleCancelEdit`: restores the prop's title and closes the editor. */
    method HandleCancelEdit()
      modifies this
      ensures !isEditingList && listTitle == list.title && list == old(list)
      ensures isAddingCard == old(isAddingCard) && newCardTitle == old(newCardTitle)
    {
      listTitle := list.title;
      isEditingList := false;
    }

    /** The delete button removes the list at once, with no confirmation. */
    method HandleDeleteList()
      requires !session.failed
      modifies session
      ensures Applied(old(session.state), DeleteList(boardId, list.id), session.state, session.failed)
    {
      session.DeleteList(boardId, list.id);
    }

    /** The "add card" button opens the form. */
    method StartAddingCard()
      modifies this
      ensures isAddingCard && newCardTitle == old(newCardTitle) && list == old(list)
      ensures isEditingList == old(isEditingList) && listTitle == old(listTitle)
    {
      isAddingCard := true;
    }

    /** Typing into the new card's title field. */
    method EditNewCardTitle(text: string)
      modifies this
      ensures newCardTitle == text && isAddingCard == old(isAddingCard) && list == old(list)
      ensures isEditingList == old(isEditingList) && listTitle == old(listTitle)
    {
      newCardTitle := text;
    }

    /** Cancel closes the form and clears the field. */
    method CancelAddingCard()
      modifies this
      ensures !isAddingCard && newCardTitle == "" && list == old(list)
      ensures isEditingList == old(isEditingList) && listTitle == old(listTitle)
    {
      isAddingCard := false;
      newCardTitle := "";
    }

    /**
     * `handleAddCard`: a title that is not blank adds a card carrying only
     * that title, trimmed, to this list and resets the form; a blank one
     * changes nothing.
     */
    method HandleAddCard(freshId: string)
      requires !session.failed
      modifies this, session
      ensures list == old(list) && isEditingList == old(isEditingList) && listTitle == old(listTitle)
      ensures var title := AcceptedTitle(Some(old(newCardTitle)));
              && (title.None? ==>
                    && session.state == old(session.state) && !session.failed
                    && isAddingCard == old(isAddingCard) && newCardTitle == old(newCardTitle))
              && (title.Some? ==>
                    && Applied(old(session.state),
                               AddCard(boardId, old(list).id, Card(freshId, title.value, "", "medium", "", [])),
                               session.state, session.failed)
                    && !isAddingCard && newCardTitle == "")
    {
      var trimmed := Trim(newCardTitle);
      if trimmed != [] {
        var _ := session.AddCard(boardId, list.id, freshId, TitleOnlyCard(trimmed));
        newCardTitle := "";
        isAddingCard := false;
      }
    }

    /** A card's edit callback, routed to this board and list. */
    method EditCard(cardId: string, updates: CardFields)
      requires !session.failed
      modifies session
      ensures Applied(old(session.state), UpdateCard(boardId, list.id, cardId, updates), session.state, session.failed)
    {
      session.UpdateCard(boardId, list.id, cardId, updates);
    }

    /** A card's delete callback, routed to this board and list. */
    method DeleteCard(cardId: string)
      requires !session.failed
      modifies session
      ensures Applied(old(session.state), BoardReducer.DeleteCard(boardId, list.id, cardId), session.state, session.failed)
    {
      session.DeleteCard(boardId, list.id, cardId);
    }
  }
}
