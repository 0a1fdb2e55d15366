/**
 * The calendar view: every card of the current board as a task tagged with
 * its list, the tasks of one day (at most three shown), the colour of a
 * priority, and the handlers that add a dated card to the first list and edit
 * or delete a task's card.
 *
 * Days are carried as their "yyyy-MM-dd" text; whether a due date falls on a
 * given calendar day is the caller's `matchesDay`, since it depends on the
 * date library and the time zone.
 */
module Calendar {
  import opened Common
  import opened Seqs
  import opened Text
  import opened Entities
  import opened BoardReducer
  import opened BoardContext
  import SampleData

  /** `{ ...card, listId, listTitle }`. */
  datatype Task = Task(card: Card, listId: string, listTitle: string)

  /** One list's cards, each tagged with the list. */
  function TagCards(list: List): (r: seq<Task>)
    ensures |r| == |list.cards|
    ensures forall i :: 0 <= i < |r| ==> r[i] == Task(list.cards[i], list.id, list.title)
  {
    seq(|list.cards|, i requires 0 <= i < |list.cards| => Task(list.cards[i], list.id, list.title))
  }

  /**
   * `lists.flatMap(list => list.cards.map(...))`: one task per card, in list
   * order and then card order, so the tasks' cards are exactly `AllCards`.
   */
  function TasksOfLists(lists: seq<List>): (r: seq<Task>)
    ensures |r| == |AllCards(lists)|
    ensures forall i :: 0 <= i < |r| ==> r[i].card == AllCards(lists)[i]
  {
    if |lists| == 0 then []
    else
      var rest := TasksOfLists(lists[1..]);
      assert AllCards(lists) == lists[0].cards + AllCards(lists[1..]);
      TagCards(lists[0]) + rest
  }

  /** Each task is tagged with the id and title of a list holding its card. */
  lemma {:induction false} TaskInItsList(lists: seq<List>, k: nat)
    requires k < |TasksOfLists(lists)|
    ensures var t := TasksOfLists(lists)[k];
            exists j :: 0 <= j < |lists| && lists[j].id == t.listId && lists[j].title == t.listTitle
                        && t.card in lists[j].cards
  {
    var t := TasksOfLists(lists)[k];
    if k < |lists[0].cards| {
      assert t == Task(lists[0].cards[k], lists[0].id, lists[0].title);
    } else {
      var r := TasksOfLists(lists[1..]);
      assert t == r[k - |lists[0].cards|];
      TaskInItsList(lists[1..], k - |lists[0].cards|);
      var j :| 0 <= j < |lists[1..]| && lists[1..][j].id == t.listId && lists[1..][j].title == t.listTitle
               && t.card in lists[1..][j].cards;
      assert lists[j + 1] == lists[1..][j];
    }
  }

  /**
   * `allTasks`: no tasks without a current board; a `TypeError` when the
   * current board has no `lists`; otherwise `TasksOfLists` of its lists.
   */
  function AllTasks(s: State): (r: Result<seq<Task>>)
    ensures CurrentBoard(s).None? ==> r == Ok([])
    ensures r.TypeError? <==> CurrentBoard(s).Some? && !CurrentBoardRenders(s)
    ensures CurrentBoardRenders(s) ==> r == Ok(TasksOfLists(CurrentLists(s)))
  {
    match CurrentBoard(s)
    case None => Ok([])
    case Some(board) =>
      match board.lists
      case None => TypeError
      case Some(lists) => Ok(TasksOfLists(lists))
  }

  /** Every task of the current board names a card that is in the list it is tagged with. */
  lemma TaskTargetsItsCard(s: State, k: nat)
    requires AllTasks(s).Ok? && k < |AllTasks(s).value|
    ensures var t := AllTasks(s).value[k];
            CardExists(s, s.currentBoardId, t.listId, t.card.id)
  {
    var lists := CurrentLists(s);
    var t := TasksOfLists(lists)[k];
    TaskInItsList(lists, k);
    var j :| 0 <= j < |lists| && lists[j].id == t.listId && lists[j].title == t.listTitle && t.card in lists[j].cards;
    var c :| 0 <= c < |lists[j].cards| && lists[j].cards[c] == t.card;
    var i := FindIndex(s.boards, (b: Board) => b.id == s.currentBoardId);
    assert s.boards[i].lists.value[j].cards[c].id == t.card.id;
  }

  /** Whether a task is listed under a day: it has a due date and that date falls on the day. */
  predicate DueOn(task: Task, matchesDay: string -> bool) {
    task.card.dueDate != "" && matchesDay(task.card.dueDate)
  }

  /** `getTasksForDate(date)`: the tasks due on the day, each as often as it occurs, in order. */
  function TasksForDate(tasks: seq<Task>, matchesDay: string -> bool): (r: seq<Task>)
    ensures KeptInOrder(tasks, r, (t: Task) => DueOn(t, matchesDay))
  {
    FilterKeeps(tasks, (t: Task) => DueOn(t, matchesDay));
    Filter(tasks, (t: Task) => DueOn(t, matchesDay))
  }

  /**
   * A task is listed under a day exactly when it is one of the tasks and its
   * due date is set and falls on that day; a task without a due date is
   * listed under no day, and the listing keeps the tasks' order.
   */
  lemma TasksForDateMembers(tasks: seq<Task>, matchesDay: string -> bool, t: Task)
    ensures t in TasksForDate(tasks, matchesDay) <==> t in tasks && t.card.dueDate != "" && matchesDay(t.card.dueDate)
    ensures t.card.dueDate == "" ==> t !in TasksForDate(tasks, matchesDay)
  {
    FilterMembership(tasks, (t: Task) => DueOn(t, matchesDay), t);
  }

  /** `tasksForDate.slice(0, 3)`: the first three tasks, or all of them when there are fewer. */
  function ShownTasks(tasks: seq<Task>): (r: seq<Task>)
    ensures |r| <= 3 && r <= tasks
    ensures |tasks| <= 3 ==> r == tasks
  {
    if |tasks| <= 3 then tasks else tasks[..3]
  }

  /** The "+n" badge: the number of tasks not shown, when some are hidden. */
  function MoreCount(tasks: seq<Task>): (r: Option<nat>)
    ensures r.Some? <==> |tasks| > 3
  {
    if |tasks| > 3 then Some(|tasks| - 3) else None
  }

  /** The shown tasks and the badge together account for every task of the day. */
  lemma ShownAndMoreCoverDay(tasks: seq<Task>)
    ensures |ShownTasks(tasks)| + MoreCount(tasks).GetOr(0) == |tasks|
    ensures MoreCount(tasks).Some? ==> tasks == ShownTasks(tasks) + tasks[3..]
  {
  }

  /** `getPriorityColor(priority)`: the colour of the matching priority option, else the low-priority green. */
  function PriorityColor(priority: string): (color: string)
    ensures priority == "low" ==> color == "#61bd4f"
    ensures priority == "medium" ==> color == "#f2d600"
    ensures priority == "high" ==> color == "#eb5a46"
    ensures priority !in {"low", "medium", "high"} ==> color == "#61bd4f"
  {
    match Find(SampleData.PriorityOptions, (o: SampleData.PriorityOption) => o.value == priority)
    case Some(option) => option.color
    case None => "#61bd4f"
  }

  /** The add-task form's data. */
  datatype TaskDraft = TaskDraft(
    title: string,
    description: string,
    priority: string,
    dueDate: string,
    labels: seq<string>)

  /** The form's initial and reset value. */
  const EmptyDraft := TaskDraft("", "", "medium", "", [])

  /** `{ ...newTaskData, dueDate: day }` as the `cardData` of `addCard`. */
  function DraftCardData(draft: TaskDraft, day: string): CardFields {
    CardFields(None, Some(draft.title), Some(draft.description), Some(draft.priority), Some(day), Some(draft.labels))
  }

  /**
   * Whether `handleAddTask` adds a card: a title that is not blank, a
   * selected day, and a current board with at least one list.
   */
  predicate AddsTask(s: State, draft: TaskDraft, selectedDate: Option<string>) {
    && AcceptedTitle(Some(draft.title)).Some? && selectedDate.Some?
    && CurrentBoardRenders(s) && |CurrentLists(s)| > 0
  }

  /**
   * The card a task added on `day` becomes: every field of the draft, the
   * title untrimmed, due on that day.
   */
  lemma DraftBecomesCard(freshId: string, draft: TaskDraft, day: string)
    ensures NewCard(freshId, DraftCardData(draft, day))
         == Card(freshId, draft.title, draft.description, draft.priority, day, draft.labels)
  {
  }

  /** The calendar's local state, over the session it reads and dispatches to. */
  class CalendarView {
    const session: Session
    /** The selected day, if any. */
    var selectedDate: Option<string>
    var isAddingTask: bool
    var newTaskData: TaskDraft

    constructor(session: Session)
      ensures this.session == session
      ensures selectedDate == None && !isAddingTask && newTaskData == EmptyDraft
    {
      this.session := session;
      selectedDate := None;
      isAddingTask := false;
      newTaskData := EmptyDraft;
    }

    /** `handleDateClick(date)`: selects the day and dates the draft on it. */
    method HandleDateClick(day: string)
      modifies this
      ensures selectedDate == Some(day) && newTaskData == old(newTaskData).(dueDate := day)
      ensures isAddingTask == old(isAddingTask)
    {
      selectedDate := Some(day);
      newTaskData := newTaskData.(dueDate := day);
    }

    /** Clicking a task selects its day and leaves the draft alone. */
    method HandleTaskClick(day: string)
      modifies this
      ensures selectedDate == Some(day) && newTaskData == old(newTaskData) && isAddingTask == old(isAddingTask)
    {
      selectedDate := Some(day);
    }

    /** The "add task" button opens the form. */
    method StartAddingTask()
      modifies this
      ensures isAddingTask && selectedDate == old(selectedDate) && newTaskData == old(newTaskData)
    {
      isAddingTask := true;
    }

    /** Typing a title, a description or choosing a priority in the form. */
    method EditDraft(title: string, description: string, priority: string)
      modifies this
      ensures newTaskData == old(newTaskData).(title := title, description := description, priority := priority)
      ensures selectedDate == old(selectedDate) && isAddingTask == old(isAddingTask)
    {
      newTaskData := newTaskData.(title := title, description := description, priority := priority);
    }

    /** Cancel closes the form and resets the draft. */
    method CancelAddingTask()
      modifies this
      ensures !isAddingTask && newTaskData == EmptyDraft && selectedDate == old(selectedDate)
    {
      isAddingTask := false;
      newTaskData := EmptyDraft;
    }

    /**
     * `handleAddTask`: when `AddsTask` holds, appends the draft as a card
     * due on the selected day to the current board's first list, then
     * resets the draft and closes the form; otherwise nothing changes.
     */
    method HandleAddTask(freshId: string)
      requires !session.failed && AllTasks(session.state).Ok?
      modifies this, session
      ensures selectedDate == old(selectedDate)
      ensures !AddsTask(old(session.state), old(newTaskData), old(selectedDate)) ==>
                && session.state == old(session.state) && !session.failed
                && isAddingTask == old(isAddingTask) && newTaskData == old(newTaskData)
      ensures AddsTask(old(session.state), old(newTaskData), old(selectedDate)) ==>
                && Applied(old(session.state),
                           AddCard(old(session.state).currentBoardId, CurrentLists(old(session.state))[0].id,
                                   Card(freshId, old(newTaskData).title, old(newTaskData).description,
                                        old(newTaskData).priority, old(selectedDate).value, old(newTaskData).labels)),
                           session.state, session.failed)
                && !isAddingTask && newTaskData == EmptyDraft
    {
      if Trim(newTaskData.title) != [] && selectedDate.Some? {
        var currentBoard := CurrentBoard(session.state);
        if currentBoard.Some? && |currentBoard.value.lists.value| > 0 {
          var firstList := currentBoard.value.lists.value[0];
          var _ := session.AddCard(session.state.currentBoardId, firstList.id, freshId,
                                   DraftCardData(newTaskData, selectedDate.value));
          newTaskData := EmptyDraft;
          isAddingTask := false;
        }
      }
    }

    /**
     * `handleEditTask(task)`: a prompt answer that is not cancelled and not
     * blank renames the task's card, trimmed, in the task's own list.
     */
    method HandleEditTask(task: Task, answer: Option<string>)
      requires !session.failed
      modifies session
      ensures var title := AcceptedTitle(answer);
              && (title.None? ==> session.state == old(session.state) && !session.failed)
              && (title.Some? ==>
                    Applied(old(session.state),
                            UpdateCard(old(session.state).currentBoardId, task.listId, task.card.id, TitleOnlyCard(title.value)),
                            session.state, session.failed))
    {
      if answer.Some? && answer.value != "" && Trim(answer.value) != "" {
        session.UpdateCard(session.state.currentBoardId, task.listId, task.card.id, TitleOnlyCard(Trim(answer.value)));
      }
    }

    /** `handleDeleteTask(task)`: once confirmed, deletes the task's card from the task's own list. */
    method HandleDeleteTask(task: Task, confirmed: bool)
      requires !session.failed
      modifies session
      ensures !confirmed ==> session.state == old(session.state) && !session.failed
      ensures confirmed ==>
                Applied(old(session.state), DeleteCard(old(session.state).currentBoardId, task.listId, task.card.id),
                        session.state, session.failed)
    {
      if confirmed {
        session.DeleteCard(session.state.currentBoardId, task.listId, task.card.id);
      }
    }
  }
}
