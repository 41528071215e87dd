/**
 * The to-do screen: tasks seeded from the constant list, a status toggle,
 * a confirmed delete, a details editor for comment and proof, and a filtered,
 * searched view.
 */
module Todo {
  import opened Js
  import Data

  /** A task on screen: the seed with a string id, a proof cell and a comment. */
  datatype Task = Task(
    id: string,
    title: string,
    status: string,
    time: string,
    icon: string,
    color: string,
    proof: Option<string>,
    comment: string)

  /** One seed as the screen's initial state maps it. */
  function FromSeed(s: Data.TodoSeed): Task {
    Task(NatToString(s.id), s.title, s.status, s.time, s.icon, s.color, None, "")
  }

  /** The initial mapping: every seed, in order, with its id as text, no proof and an empty comment. */
  function InitialTasks(seeds: seq<Data.TodoSeed>): (r: seq<Task>)
    ensures |r| == |seeds|
    ensures forall i :: 0 <= i < |seeds| ==>
              r[i].id == NatToString(seeds[i].id) && r[i].proof == None && r[i].comment == ""
              && r[i].title == seeds[i].title && r[i].status == seeds[i].status
  {
    if seeds == [] then [] else [FromSeed(seeds[0])] + InitialTasks(seeds[1..])
  }

  /** The seeded screen holds three tasks with ids "1", "2" and "3". */
  lemma SeededTaskIds()
    ensures var r := InitialTasks(Data.TodoList());
            |r| == 3 && r[0].id == "1" && r[1].id == "2" && r[2].id == "3"
  {
  }

  /** The colour, icon and time `toggleStatus` writes for each new status. */
  predicate StyledAs(t: Task) {
    if t.status == "completed" then t.color == "#10B981" && t.icon == "check" && t.time == "Completed just now"
    else t.color == "#F59E0B" && t.icon == "clock" && t.time == "Updated just now"
  }

  /** One task toggled: completed becomes pending, any other status completed. */
  function Flip(t: Task): (r: Task)
    ensures r.status == if t.status == "completed" then "pending" else "completed"
    ensures StyledAs(r)
    ensures r.id == t.id && r.title == t.title && r.proof == t.proof && r.comment == t.comment
  {
    var s := if t.status == "completed" then "pending" else "completed";
    t.(status := s,
       color := if s == "completed" then "#10B981" else "#F59E0B",
       icon := if s == "completed" then "check" else "clock",
       time := if s == "completed" then "Completed just now" else "Updated just now")
  }

  /** `toggleStatus(id)`: the tasks with that id flip; the others, the length and the order stay. */
  function Toggled(tasks: seq<Task>, id: string): (r: seq<Task>)
    ensures |r| == |tasks|
    ensures forall i :: 0 <= i < |tasks| ==> r[i] == if tasks[i].id == id then Flip(tasks[i]) else tasks[i]
  {
    if tasks == [] then [] else [if tasks[0].id == id then Flip(tasks[0]) else tasks[0]] + Toggled(tasks[1..], id)
  }

  /** Toggling twice comes back to pending or completed; an overdue task comes back pending, not overdue. */
  lemma FlipTwice(t: Task)
    ensures t.status == "completed" ==> Flip(Flip(t)).status == "completed"
    ensures t.status != "completed" ==> Flip(Flip(t)).status == "pending"
  {
  }

  /** Toggling twice restores a styled task exactly. */
  lemma FlipTwiceRestores(t: Task)
    requires (t.status == "completed" || t.status == "pending") && StyledAs(t)
    ensures Flip(Flip(t)) == t
  {
  }

  /** The predicate of the confirmed delete's filter. */
  function KeepOther(id: string): Task -> bool {
    (t: Task) => t.id != id
  }

  /** What the confirmed delete leaves. */
  function Removed(tasks: seq<Task>, id: string): seq<Task> {
    Filter(tasks, KeepOther(id))
  }

  /**
   * A confirmed delete removes exactly the tasks with that id: none of them
   * remains, every other task remains as often as before, and in order.
   */
  lemma RemovedExact(tasks: seq<Task>, id: string, x: Task)
    ensures Subsequence(Removed(tasks, id), tasks)
    ensures forall i :: 0 <= i < |Removed(tasks, id)| ==> Removed(tasks, id)[i].id != id
    ensures multiset(Removed(tasks, id))[x] == if x.id == id then 0 else multiset(tasks)[x]
  {
    FilterIsSubsequence(tasks, KeepOther(id));
    FilterCount(tasks, KeepOther(id), x);
  }

  /** Deleting an id no task has changes nothing. */
  lemma RemoveAbsent(tasks: seq<Task>, id: string)
    requires forall i :: 0 <= i < |tasks| ==> tasks[i].id != id
    ensures Removed(tasks, id) == tasks
  {
    FilterKeepsAll(tasks, KeepOther(id));
  }

  /** `saveTaskDetails`' map: the tasks with that id take the comment and proof; nothing else changes. */
  function WithDetails(tasks: seq<Task>, id: string, comment: string, proof: Option<string>): (r: seq<Task>)
    ensures |r| == |tasks|
    ensures forall i :: 0 <= i < |tasks| ==>
              r[i] == if tasks[i].id == id then tasks[i].(comment := comment, proof := proof) else tasks[i]
  {
    if tasks == [] then []
    else [if tasks[0].id == id then tasks[0].(comment := comment, proof := proof) else tasks[0]]
         + WithDetails(tasks[1..], id, comment, proof)
  }

  /** The status tabs of the list. */
  datatype StatusFilter = All | Pending | Completed

  /** The predicate of `filteredTasks`: the case-insensitive title search, and for the tabs the status test. */
  function Shown(filter: StatusFilter, query: string): Task -> bool {
    (t: Task) => ContainsIgnoringCase(t.title, query)
         && match filter
            case All => true
            case Completed => t.status == "completed"
            case Pending => t.status != "completed"
  }

  /** `filteredTasks`. */
  function Visible(tasks: seq<Task>, filter: StatusFilter, query: string): seq<Task> {
    Filter(tasks, Shown(filter, query))
  }

  /**
   * The list shown is an order-keeping sub-list; a task is in it exactly when it
   * matches the search and, on the Completed tab, is completed, or on the
   * Pending tab is anything else (overdue included).
   */
  lemma VisibleExact(tasks: seq<Task>, filter: StatusFilter, query: string, x: Task)
    ensures Subsequence(Visible(tasks, filter, query), tasks)
    ensures x in Visible(tasks, filter, query) <==>
              x in tasks && ContainsIgnoringCase(x.title, query)
              && (filter == Completed ==> x.status == "completed")
              && (filter == Pending ==> x.status != "completed")
  {
    FilterIsSubsequence(tasks, Shown(filter, query));
    FilterMembership(tasks, Shown(filter, query), x);
  }

  /** An empty search on the All tab shows every task. */
  lemma EmptySearchShowsAll(tasks: seq<Task>)
    ensures Visible(tasks, All, "") == tasks
  {
    forall i | 0 <= i < |tasks| ensures Shown(All, "")(tasks[i]) {
      SearchIgnoresCase(tasks[i].title, "");
    }
    FilterKeepsAll(tasks, Shown(All, ""));
  }

  /** The screen's state cells. */
  class TodoScreen {
    var tasks: seq<Task>
    var filter: StatusFilter
    var searchQuery: string
    /** The editor's copy of the task it shows. */
    var selected: Option<Task>
    var modalVisible: bool
    var commentText: string

    /** The seeded tasks, the All tab, no search, no editor. */
    constructor ()
      ensures tasks == InitialTasks(Data.TodoList()) && filter == All && searchQuery == ""
      ensures selected == None && !modalVisible && commentText == ""
    {
      tasks := InitialTasks(Data.TodoList());
      filter := All;
      searchQuery := "";
      selected := None;
      modalVisible := false;
      commentText := "";
    }

    /** `openTaskModal(task)`: the editor shows a copy of the task and its comment. */
    method OpenTaskModal(task: Task)
      modifies this`selected, this`commentText, this`modalVisible
      ensures selected == Some(task) && commentText == task.comment && modalVisible
    {
      selected := Some(task);
      commentText := task.comment;
      modalVisible := true;
    }

    /** `closeTaskModal`. */
    method CloseTaskModal()
      modifies this`selected, this`modalVisible
      ensures selected == None && !modalVisible
    {
      modalVisible := false;
      selected := None;
    }

    /** The editor's comment box. */
    method SetCommentText(s: string)
      modifies this`commentText
      ensures commentText == s
    {
      commentText := s;
    }

    /** A camera shot taken in the editor becomes the copy's proof. */
    method AttachProof(uri: string)
      requires selected.Some?
      modifies this`selected
      ensures selected == Some(old(selected).value.(proof := Some(uri)))
    {
      selected := Some(selected.value.(proof := Some(uri)));
    }

    /**
     * `saveTaskDetails`: with no task in the editor nothing happens; otherwise
     * the tasks with its id take the edited comment and the copy's proof, and
     * the editor closes.
     */
    method SaveTaskDetails()
      modifies this`tasks, this`selected, this`modalVisible
      ensures old(selected) == None ==>
                tasks == old(tasks) && selected == None && modalVisible == old(modalVisible)
      ensures old(selected).Some? ==>
                tasks == WithDetails(old(tasks), old(selected).value.id, commentText, old(selected).value.proof)
                && selected == None && !modalVisible
    {
      if selected.Some? {
        tasks := WithDetails(tasks, selected.value.id, commentText, selected.value.proof);
        CloseTaskModal();
      }
    }

    /** `toggleStatus(id)`. */
    method ToggleStatus(id: string)
      modifies this`tasks
      ensures tasks == Toggled(old(tasks), id)
    {
      tasks := Toggled(tasks, id);
    }

    /** The confirmed branch of `deleteTask(id)`: the tasks go, and an editor showing that task closes. */
    method DeleteTask(id: string)
      modifies this`tasks, this`selected, this`modalVisible
      ensures tasks == Removed(old(tasks), id)
      ensures old(selected).Some? && old(selected).value.id == id ==> selected == None && !modalVisible
      ensures !(old(selected).Some? && old(selected).value.id == id) ==>
                selected == old(selected) && modalVisible == old(modalVisible)
    {
      tasks := Removed(tasks, id);
      if selected.Some? && selected.value.id == id {
        CloseTaskModal();
      }
    }

    method SetFilter(f: StatusFilter)
      modifies this`filter
      ensures filter == f
    {
      filter := f;
    }

    method SetSearchQuery(q: string)
      modifies this`searchQuery
      ensures searchQuery == q
    {
      searchQuery := q;
    }

    /** `filteredTasks` over the current cells. */
    function FilteredTasks(): (r: seq<Task>)
      reads this
      ensures |r| <= |tasks|
      ensures forall i :: 0 <= i < |r| ==> ContainsIgnoringCase(r[i].title, searchQuery)
      ensures filter == Completed ==> forall i :: 0 <= i < |r| ==> r[i].status == "completed"
      ensures filter == Pending ==> forall i :: 0 <= i < |r| ==> r[i].status != "completed"
    {
      var r := Visible(tasks, filter, searchQuery);
      assert forall i :: 0 <= i < |r| ==> Shown(filter, searchQuery)(r[i]);
      r
    }
  }

  /** The seeded overdue task, toggled twice, is pending and shown on the Pending tab. */
  method OverdueToggledTwice() returns (s: TodoScreen)
    ensures |s.tasks| == 3 && s.tasks[2].status == "pending"
  {
    s := new TodoScreen();
    s.ToggleStatus("3");
    s.ToggleStatus("3");
  }
}
