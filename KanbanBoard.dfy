/** The Kanban board (src/components/KanbanBoard.tsx): the three status columns, their
    count badges, and the edit submission that re-attaches the edited task's id. */
module KanbanBoard {
  import opened Wrappers
  import opened Sequences
  import opened TaskCard
  import TaskForm
  import Text

  /** `tasks.filter(task => task.status === s)`: one column. */
  function Column(ts: seq<Task>, s: Status): (col: seq<Task>)
    ensures forall i :: 0 <= i < |col| ==> col[i].status == s
  {
    Filter(ts, (t: Task) => t.status == s)
  }

  datatype Board = Board(todo: seq<Task>, inProgress: seq<Task>, done: seq<Task>)

  /** `todoTasks`, `inProgressTasks`, `doneTasks`. */
  function Partition(ts: seq<Task>): (b: Board)
    ensures forall i :: 0 <= i < |b.todo| ==> b.todo[i].status == Todo
    ensures forall i :: 0 <= i < |b.inProgress| ==> b.inProgress[i].status == InProgress
    ensures forall i :: 0 <= i < |b.done| ==> b.done[i].status == Done
  {
    Board(Column(ts, Todo), Column(ts, InProgress), Column(ts, Done))
  }

  /** The numbers in the three column headers. */
  function Badges(b: Board): (counts: (nat, nat, nat))
    ensures counts.0 == |b.todo| && counts.1 == |b.inProgress| && counts.2 == |b.done|
  {
    (|b.todo|, |b.inProgress|, |b.done|)
  }

  /** Each column holds exactly the tasks of its status, in their original relative order. */
  lemma ColumnIsStableFilter(ts: seq<Task>, s: Status)
    ensures IsSubsequence(Column(ts, s), ts)
    ensures forall x :: x in Column(ts, s) <==> x in ts && x.status == s
    ensures forall x :: multiset(Column(ts, s))[x] == if x.status == s then multiset(ts)[x] else 0
  {
    FilterIsSubsequence(ts, (t: Task) => t.status == s);
    forall x {
      FilterMembership(ts, (t: Task) => t.status == s, x);
    }
    forall x ensures multiset(Column(ts, s))[x] == if x.status == s then multiset(ts)[x] else 0 {
      FilterCount(ts, (t: Task) => t.status == s, x);
    }
  }

  /** When every status is one of the three known ones, the board shows every task exactly
      once: the columns together are a rearrangement of the list. */
  lemma PartitionIsExact(ts: seq<Task>)
    requires forall i :: 0 <= i < |ts| ==> IsKnownStatus(ts[i].status)
    ensures var b := Partition(ts);
      multiset(b.todo) + multiset(b.inProgress) + multiset(b.done) == multiset(ts)
      && |b.todo| + |b.inProgress| + |b.done| == |ts|
  {
    FilterPartition3(ts, (t: Task) => t.status == Todo, (t: Task) => t.status == InProgress,
                     (t: Task) => t.status == Done);
  }

  /** A task with a status other than the three known ones is on no column. */
  lemma UnknownStatusHidden(ts: seq<Task>, x: Task)
    requires !IsKnownStatus(x.status)
    ensures var b := Partition(ts); x !in b.todo && x !in b.inProgress && x !in b.done
  {
  }

  /** `handleTaskUpdate` of the board: with a task being edited, the form data submitted
      under that task's id; with none, nothing is passed on. */
  function EditSubmission(editing: Option<Task>, data: Draft): (r: Option<Task>)
    ensures r.Some? <==> editing.Some?
    ensures r.Some? ==> r.value.id == editing.value.id && DraftOf(r.value) == data
  {
    match editing
    case Some(e) => Some(WithId(data, e.id))
    case None => None
  }

  /** Opening a task's edit dialog and saving without changes gives back the same task. */
  lemma UnchangedEditIsIdentity(e: Task, f: TaskForm.FormFields, now: int)
    requires !Text.AllWhitespace(e.title) && e.status != ""
    ensures var fields := TaskForm.Prefilled(f, Some(e));
      var d := TaskForm.Submission(fields, Some(e), now);
      d.Some? && EditSubmission(Some(e), d.value) == Some(e)
  {
    TaskForm.UnchangedEditResubmits(f, e, now);
  }
}
