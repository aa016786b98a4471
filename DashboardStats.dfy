/** The four counters of the dashboard (src/components/DashboardStats.tsx). */
module DashboardStats {
  import opened Sequences
  import opened TaskCard
  import KanbanBoard
  import Time

  /** Due between now and three days from now, both ends included, and not yet done.
      Counted in whole days, that is a due date not in the past at most three days ahead. */
  function IsUpcoming(t: Task, now: int): (b: bool)
    ensures b <==> t.status != Done && now <= t.dueDate && Time.CeilDays(t.dueDate - now) <= 3
  {
    now <= t.dueDate <= now + 3 * Time.DayMs && t.status != Done
  }

  datatype Stats = Stats(total: nat, completed: nat, upcoming: nat, attachments: int, collaborators: int)

  /** The attachments sum; it cannot be negative while no task has a negative count. */
  function Attachments(ts: seq<Task>): (sum: int)
    ensures ts == [] ==> sum == 0
    ensures |ts| == 1 ==> sum == ts[0].attachments
    ensures (forall i :: 0 <= i < |ts| ==> ts[i].attachments >= 0) ==> sum >= 0
  {
    SumByNonNegative(ts, (t: Task) => t.attachments);
    SumBySingleton(ts, (t: Task) => t.attachments);
    SumBy(ts, (t: Task) => t.attachments)
  }

  /** The collaborators sum; it cannot be negative while no task has a negative count. */
  function Collaborators(ts: seq<Task>): (sum: int)
    ensures ts == [] ==> sum == 0
    ensures |ts| == 1 ==> sum == ts[0].collaborators
    ensures (forall i :: 0 <= i < |ts| ==> ts[i].collaborators >= 0) ==> sum >= 0
  {
    SumByNonNegative(ts, (t: Task) => t.collaborators);
    SumBySingleton(ts, (t: Task) => t.collaborators);
    SumBy(ts, (t: Task) => t.collaborators)
  }

  /** The counters at instant `now` (`new Date()` of the render). */
  function Compute(ts: seq<Task>, now: int): (st: Stats)
    ensures st.total == |ts|
    ensures st.completed <= st.total
    ensures st.upcoming + st.completed <= st.total
  {
    var completed := Filter(ts, (t: Task) => t.status == Done);
    var upcoming := Filter(ts, (t: Task) => IsUpcoming(t, now));
    FilterDisjoint(ts, (t: Task) => IsUpcoming(t, now), (t: Task) => t.status == Done);
    Stats(|ts|, |completed|, |upcoming|, Attachments(ts), Collaborators(ts))
  }

  /** The completed counter counts exactly the tasks with status `done`: it is the length
      of the board's done column. */
  lemma CompletedIsDoneColumn(ts: seq<Task>, now: int)
    ensures Compute(ts, now).completed == |KanbanBoard.Partition(ts).done|
  {
  }

  /** The upcoming counter counts the tasks due soon one by one: no tasks count 0, and a
      task in front adds one exactly when it is upcoming. */
  lemma UpcomingCountsDueSoon(t: Task, ts: seq<Task>, now: int)
    ensures Compute([], now).upcoming == 0
    ensures Compute([t] + ts, now).upcoming == (if IsUpcoming(t, now) then 1 else 0) + Compute(ts, now).upcoming
  {
    FilterConcat([t], ts, (u: Task) => IsUpcoming(u, now));
    assert [t][1..] == [];
  }

  /** The upcoming counter of two lists together is the sum of their counters. */
  lemma UpcomingIsAdditive(a: seq<Task>, b: seq<Task>, now: int)
    ensures Compute(a + b, now).upcoming == Compute(a, now).upcoming + Compute(b, now).upcoming
  {
    FilterConcat(a, b, (u: Task) => IsUpcoming(u, now));
  }

  /** With only known statuses, the total is the sum of the three column badges. */
  lemma TotalIsSumOfColumns(ts: seq<Task>, now: int)
    requires forall i :: 0 <= i < |ts| ==> IsKnownStatus(ts[i].status)
    ensures var c := KanbanBoard.Badges(KanbanBoard.Partition(ts));
      Compute(ts, now).total == c.0 + c.1 + c.2
  {
    KanbanBoard.PartitionIsExact(ts);
  }

  /** Both sums are zero for no tasks, are a single task's own `attachments` and
      `collaborators`, and add up over a concatenation of task lists. */
  lemma SumsAreAdditive(a: seq<Task>, b: seq<Task>, now: int)
    ensures Compute([], now).attachments == 0 && Compute([], now).collaborators == 0
    ensures forall t :: Compute([t], now).attachments == t.attachments && Compute([t], now).collaborators == t.collaborators
    ensures Compute(a + b, now).attachments == Compute(a, now).attachments + Compute(b, now).attachments
    ensures Compute(a + b, now).collaborators == Compute(a, now).collaborators + Compute(b, now).collaborators
  {
    SumByConcat(a, b, (t: Task) => t.attachments);
    SumByConcat(a, b, (t: Task) => t.collaborators);
  }

  /** The sums counted one task at a time: a task in front adds its own `attachments` and
      `collaborators`. */
  lemma SumsCons(t: Task, ts: seq<Task>, now: int)
    ensures Compute([t] + ts, now).attachments == t.attachments + Compute(ts, now).attachments
    ensures Compute([t] + ts, now).collaborators == t.collaborators + Compute(ts, now).collaborators
  {
    SumsAreAdditive([t], ts, now);
  }
}
