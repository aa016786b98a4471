/** The task store of the dashboard page (src/pages/Index.tsx): the ordered task list, its
    four mutations, and its mirror in browser storage. */
module IndexPage {
  import opened Sequences
  import opened TaskCard
  import opened Persistence
  import opened Wrappers
  import Time
  import KanbanBoard
  import DashboardStats

  /** `initialTasks`: the five sample tasks shown when nothing usable is stored. */
  const SeedTasks: seq<Task> := [
    Task("1", "تطوير واجهة المستخدم الرئيسية", "تصميم وتطوير صفحة الويب الرئيسية لمشروع إدارة المهام",
         High, Time.MidnightUtc(20259), 2, 3, InProgress),
    Task("2", "إعداد قاعدة البيانات", "تحضير هيكل قاعدة البيانات وإعداد النماذج الأولية",
         Medium, Time.MidnightUtc(20264), 1, 2, Todo),
    Task("3", "اختبار وظائف التسجيل", "إجراء اختبارات شاملة لعمليات تسجيل الدخول والتسجيل الجديد",
         Low, Time.MidnightUtc(20257), 0, 1, Done),
    Task("4", "تحسين أداء التطبيق", "تحليل وتحسين أداء التطبيق لتقليل وقت التحميل وزيادة سرعة الاستجابة",
         Medium, Time.MidnightUtc(20269), 3, 2, Todo),
    Task("5", "إصلاح أخطاء متعلقة بالواجهة", "معالجة مشكلات في واجهة المستخدم على الأجهزة المحمولة",
         High, Time.MidnightUtc(20258), 1, 1, InProgress)
  ]

  /** The load effect: the stored records when the entry is present and parses, and the
      sample tasks when it is missing or malformed. */
  function LoadedTasks(b: Blob<Task>): (ts: seq<Task>)
    ensures b.Records? ==> ts == b.items
    ensures !b.Records? ==> ts == SeedTasks && |ts| == 5
  {
    match b
    case Records(items) => items
    case _ => SeedTasks
  }

  /** `handleTaskUpdate`: every task whose id is `u.id` becomes `u`; the others stay where
      and as they were. */
  function ReplaceById(ts: seq<Task>, u: Task): (r: seq<Task>)
    ensures |r| == |ts|
    ensures forall i :: 0 <= i < |ts| ==> r[i] == if ts[i].id == u.id then u else ts[i]
  {
    if ts == [] then []
    else [if ts[0].id == u.id then u else ts[0]] + ReplaceById(ts[1..], u)
  }

  /** The task `handleTaskCreate` appends: the draft's fields under the id `task-<suffix>`,
      where `suffix` is the random base-36 text the source draws. */
  function CreateTask(d: Draft, suffix: string): (t: Task)
    ensures t.id == "task-" + suffix && DraftOf(t) == d
  {
    WithId(d, "task-" + suffix)
  }

  /** `handleTaskDelete`: the tasks whose id differs from `id`. */
  function RemoveById(ts: seq<Task>, id: string): (r: seq<Task>)
    ensures forall i :: 0 <= i < |r| ==> r[i].id != id
  {
    Filter(ts, (t: Task) => t.id != id)
  }

  /** `handleTaskStatusChange`: the tasks with that id get the new status and keep every
      other field; all other tasks are untouched. */
  function SetStatus(ts: seq<Task>, id: string, s: Status): (r: seq<Task>)
    ensures |r| == |ts|
    ensures forall i :: 0 <= i < |ts| ==> r[i] == if ts[i].id == id then ts[i].(status := s) else ts[i]
  {
    if ts == [] then []
    else [if ts[0].id == id then ts[0].(status := s) else ts[0]] + SetStatus(ts[1..], id, s)
  }

  /** Updating with an id no task has leaves the list as it is. */
  lemma ReplaceAbsentId(ts: seq<Task>, u: Task)
    requires forall i :: 0 <= i < |ts| ==> ts[i].id != u.id
    ensures ReplaceById(ts, u) == ts
  {
  }

  /** After an update, reading any task with the updated id gives back the update itself,
      and the tasks with other ids are exactly the ones that were there. */
  lemma ReplaceThenRead(ts: seq<Task>, u: Task)
    ensures forall x :: x in ReplaceById(ts, u) && x.id == u.id ==> x == u
    ensures forall x :: x in ReplaceById(ts, u) && x.id != u.id ==> x in ts
  {
  }

  /** Deleting keeps exactly the tasks with another id, in their original relative order,
      and deleting an id no task has changes nothing. */
  lemma RemoveByIdKeepsOthers(ts: seq<Task>, id: string)
    ensures IsSubsequence(RemoveById(ts, id), ts)
    ensures forall x :: x in RemoveById(ts, id) <==> x in ts && x.id != id
    ensures forall x :: multiset(RemoveById(ts, id))[x] == if x.id != id then multiset(ts)[x] else 0
    ensures (forall i :: 0 <= i < |ts| ==> ts[i].id != id) ==> RemoveById(ts, id) == ts
  {
    FilterIsSubsequence(ts, (t: Task) => t.id != id);
    forall x {
      FilterMembership(ts, (t: Task) => t.id != id, x);
    }
    forall x ensures multiset(RemoveById(ts, id))[x] == if x.id != id then multiset(ts)[x] else 0 {
      FilterCount(ts, (t: Task) => t.id != id, x);
    }
    if forall i :: 0 <= i < |ts| ==> ts[i].id != id {
      FilterKeepsAll(ts, (t: Task) => t.id != id);
    }
  }

  /** Changing the status of an id no task has leaves the list as it is. */
  lemma SetStatusAbsentId(ts: seq<Task>, id: string, s: Status)
    requires forall i :: 0 <= i < |ts| ==> ts[i].id != id
    ensures SetStatus(ts, id, s) == ts
  {
  }

  /** Restoring the status undoes a status change: nothing but `status` was touched. */
  lemma SetStatusOnlyStatus(ts: seq<Task>, id: string, s: Status, i: nat)
    requires i < |ts|
    ensures DraftOf(SetStatus(ts, id, s)[i]).(status := ts[i].status) == DraftOf(ts[i])
    ensures SetStatus(ts, id, s)[i].id == ts[i].id
  {
  }

  /** What was saved loads back: a non-empty list survives a save and a reload unchanged. */
  lemma SaveThenLoad(ts: seq<Task>, before: Blob<Task>)
    requires |ts| > 0
    ensures LoadedTasks(AfterSave(ts, before)) == ts
  {
  }

  /** The empty-write guard: once every task is deleted, a reload brings back the last
      non-empty snapshot (or the sample tasks if nothing usable was ever stored). */
  lemma EmptyListReloadsSnapshot(before: Blob<Task>)
    ensures LoadedTasks(AfterSave([], before)) == LoadedTasks(before)
    ensures |LoadedTasks(AfterSave([], before))| > 0 || before == Records([])
  {
  }

  /** A card's status buttons change that card's task, and only its status. Tasks with
      another id are untouched; a task sharing the card's id changes along with it. */
  lemma CardStatusChangeTargetsCard(ts: seq<Task>, i: nat, s: Status)
    requires i < |ts|
    ensures var c := OnStatusChange(ts[i], s);
      SetStatus(ts, c.id, c.status)[i] == ts[i].(status := s)
    ensures var c := OnStatusChange(ts[i], s);
      forall j :: 0 <= j < |ts| && ts[j].id != ts[i].id ==> SetStatus(ts, c.id, c.status)[j] == ts[j]
  {
  }

  /** Editing a task on the board replaces that task, under its own id, by the submitted
      data; a task with another id is untouched. */
  lemma BoardEditReplacesTask(ts: seq<Task>, i: nat, data: Draft)
    requires i < |ts|
    ensures var u := KanbanBoard.EditSubmission(Some(ts[i]), data).value;
      var r := ReplaceById(ts, u);
      r[i] == WithId(data, ts[i].id) &&
      forall j :: 0 <= j < |ts| && ts[j].id != ts[i].id ==> r[j] == ts[j]
  {
  }

  /** The page's task state together with the browser-storage entry `tasks`. Each mutation
      replaces the list wholesale through `SetTasks`, which also runs the save effect. */
  class TaskStore {
    var tasks: seq<Task>
    var stored: Blob<Task>

    /** The first render: `useState([])`, with `blob` already in storage. */
    constructor (blob: Blob<Task>)
      ensures tasks == [] && stored == blob
    {
      tasks := [];
      stored := blob;
    }

    /** `setTasks(next)` followed by the save effect that reacts to it. */
    method SetTasks(next: seq<Task>)
      modifies this
      ensures tasks == next
      ensures stored == AfterSave(next, old(stored))
    {
      tasks := next;
      if |tasks| > 0 {
        stored := Records(tasks);
      }
    }

    /** The load effect on mount. */
    method Load()
      modifies this
      ensures tasks == LoadedTasks(old(stored))
      ensures stored == AfterSave(tasks, old(stored))
    {
      var next := LoadedTasks(stored);
      SetTasks(next);
    }

    method Update(u: Task)
      modifies this
      ensures tasks == ReplaceById(old(tasks), u)
      ensures stored == AfterSave(tasks, old(stored))
    {
      SetTasks(ReplaceById(tasks, u));
    }

    /** Appends one task; no check is made that its id is new. */
    method Create(d: Draft, suffix: string)
      modifies this
      ensures tasks == old(tasks) + [CreateTask(d, suffix)]
      ensures stored == Records(tasks)
    {
      SetTasks(tasks + [CreateTask(d, suffix)]);
    }

    method Delete(id: string)
      modifies this
      ensures tasks == RemoveById(old(tasks), id)
      ensures stored == AfterSave(tasks, old(stored))
    {
      SetTasks(RemoveById(tasks, id));
    }

    method ChangeStatus(id: string, s: Status)
      modifies this
      ensures tasks == SetStatus(old(tasks), id, s)
      ensures stored == AfterSave(tasks, old(stored))
    {
      SetTasks(SetStatus(tasks, id, s));
    }
  }

  /** A store that starts empty: create a task due in two days, complete it, delete it.
      The counters follow each step, and deleting the last task writes nothing, so the
      stored snapshot still holds the completed task. */
  method CreateCompleteDeleteScenario(now: int, suffix: string)
    returns (created: DashboardStats.Stats, completed: DashboardStats.Stats, deleted: DashboardStats.Stats, snapshot: Blob<Task>)
    ensures created.total == 1 && created.upcoming == 1 && created.completed == 0
    ensures completed.total == 1 && completed.upcoming == 0 && completed.completed == 1
    ensures deleted.total == 0
    ensures snapshot.Records? && |snapshot.items| == 1 && snapshot.items[0].id == "task-" + suffix
    ensures snapshot.items[0].status == Done
  {
    var store := new TaskStore(Missing);
    var d := Draft("Write the report", "", Medium, now + 2 * Time.DayMs, 0, 0, Todo);
    var id := "task-" + suffix;
    store.Create(d, suffix);
    assert store.tasks == [CreateTask(d, suffix)];
    created := DashboardStats.Compute(store.tasks, now);
    store.ChangeStatus(id, Done);
    assert store.tasks == [CreateTask(d, suffix).(status := Done)];
    completed := DashboardStats.Compute(store.tasks, now);
    store.Delete(id);
    assert store.tasks == [];
    deleted := DashboardStats.Compute(store.tasks, now);
    snapshot := store.stored;
  }
}
