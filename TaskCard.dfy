/** The `Task` record (declared in src/components/TaskCard.tsx) and the card's pure helpers:
    priority class and icon, status and priority labels, collaborator avatars and the
    status-change callback. */
module TaskCard {
  import opened Wrappers
  import Text

  /** Status and priority are the strings the source compares against; values outside the
      three known ones can arrive from storage, and the helpers have a branch for them. */
  type Status = string
  type Priority = string

  const Todo: Status := "todo"
  const InProgress: Status := "inProgress"
  const Done: Status := "done"

  const Low: Priority := "low"
  const Medium: Priority := "medium"
  const High: Priority := "high"

  predicate IsKnownStatus(s: Status) {
    s == Todo || s == InProgress || s == Done
  }

  predicate IsKnownPriority(p: Priority) {
    p == Low || p == Medium || p == High
  }

  /** A task. `dueDate` is an instant in milliseconds since the epoch; `attachments` and
      `collaborators` are the numbers typed into the form, so nothing forces them to be
      non-negative. */
  datatype Task = Task(
    id: string,
    title: string,
    description: string,
    priority: Priority,
    dueDate: int,
    attachments: int,
    collaborators: int,
    status: Status)

  /** `Omit<Task, "id">`: what the form submits. */
  datatype Draft = Draft(
    title: string,
    description: string,
    priority: Priority,
    dueDate: int,
    attachments: int,
    collaborators: int,
    status: Status)

  /** `{ ...draft, id }`. */
  function WithId(d: Draft, id: string): (t: Task)
    ensures t.id == id && DraftOf(t) == d
  {
    Task(id, d.title, d.description, d.priority, d.dueDate, d.attachments, d.collaborators, d.status)
  }

  /** The task without its id. */
  function DraftOf(t: Task): Draft {
    Draft(t.title, t.description, t.priority, t.dueDate, t.attachments, t.collaborators, t.status)
  }

  /** `getPriorityClass`: one CSS class per known priority, the empty class otherwise. */
  function PriorityClass(p: Priority): (r: string)
    ensures r == "" <==> !IsKnownPriority(p)
    ensures IsKnownPriority(p) ==> r == "priority-" + p
  {
    if p == Low then "priority-low"
    else if p == Medium then "priority-medium"
    else if p == High then "priority-high"
    else ""
  }

  /** The known priorities get pairwise different classes. */
  lemma PriorityClassInjective(p: Priority, q: Priority)
    requires IsKnownPriority(p) && IsKnownPriority(q) && p != q
    ensures PriorityClass(p) != PriorityClass(q)
  {
    assert PriorityClass(p)[9..] == p && PriorityClass(q)[9..] == q;
  }

  /** The two icons `getPriorityIcon` can draw (which glyph is drawn is presentation). */
  datatype PriorityIcon = LowIcon | HighIcon

  /** `getPriorityIcon`: an icon for low and high, none for medium or anything else. */
  function PriorityIconOf(p: Priority): (r: Option<PriorityIcon>)
    ensures r.Some? <==> p == Low || p == High
    ensures r.Some? ==> (r.value == LowIcon <==> p == Low)
  {
    if p == Low then Some(LowIcon) else if p == High then Some(HighIcon) else None
  }

  const TodoLabel: string := "قيد الانتظار"
  const InProgressLabel: string := "قيد التنفيذ"
  const DoneLabel: string := "مكتمل"

  /** `getStatusLabel`: the Arabic label of a known status; an unknown status is shown as is. */
  function StatusLabel(s: Status): (r: string)
    ensures s == Todo ==> r == TodoLabel
    ensures s == InProgress ==> r == InProgressLabel
    ensures s == Done ==> r == DoneLabel
    ensures !IsKnownStatus(s) ==> r == s
  {
    if s == Todo then TodoLabel
    else if s == InProgress then InProgressLabel
    else if s == Done then DoneLabel
    else s
  }

  /** Different known statuses are labelled differently. */
  lemma StatusLabelInjective(s: Status, u: Status)
    requires IsKnownStatus(s) && IsKnownStatus(u) && s != u
    ensures StatusLabel(s) != StatusLabel(u)
  {
    assert |TodoLabel| == 12 && |InProgressLabel| == 11 && |DoneLabel| == 5;
  }

  const LowLabel: string := "منخفضة"
  const MediumLabel: string := "متوسطة"
  const HighLabel: string := "عالية"

  /** The inline priority label of the card: low and medium by name, and every other
      value, unknown ones included, labelled as high. */
  function PriorityLabel(p: Priority): (r: string)
    ensures r == LowLabel <==> p == Low
    ensures r == MediumLabel <==> p == Medium
    ensures r == HighLabel <==> p != Low && p != Medium
  {
    if p == Low then LowLabel else if p == Medium then MediumLabel else HighLabel
  }

  /** What a card shows besides its text: the badges and the collaborator avatars. */
  datatype CardBadges = CardBadges(
    priorityClass: string,
    priorityIcon: Option<PriorityIcon>,
    priorityLabel: string,
    attachmentsBadge: Option<int>,
    statusLabel: string,
    avatars: nat,
    overflow: Option<nat>)

  /** The badges of a task's card. The avatar row is drawn only when `collaborators > 0`
      and holds `Math.min(collaborators, 3)` avatars; the `+n` text appears only beyond 3. */
  function Badges(t: Task): (b: CardBadges)
    ensures b.attachmentsBadge.Some? <==> t.attachments > 0
    ensures b.attachmentsBadge.Some? ==> b.attachmentsBadge.value == t.attachments
    ensures b.avatars <= 3
    ensures t.collaborators > 0 ==> b.avatars == if t.collaborators < 3 then t.collaborators else 3
    ensures t.collaborators <= 0 ==> b.avatars == 0
    ensures b.overflow.Some? <==> t.collaborators > 3
    ensures t.collaborators >= 0 ==> b.avatars + b.overflow.GetOr(0) == t.collaborators
    ensures b.statusLabel == StatusLabel(t.status) && b.priorityLabel == PriorityLabel(t.priority)
    ensures b.priorityClass == PriorityClass(t.priority) && b.priorityIcon == PriorityIconOf(t.priority)
  {
    CardBadges(
      PriorityClass(t.priority),
      PriorityIconOf(t.priority),
      PriorityLabel(t.priority),
      if t.attachments > 0 then Some(t.attachments) else None,
      StatusLabel(t.status),
      if t.collaborators > 0 then Min(t.collaborators, 3) else 0,
      if t.collaborators > 3 then Some(t.collaborators - 3) else None)
  }

  function Min(a: nat, b: nat): nat {
    if a < b then a else b
  }

  /** The overflow text itself, `+{collaborators - 3}`. */
  function OverflowText(t: Task): (r: Option<string>)
    ensures r.Some? <==> t.collaborators > 3
    ensures r.Some? ==> |r.value| > 1 && r.value[0] == '+' && r.value[1..] == Text.DecimalString(t.collaborators - 3)
  {
    if t.collaborators > 3 then Some("+" + Text.DecimalString(t.collaborators - 3)) else None
  }

  /** `handleStatusChange`: the card forwards its own task's id with the chosen status. */
  datatype StatusChange = StatusChange(id: string, status: Status)

  function OnStatusChange(t: Task, newStatus: Status): (c: StatusChange)
    ensures c.id == t.id && c.status == newStatus
  {
    StatusChange(t.id, newStatus)
  }
}
