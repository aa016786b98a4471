/** The Gantt projection (src/components/GanttChart.tsx): one bar row per task over a
    fourteen-day window, sorted by due date. */
module GanttChart {
  import opened Wrappers
  import opened Sequences
  import opened TaskCard
  import Time

  /** `Math.floor(Math.random() * 5)`: how many days before today a task's mock start lies. */
  type StartOffset = k: int | 0 <= k < 5

  /** One entry of `chartData`. */
  datatype ChartItem = ChartItem(
    name: string,
    start: int,
    end: int,
    duration: int,
    daysFromNow: int,
    status: Status,
    priority: Priority,
    id: string)

  /** The `chartData` entry of one task at instant `now`, with the drawn start offset. */
  function Project(t: Task, now: int, offset: StartOffset): (c: ChartItem)
    ensures c.name == t.title && c.id == t.id && c.status == t.status && c.priority == t.priority
    ensures c.end == t.dueDate && c.start == now - offset * Time.DayMs
    ensures c.duration >= 1
    ensures c.end - c.start <= 0 ==> c.duration == 1
    ensures c.end - c.start > 0 ==> Time.DayMs * (c.duration - 1) < c.end - c.start <= Time.DayMs * c.duration
    ensures Time.DayMs * (c.daysFromNow - 1) < c.end - now <= Time.DayMs * c.daysFromNow
  {
    var start := now - offset * Time.DayMs;
    var days := Time.CeilDays(t.dueDate - start);
    ChartItem(t.title, start, t.dueDate, if days < 1 then 1 else days,
              Time.CeilDays(t.dueDate - now), t.status, t.priority, t.id)
  }

  /** `chartData`: one projected entry per task, in the tasks' order. */
  function ChartData(ts: seq<Task>, now: int, offsets: seq<StartOffset>): (r: seq<ChartItem>)
    requires |offsets| == |ts|
    ensures |r| == |ts|
    ensures forall i :: 0 <= i < |ts| ==> r[i] == Project(ts[i], now, offsets[i])
  {
    if ts == [] then [] else [Project(ts[0], now, offsets[0])] + ChartData(ts[1..], now, offsets[1..])
  }

  /** Each item ends no earlier than the one before it. */
  ghost predicate SortedByEnd(s: seq<ChartItem>) {
    forall i :: 0 < i < |s| ==> s[i - 1].end <= s[i].end
  }

  /** Sorted neighbour by neighbour means sorted between any two positions. */
  lemma {:induction false} SortedPairwise(s: seq<ChartItem>, i: nat, j: nat)
    requires SortedByEnd(s) && i <= j < |s|
    ensures s[i].end <= s[j].end
    decreases j - i
  {
    if i < j {
      SortedPairwise(s, i + 1, j);
    }
  }

  /** Places `x` before the first item that ends no earlier than it. */
  function Insert(x: ChartItem, s: seq<ChartItem>): (r: seq<ChartItem>)
    requires SortedByEnd(s)
    ensures |r| == |s| + 1
    ensures r[0] == x || (s != [] && r[0] == s[0])
    ensures SortedByEnd(r)
    ensures multiset(r) == multiset(s) + multiset{x}
  {
    if s == [] || x.end <= s[0].end then [x] + s
    else
      var rest := Insert(x, s[1..]);
      assert s == [s[0]] + s[1..];
      [s[0]] + rest
  }

  /** `sortedData`: `sort((a, b) => a.end - b.end)`, a stable sort by ascending end. */
  function SortByEnd(s: seq<ChartItem>): (r: seq<ChartItem>)
    ensures SortedByEnd(r)
    ensures multiset(r) == multiset(s)
  {
    if s == [] then []
    else
      assert s == [s[0]] + s[1..];
      Insert(s[0], SortByEnd(s[1..]))
  }

  function EndsAt(e: int): ChartItem -> bool {
    (c: ChartItem) => c.end == e
  }

  lemma {:induction false} InsertStable(x: ChartItem, s: seq<ChartItem>, e: int)
    requires SortedByEnd(s)
    ensures Filter(Insert(x, s), EndsAt(e)) == if x.end == e then [x] + Filter(s, EndsAt(e)) else Filter(s, EndsAt(e))
  {
    if s != [] && x.end > s[0].end {
      InsertStable(x, s[1..], e);
    }
  }

  /** The sort is stable: items with the same end keep their relative order. */
  lemma {:induction false} SortByEndStable(s: seq<ChartItem>, e: int)
    ensures Filter(SortByEnd(s), EndsAt(e)) == Filter(s, EndsAt(e))
  {
    if s != [] {
      SortByEndStable(s[1..], e);
      InsertStable(s[0], SortByEnd(s[1..]), e);
    }
  }

  /** `dateArray`: fourteen instants, one day apart, starting at `now`. */
  function DateWindow(now: int): (days: seq<int>)
    ensures |days| == 14
    ensures forall i :: 0 <= i < 14 ==> days[i] == now + i * Time.DayMs
  {
    seq(14, i => now + i * Time.DayMs)
  }

  predicate IsActive(c: ChartItem, day: int) {
    c.start <= day <= c.end
  }

  /** The four keys `ganttData` writes for one day: the bar height, the active flag, and
      the status and priority, present only on active days. */
  datatype DayCell = DayCell(bar: int, active: bool, status: Option<Status>, priority: Option<Priority>)

  /** One `ganttData` record: the task name and one cell per day of the window (the source
      keys the cells by the formatted date; the model indexes them by position). */
  datatype GanttRow = GanttRow(name: string, cells: seq<DayCell>)

  ghost predicate CellProjects(cell: DayCell, c: ChartItem, day: int) {
    && (cell.active <==> IsActive(c, day))
    && cell.bar == (if cell.active then 1 else 0)
    && (cell.status.Some? <==> cell.active) && (cell.status.Some? ==> cell.status.value == c.status)
    && (cell.priority.Some? <==> cell.active) && (cell.priority.Some? ==> cell.priority.value == c.priority)
  }

  ghost predicate RowProjects(row: GanttRow, c: ChartItem, days: seq<int>) {
    row.name == c.name && |row.cells| == |days| &&
    forall k :: 0 <= k < |days| ==> CellProjects(row.cells[k], c, days[k])
  }

  /** The `forEach` over the window that fills one record. */
  method BuildRow(c: ChartItem, days: seq<int>) returns (row: GanttRow)
    ensures RowProjects(row, c, days)
  {
    var cells: seq<DayCell> := [];
    for k := 0 to |days|
      invariant |cells| == k
      invariant forall j :: 0 <= j < k ==> CellProjects(cells[j], c, days[j])
    {
      var active := c.start <= days[k] && days[k] <= c.end;
      var cell := DayCell(if active then 1 else 0, active,
                          if active then Some(c.status) else None,
                          if active then Some(c.priority) else None);
      cells := cells + [cell];
    }
    row := GanttRow(c.name, cells);
  }

  /** `ganttData` at instant `now`: the sorted projection, one row per task, each cell
      marking whether its day lies between the task's start and end. */
  method GanttData(ts: seq<Task>, now: int, offsets: seq<StartOffset>) returns (rows: seq<GanttRow>)
    requires |offsets| == |ts|
    ensures var sorted := SortByEnd(ChartData(ts, now, offsets));
      |rows| == |ts| && |sorted| == |ts| &&
      forall i :: 0 <= i < |rows| ==> RowProjects(rows[i], sorted[i], DateWindow(now))
  {
    var sorted := SortByEnd(ChartData(ts, now, offsets));
    assert |sorted| == |ts| by {
      assert |multiset(sorted)| == |multiset(ChartData(ts, now, offsets))|;
    }
    var days := DateWindow(now);
    rows := [];
    for i := 0 to |sorted|
      invariant |rows| == i
      invariant forall j :: 0 <= j < i ==> RowProjects(rows[j], sorted[j], days)
    {
      var row := BuildRow(sorted[i], days);
      rows := rows + [row];
    }
  }

  /** The projection keeps every task: the sorted data holds exactly the projected entries,
      so each task's due date is the end of exactly as many rows as it has copies. */
  lemma SortedIsPermutation(ts: seq<Task>, now: int, offsets: seq<StartOffset>)
    requires |offsets| == |ts|
    ensures |SortByEnd(ChartData(ts, now, offsets))| == |ts|
    ensures forall i :: 0 <= i < |ts| ==> Project(ts[i], now, offsets[i]) in SortByEnd(ChartData(ts, now, offsets))
  {
    var data := ChartData(ts, now, offsets);
    var sorted := SortByEnd(data);
    assert |multiset(sorted)| == |multiset(data)|;
    forall i | 0 <= i < |ts|
      ensures Project(ts[i], now, offsets[i]) in sorted
    {
      assert data[i] in multiset(data);
    }
  }

  const Green: string := "#22c55e"
  const Blue: string := "#3b82f6"
  const Red: string := "#ef4444"
  const Orange: string := "#f97316"
  const Grey: string := "#a8a29e"

  /** `getBarColor`: done is green and in progress blue whatever the priority; any other
      status is coloured by priority, grey for low and for anything unknown. */
  function BarColor(status: string, priority: string): (colour: string)
    ensures status == Done ==> colour == Green
    ensures status == InProgress ==> colour == Blue
    ensures status != Done && status != InProgress ==>
      colour == (if priority == High then Red else if priority == Medium then Orange else Grey)
  {
    if status == Done then Green
    else if status == InProgress then Blue
    else if priority == High then Red
    else if priority == Medium then Orange
    else if priority == Low then Grey
    else Grey
  }

  /** Only the not-started colours depend on the priority, and those are all different. */
  lemma BarColorDistinct(status: string, p: string, q: string)
    ensures (status == Done || status == InProgress) ==> BarColor(status, p) == BarColor(status, q)
    ensures status != Done && status != InProgress && IsKnownPriority(p) && IsKnownPriority(q) && p != q
            ==> BarColor(status, p) != BarColor(status, q)
  {
  }

  /** `formatYAxisTick`: names up to 15 characters are shown whole, longer ones cut to their
      first 15 characters followed by "...". */
  function FormatYAxisTick(name: string): (tick: string)
    ensures |name| <= 15 ==> tick == name
    ensures |name| > 15 ==> |tick| == 18 && tick[..15] == name[..15] && tick[15..] == "..."
  {
    if |name| > 15 then name[..15] + "..." else name
  }
}
