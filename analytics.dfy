/** The analytics page (src/pages/AnalyticsPage.tsx): minutes per project for the
    pie chart, the daily series for the bar chart, the task counts per status for
    the doughnut chart and the overall total split into hours and minutes. */
module Analytics {
  import opened Domain
  import opened Seqs
  import opened Totals

  /** One chart entry: `{ name, value, color }`. */
  datatype Slice = Slice(name: string, value: int, color: string)

  function SumValues(es: seq<Slice>): int
  {
    if es == [] then 0 else es[0].value + SumValues(es[1..])
  }

  /** `.filter((p) => p.value > 0)`. */
  function Positive(): Slice -> bool
  {
    (e: Slice) => e.value > 0
  }

  /** Dropping the empty entries does not change the sum when no value is negative. */
  lemma {:induction false} SumValuesPositive(es: seq<Slice>)
    requires forall i :: 0 <= i < |es| ==> es[i].value >= 0
    ensures SumValues(Filter(Positive(), es)) == SumValues(es)
  {
    if es != [] {
      SumValuesPositive(es[1..]);
      if es[0].value > 0 {
        assert ([es[0]] + Filter(Positive(), es[1..]))[1..] == Filter(Positive(), es[1..]);
      }
    }
  }

  /* ---------- time per project ---------- */

  /** `tasks.filter((t) => t.proyecto.id === project.id)`. */
  function ProjectTasks(p: Project, tasks: seq<Task>): seq<Task>
  {
    Filter((t: Task) => t.project.id == p.id, tasks)
  }

  /** `timeRecords.filter((tr) => tareasProyecto.some((t) => t.id === tr.tarea.id))`. */
  function WorkedOn(ts: seq<Task>): TimeRecord -> bool
  {
    (r: TimeRecord) => exists t :: t in ts && t.id == r.task.id
  }

  /** The records counted for a project. */
  function ProjectFilter(p: Project, tasks: seq<Task>): TimeRecord -> bool
  {
    WorkedOn(ProjectTasks(p, tasks))
  }

  /** The pie entry of one project, before empty entries are dropped. */
  function ProjectEntry(p: Project, tasks: seq<Task>, rs: seq<TimeRecord>): Slice
  {
    Slice(p.name, SumMinutes(Filter(ProjectFilter(p, tasks), rs)), p.color)
  }

  /** `projects.map(...)`: one entry per project, in project order. */
  function ProjectEntries(ps: seq<Project>, tasks: seq<Task>, rs: seq<TimeRecord>): (es: seq<Slice>)
    ensures |es| == |ps|
    ensures forall i :: 0 <= i < |ps| ==> es[i] == ProjectEntry(ps[i], tasks, rs)
  {
    if ps == [] then [] else [ProjectEntry(ps[0], tasks, rs)] + ProjectEntries(ps[1..], tasks, rs)
  }

  /** `tiempoPorProyecto`. */
  function TimePerProject(ps: seq<Project>, tasks: seq<Task>, rs: seq<TimeRecord>): (es: seq<Slice>)
    ensures |es| <= |ps|
    ensures forall i :: 0 <= i < |es| ==> es[i].value > 0
  {
    Filter(Positive(), ProjectEntries(ps, tasks, rs))
  }

  /** A record counts for a project exactly when one of that project's tasks has the record's task id. */
  lemma ProjectFilterMeaning(p: Project, tasks: seq<Task>, r: TimeRecord)
    ensures ProjectFilter(p, tasks)(r) <==>
      exists t :: t in tasks && t.project.id == p.id && t.id == r.task.id
  {
    var ts := ProjectTasks(p, tasks);
    if ProjectFilter(p, tasks)(r) {
      var t :| t in ts && t.id == r.task.id;
      assert t in tasks && t.project.id == p.id;
    }
    if exists t :: t in tasks && t.project.id == p.id && t.id == r.task.id {
      var t :| t in tasks && t.project.id == p.id && t.id == r.task.id;
      assert t in ts;
    }
  }

  /** Every entry shown has time, comes from a listed project, and keeps project order; every
      project with time is shown. */
  lemma TimePerProjectEntries(ps: seq<Project>, tasks: seq<Task>, rs: seq<TimeRecord>)
    ensures forall e :: e in TimePerProject(ps, tasks, rs) ==>
      e.value > 0 && exists p :: p in ps && e == ProjectEntry(p, tasks, rs)
    ensures forall p :: p in ps && ProjectEntry(p, tasks, rs).value > 0 ==>
      ProjectEntry(p, tasks, rs) in TimePerProject(ps, tasks, rs)
    ensures IsSubsequence(TimePerProject(ps, tasks, rs), ProjectEntries(ps, tasks, rs))
  {
    var es := ProjectEntries(ps, tasks, rs);
    forall e | e in TimePerProject(ps, tasks, rs)
      ensures e.value > 0 && exists p :: p in ps && e == ProjectEntry(p, tasks, rs)
    {
      var i :| 0 <= i < |es| && es[i] == e;
      assert ps[i] in ps;
    }
    forall p | p in ps && ProjectEntry(p, tasks, rs).value > 0
      ensures ProjectEntry(p, tasks, rs) in TimePerProject(ps, tasks, rs)
    {
      var i :| 0 <= i < |ps| && ps[i] == p;
      assert es[i] in es;
    }
    FilterIsSubsequence(Positive(), es);
  }

  /** No two projects share an id (two projects without an id would both match id-less tasks). */
  ghost predicate DistinctIds(ps: seq<Project>)
  {
    forall i, j :: 0 <= i < j < |ps| ==> ps[i].id != ps[j].id
  }

  /** Tasks with the same id belong to the same project. */
  ghost predicate ConsistentTasks(tasks: seq<Task>)
  {
    forall t1, t2 :: t1 in tasks && t2 in tasks && t1.id == t2.id ==> t1.project.id == t2.project.id
  }

  function ProjectFilters(ps: seq<Project>, tasks: seq<Task>): (qs: seq<TimeRecord -> bool>)
    ensures |qs| == |ps|
    ensures forall i :: 0 <= i < |ps| ==> qs[i] == ProjectFilter(ps[i], tasks)
  {
    if ps == [] then [] else [ProjectFilter(ps[0], tasks)] + ProjectFilters(ps[1..], tasks)
  }

  lemma {:induction false} EntriesAreFilterTotals(ps: seq<Project>, tasks: seq<Task>, rs: seq<TimeRecord>)
    ensures SumValues(ProjectEntries(ps, tasks, rs)) == FilterTotals(ProjectFilters(ps, tasks), rs)
  {
    if ps != [] {
      EntriesAreFilterTotals(ps[1..], tasks, rs);
      assert ProjectEntries(ps, tasks, rs)[1..] == ProjectEntries(ps[1..], tasks, rs);
      assert ProjectFilters(ps, tasks)[1..] == ProjectFilters(ps[1..], tasks);
    }
  }

  lemma ProjectFiltersDisjoint(ps: seq<Project>, tasks: seq<Task>)
    requires DistinctIds(ps) && ConsistentTasks(tasks)
    ensures Disjoint(ProjectFilters(ps, tasks))
  {
    var qs := ProjectFilters(ps, tasks);
    forall i, j, r | 0 <= i < j < |qs| && qs[i](r) ensures !qs[j](r) {
      ProjectFilterMeaning(ps[i], tasks, r);
      ProjectFilterMeaning(ps[j], tasks, r);
    }
  }

  /** With distinct project ids, consistent task ids and no negative minutes, no record is
      counted for two projects: the pie values add up to at most the overall total. */
  lemma TimePerProjectBound(ps: seq<Project>, tasks: seq<Task>, rs: seq<TimeRecord>)
    requires DistinctIds(ps) && ConsistentTasks(tasks) && NonNegative(rs)
    ensures SumValues(TimePerProject(ps, tasks, rs)) <= SumMinutes(rs)
  {
    var es := ProjectEntries(ps, tasks, rs);
    forall i | 0 <= i < |es| ensures es[i].value >= 0 {
      FilterNonNegative(ProjectFilter(ps[i], tasks), rs);
    }
    SumValuesPositive(es);
    EntriesAreFilterTotals(ps, tasks, rs);
    ProjectFiltersDisjoint(ps, tasks);
    DisjointFiltersBound(ProjectFilters(ps, tasks), rs);
  }

  lemma FilterNonNegative(q: TimeRecord -> bool, rs: seq<TimeRecord>)
    requires NonNegative(rs)
    ensures SumMinutes(Filter(q, rs)) >= 0
  {
    var kept := Filter(q, rs);
    forall i | 0 <= i < |kept| ensures kept[i].minutes >= 0 {
      assert kept[i] in rs;
    }
    SumNonNegative(kept);
  }

  /* ---------- daily productivity ---------- */

  /** `obtenerUltimosDias(dias)`: the last `count` days, oldest first, ending today. */
  method LastDays(count: int, today: Day) returns (days: seq<Day>)
    ensures |days| == if count > 0 then count else 0
    ensures forall k :: 0 <= k < |days| ==> days[k] == today - (|days| - 1) + k
  {
    days := [];
    var i := count - 1;
    while i >= 0
      invariant count > 0 ==> -1 <= i < count
      invariant |days| == if count > 0 then count - 1 - i else 0
      invariant forall k :: 0 <= k < |days| ==> days[k] == today - (count - 1) + k
    {
      days := days + [today - i];
      i := i - 1;
    }
  }

  /** Consecutive days ending at `today`, as `LastDays` returns them. */
  ghost predicate Consecutive(days: seq<Day>, today: Day)
  {
    forall k :: 0 <= k < |days| ==> days[k] == today - (|days| - 1) + k
  }

  lemma ConsecutiveDays(days: seq<Day>, today: Day)
    requires Consecutive(days, today)
    ensures |days| > 0 ==> days[|days| - 1] == today
    ensures forall k :: 0 < k < |days| ==> days[k] == days[k - 1] + 1
    ensures forall i, j :: 0 <= i < j < |days| ==> days[i] < days[j]
  {
  }

  /** One bar: the day and its minutes (the label and the `horas` float are not modelled). */
  datatype DayPoint = DayPoint(day: Day, minutes: int)

  /** `productividadDiaria`: one point per day, with the minutes of the records of that date. */
  function DailySeries(rs: seq<TimeRecord>, days: seq<Day>): (points: seq<DayPoint>)
    ensures |points| == |days|
    ensures forall k :: 0 <= k < |days| ==> points[k] == DayPoint(days[k], DayTotal(rs, days[k]))
  {
    if days == [] then [] else [DayPoint(days[0], DayTotal(rs, days[0]))] + DailySeries(rs, days[1..])
  }

  function SumPoints(points: seq<DayPoint>): int
  {
    if points == [] then 0 else points[0].minutes + SumPoints(points[1..])
  }

  function DayFilters(days: seq<Day>): (qs: seq<TimeRecord -> bool>)
    ensures |qs| == |days|
    ensures forall i :: 0 <= i < |days| ==> qs[i] == OnDay(days[i])
  {
    if days == [] then [] else [OnDay(days[0])] + DayFilters(days[1..])
  }

  lemma {:induction false} SeriesAreFilterTotals(rs: seq<TimeRecord>, days: seq<Day>)
    ensures SumPoints(DailySeries(rs, days)) == FilterTotals(DayFilters(days), rs)
  {
    if days != [] {
      SeriesAreFilterTotals(rs, days[1..]);
      assert DailySeries(rs, days)[1..] == DailySeries(rs, days[1..]);
      assert DayFilters(days)[1..] == DayFilters(days[1..]);
    }
  }

  /** Over distinct days (such as the consecutive ones of `LastDays`) no record is counted twice,
      so the bars add up to at most the overall total. */
  lemma DailySeriesBound(rs: seq<TimeRecord>, days: seq<Day>)
    requires forall i, j :: 0 <= i < j < |days| ==> days[i] != days[j]
    requires NonNegative(rs)
    ensures SumPoints(DailySeries(rs, days)) <= SumMinutes(rs)
  {
    SeriesAreFilterTotals(rs, days);
    DisjointFiltersBound(DayFilters(days), rs);
  }

  /** The series does not depend on the order of the records. */
  lemma DailySeriesOrderIndependent(a: seq<TimeRecord>, b: seq<TimeRecord>, days: seq<Day>)
    requires multiset(a) == multiset(b)
    ensures DailySeries(a, days) == DailySeries(b, days)
  {
    forall k | 0 <= k < |days| ensures DayTotal(a, days[k]) == DayTotal(b, days[k]) {
      DayTotalOrderIndependent(a, b, days[k]);
    }
  }

  /* ---------- tasks per status ---------- */

  function HasStatus(st: TaskStatus): Task -> bool
  {
    (t: Task) => t.status == st
  }

  /** `tasks.filter((t) => t.estado === st).length`. */
  function CountStatus(tasks: seq<Task>, st: TaskStatus): (n: nat)
    ensures n <= |tasks|
    ensures n > 0 <==> exists t :: t in tasks && t.status == st
  {
    var kept := Filter(HasStatus(st), tasks);
    assert |kept| > 0 ==> kept[0] in tasks && kept[0].status == st;
    |kept|
  }

  const PendingColor := "#6c757d"
  const InProgressColor := "#0dcaf0"
  const CompletedColor := "#198754"

  /** The three buckets in their fixed order, before empty ones are dropped. */
  function StatusBuckets(tasks: seq<Task>): seq<Slice>
  {
    [ Slice("Pendientes", CountStatus(tasks, Pendiente), PendingColor),
      Slice("En Progreso", CountStatus(tasks, EnProgreso), InProgressColor),
      Slice("Completadas", CountStatus(tasks, Completada), CompletedColor) ]
  }

  /** `tareasPorEstado`. */
  function TasksByStatus(tasks: seq<Task>): (es: seq<Slice>)
    ensures |es| <= 3
    ensures forall i :: 0 <= i < |es| ==> 0 < es[i].value <= |tasks|
  {
    Filter(Positive(), StatusBuckets(tasks))
  }

  lemma {:induction false} StatusCountsSum(tasks: seq<Task>)
    ensures CountStatus(tasks, Pendiente) + CountStatus(tasks, EnProgreso) + CountStatus(tasks, Completada)
            == |tasks|
  {
    if tasks != [] {
      StatusCountsSum(tasks[1..]);
    }
  }

  lemma SumOfThree(es: seq<Slice>)
    requires |es| == 3
    ensures SumValues(es) == es[0].value + es[1].value + es[2].value
  {
    var t1, t2 := es[1..], es[2..];
    assert t1[1..] == t2 && t2[1..] == [];
    assert SumValues(t2) == es[2].value + SumValues([]);
    assert SumValues(t1) == es[1].value + SumValues(t2);
  }

  /** Every task falls in exactly one bucket: the doughnut counts add up to the number of tasks. */
  lemma TasksByStatusTotal(tasks: seq<Task>)
    ensures SumValues(TasksByStatus(tasks)) == |tasks|
  {
    StatusCountsSum(tasks);
    SumOfThree(StatusBuckets(tasks));
    SumValuesPositive(StatusBuckets(tasks));
  }

  /** A bucket is shown exactly when some task has that status, and the buckets keep their order. */
  lemma TasksByStatusShown(tasks: seq<Task>)
    ensures StatusBuckets(tasks)[0] in TasksByStatus(tasks) <==> CountStatus(tasks, Pendiente) > 0
    ensures StatusBuckets(tasks)[1] in TasksByStatus(tasks) <==> CountStatus(tasks, EnProgreso) > 0
    ensures StatusBuckets(tasks)[2] in TasksByStatus(tasks) <==> CountStatus(tasks, Completada) > 0
    ensures IsSubsequence(TasksByStatus(tasks), StatusBuckets(tasks))
  {
    var bs := StatusBuckets(tasks);
    assert bs[0] in bs && bs[1] in bs && bs[2] in bs;
    FilterIsSubsequence(Positive(), bs);
  }

  /* ---------- overall total (`tiempoTotal` is `SumMinutes`) ---------- */

  /** `horasTotales` and `minutosTotales`: a non-negative total splits into whole hours and
      fewer than 60 leftover minutes. */
  lemma TotalSplit(rs: seq<TimeRecord>)
    requires NonNegative(rs)
    ensures var (h, m) := HoursAndMinutes(SumMinutes(rs));
            h >= 0 && 0 <= m < 60 && h * 60 + m == SumMinutes(rs)
  {
    SumNonNegative(rs);
  }

  /** The overall total does not depend on the order of the records. */
  lemma TotalOrderIndependent(a: seq<TimeRecord>, b: seq<TimeRecord>)
    requires multiset(a) == multiset(b)
    ensures SumMinutes(a) == SumMinutes(b)
  {
    SumPermutation(a, b);
  }
}
