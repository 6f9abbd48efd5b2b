/**
 * The PERT results panel (src/app/component/ResultsPanel.tsx:28-226): with
 * no result it shows an empty state; otherwise it derives the critical
 * tasks (zero slack), shows their count, and lists one table row per task
 * timing with a "Critical" flag.
 */
module ResultsPanel {
  import opened Common
  import opened PertTypes

  /** One row of the timing table; `critical` is the "Yes"/"No" badge. */
  datatype Row = Row(timing: TaskTiming, critical: bool)

  /** What the panel derives from its input. */
  datatype Panel =
    | EmptyState
    | Results(criticalCount: nat, criticalTasks: seq<TaskTiming>, rows: seq<Row>)

  /** `task.slack === 0`: the test both the filter and the badge use. */
  predicate IsCritical(t: TaskTiming) {
    t.slack == 0.0
  }

  /** `task_timings.filter((t) => t.slack === 0)`. */
  function CriticalTasks(timings: seq<TaskTiming>): (r: seq<TaskTiming>)
    ensures |r| <= |timings|
    ensures forall t :: t in r <==> t in timings && IsCritical(t)
    decreases |timings|
  {
    if timings == [] then []
    else (if IsCritical(timings[0]) then [timings[0]] else []) + CriticalTasks(timings[1..])
  }

  /** The table body: one row per timing, in input order, flagged when its slack is 0. */
  function Rows(timings: seq<TaskTiming>): (rows: seq<Row>)
    ensures |rows| == |timings|
    ensures forall i :: 0 <= i < |timings| ==> rows[i].timing == timings[i]
    ensures forall i :: 0 <= i < |timings| ==> (rows[i].critical <==> timings[i].slack == 0.0)
  {
    seq(|timings|, i requires 0 <= i < |timings| => Row(timings[i], IsCritical(timings[i])))
  }

  /** The number of rows showing the "Yes" badge. */
  function FlaggedCount(rows: seq<Row>): nat
    decreases |rows|
  {
    if rows == [] then 0 else (if rows[0].critical then 1 else 0) + FlaggedCount(rows[1..])
  }

  /** `PertResults`: the empty state without a result, the derived figures with one. */
  function Render(result: Option<PertResult>): (p: Panel)
    ensures result.None? <==> p.EmptyState?
    ensures p.Results? ==> p.criticalTasks == CriticalTasks(result.value.taskTimings)
    ensures p.Results? ==> p.rows == Rows(result.value.taskTimings)
    ensures p.Results? ==> p.criticalCount == |p.criticalTasks|
  {
    match result
    case None => EmptyState
    case Some(r) =>
      var critical := CriticalTasks(r.taskTimings);
      Results(|critical|, critical, Rows(r.taskTimings))
  }

  /** Filtering a concatenation filters each part: critical tasks keep their input order. */
  lemma {:induction false} CriticalTasksDistribute(a: seq<TaskTiming>, b: seq<TaskTiming>)
    ensures CriticalTasks(a + b) == CriticalTasks(a) + CriticalTasks(b)
    decreases |a|
  {
    if a != [] {
      assert (a + b)[1..] == a[1..] + b;
      CriticalTasksDistribute(a[1..], b);
    } else {
      assert a + b == b;
    }
  }

  /** When every timing has zero slack, all of them are critical, in order. */
  lemma {:induction false} AllCriticalKept(timings: seq<TaskTiming>)
    requires forall i :: 0 <= i < |timings| ==> timings[i].slack == 0.0
    ensures CriticalTasks(timings) == timings
    decreases |timings|
  {
    if timings != [] {
      AllCriticalKept(timings[1..]);
    }
  }

  /** The critical count shown on the card equals the number of rows flagged "Yes". */
  lemma {:induction false} CountMatchesFlags(timings: seq<TaskTiming>)
    ensures |CriticalTasks(timings)| == FlaggedCount(Rows(timings))
    decreases |timings|
  {
    if timings != [] {
      assert Rows(timings)[1..] == Rows(timings[1..]);
      CountMatchesFlags(timings[1..]);
    }
  }

  /** A row is flagged exactly when its task is among the critical tasks. */
  lemma FlagAgreesWithFilter(timings: seq<TaskTiming>, i: nat)
    requires i < |timings|
    ensures Rows(timings)[i].critical <==> timings[i] in CriticalTasks(timings)
  {
  }
}
