/**
 * The comparison view (src/app/component/ComparisonView.tsx): the compare
 * button's handler with its empty-list guard and busy flag, and the figures
 * the view derives from a comparison result: the difference of the two
 * estimates, the percentage difference, the "+" prefixes and the
 * interpretation sentence.
 */
module ComparisonView {
  import opened Common
  import opened PertTypes
  import ComparisonNormalizer

  /** A JavaScript number as the view can produce it: finite, infinite, or NaN. */
  datatype JsNumber = Finite(value: real) | PositiveInfinity | NegativeInfinity | NotANumber

  /** `x / y` on finite numbers: a division by 0 gives an infinity, or NaN for 0 / 0. */
  function Divide(x: real, y: real): (q: JsNumber)
    ensures y != 0.0 ==> q == Finite(x / y)
    ensures y == 0.0 ==> (q == PositiveInfinity <==> x > 0.0) && (q == NegativeInfinity <==> x < 0.0) && (q == NotANumber <==> x == 0.0)
  {
    if y != 0.0 then Finite(x / y)
    else if x > 0.0 then PositiveInfinity
    else if x < 0.0 then NegativeInfinity
    else NotANumber
  }

  /** `n * 100`: infinities and NaN stay as they are, and the sign is kept. */
  function Times100(n: JsNumber): (m: JsNumber)
    ensures m.Finite? <==> n.Finite?
    ensures m.Finite? ==> m.value / 100.0 == n.value
    ensures !n.Finite? ==> m == n
    ensures IsPositive(m) <==> IsPositive(n)
  {
    match n
    case Finite(v) => Finite(v * 100.0)
    case _ => n
  }

  /** `n > 0`: true for +Infinity, false for -Infinity and for NaN. */
  function IsPositive(n: JsNumber): (positive: bool)
    ensures n.Finite? ==> (positive <==> n.value > 0.0)
    ensures n == PositiveInfinity ==> positive
    ensures n == NegativeInfinity || n == NotANumber ==> !positive
  {
    match n
    case Finite(v) => v > 0.0
    case PositiveInfinity => true
    case _ => false
  }

  /** `result.monte_carlo.mean_duration - result.classical.project_duration`. */
  function Difference(r: ComparisonResult): (d: real)
    ensures r.classical.projectDuration + d == r.monteCarlo.meanDuration
  {
    r.monteCarlo.meanDuration - r.classical.projectDuration
  }

  /** `(difference / project_duration) * 100`: finite exactly when the classical duration is not 0. */
  function PercentageDiff(r: ComparisonResult): (p: JsNumber)
    ensures p.Finite? <==> r.classical.projectDuration != 0.0
    ensures p.Finite? ==> p.value * r.classical.projectDuration == Difference(r) * 100.0
  {
    Times100(Divide(Difference(r), r.classical.projectDuration))
  }

  /** `value > 0 ? "+" : ""`. */
  function SignPrefix(n: JsNumber): (s: string)
    ensures s == "+" <==> IsPositive(n)
    ensures s == "" <==> !IsPositive(n)
  {
    if IsPositive(n) then "+" else ""
  }

  /** The interpretation sentence: "longer" or "earlier", with the magnitude of the difference. */
  datatype Interpretation = Longer(days: real) | Earlier(days: real)

  function Interpret(difference: real): (i: Interpretation)
    ensures i.Longer? <==> difference > 0.0
    ensures i.days >= 0.0
  {
    if difference > 0.0 then Longer(difference) else Earlier(-difference)
  }

  /** The figures the view shows for a result, or the prompt when there is none. */
  datatype Summary =
    | Prompt
    | Figures(
        difference: real,
        differencePrefix: string,
        percentage: JsNumber,
        percentagePrefix: string,
        interpretation: Interpretation)

  function Summarize(result: Option<ComparisonResult>): (s: Summary)
    ensures s.Prompt? <==> result.None?
    ensures s.Figures? ==>
      && result.value.classical.projectDuration + s.difference == result.value.monteCarlo.meanDuration
      && s.percentage == PercentageDiff(result.value)
      && (s.differencePrefix == "+" <==> s.difference > 0.0)
      && (s.percentagePrefix == "+" <==> IsPositive(s.percentage))
      && s.interpretation == Interpret(s.difference)
  {
    match result
    case None => Prompt
    case Some(r) =>
      var d := Difference(r);
      var p := PercentageDiff(r);
      Figures(d, SignPrefix(Finite(d)), p, SignPrefix(p), Interpret(d))
  }

  /** The sentence and the magnitude it shows give back the difference. */
  lemma InterpretationRecoversDifference(difference: real)
    ensures var i := Interpret(difference);
      difference == (if i.Longer? then i.days else -i.days)
  {
  }

  /**
   * With a non-negative classical duration the two "+" prefixes agree: the
   * percentage is shown as positive exactly when the difference is, even
   * when the division by a zero duration yields an infinity or NaN.
   */
  lemma PrefixesAgree(r: ComparisonResult)
    requires r.classical.projectDuration >= 0.0
    ensures var s := Summarize(Some(r));
      s.percentagePrefix == s.differencePrefix
  {
    var d, base := Difference(r), r.classical.projectDuration;
    if base > 0.0 {
      var q := d / base;
      assert q * base == d;
      assert q > 0.0 <==> d > 0.0;
    }
  }

  /** With a negative classical duration and a non-zero difference the prefixes disagree. */
  lemma PrefixesDisagreeBelowZero(r: ComparisonResult)
    requires r.classical.projectDuration < 0.0 && Difference(r) != 0.0
    ensures var s := Summarize(Some(r));
      s.percentagePrefix != s.differencePrefix
  {
    var d, base := Difference(r), r.classical.projectDuration;
    var q := d / base;
    assert q * base == d;
    assert q > 0.0 <==> d < 0.0;
  }

  const EmptyTasksMessage := "Please add tasks in the Task Management tab first."
  const ComparedMessage := "Classical PERT and Monte Carlo methods have been compared."
  const CompareFallback := "An error occurred while comparing methods"

  /**
   * The view's busy flag, its toasts, and the result handed to
   * `onComparisonResult`. `handleCompare` awaits `comparePert`, so it is two
   * steps: up to the request, and the continuation once the request settles.
   */
  class View {
    var isComparing: bool
    var toasts: seq<Toast>
    var delivered: Option<ComparisonResult>

    constructor ()
      ensures !isComparing && toasts == [] && delivered.None?
    {
      isComparing, toasts, delivered := false, [], None;
    }

    /** Whether the compare button can be pressed: the prompt also needs tasks, the results view does not. */
    function ButtonEnabled(result: Option<ComparisonResult>, tasks: seq<Task>): (enabled: bool)
      reads this
      ensures enabled <==> !isComparing && (result.Some? || tasks != [])
    {
      if result.None? then !isComparing && |tasks| != 0 else !isComparing
    }

    /** `handleCompare` up to `await comparePert(tasks)`: an empty list is refused and nothing is sent. */
    method BeginCompare(tasks: seq<Task>) returns (request: Option<seq<Task>>)
      modifies this`isComparing, this`toasts
      ensures tasks == [] ==> request.None? && isComparing == old(isComparing) && toasts == old(toasts) + [ErrorToast(EmptyTasksMessage)]
      ensures tasks != [] ==> request == Some(tasks) && isComparing && toasts == old(toasts)
    {
      if |tasks| == 0 {
        toasts := toasts + [ErrorToast(EmptyTasksMessage)];
        return None;
      }
      isComparing := true;
      request := Some(tasks);
    }

    /**
     * The continuation: the settled request goes through `comparePert`; a
     * result is delivered, a failure is reported, and `finally` clears the flag.
     */
    method FinishCompare(response: ComparisonNormalizer.FetchOutcome)
      modifies this`isComparing, this`toasts, this`delivered
      ensures !isComparing
      ensures var outcome := ComparisonNormalizer.ComparePert(response);
        && (outcome.Success? ==> delivered == Some(outcome.value) && toasts == old(toasts) + [SuccessToast(ComparedMessage)])
        && (outcome.Failure? ==> delivered == old(delivered) && toasts == old(toasts) + [ErrorToast(CaughtMessage(outcome.error, CompareFallback))])
    {
      var outcome := ComparisonNormalizer.ComparePert(response);
      match outcome {
        case Success(result) =>
          delivered := Some(result);
          toasts := toasts + [SuccessToast(ComparedMessage)];
        case Failure(e) =>
          toasts := toasts + [ErrorToast(CaughtMessage(e, CompareFallback))];
      }
      isComparing := false;
    }
  }

  /** A non-ok response is reported with the message `comparePert` throws, and nothing is delivered. */
  method NonOkScenario(tasks: seq<Task>, body: ComparisonNormalizer.CompareBody)
    requires tasks != []
  {
    var view := new View();
    var request := view.BeginCompare(tasks);
    assert view.isComparing && request == Some(tasks);
    view.FinishCompare(ComparisonNormalizer.Responded(false, body));
    assert !view.isComparing && view.delivered.None?;
    assert view.toasts == [ErrorToast("Failed to compare PERT methods")];
  }
}
