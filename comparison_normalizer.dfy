/**
 * The client side of the comparison request (src/app/config.ts:85-122):
 * a non-ok response becomes an error, and any parsed body is mapped onto
 * the canonical ComparisonResult, every missing field taking a default.
 */
module ComparisonNormalizer {
  import opened Common
  import opened PertTypes

  /** `classical_pert` of the response body; each field may be missing. */
  datatype ClassicalPertSection = ClassicalPertSection(expectedDuration: Option<real>)

  /** `enhanced_pert` of the response body. */
  datatype EnhancedPertSection = EnhancedPertSection(meanDuration: Option<real>, p90: Option<real>, p10: Option<real>)

  /** `comparison` of the response body. */
  datatype ComparisonSection = ComparisonSection(differenceInDays: Option<real>)

  /** A parsed response body: every section, and every field inside it, may be absent. */
  datatype CompareBody = CompareBody(
    classicalPert: Option<ClassicalPertSection>,
    enhancedPert: Option<EnhancedPertSection>,
    comparison: Option<ComparisonSection>)

  /** What `fetch` produced: a rejection, or a response with its `ok` flag and parsed body. */
  datatype FetchOutcome = Rejected(thrown: Thrown) | Responded(ok: bool, body: CompareBody)

  const CompareFailedMessage := "Failed to compare PERT methods"

  /** The body `{}`. */
  const EmptyBody := CompareBody(None, None, None)

  // The optional chains `data.section?.field` of the source.

  function ExpectedDuration(b: CompareBody): Option<real> {
    match b.classicalPert
    case Some(c) => c.expectedDuration
    case None => None
  }

  function MeanDuration(b: CompareBody): Option<real> {
    match b.enhancedPert
    case Some(e) => e.meanDuration
    case None => None
  }

  function P90(b: CompareBody): Option<real> {
    match b.enhancedPert
    case Some(e) => e.p90
    case None => None
  }

  function P10(b: CompareBody): Option<real> {
    match b.enhancedPert
    case Some(e) => e.p10
    case None => None
  }

  function DifferenceInDays(b: CompareBody): Option<real> {
    match b.comparison
    case Some(c) => c.differenceInDays
    case None => None
  }

  /** JavaScript truthiness of an optional number: present and not 0. */
  predicate Truthy(x: Option<real>) {
    x.Some? && x.value != 0.0
  }

  /**
   * The normalised object literal. `??` defaults only absent values, while
   * the percentage is guarded by `&&`, so a zero there counts as absent.
   */
  function Normalize(b: CompareBody): (r: ComparisonResult)
    ensures r.classical.criticalPath == []
    ensures r.comparison.Some?
    ensures r.monteCarlo.meanDuration == r.monteCarlo.percentiles.p50
    ensures r.monteCarlo.stdDev + P10(b).OrElse(0.0) / 2.0 == r.monteCarlo.percentiles.p90
  {
    var d := DifferenceInDays(b);
    var e := ExpectedDuration(b);
    ComparisonResult(
      Classical(e.OrElse(0.0), []),
      MonteCarloSummary(
        MeanDuration(b).OrElse(0.0),
        P90(b).OrElse(0.0) - P10(b).OrElse(0.0) / 2.0,
        Percentiles(MeanDuration(b).OrElse(0.0), P90(b).OrElse(0.0))),
      Some(Comparison(
        d.OrElse(0.0),
        if Truthy(d) && Truthy(e) then d.value / e.value * 100.0 else 0.0)))
  }

  /** `comparePert` after the request: a non-ok response throws, any other response is normalised. */
  function ComparePert(outcome: FetchOutcome): (r: Result<ComparisonResult, Thrown>)
    ensures r.Success? <==> outcome.Responded? && outcome.ok
    ensures outcome.Responded? && outcome.ok ==> r == Success(Normalize(outcome.body))
    ensures outcome.Responded? && !outcome.ok ==> r == Failure(ErrorObject(CompareFailedMessage))
    ensures outcome.Rejected? ==> r == Failure(outcome.thrown)
  {
    match outcome
    case Rejected(t) => Failure(t)
    case Responded(ok, body) =>
      if !ok then Failure(ErrorObject(CompareFailedMessage)) else Success(Normalize(body))
  }

  /** Each copied field is the source field when present and 0 when absent; a present 0 stays 0. */
  lemma CopiedFieldsDefaultToZero(b: CompareBody)
    ensures Normalize(b).classical.projectDuration == (if ExpectedDuration(b).Some? then ExpectedDuration(b).value else 0.0)
    ensures Normalize(b).monteCarlo.meanDuration == (if MeanDuration(b).Some? then MeanDuration(b).value else 0.0)
    ensures Normalize(b).monteCarlo.percentiles.p90 == (if P90(b).Some? then P90(b).value else 0.0)
    ensures Normalize(b).comparison.value.difference == (if DifferenceInDays(b).Some? then DifferenceInDays(b).value else 0.0)
  {
  }

  /** With `p10` missing the approximation degenerates to `p90`. */
  lemma StdDevWithoutP10(b: CompareBody)
    requires P10(b).None?
    ensures Normalize(b).monteCarlo.stdDev == Normalize(b).monteCarlo.percentiles.p90
  {
  }

  /**
   * The percentage is non-zero exactly when both the difference and the
   * expected duration are truthy, and then it is the difference expressed
   * in hundredths of the expected duration.
   */
  lemma PercentageDiffMeaning(b: CompareBody)
    ensures Normalize(b).comparison.value.percentageDiff != 0.0 <==> Truthy(DifferenceInDays(b)) && Truthy(ExpectedDuration(b))
    ensures Truthy(DifferenceInDays(b)) && Truthy(ExpectedDuration(b)) ==>
      Normalize(b).comparison.value.percentageDiff * ExpectedDuration(b).value == DifferenceInDays(b).value * 100.0
  {
    var pd := Normalize(b).comparison.value.percentageDiff;
    if Truthy(DifferenceInDays(b)) && Truthy(ExpectedDuration(b)) {
      var d, e := DifferenceInDays(b).value, ExpectedDuration(b).value;
      assert pd == d / e * 100.0;
      assert pd * e == d * 100.0;
    }
  }

  /** The empty body normalises to all zeros with an empty critical path: normalisation never fails. */
  lemma EmptyBodyNormalizesToZeros()
    ensures Normalize(EmptyBody) ==
      ComparisonResult(
        Classical(0.0, []),
        MonteCarloSummary(0.0, 0.0, Percentiles(0.0, 0.0)),
        Some(Comparison(0.0, 0.0)))
  {
  }

  /** The worked example: expected 10, mean 12, p90 18, p10 6, difference 2. */
  lemma WorkedExample()
    ensures
      var body := CompareBody(
        Some(ClassicalPertSection(Some(10.0))),
        Some(EnhancedPertSection(Some(12.0), Some(18.0), Some(6.0))),
        Some(ComparisonSection(Some(2.0))));
      ComparePert(Responded(true, body)) ==
        Success(ComparisonResult(
          Classical(10.0, []),
          MonteCarloSummary(12.0, 15.0, Percentiles(12.0, 18.0)),
          Some(Comparison(2.0, 20.0))))
  {
  }
}
