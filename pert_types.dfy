/**
 * The records exchanged with the analysis service (src/app/config.ts:3-53).
 * Numbers are exact reals: the dashboard only adds, subtracts, multiplies,
 * divides and floors them.
 */
module PertTypes {
  import Common

  /** A task with its three-point estimate and the ids it depends on. */
  datatype Task = Task(
    id: string,
    optimistic: real,
    mostLikely: real,
    pessimistic: real,
    dependencies: seq<string>)

  /** The schedule the analysis service computed for one task. */
  datatype TaskTiming = TaskTiming(
    id: string,
    duration: real,
    earlyStart: real,
    earlyFinish: real,
    lateStart: real,
    lateFinish: real,
    slack: real)

  /** Summary of the Monte Carlo simulation, with every simulated project duration. */
  datatype MonteCarloResult = MonteCarloResult(
    mean: real,
    p50: real,
    p80: real,
    p95: real,
    durations: seq<real>)

  /** The answer to a PERT analysis request. */
  datatype PertResult = PertResult(
    projectDuration: real,
    taskTimings: seq<TaskTiming>,
    criticalPaths: seq<seq<string>>,
    monteCarlo: MonteCarloResult)

  datatype Classical = Classical(projectDuration: real, criticalPath: seq<string>)

  /** The `percentiles` object, keyed 50 and 90 in the source. */
  datatype Percentiles = Percentiles(p50: real, p90: real)

  datatype MonteCarloSummary = MonteCarloSummary(meanDuration: real, stdDev: real, percentiles: Percentiles)

  datatype Comparison = Comparison(difference: real, percentageDiff: real)

  /** The canonical comparison of classical PERT with the simulation; `comparison` is optional in the type. */
  datatype ComparisonResult = ComparisonResult(
    classical: Classical,
    monteCarlo: MonteCarloSummary,
    comparison: Common.Option<Comparison>)
}
