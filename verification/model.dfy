/**
 * The data the regression checker reads and writes: the earlier builds of a
 * project, the analysis results attached to each build, the abstract log
 * lines the checker prints, and the build being checked, whose result and log
 * the checker changes in place.
 */
module Model {

  datatype Option<T> = None | Some(value: T)

  /** The result the host records for a build, from best to worst. */
  datatype Outcome = Success | Unstable | Failure | NotBuilt | Aborted

  /** The host's ordering of results: a higher severity is a worse result. */
  function Severity(o: Outcome): nat
  {
    match o
    case Success => 0
    case Unstable => 1
    case Failure => 2
    case NotBuilt => 3
    case Aborted => 4
  }

  /** Whether result a is worse than result b in the host's ordering. */
  predicate IsWorseThan(a: Outcome, b: Outcome)
  {
    Severity(a) > Severity(b)
  }

  /** The static-analysis tools whose warning counts are compared. */
  datatype Tool = Pmd | FindBugs | Checkstyle

  /** The metrics of a Cobertura coverage report. */
  datatype CoverageMetric = Packages | Files | Classes | Method | Line | Conditional

  /** A Cobertura coverage result: a percentage for each metric. */
  datatype CoverageResult = CoverageResult(percentage: CoverageMetric -> real)

  /**
   * The analysis actions attached to a build: the number of warnings of each
   * tool whose result action is present, and the coverage result when the
   * Cobertura action is present.
   */
  datatype Actions = Actions(warnings: map<Tool, nat>, coverage: Option<CoverageResult>)

  /** A finished earlier build, as the history shows it. */
  datatype BuildRecord = BuildRecord(number: int, result: Outcome, actions: Actions)

  /** One line printed to the build log, kept abstract (no localisation, no number formatting). */
  datatype LogEntry =
    | WarningRegression(tool: Tool, baseline: int, increase: int)
    | CoverageRegression(baseline: int, decrease: real, metricText: string)
    | AboveThreshold(baseline: int, threshold: int)

  /** Build numbers increase strictly along the history and stay below the current number. */
  ghost predicate Chronological(previous: seq<BuildRecord>, current: int)
  {
    && (forall i, j :: 0 <= i < j < |previous| ==> previous[i].number < previous[j].number)
    && (forall i :: 0 <= i < |previous| ==> previous[i].number < current)
  }

  /**
   * The build being checked, together with the log of its listener. The
   * earlier builds are the history before it, oldest first, so that the last
   * one is the build the host returns as its previous build.
   */
  class Build {
    const number: int
    const previous: seq<BuildRecord>
    const actions: Actions
    var result: Outcome
    var log: seq<LogEntry>

    constructor (number: int, previous: seq<BuildRecord>, actions: Actions, result: Outcome)
      ensures this.number == number && this.previous == previous && this.actions == actions
      ensures this.result == result && log == []
    {
      this.number := number;
      this.previous := previous;
      this.actions := actions;
      this.result := result;
      log := [];
    }

    /**
     * Records a new result for this build, as the host does: a result can
     * only get worse, so r is kept only when it is worse than the current one.
     */
    method SetResult(r: Outcome)
      modifies this
      ensures IsWorseThan(r, old(result)) ==> result == r
      ensures !IsWorseThan(r, old(result)) ==> result == old(result)
      ensures log == old(log)
    {
      if IsWorseThan(r, result) {
        result := r;
      }
    }

    /** Prints one line to the build's log. */
    method Println(e: LogEntry)
      modifies this
      ensures log == old(log) + [e] && result == old(result)
    {
      log := log + [e];
    }
  }
}
