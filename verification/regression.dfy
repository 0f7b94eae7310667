/**
 * What one evaluation of a build does, as values: each check yields a
 * verdict (whether it fails the build, and the lines it prints), and the
 * verdicts of the enabled checks are combined in the order they run.
 */
module Regression {
  import opened Model
  import opened Baseline

  /** A coverage drop fails the build only when the current percentage is not above this. */
  const COVERAGE_THRESHOLD: int := 85

  /** What a check does to the build: whether it fails it, and the lines it prints, in order. */
  datatype Verdict = Verdict(fail: bool, log: seq<LogEntry>)

  /** The verdict of a check that does nothing. */
  const Silent: Verdict := Verdict(false, [])

  /** One check run after another. */
  function Then(first: Verdict, second: Verdict): Verdict
  {
    Verdict(first.fail || second.fail, first.log + second.log)
  }

  /**
   * The build's result after a check with verdict v: a failing check asks the
   * host for FAILURE, which the host records only over a better result; a
   * passing check leaves the result alone.
   */
  function Apply(v: Verdict, result: Outcome): (r: Outcome)
    ensures r == result || r == Failure
    ensures !IsWorseThan(result, r)
    ensures r != result <==> v.fail && IsWorseThan(Failure, result)
    ensures r == Failure <==> result == Failure || (v.fail && IsWorseThan(Failure, result))
  {
    if v.fail && IsWorseThan(Failure, result) then Failure else result
  }

  /** The check flags of one checker. */
  datatype Config = Config(pmd: bool, findbugs: bool, checkstyle: bool, cobertura: bool)

  /** Whether the warning check of a tool is switched on. */
  function Enabled(config: Config, tool: Tool): bool
  {
    match tool
    case Pmd => config.pmd
    case FindBugs => config.findbugs
    case Checkstyle => config.checkstyle
  }

  /** What a log line weighs in Unexcused: a regression line one, a threshold note minus one. */
  function Weight(e: LogEntry): int
  {
    match e
    case WarningRegression(_, _, _) => 1
    case CoverageRegression(_, _, _) => 1
    case AboveThreshold(_, _) => -1
  }

  /**
   * The regression lines of a log that no threshold note excuses: each
   * warning regression and coverage regression counts one, each
   * above-threshold note takes one away.
   */
  function Unexcused(log: seq<LogEntry>): int
  {
    if log == [] then 0 else Weight(log[0]) + Unexcused(log[1..])
  }

  lemma {:induction false} UnexcusedAppend(a: seq<LogEntry>, b: seq<LogEntry>)
    ensures Unexcused(a + b) == Unexcused(a) + Unexcused(b)
  {
    if a == [] {
      assert a + b == b;
    } else {
      assert (a + b)[0] == a[0];
      assert (a + b)[1..] == a[1..] + b;
      UnexcusedAppend(a[1..], b);
    }
  }

  /**
   * A verdict explains itself when it fails exactly if its log holds a
   * regression line that no threshold note excuses, and never holds more
   * notes than regression lines.
   */
  predicate Explained(v: Verdict)
  {
    Unexcused(v.log) >= 0 && (v.fail <==> Unexcused(v.log) > 0)
  }

  lemma ThenExplained(a: Verdict, b: Verdict)
    requires Explained(a) && Explained(b)
    ensures Explained(Then(a, b))
  {
    UnexcusedAppend(a.log, b.log);
  }

  /**
   * The warning check of one tool. It does nothing unless the current build
   * has the tool's result, an earlier build succeeded, and the latest such
   * build has the tool's result too; then it fails the build and prints one
   * line when the number of warnings went up.
   */
  function WarningCheck(previous: seq<BuildRecord>, actions: Actions, tool: Tool): (v: Verdict)
    ensures v.fail <==> v.log != []
    ensures v.fail ==>
      && tool in actions.warnings
      && LatestSuccessful(previous).Some?
      && var base := previous[LatestSuccessful(previous).value];
      && tool in base.actions.warnings
      && actions.warnings[tool] > base.actions.warnings[tool]
      && v.log == [WarningRegression(tool, base.number, actions.warnings[tool] - base.actions.warnings[tool])]
    ensures Explained(v)
  {
    if tool !in actions.warnings then Silent
    else match LatestSuccessful(previous)
      case None => Silent
      case Some(j) =>
        if tool !in previous[j].actions.warnings then Silent
        else
          var diff := actions.warnings[tool] as int - previous[j].actions.warnings[tool];
          if diff > 0 then Verdict(true, [WarningRegression(tool, previous[j].number, diff)])
          else Silent
  }

  /** The text that names a coverage metric in a regression line. */
  function MetricText(metric: CoverageMetric): (text: string)
    ensures metric == Conditional ==> text == "branchcoverage "
    ensures metric == Line ==> text == "linecoverage "
    ensures metric != Conditional && metric != Line ==> text == "coverage"
  {
    match metric
    case Conditional => "branchcoverage "
    case Line => "linecoverage "
    case _ => "coverage"
  }

  /**
   * The coverage check of one metric against the baseline build numbered
   * baselineNumber: a drop is always reported, and fails the build unless
   * the current percentage is above the threshold, in which case a note
   * says so instead.
   */
  function CoverageMetricCheck(current: CoverageResult, baseline: CoverageResult,
                               metric: CoverageMetric, baselineNumber: int): (v: Verdict)
    ensures v.log == [] <==> baseline.percentage(metric) <= current.percentage(metric)
    ensures v.fail <==>
      current.percentage(metric) < baseline.percentage(metric) &&
      current.percentage(metric) <= COVERAGE_THRESHOLD as real
    ensures v.log != [] ==> v.log[0] == CoverageRegression(baselineNumber,
      baseline.percentage(metric) - current.percentage(metric), MetricText(metric))
    ensures Explained(v)
  {
    var diff := baseline.percentage(metric) - current.percentage(metric);
    if diff > 0.0 then
      var regression := CoverageRegression(baselineNumber, diff, MetricText(metric));
      if current.percentage(metric) > COVERAGE_THRESHOLD as real then
        var note := AboveThreshold(baselineNumber, COVERAGE_THRESHOLD);
        assert Unexcused([regression, note]) == 0 by {
          assert [regression, note][1..] == [note] && [note][1..] == [];
          assert Weight(regression) == 1 && Weight(note) == -1;
          assert Unexcused([note]) == -1;
        }
        Verdict(false, [regression, note])
      else
        Verdict(true, [regression])
    else Silent
  }

  /**
   * The coverage check. It does nothing unless the current build has a
   * coverage result, an earlier build succeeded and the latest such build has
   * a coverage result too; then it checks branch coverage and then line
   * coverage against it.
   */
  function CoverageCheck(previous: seq<BuildRecord>, actions: Actions): (v: Verdict)
    ensures v.fail ==>
      && actions.coverage.Some?
      && LatestSuccessful(previous).Some?
      && previous[LatestSuccessful(previous).value].actions.coverage.Some?
    ensures Explained(v)
  {
    match actions.coverage
    case None => Silent
    case Some(current) =>
      match LatestSuccessful(previous)
      case None => Silent
      case Some(j) =>
        match previous[j].actions.coverage
        case None => Silent
        case Some(baseline) =>
          var branch := CoverageMetricCheck(current, baseline, Conditional, previous[j].number);
          var line := CoverageMetricCheck(current, baseline, Line, previous[j].number);
          ThenExplained(branch, line);
          Then(branch, line)
  }

  /** The warning checks of the enabled tools: PMD, then FindBugs, then Checkstyle. */
  function StatisticalCodeAnalysisCheck(config: Config, previous: seq<BuildRecord>, actions: Actions): (v: Verdict)
    ensures Explained(v)
  {
    var pmd := if config.pmd then WarningCheck(previous, actions, Pmd) else Silent;
    var findbugs := if config.findbugs then WarningCheck(previous, actions, FindBugs) else Silent;
    var checkstyle := if config.checkstyle then WarningCheck(previous, actions, Checkstyle) else Silent;
    ThenExplained(pmd, findbugs);
    ThenExplained(Then(pmd, findbugs), checkstyle);
    Then(Then(pmd, findbugs), checkstyle)
  }

  /**
   * One evaluation of a build: the warning checks, then the coverage check.
   * Every failure is explained by a regression line in the log.
   */
  function Evaluate(config: Config, previous: seq<BuildRecord>, actions: Actions): (v: Verdict)
    ensures Explained(v)
  {
    var warnings := StatisticalCodeAnalysisCheck(config, previous, actions);
    var coverage := if config.cobertura then CoverageCheck(previous, actions) else Silent;
    ThenExplained(warnings, coverage);
    Then(warnings, coverage)
  }

  /** An evaluation fails the build exactly when some enabled check fails. */
  lemma EvaluateFailsIff(config: Config, previous: seq<BuildRecord>, actions: Actions)
    ensures Evaluate(config, previous, actions).fail <==>
      || (exists tool :: Enabled(config, tool) && WarningCheck(previous, actions, tool).fail)
      || (config.cobertura && CoverageCheck(previous, actions).fail)
  {
  }
}
