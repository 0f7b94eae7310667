/**
 * What the checker promises, stated over the evaluation functions: the
 * decision rule of each check, its silence when data is missing or the check
 * is off, the independence of the checks, and the scenarios the checker was
 * written for.
 */
module Properties {
  import opened Model
  import opened Baseline
  import opened Regression
  import opened Checker

  // ---- Warning checks ----

  /**
   * With the tool's result on the current build and on the baseline, the
   * check fails exactly when the number of warnings strictly increased, and
   * then prints one line naming the tool, the baseline and the increase;
   * otherwise it prints nothing.
   */
  lemma WarningRegressionIff(previous: seq<BuildRecord>, actions: Actions, tool: Tool, j: nat)
    requires tool in actions.warnings
    requires LatestSuccessful(previous) == Some(j)
    requires tool in previous[j].actions.warnings
    ensures var v := WarningCheck(previous, actions, tool);
      && (v.fail <==> actions.warnings[tool] > previous[j].actions.warnings[tool])
      && (v.fail ==> v.log == [WarningRegression(tool, previous[j].number,
                                 actions.warnings[tool] - previous[j].actions.warnings[tool])])
      && (!v.fail ==> v.log == [])
  {
  }

  /**
   * A missing result on the current build, no earlier successful build, or a
   * baseline without the tool's result: the check prints nothing and fails
   * nothing.
   */
  lemma WarningMissingDataSilent(previous: seq<BuildRecord>, actions: Actions, tool: Tool)
    requires || tool !in actions.warnings
             || LatestSuccessful(previous).None?
             || tool !in previous[LatestSuccessful(previous).value].actions.warnings
    ensures WarningCheck(previous, actions, tool) == Silent
  {
  }

  /** More warnings on the current build never turn a failing warning check into a passing one. */
  lemma WarningMonotone(previous: seq<BuildRecord>, warnings: map<Tool, nat>,
                        coverage: Option<CoverageResult>, tool: Tool, more: nat)
    requires tool in warnings && warnings[tool] <= more
    requires WarningCheck(previous, Actions(warnings, coverage), tool).fail
    ensures WarningCheck(previous, Actions(warnings[tool := more], coverage), tool).fail
  {
  }

  // ---- Coverage checks ----

  /** Coverage that held or improved prints nothing and fails nothing, whatever the threshold. */
  lemma CoverageHeldIsSilent(current: CoverageResult, baseline: CoverageResult,
                             metric: CoverageMetric, baselineNumber: int)
    requires baseline.percentage(metric) <= current.percentage(metric)
    ensures CoverageMetricCheck(current, baseline, metric, baselineNumber) == Silent
  {
  }

  /**
   * A drop is always reported. At or below the threshold it fails the build
   * and prints only the regression line; above it, it leaves the build alone
   * and prints a threshold note after the regression line.
   */
  lemma CoverageDropRule(current: CoverageResult, baseline: CoverageResult,
                         metric: CoverageMetric, baselineNumber: int)
    requires current.percentage(metric) < baseline.percentage(metric)
    ensures var v := CoverageMetricCheck(current, baseline, metric, baselineNumber);
      var regression := CoverageRegression(baselineNumber,
        baseline.percentage(metric) - current.percentage(metric), MetricText(metric));
      && (current.percentage(metric) <= COVERAGE_THRESHOLD as real ==> v == Verdict(true, [regression]))
      && (current.percentage(metric) > COVERAGE_THRESHOLD as real ==>
            v == Verdict(false, [regression, AboveThreshold(baselineNumber, COVERAGE_THRESHOLD)]))
  {
  }

  /** The boundary belongs to failure: a drop to exactly the threshold fails the build. */
  lemma CoverageExactlyAtThresholdFails(current: CoverageResult, baseline: CoverageResult,
                                        metric: CoverageMetric, baselineNumber: int)
    requires current.percentage(metric) == COVERAGE_THRESHOLD as real < baseline.percentage(metric)
    ensures CoverageMetricCheck(current, baseline, metric, baselineNumber).fail
  {
  }

  /**
   * Less current coverage, against the same baseline, never turns a failing
   * coverage check into a passing one.
   */
  lemma CoverageMonotone(current: CoverageResult, lower: CoverageResult, baseline: CoverageResult,
                         metric: CoverageMetric, baselineNumber: int)
    requires lower.percentage(metric) <= current.percentage(metric)
    requires CoverageMetricCheck(current, baseline, metric, baselineNumber).fail
    ensures CoverageMetricCheck(lower, baseline, metric, baselineNumber).fail
  {
  }

  /**
   * With coverage on both builds, the coverage check is the branch coverage
   * check followed by the line coverage check against the same baseline, and
   * either one failing fails it.
   */
  lemma BothMetricsEvaluated(previous: seq<BuildRecord>, actions: Actions, j: nat,
                             current: CoverageResult, baseline: CoverageResult)
    requires actions.coverage == Some(current)
    requires LatestSuccessful(previous) == Some(j)
    requires previous[j].actions.coverage == Some(baseline)
    ensures var branch := CoverageMetricCheck(current, baseline, Conditional, previous[j].number);
      var line := CoverageMetricCheck(current, baseline, Line, previous[j].number);
      var v := CoverageCheck(previous, actions);
      && v.log == branch.log + line.log
      && (v.fail <==> branch.fail || line.fail)
  {
  }

  /**
   * No coverage on the current build, no earlier successful build, or a
   * baseline without coverage: the coverage check prints nothing and fails
   * nothing.
   */
  lemma CoverageMissingDataSilent(previous: seq<BuildRecord>, actions: Actions)
    requires || actions.coverage.None?
             || LatestSuccessful(previous).None?
             || previous[LatestSuccessful(previous).value].actions.coverage.None?
    ensures CoverageCheck(previous, actions) == Silent
  {
  }

  // ---- The whole evaluation ----

  /** With every check switched off an evaluation prints nothing and fails nothing. */
  lemma DisabledChecksSilent(previous: seq<BuildRecord>, actions: Actions)
    ensures Evaluate(Config(false, false, false, false), previous, actions) == Silent
  {
  }

  /**
   * Switching the coverage check on adds exactly its own verdict after the
   * warning checks and takes nothing away from them.
   */
  lemma CoverageAddsItsOwnVerdict(config: Config, previous: seq<BuildRecord>, actions: Actions)
    requires config.cobertura
    ensures var on := Evaluate(config, previous, actions);
      var off := Evaluate(config.(cobertura := false), previous, actions);
      var coverage := CoverageCheck(previous, actions);
      && on.log == off.log + coverage.log
      && (on.fail <==> off.fail || coverage.fail)
  {
  }

  /**
   * Switching the PMD check on puts exactly its own verdict before the other
   * warning checks and takes nothing away from them.
   */
  lemma PmdAddsItsOwnVerdict(config: Config, previous: seq<BuildRecord>, actions: Actions)
    requires config.pmd
    ensures var on := StatisticalCodeAnalysisCheck(config, previous, actions);
      var off := StatisticalCodeAnalysisCheck(Config(false, config.findbugs, config.checkstyle, config.cobertura), previous, actions);
      var pmd := WarningCheck(previous, actions, Pmd);
      on.log == pmd.log + off.log && (on.fail <==> pmd.fail || off.fail)
  {
  }

  /**
   * The warning log is the log of the PMD check, then the FindBugs check, then
   * the Checkstyle check, each present only when its flag is on: a check that
   * is switched off prints nothing.
   */
  lemma WarningLogDecomposes(config: Config, previous: seq<BuildRecord>, actions: Actions)
    ensures StatisticalCodeAnalysisCheck(config, previous, actions).log ==
      (if config.pmd then WarningCheck(previous, actions, Pmd).log else []) +
      (if config.findbugs then WarningCheck(previous, actions, FindBugs).log else []) +
      (if config.checkstyle then WarningCheck(previous, actions, Checkstyle).log else [])
  {
  }

  /**
   * The build's result after an evaluation is its old result or FAILURE and is
   * never better than before. A result worse than FAILURE (NOT_BUILT, ABORTED)
   * is kept. The build is FAILURE afterwards exactly when it already was, or
   * some enabled check failed and its result was SUCCESS or UNSTABLE.
   */
  lemma ResultOnlyMovesToFailure(config: Config, previous: seq<BuildRecord>, actions: Actions,
                                 result: Outcome)
    ensures var r := Apply(Evaluate(config, previous, actions), result);
      && (r == result || r == Failure)
      && !IsWorseThan(result, r)
      && (IsWorseThan(result, Failure) ==> r == result)
      && (r == Failure <==>
            || result == Failure
            || ((result == Success || result == Unstable) &&
                (|| (exists tool :: Enabled(config, tool) && WarningCheck(previous, actions, tool).fail)
                 || (config.cobertura && CoverageCheck(previous, actions).fail))))
  {
    EvaluateFailsIff(config, previous, actions);
  }

  // ---- Scenarios ----

  /** A coverage result with the given branch and line percentages and 0 for the other metrics. */
  function Coverage(branch: real, line: real): CoverageResult
  {
    CoverageResult(m => if m == Conditional then branch else if m == Line then line else 0.0)
  }

  /**
   * Builds 1 and 2 succeeded with 5 warnings each and build 3 has 8: the
   * baseline is build 2 and the check reports an increase of 3 and fails.
   */
  lemma WarningIncreaseScenario()
    ensures var previous := [BuildRecord(1, Success, Actions(map[Pmd := 5], None)),
                             BuildRecord(2, Success, Actions(map[Pmd := 5], None))];
      Evaluate(Config(true, false, false, false), previous, Actions(map[Pmd := 8], None))
        == Verdict(true, [WarningRegression(Pmd, 2, 3)])
  {
  }

  /**
   * Line coverage falls from 90 to 86 percent: reported but excused by the
   * threshold. From 90 to 84: reported as a drop of 6 and the build fails.
   */
  lemma ThresholdScenario()
    ensures CoverageMetricCheck(Coverage(0.0, 86.0), Coverage(0.0, 90.0), Line, 7)
      == Verdict(false, [CoverageRegression(7, 4.0, "linecoverage "), AboveThreshold(7, 85)])
    ensures CoverageMetricCheck(Coverage(0.0, 84.0), Coverage(0.0, 90.0), Line, 7)
      == Verdict(true, [CoverageRegression(7, 6.0, "linecoverage ")])
    ensures CoverageMetricCheck(Coverage(0.0, 75.0), Coverage(0.0, 70.0), Line, 7) == Silent
  {
  }

  /**
   * A project whose first build succeeded without coverage and whose second
   * succeeded with coverage, checked with PMD, Checkstyle and coverage on:
   * when the third build's coverage drops at or below the threshold on either
   * metric, the third build fails, and the warning checks stay silent.
   */
  lemma CoverageDecreaseScenario(base: CoverageResult, decreased: CoverageResult)
    requires || (decreased.percentage(Conditional) < base.percentage(Conditional) && decreased.percentage(Conditional) <= 85.0)
             || (decreased.percentage(Line) < base.percentage(Line) && decreased.percentage(Line) <= 85.0)
    ensures var previous := [BuildRecord(1, Success, Actions(map[], None)),
                             BuildRecord(2, Success, Actions(map[], Some(base)))];
      var v := Evaluate(Config(true, false, true, true), previous, Actions(map[], Some(decreased)));
      && v.fail
      && v.log == CoverageCheck(previous, Actions(map[], Some(decreased))).log
  {
  }

  /** The same scenario run through the checker object: the third build ends up FAILURE. */
  method CoverageDecreaseRun(base: CoverageResult, decreased: CoverageResult) returns (result: Outcome)
    requires decreased.percentage(Line) < base.percentage(Line)
    requires decreased.percentage(Line) <= 85.0
    ensures result == Failure
  {
    var checker := new AnalysisRegressionChecker(Some(true), Some(false), Some(true), Some(true));
    var previous := [BuildRecord(1, Success, Actions(map[], None)),
                     BuildRecord(2, Success, Actions(map[], Some(base)))];
    var build := new Build(3, previous, Actions(map[], Some(decreased)), Success);
    var ok := checker.Perform(build);
    assert LatestSuccessful(previous) == Some(1);
    assert CoverageMetricCheck(decreased, base, Line, 2).fail;
    result := build.result;
  }
}
