/**
 * The post-build recorder: after a build finishes it compares the build
 * with the latest successful earlier build and marks it FAILURE when a
 * metric regressed, printing why to the build's log.
 */
module Checker {
  import opened Model
  import opened Baseline
  import opened Regression

  /** A check flag as given to the checker: absent counts as off. */
  function FlagValue(flag: Option<bool>): (on: bool)
    ensures on <==> flag == Some(true)
  {
    flag.Some? && flag.value
  }

  class AnalysisRegressionChecker {
    const checkPmd: bool
    const checkFindbugs: bool
    const checkCheckstyle: bool
    const checkCobertura: bool

    constructor (checkPmd: Option<bool>, checkFindbugs: Option<bool>,
                 checkCheckstyle: Option<bool>, checkCobertura: Option<bool>)
      ensures this.checkPmd == FlagValue(checkPmd)
      ensures this.checkFindbugs == FlagValue(checkFindbugs)
      ensures this.checkCheckstyle == FlagValue(checkCheckstyle)
      ensures this.checkCobertura == FlagValue(checkCobertura)
    {
      this.checkPmd := FlagValue(checkPmd);
      this.checkCheckstyle := FlagValue(checkCheckstyle);
      this.checkFindbugs := FlagValue(checkFindbugs);
      this.checkCobertura := FlagValue(checkCobertura);
    }

    /** The checker's flags as one value. */
    function Configuration(): Config
    {
      Config(checkPmd, checkFindbugs, checkCheckstyle, checkCobertura)
    }

    /**
     * Runs every enabled check on the finished build. The build ends up
     * FAILURE when some check failed it and its result was better than
     * FAILURE, and keeps its result otherwise; the
     * log gains the lines of all checks in order; the answer is always true.
     */
    method Perform(build: Build) returns (ok: bool)
      modifies build
      ensures ok
      ensures build.result == Apply(Evaluate(Configuration(), build.previous, build.actions), old(build.result))
      ensures build.log == old(build.log) + Evaluate(Configuration(), build.previous, build.actions).log
    {
      CheckStatisticalCodeAnalysisRegression(build);
      CheckCoverageRegression(build);
      ok := true;
    }

    /** The warning checks of the enabled tools: PMD, then FindBugs, then Checkstyle. */
    method CheckStatisticalCodeAnalysisRegression(build: Build)
      modifies build
      ensures build.result ==
        Apply(StatisticalCodeAnalysisCheck(Configuration(), build.previous, build.actions), old(build.result))
      ensures build.log ==
        old(build.log) + StatisticalCodeAnalysisCheck(Configuration(), build.previous, build.actions).log
    {
      if checkPmd {
        Check(build, Pmd);
      }
      if checkFindbugs {
        Check(build, FindBugs);
      }
      if checkCheckstyle {
        Check(build, Checkstyle);
      }
    }

    /** The coverage check, when enabled: branch coverage, then line coverage. */
    method CheckCoverageRegression(build: Build)
      modifies build
      ensures build.result ==
        Apply(if checkCobertura then CoverageCheck(build.previous, build.actions) else Silent, old(build.result))
      ensures build.log ==
        old(build.log) + (if checkCobertura then CoverageCheck(build.previous, build.actions) else Silent).log
    {
      if checkCobertura {
        var buildAction := build.actions.coverage;
        if buildAction.Some? {
          var buildResult := buildAction.value;
          var lastSuccessBuild := LatestSuccessfulBuild(build);
          if lastSuccessBuild.Some? {
            var lastSuccessBuildAction := build.previous[lastSuccessBuild.value].actions.coverage;
            if lastSuccessBuildAction.Some? {
              var lastSuccessBuildResult := lastSuccessBuildAction.value;
              var number := build.previous[lastSuccessBuild.value].number;
              CheckCoverageRegressionForCoverageMetric(build, buildResult, lastSuccessBuildResult,
                                                       Conditional, number);
              CheckCoverageRegressionForCoverageMetric(build, buildResult, lastSuccessBuildResult,
                                                       Line, number);
            }
          }
        }
      }
    }

    /**
     * Walks back from the build before the current one to the first build
     * whose result is SUCCESS; None when the history runs out first.
     */
    method LatestSuccessfulBuild(build: Build) returns (baseline: Option<nat>)
      ensures baseline == LatestSuccessful(build.previous)
    {
      // i is one past the position of the build under inspection; 0 stands for no build
      var i := |build.previous|;
      while i > 0 && build.previous[i - 1].result != Success
        invariant 0 <= i <= |build.previous|
        invariant LatestSuccessful(build.previous[..i]) == LatestSuccessful(build.previous)
      {
        LatestSuccessfulSkip(build.previous, i);
        i := i - 1;
      }
      baseline := if i == 0 then None else Some(i - 1);
    }

    /** Compares one coverage metric of the build with the baseline build numbered buildNumber. */
    method CheckCoverageRegressionForCoverageMetric(build: Build, buildResult: CoverageResult,
                                                    lastSuccessBuildResult: CoverageResult,
                                                    coverageMetric: CoverageMetric, buildNumber: int)
      modifies build
      ensures build.result ==
        Apply(CoverageMetricCheck(buildResult, lastSuccessBuildResult, coverageMetric, buildNumber), old(build.result))
      ensures build.log ==
        old(build.log) + CoverageMetricCheck(buildResult, lastSuccessBuildResult, coverageMetric, buildNumber).log
    {
      var diff := lastSuccessBuildResult.percentage(coverageMetric) - buildResult.percentage(coverageMetric);
      if diff > 0.0 {
        build.Println(CoverageRegression(buildNumber, diff, MetricText(coverageMetric)));
        if buildResult.percentage(coverageMetric) > COVERAGE_THRESHOLD as real {
          build.Println(AboveThreshold(buildNumber, COVERAGE_THRESHOLD));
        } else {
          SetBuildStatus(build);
        }
      }
    }

    /** Asks the host to mark the build FAILURE; a worse result already recorded is kept. */
    method SetBuildStatus(build: Build)
      modifies build
      ensures IsWorseThan(Failure, old(build.result)) ==> build.result == Failure
      ensures !IsWorseThan(Failure, old(build.result)) ==> build.result == old(build.result)
      ensures build.log == old(build.log)
    {
      build.SetResult(Failure);
    }

    /** The warning check of one tool. */
    method Check(build: Build, tool: Tool)
      modifies build
      ensures build.result == Apply(WarningCheck(build.previous, build.actions, tool), old(build.result))
      ensures build.log == old(build.log) + WarningCheck(build.previous, build.actions, tool).log
    {
      if tool in build.actions.warnings {
        var lastSuccessfulBuild := LatestSuccessfulBuild(build);
        if lastSuccessfulBuild.Some? {
          var baseline := build.previous[lastSuccessfulBuild.value];
          if tool in baseline.actions.warnings {
            var diff := build.actions.warnings[tool] as int - baseline.actions.warnings[tool];
            if diff > 0 {
              build.Println(WarningRegression(tool, baseline.number, diff));
              SetBuildStatus(build);
              return;
            }
          }
        }
      }
    }
  }
}
