# Build regression checker, modelled in Dafny

A model of `AnalysisRegressionChecker`. This is a post-build recorder for Jenkins.
When a build finishes, it compares the build with the latest earlier build whose result is
SUCCESS (the *baseline*):

- **Warning checks.** For each enabled static-analysis tool (PMD, FindBugs, Checkstyle), it
  compares the number of warnings. If the count strictly increased, it prints a line and marks
  the build FAILURE.
- **Coverage check.** When the Cobertura check is enabled, it compares branch coverage and then
  line coverage. Any drop is printed. The drop fails the build only when the current percentage
  is not above the constant threshold 85. Above 85, a note is printed instead.
- **Missing data.** No result on the current build, no successful earlier build, or a baseline
  without the result: the check does nothing.
- **Monotone result.** The checks only ever ask for FAILURE, and the result never gets better.
  Every enabled check always runs.

## Layout

- `model.dfy` (module `Model`): the data.
  - Build results and tools.
  - Coverage metrics.
  - The analysis results attached to a build.
  - Abstract log lines.
  - The class `Build`: the finished build together with its listener's log. Its `result` and
    `log` are changed in place.
- `baseline.dfy` (module `Baseline`): `LatestSuccessful`, the specification of the walk back
  through the history, and lemmas about it.
- `regression.dfy` (module `Regression`): what each check does, as values. A `Verdict` says
  whether the check fails the build and which lines it prints. The verdicts of the enabled checks
  are combined in the order the checks run. `Explained` is an invariant every verdict keeps: the
  build fails exactly when the log holds a regression line that no threshold note excuses.
- `checker.dfy` (module `Checker`): the class `AnalysisRegressionChecker`. It has the four flags
  and the imperative methods of the source. Each method's `ensures` ties the new `result` and
  `log` of the build to the verdict functions of `Regression`. `LatestSuccessfulBuild` is the
  source's `while` loop, proved against `LatestSuccessful`.
- `properties.dfy` (module `Properties`): the decision rules, silence on missing data,
  independence of the checks, and worked scenarios.

Representation choices:

- **History.** The history before the current build is a `seq<BuildRecord>`, oldest first. Its
  last element is the build the host returns as "previous build". The baseline is given as a
  position in that sequence.
- **Percentages.** Coverage percentages are `real`. For finite IEEE floats, `a - b > 0` holds
  exactly when `a > b`. So the sign test on the delta and the threshold comparison decide as the
  source's `float` arithmetic does. Only the printed size of the drop can differ by rounding.
- **Coverage results.** A coverage result gives a percentage for every metric. The source reads
  `getCoverage(metric)` for branch and line coverage without a null check.

- **Threshold.** The threshold is the constant 85 (`AnalysisRegressionChecker.java:32`).
- **Results.** `Outcome` carries the host's order of results, from SUCCESS through UNSTABLE,
  FAILURE and NOT_BUILT to ABORTED. `Build.SetResult` records a new result only when it is worse
  than the current one, as the host's `setResult` does. So a check that asks for FAILURE leaves a
  NOT_BUILT or ABORTED build as it was.

## Model

| member | source | states |
|---|---|---|
| `Baseline.LatestSuccessful` | src/main/java/jenkins/plugins/regression_checker/AnalysisRegressionChecker.java:101-108 | The baseline is either none, in which case no earlier build succeeded, or an earlier build whose result is SUCCESS with only non-SUCCESS builds after it. It is never the current build. |
| `Baseline.LatestSuccessfulUnique` | src/main/java/jenkins/plugins/regression_checker/AnalysisRegressionChecker.java:101-108 | Any earlier SUCCESS build followed only by non-SUCCESS builds is the baseline, so the characterisation determines the walk's answer. |
| `Baseline.BaselinePrecedesCurrent` | src/main/java/jenkins/plugins/regression_checker/AnalysisRegressionChecker.java:101-108 | On a history with increasing build numbers, the baseline's number is below the current build's. |
| `Baseline.NoSuccessNoBaseline` | src/main/java/jenkins/plugins/regression_checker/AnalysisRegressionChecker.java:103-107 | A history in which no build succeeded yields no baseline. |
| `Checker.AnalysisRegressionChecker.LatestSuccessfulBuild` | src/main/java/jenkins/plugins/regression_checker/AnalysisRegressionChecker.java:101-108 | The backward `while` walk from the previous build terminates and returns exactly `LatestSuccessful` of the history. |
| `Checker.FlagValue` | src/main/java/jenkins/plugins/regression_checker/AnalysisRegressionChecker.java:41-44 | A flag is on exactly when it was given and true. An absent (null) flag is off. |
| `Checker.AnalysisRegressionChecker.constructor` | src/main/java/jenkins/plugins/regression_checker/AnalysisRegressionChecker.java:35-45 | Each of the four check flags is the normalised value of its argument. |
| `Checker.AnalysisRegressionChecker.Perform` | src/main/java/jenkins/plugins/regression_checker/AnalysisRegressionChecker.java:51-58 | The answer is always true. The build becomes FAILURE when the evaluation of all enabled checks fails and its result was better than FAILURE; otherwise it keeps its old result. The log gains the lines of all checks, in order. |
| `Checker.AnalysisRegressionChecker.CheckStatisticalCodeAnalysisRegression` | src/main/java/jenkins/plugins/regression_checker/AnalysisRegressionChecker.java:60-68 | The warning checks of the enabled tools run in the order PMD, FindBugs, Checkstyle. The new result and log are those of their combined verdict. |
| `Checker.AnalysisRegressionChecker.CheckCoverageRegression` | src/main/java/jenkins/plugins/regression_checker/AnalysisRegressionChecker.java:70-99 | When enabled, the coverage check changes result and log as its verdict says. When disabled, nothing changes. |
| `Checker.AnalysisRegressionChecker.CheckCoverageRegressionForCoverageMetric` | src/main/java/jenkins/plugins/regression_checker/AnalysisRegressionChecker.java:110-129 | The result and log change exactly as `CoverageMetricCheck` says for that metric. |
| `Checker.AnalysisRegressionChecker.SetBuildStatus` | src/main/java/jenkins/plugins/regression_checker/AnalysisRegressionChecker.java:131-133 | The build becomes FAILURE when its result was better than FAILURE (SUCCESS or UNSTABLE). A FAILURE, NOT_BUILT or ABORTED result is kept. The log is unchanged. |
| `Checker.AnalysisRegressionChecker.Check` | src/main/java/jenkins/plugins/regression_checker/AnalysisRegressionChecker.java:135-165 | The result and log of the build change exactly as `WarningCheck` says for the tool. |
| `Regression.Apply` | src/main/java/jenkins/plugins/regression_checker/AnalysisRegressionChecker.java:131-133 | A check moves the result only to FAILURE and never makes it better. The result changes exactly when the check fails and the old result was better than FAILURE. It is FAILURE afterwards exactly when it already was or a failing check met a better result. |
| `Regression.WarningCheck` | src/main/java/jenkins/plugins/regression_checker/AnalysisRegressionChecker.java:135-165 | The check fails exactly when it prints. A failure requires all of: the tool's result on both the build and the baseline, and strictly more warnings than the baseline. It then prints exactly one line with the baseline's number and the increase. Its verdict is explained. |
| `Regression.MetricText` | src/main/java/jenkins/plugins/regression_checker/AnalysisRegressionChecker.java:183-195 | Branch coverage is named "branchcoverage " and line coverage "linecoverage ". Every other metric is named "coverage". |
| `Regression.CoverageMetricCheck` | src/main/java/jenkins/plugins/regression_checker/AnalysisRegressionChecker.java:110-129 | It prints nothing exactly when coverage held or rose. It fails exactly when coverage dropped and the current percentage is at most 85. Any drop is reported first, with the baseline number, the size of the drop and the metric's text. Its verdict is explained. |
| `Regression.CoverageCheck` | src/main/java/jenkins/plugins/regression_checker/AnalysisRegressionChecker.java:70-99 | It can fail only when the build has coverage, a baseline exists and the baseline has coverage. Its verdict is explained. |
| `Regression.StatisticalCodeAnalysisCheck` | src/main/java/jenkins/plugins/regression_checker/AnalysisRegressionChecker.java:60-68 | The combined warning verdict is explained: it fails exactly when its log holds an unexcused regression line. |
| `Regression.Evaluate` | src/main/java/jenkins/plugins/regression_checker/AnalysisRegressionChecker.java:52-58 | Every failure of a whole evaluation is explained by a regression line that no threshold note excuses. There are never more notes than regressions. |
| `Regression.EvaluateFailsIff` | src/main/java/jenkins/plugins/regression_checker/AnalysisRegressionChecker.java:52-68 | An evaluation fails exactly when some enabled warning check fails or the enabled coverage check fails. Either alone suffices. |
| `Properties.WarningRegressionIff` | src/main/java/jenkins/plugins/regression_checker/AnalysisRegressionChecker.java:147-161 | With data on both builds, the warning check fails if and only if current minus baseline warnings is positive. It then prints one line with the tool, the baseline number and the increase. Otherwise it prints nothing. |
| `Properties.WarningMissingDataSilent` | src/main/java/jenkins/plugins/regression_checker/AnalysisRegressionChecker.java:138-146 | A missing current result, a missing baseline, or a baseline without the tool's result: the check prints nothing and fails nothing. |
| `Properties.WarningMonotone` | src/main/java/jenkins/plugins/regression_checker/AnalysisRegressionChecker.java:150-152 | More warnings never turn a failing warning check into a passing one. |
| `Properties.CoverageHeldIsSilent` | src/main/java/jenkins/plugins/regression_checker/AnalysisRegressionChecker.java:115-119 | When baseline minus current coverage is not positive, nothing is printed and the build is untouched, whatever the threshold. |
| `Properties.CoverageDropRule` | src/main/java/jenkins/plugins/regression_checker/AnalysisRegressionChecker.java:119-128 | A drop is always reported. At or below 85 it fails the build with just that line. Above 85 it prints the above-threshold note and leaves the build alone. |
| `Properties.CoverageExactlyAtThresholdFails` | src/main/java/jenkins/plugins/regression_checker/AnalysisRegressionChecker.java:123-127 | A drop to exactly 85 percent fails the build, because the comparison is strict. |
| `Properties.CoverageMonotone` | src/main/java/jenkins/plugins/regression_checker/AnalysisRegressionChecker.java:115-127 | Lower current coverage, against the same baseline, never turns a failing metric check into a passing one. |
| `Properties.BothMetricsEvaluated` | src/main/java/jenkins/plugins/regression_checker/AnalysisRegressionChecker.java:86-93 | With coverage on both builds, the branch check runs and then the line check, against the same baseline. The log is the branch lines followed by the line lines. Either metric alone fails the check. |
| `Properties.CoverageMissingDataSilent` | src/main/java/jenkins/plugins/regression_checker/AnalysisRegressionChecker.java:72-83 | No coverage on the build, no baseline, or a baseline without coverage: the coverage check prints nothing and fails nothing. |
| `Properties.DisabledChecksSilent` | src/main/java/jenkins/plugins/regression_checker/AnalysisRegressionChecker.java:62-72 | With all four flags off, an evaluation prints nothing and fails nothing. |
| `Properties.CoverageAddsItsOwnVerdict` | src/main/java/jenkins/plugins/regression_checker/AnalysisRegressionChecker.java:54-55 | Enabling coverage appends exactly the coverage check's lines after the warning checks' lines. It fails the build exactly when that check or the rest fails. |
| `Properties.PmdAddsItsOwnVerdict` | src/main/java/jenkins/plugins/regression_checker/AnalysisRegressionChecker.java:62-67 | Enabling PMD puts exactly PMD's lines before the other warning checks' lines. The early `return` in one check does not stop the others. |
| `Properties.WarningLogDecomposes` | src/main/java/jenkins/plugins/regression_checker/AnalysisRegressionChecker.java:62-67 | The warning log is the PMD lines, then the FindBugs lines, then the Checkstyle lines. Each part is present only when its flag is on, so a disabled tool prints nothing. |
| `Properties.ResultOnlyMovesToFailure` | src/main/java/jenkins/plugins/regression_checker/AnalysisRegressionChecker.java:131-133 | After an evaluation the result is the old one or FAILURE and is never better than before. NOT_BUILT and ABORTED are kept. It is FAILURE exactly when it already was, or some enabled check failed and it was SUCCESS or UNSTABLE. |
| `Properties.WarningIncreaseScenario` | src/main/java/jenkins/plugins/regression_checker/AnalysisRegressionChecker.java:135-165 | Builds 1 and 2 succeed with 5 warnings each and build 3 has 8. The baseline is build 2, one line reports an increase of 3, and the build fails. |
| `Properties.ThresholdScenario` | src/main/java/jenkins/plugins/regression_checker/AnalysisRegressionChecker.java:115-128 | 90 to 86 percent is reported but excused. 90 to 84 is reported as a drop of 6 and fails. 70 to 75 prints nothing. |
| `Properties.CoverageDecreaseScenario` | src/test/java/jenkins/plugins/regression_checker/AnalysisRegressionCheckerTest.java:16-30 | This is the project of the integration test, with flags (true, false, true, true). A coverage drop at or below the threshold on either metric fails the third build, and only coverage lines are printed. |
| `Properties.CoverageDecreaseRun` | src/test/java/jenkins/plugins/regression_checker/AnalysisRegressionCheckerTest.java:26-29 | The same scenario runs through the checker object and `Perform`, and the third build ends up FAILURE. |

## Left out

- The plugin descriptor is not modelled. This covers the plugin-availability probes, `isApplicable`
  and the display name (lines 207-254). It also covers `getRequiredMonitorService` and the
  `isCheck*` getters. They are plugin scaffolding with no logic of their own.
- The Jenkins and plugin objects are replaced by values. A build becomes a record, a result
  action becomes an entry in a map from tool to warning count, and a Cobertura action becomes an
  optional coverage result. Reflection over the action class becomes the `Tool` value. The tool's
  display name becomes the `Tool` value too.
- The listener's logger is folded into the build object as its `log` field.
- Log lines are abstract values, not text. This leaves out the localized message bundle and the
  locale-dependent percent format with one fraction digit (lines 196-204).
- The host's `setResult` is modelled only by its ordering rule (`Build.SetResult`). Its other
  duties, such as logging and permission checks, are host code that is not part of this model.
- `float` rounding is not modelled. Percentages are real numbers, so the size of a drop is exact.
  Its sign is the same as the source's.
- A coverage result that lacks the branch or line metric is not modelled. The source would throw
  a null-pointer exception there.
- The checked exceptions in `perform`'s signature are left out. The checker's own logic never
  raises them.
