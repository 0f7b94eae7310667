/**
 * The baseline of a check: the nearest earlier build whose result is
 * SUCCESS, found by walking back from the build before the current one.
 */
module Baseline {
  import opened Model

  /**
   * The position, in the history before the current build, of the latest
   * build that succeeded; None when no earlier build succeeded.
   */
  function LatestSuccessful(previous: seq<BuildRecord>): (r: Option<nat>)
    ensures r.Some? ==> r.value < |previous| && previous[r.value].result == Success
    ensures r.Some? ==> forall k :: r.value < k < |previous| ==> previous[k].result != Success
    ensures r.None? ==> forall k :: 0 <= k < |previous| ==> previous[k].result != Success
  {
    if |previous| == 0 then None
    else if previous[|previous| - 1].result == Success then Some(|previous| - 1)
    else LatestSuccessful(previous[..|previous| - 1])
  }

  /** Any earlier success with only non-successes after it is the baseline. */
  lemma LatestSuccessfulUnique(previous: seq<BuildRecord>, j: nat)
    requires j < |previous| && previous[j].result == Success
    requires forall k :: j < k < |previous| ==> previous[k].result != Success
    ensures LatestSuccessful(previous) == Some(j)
  {
  }

  /** Walking back past a build that did not succeed does not change the baseline. */
  lemma LatestSuccessfulSkip(previous: seq<BuildRecord>, i: nat)
    requires 0 < i <= |previous| && previous[i - 1].result != Success
    ensures LatestSuccessful(previous[..i]) == LatestSuccessful(previous[..i - 1])
  {
    assert previous[..i][..i - 1] == previous[..i - 1];
  }

  /**
   * On a chronological history the baseline is an earlier build: its number
   * is below the current build's, and the current build is never chosen.
   */
  lemma BaselinePrecedesCurrent(previous: seq<BuildRecord>, current: int)
    requires Chronological(previous, current)
    ensures LatestSuccessful(previous).Some? ==>
      previous[LatestSuccessful(previous).value].number < current
  {
  }

  /** A history in which no build succeeded has no baseline. */
  lemma NoSuccessNoBaseline(previous: seq<BuildRecord>)
    requires forall k :: 0 <= k < |previous| ==> previous[k].result != Success
    ensures LatestSuccessful(previous) == None
  {
  }
}
