// The interarrival jitter estimator (section 6.4.1 of RFC 3550), in exact reals.
module Jitter {
  import opened Basics

  // J += (d - J) / 16
  function Filter(jitter: real, d: real): real {
    jitter + (d - jitter) / 16.0
  }

  function FilterAll(jitter: real, diffs: seq<real>): real {
    if diffs == [] then jitter
    else Filter(FilterAll(jitter, Front(diffs)), Last(diffs))
  }

  // (15/16)^n
  function Decay(n: nat): (r: real)
    ensures 0.0 < r <= 1.0
  {
    if n == 0 then 1.0 else 15.0 / 16.0 * Decay(n - 1)
  }

  // Where n differences of at most `bound` can take an estimate that starts at zero.
  ghost function Ceiling(bound: real, n: nat): real {
    bound * (1.0 - Decay(n))
  }

  // What n differences of zero leave of an estimate.
  ghost function Faded(jitter: real, n: nat): real {
    Decay(n) * jitter
  }

  // The estimate as a weighted sum of the differences seen: the k-th last weighs
  // (15/16)^k / 16.
  ghost function Weighted(diffs: seq<real>): real {
    if diffs == [] then 0.0
    else 15.0 / 16.0 * Weighted(Front(diffs)) + Last(diffs) / 16.0
  }

  lemma {:induction false} FilterIsWeightedSum(jitter: real, diffs: seq<real>)
    ensures FilterAll(jitter, diffs) == Faded(jitter, |diffs|) + Weighted(diffs)
  {
    if diffs != [] {
      var front := Front(diffs);
      FilterIsWeightedSum(jitter, front);
      assert 15.0 / 16.0 * (Decay(|front|) * jitter) == (15.0 / 16.0 * Decay(|front|)) * jitter;
    }
  }

  lemma {:induction false} WeightedBound(diffs: seq<real>, bound: real)
    requires forall i :: 0 <= i < |diffs| ==> 0.0 <= diffs[i] <= bound
    ensures 0.0 <= Weighted(diffs) <= Ceiling(bound, |diffs|)
  {
    if diffs != [] {
      var front, x := Front(diffs), Last(diffs);
      WeightedBound(front, bound);
      var p := Decay(|front|);
      assert bound * (1.0 - 15.0 / 16.0 * p) == 15.0 / 16.0 * (bound * (1.0 - p)) + bound / 16.0;
    }
  }

  // From a fresh stream, differences of at most `bound` keep the estimate below
  // bound * (1 - (15/16)^n), hence below `bound`, after n of them.
  lemma JitterBound(diffs: seq<real>, bound: real)
    requires forall i :: 0 <= i < |diffs| ==> 0.0 <= diffs[i] <= bound
    ensures 0.0 <= FilterAll(0.0, diffs) <= Ceiling(bound, |diffs|)
    ensures diffs != [] ==> Ceiling(bound, |diffs|) <= bound
  {
    FilterIsWeightedSum(0.0, diffs);
    WeightedBound(diffs, bound);
    if diffs != [] {
      assert diffs[0] <= bound;
      CeilingIsBelow(bound, |diffs|);
    }
  }

  lemma CeilingIsBelow(bound: real, n: nat)
    requires bound >= 0.0
    ensures Ceiling(bound, n) <= bound
  {
    var p := Decay(n);
    assert bound * p >= 0.0;
    assert bound * (1.0 - p) == bound - bound * p;
  }

  lemma {:induction false} QuietStreamDecays(jitter: real, diffs: seq<real>)
    requires forall i :: 0 <= i < |diffs| ==> diffs[i] == 0.0
    ensures FilterAll(jitter, diffs) == Faded(jitter, |diffs|)
  {
    FilterIsWeightedSum(jitter, diffs);
    WeightedBound(diffs, 0.0);
  }
}
