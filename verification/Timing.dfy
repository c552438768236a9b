// `TransmitterProfile`: the bounded ring of inter-arrival samples and the
// timing-regularity verdict drawn from it. Arithmetic is in exact reals; the test on
// the coefficient of variation is squared to avoid the square root.
module Timing {
  import opened Basics

  const MAX_IAT_SAMPLES: nat := 64
  const MIN_SAMPLES: nat := 16

  // Append a positive sample, dropping the oldest one beyond the capacity.
  function Record(ring: seq<real>, iat: real): seq<real> {
    if iat > 0.0 then
      var pushed := ring + [iat];
      if |pushed| > MAX_IAT_SAMPLES then pushed[1..] else pushed
    else ring
  }

  datatype Profile = Profile(iatSamples: seq<real>, minTtl: Option<nat>)

  const NewProfile := Profile([], None)

  function LowerTtl(minTtl: Option<nat>, ttl: nat): (r: Option<nat>)
    ensures r.Some? && r.value <= ttl
    ensures minTtl.Some? ==> r.value <= minTtl.value && r.value in {ttl, minTtl.value}
    ensures minTtl == None ==> r.value == ttl
  {
    if minTtl.Some? && minTtl.value <= ttl then minTtl else Some(ttl)
  }

  class TransmitterProfile {
    var iatSamples: seq<real>
    var minTtl: Option<nat>

    function View(): Profile
      reads this
    {
      Profile(iatSamples, minTtl)
    }

    constructor ()
      ensures View() == NewProfile
    {
      iatSamples, minTtl := [], None;
    }

    constructor Of(p: Profile)
      ensures View() == p
    {
      iatSamples, minTtl := p.iatSamples, p.minTtl;
    }

    method RecordIat(iat: real)
      modifies this
      ensures View() == old(View()).(iatSamples := Record(old(iatSamples), iat))
    {
      if iat > 0.0 {
        iatSamples := iatSamples + [iat];
        if |iatSamples| > MAX_IAT_SAMPLES {
          iatSamples := iatSamples[1..];
        }
      }
    }

    method RecordTtl(ttl: nat)
      modifies this
      ensures View() == old(View()).(minTtl := LowerTtl(old(minTtl), ttl))
    {
      if minTtl.Some? {
        minTtl := Some(if minTtl.value <= ttl then minTtl.value else ttl);
      } else {
        minTtl := Some(ttl);
      }
    }
  }

  // ---- The ring holds the most recent positive samples ----------------------

  function Positives(history: seq<real>): seq<real> {
    if history == [] then []
    else
      var front, x := Front(history), Last(history);
      Positives(front) + if x > 0.0 then [x] else []
  }

  function LastAtMost(s: seq<real>, n: nat): seq<real> {
    if |s| <= n then s else s[|s| - n..]
  }

  function Recorded(history: seq<real>): seq<real> {
    if history == [] then []
    else Record(Recorded(Front(history)), Last(history))
  }

  lemma {:induction false} RingHoldsLastPositives(history: seq<real>)
    ensures Recorded(history) == LastAtMost(Positives(history), 64)
  {
    if history != [] {
      RingHoldsLastPositives(Front(history));
    }
  }

  // ---- The verdict ----------------------------------------------------------

  function Total(s: seq<real>, f: real -> real): real {
    if s == [] then 0.0 else f(s[0]) + Total(s[1..], f)
  }

  function Identity(): real -> real {
    (x: real) => x
  }

  function SquaredDeviation(mean: real): real -> real {
    (x: real) => (x - mean) * (x - mean)
  }

  function Mean(s: seq<real>): real
    requires s != []
  {
    Total(s, Identity()) / |s| as real
  }

  function Variance(s: seq<real>): real
    requires s != []
  {
    Total(s, SquaredDeviation(Mean(s))) / |s| as real
  }

  // `Some(true)` is metronomic, `Some(false)` noisy, `None` too early or ambiguous.
  function TimingMetronomic(s: seq<real>): Option<bool> {
    if |s| < MIN_SAMPLES then None
    else
      Regularity(Mean(s), Variance(s))
  }

  // Coefficient of variation below 0.10, above 0.30, or between.
  function Regularity(mean: real, variance: real): Option<bool> {
    if mean <= 0.0 then None
    else if variance < 0.01 * (mean * mean) then Some(true)
    else if variance > 0.09 * (mean * mean) then Some(false)
    else None
  }

  // ---- The verdict by two sums ----------------------------------------------

  ghost function SumOf(s: seq<real>): real {
    if s == [] then 0.0 else SumOf(Front(s)) + Last(s)
  }

  ghost function Square(x: real): real {
    x * x
  }

  ghost function SumOfSquares(s: seq<real>): real {
    if s == [] then 0.0 else SumOfSquares(Front(s)) + Square(Last(s))
  }

  lemma TotalSplits(s: seq<real>, f: real -> real)
    requires s != []
    ensures Total(s, f) == Total(Front(s), f) + f(Last(s))
  {
    assert s == Front(s) + [Last(s)];
    TotalConcat(Front(s), [Last(s)], f);
  }

  lemma {:induction false} TotalIsSum(s: seq<real>)
    ensures Total(s, Identity()) == SumOf(s)
  {
    if s != [] {
      TotalIsSum(Front(s));
      TotalSplits(s, Identity());
    }
  }

  // The total of squared deviations from m of n samples with these two sums.
  ghost function Expanded(n: real, a: real, b: real, m: real): real {
    b - 2.0 * (m * a) + n * (m * m)
  }

  lemma ExpandedStep(n: real, a: real, b: real, m: real, x: real)
    ensures Expanded(n + 1.0, a + x, b + Square(x), m) == SquaredDeviation(m)(x) + Expanded(n, a, b, m)
  {
    assert m * (a + x) == m * a + m * x;
    assert (n + 1.0) * (m * m) == n * (m * m) + m * m;
    assert (x - m) * (x - m) == x * x - 2.0 * (m * x) + m * m;
  }

  lemma SumsOfLast(s: seq<real>)
    requires s != []
    ensures SumOf(s) == SumOf(Front(s)) + Last(s)
    ensures SumOfSquares(s) == SumOfSquares(Front(s)) + Square(Last(s))
  {}

  lemma NothingExpanded(m: real)
    ensures Total([], SquaredDeviation(m)) == Expanded(0.0, SumOf([]), SumOfSquares([]), m)
  {
    assert m * 0.0 == 0.0 && 0.0 * (m * m) == 0.0;
  }

  lemma {:induction false} TotalOfSquares(s: seq<real>, m: real)
    ensures Total(s, SquaredDeviation(m)) == Expanded(|s| as real, SumOf(s), SumOfSquares(s), m)
  {
    if s == [] {
      NothingExpanded(m);
    } else {
      hide Expanded, SquaredDeviation, Total, SumOf, SumOfSquares, Square;
      var front := Front(s);
      TotalOfSquares(front, m);
      SumsOfLast(s);
      TotalSplits(s, SquaredDeviation(m));
      ExpandedStep(|front| as real, SumOf(front), SumOfSquares(front), m, Last(s));
      assert |s| as real == |front| as real + 1.0;
    }
  }

  // n times the sum of squares less the square of the sum.
  ghost function Spread(n: real, a: real, b: real): real {
    n * b - a * a
  }

  lemma SpreadOfSums(n: real, a: real, b: real, m: real)
    requires n > 0.0 && m == a / n
    ensures n * Expanded(n, a, b, m) == Spread(n, a, b) && m * n == a
  {
    assert m * n == a;
    assert n * (m * a) == (m * n) * a;
    assert n * (n * (m * m)) == (m * n) * (m * n);
    assert n * (b - 2.0 * (m * a) + n * (m * m)) == n * b - 2.0 * (n * (m * a)) + n * (n * (m * m));
  }

  ghost predicate Below(x: real, k: real, y: real) {
    x < k * (y * y)
  }

  ghost predicate Above(x: real, k: real, y: real) {
    x > k * (y * y)
  }

  // Comparing the variance t / n with k m m is comparing n t with k a a.
  lemma VarianceTest(n: real, t: real, a: real, m: real, k: real)
    requires n > 0.0 && m * n == a
    ensures Below(t / n, k, m) <==> Below(n * t, k, a)
    ensures Above(t / n, k, m) <==> Above(n * t, k, a)
  {
    var v, w := t / n, k * (m * m);
    var q := PositiveSquare(n);
    assert q * v == n * t by { assert v * n == t; assert (n * n) * v == n * (v * n); }
    assert q * w == k * (a * a) by { RegroupSquares(n, m, k); }
    OrderScaled(q, v, w);
    OrderScaled(q, w, v);
  }

  lemma PositiveSquare(n: real) returns (q: real)
    requires n > 0.0
    ensures q == n * n && q > 0.0
  {
    q := n * n;
    assert q / n == n;
  }

  lemma RegroupSquares(n: real, m: real, k: real)
    ensures (n * n) * (k * (m * m)) == k * ((m * n) * (m * n))
  {
    assert (m * n) * (m * n) == (n * n) * (m * m);
    var x, y := n * n, m * m;
    assert x * (k * y) == k * (x * y);
  }

  lemma MeanSign(n: real, a: real, m: real)
    requires n > 0.0 && m * n == a
    ensures m > 0.0 <==> a > 0.0
  {
    OrderScaled(n, 0.0, m);
    assert n * m == a && n * 0.0 == 0.0;
  }

  // From sixteen samples on the verdict is read off their number and two sums: metronomic
  // below a spread of one hundredth of the square of the sum, noisy above nine of them.
  lemma VerdictBySums(s: seq<real>)
    ensures |s| < 16 ==> TimingMetronomic(s) == None
    ensures |s| >= 16 ==>
              var a, spread := SumOf(s), Spread(|s| as real, SumOf(s), SumOfSquares(s));
              && (TimingMetronomic(s) == Some(true) <==> a > 0.0 && Below(spread, 0.01, a))
              && (TimingMetronomic(s) == Some(false) <==> a > 0.0 && Above(spread, 0.09, a))
  {
    if |s| >= 16 {
      VerdictOfSpread(s);
    }
  }

  lemma VerdictOfSpread(s: seq<real>)
    requires |s| >= 16
    ensures var a, spread := SumOf(s), Spread(|s| as real, SumOf(s), SumOfSquares(s));
            && (TimingMetronomic(s) == Some(true) <==> a > 0.0 && Below(spread, 0.01, a))
            && (TimingMetronomic(s) == Some(false) <==> a > 0.0 && Above(spread, 0.09, a))
  {
    TestsOfSpread(s, 0.01);
    TestsOfSpread(s, 0.09);
    hide SumOf, SumOfSquares, Mean, Variance, Spread, Below, Above, TimingMetronomic;
    VerdictOfTests(s);
  }

  lemma TestsOfSpread(s: seq<real>, k: real)
    requires s != []
    ensures var a, spread := SumOf(s), Spread(|s| as real, SumOf(s), SumOfSquares(s));
            && (Mean(s) > 0.0 <==> a > 0.0)
            && (Below(Variance(s), k, Mean(s)) <==> Below(spread, k, a))
            && (Above(Variance(s), k, Mean(s)) <==> Above(spread, k, a))
  {
    hide SumOf, SumOfSquares, Mean, Variance, Spread, Below, Above;
    var n := |s| as real;
    var t := SpreadTotal(s);
    assert Variance(s) == t / n && n * t == Spread(n, SumOf(s), SumOfSquares(s));
    VarianceTest(n, t, SumOf(s), Mean(s), k);
    MeanSign(n, SumOf(s), Mean(s));
  }

  // The total of squared deviations, with what the sums make of it.
  lemma SpreadTotal(s: seq<real>) returns (t: real)
    requires s != []
    ensures Variance(s) == t / |s| as real && Mean(s) * |s| as real == SumOf(s)
    ensures |s| as real * t == Spread(|s| as real, SumOf(s), SumOfSquares(s))
  {
    hide Total, SumOf, SumOfSquares, SquaredDeviation, Spread, Expanded, Mean, Variance;
    var m := Mean(s);
    t := Total(s, SquaredDeviation(m));
    MeanOfSum(s);
    TotalOfSquares(s, m);
    SpreadOfSums(|s| as real, SumOf(s), SumOfSquares(s), m);
    VarianceOfTotal(s);
  }

  lemma MeanOfSum(s: seq<real>)
    requires s != []
    ensures Mean(s) == SumOf(s) / |s| as real
  {
    TotalIsSum(s);
  }

  lemma VarianceOfTotal(s: seq<real>)
    requires s != []
    ensures Variance(s) == Total(s, SquaredDeviation(Mean(s))) / |s| as real
  {
    hide Total, Mean;
  }

  lemma VerdictOfTests(s: seq<real>)
    requires |s| >= 16
    ensures var m, v := Mean(s), Variance(s);
            && (TimingMetronomic(s) == Some(true) <==> m > 0.0 && Below(v, 0.01, m))
            && (TimingMetronomic(s) == Some(false) <==> m > 0.0 && Above(v, 0.09, m))
  {
    var m := Mean(s);
    var q := m * m;
    assert q >= 0.0;
    hide Mean, Variance;
  }

  // ---- Order does not matter ------------------------------------------------

  lemma {:induction false} TotalConcat(a: seq<real>, b: seq<real>, f: real -> real)
    ensures Total(a + b, f) == Total(a, f) + Total(b, f)
  {
    if a == [] {
      assert a + b == b;
    } else {
      assert (a + b)[1..] == a[1..] + b;
      TotalConcat(a[1..], b, f);
    }
  }

  lemma RemoveOccurrence(t: seq<real>, i: nat)
    requires i < |t|
    ensures multiset(t[..i] + t[i + 1..]) == multiset(t) - multiset{t[i]}
  {
    assert t == t[..i] + [t[i]] + t[i + 1..];
  }

  lemma TotalWithout(t: seq<real>, i: nat, f: real -> real)
    requires i < |t|
    ensures Total(t, f) == f(t[i]) + Total(t[..i] + t[i + 1..], f)
  {
    assert t == t[..i] + ([t[i]] + t[i + 1..]);
    TotalConcat(t[..i], [t[i]] + t[i + 1..], f);
    TotalConcat(t[..i], t[i + 1..], f);
    assert ([t[i]] + t[i + 1..])[1..] == t[i + 1..];
  }

  lemma {:induction false} TotalOfPermutation(s: seq<real>, t: seq<real>, f: real -> real)
    requires multiset(s) == multiset(t)
    ensures Total(s, f) == Total(t, f)
  {
    if s == [] {
      assert |t| == |multiset(t)| == 0;
    } else {
      var i := PlaceOf(s, t);
      TotalOfPermutation(s[1..], t[..i] + t[i + 1..], f);
      TotalWithout(t, i, f);
    }
  }

  // Where the first sample of one sequence stands in a permutation of it.
  lemma PlaceOf(s: seq<real>, t: seq<real>) returns (i: nat)
    requires s != [] && multiset(s) == multiset(t)
    ensures i < |t| && t[i] == s[0] && multiset(s[1..]) == multiset(t[..i] + t[i + 1..])
  {
    assert s[0] in multiset(s);
    assert s[0] in t;
    i :| 0 <= i < |t| && t[i] == s[0];
    RemoveOccurrence(t, i);
    assert s == [s[0]] + s[1..];
  }

  lemma VerdictIgnoresOrder(s: seq<real>, t: seq<real>)
    requires multiset(s) == multiset(t)
    ensures TimingMetronomic(s) == TimingMetronomic(t)
  {
    assert |s| == |multiset(s)| == |t|;
    if s != [] {
      TotalOfPermutation(s, t, Identity());
      TotalOfPermutation(s, t, SquaredDeviation(Mean(s)));
    }
  }

  // ---- Nor does the unit of time --------------------------------------------

  lemma {:induction false} TotalScaled(s: seq<real>, t: seq<real>, f: real -> real, g: real -> real, c: real)
    requires |s| == |t|
    requires forall i :: 0 <= i < |s| ==> g(t[i]) == c * f(s[i])
    ensures Total(t, g) == c * Total(s, f)
  {
    if s != [] {
      TotalScaled(s[1..], t[1..], f, g, c);
    }
  }

  lemma ScaledRatio(c: real, a: real, n: real)
    requires n > 0.0
    ensures (c * a) / n == c * (a / n)
  {}

  lemma MeanScaled(s: seq<real>, t: seq<real>, k: real)
    requires s != [] && |s| == |t|
    requires forall i :: 0 <= i < |s| ==> t[i] == k * s[i]
    ensures Mean(t) == k * Mean(s)
  {
    TotalScaled(s, t, Identity(), Identity(), k);
    ScaledRatio(k, Total(s, Identity()), |s| as real);
  }

  lemma DeviationScaled(k: real, c: real, x: real, y: real, mean: real, mean': real)
    requires c == k * k && y == k * x && mean' == k * mean
    ensures SquaredDeviation(mean')(y) == c * SquaredDeviation(mean)(x)
  {
    assert k * x - k * mean == k * (x - mean);
    ScaledSquare(k, x - mean);
  }

  lemma DeviationsScaled(s: seq<real>, t: seq<real>, k: real, c: real)
    requires s != [] && |s| == |t| && c == k * k
    requires forall i :: 0 <= i < |s| ==> t[i] == k * s[i]
    ensures Total(t, SquaredDeviation(Mean(t))) == c * Total(s, SquaredDeviation(Mean(s)))
  {
    hide Mean, Total, SquaredDeviation;
    MeanScaled(s, t, k);
    var m, m' := Mean(s), Mean(t);
    forall i | 0 <= i < |s| ensures SquaredDeviation(m')(t[i]) == c * SquaredDeviation(m)(s[i]) {
      DeviationScaled(k, c, s[i], t[i], m, m');
    }
    TotalScaled(s, t, SquaredDeviation(m), SquaredDeviation(m'), c);
  }

  lemma VarianceScaled(s: seq<real>, t: seq<real>, k: real, c: real)
    requires s != [] && |s| == |t| && c == k * k
    requires forall i :: 0 <= i < |s| ==> t[i] == k * s[i]
    ensures Variance(t) == c * Variance(s)
  {
    hide Total, SquaredDeviation, Mean;
    DeviationsScaled(s, t, k, c);
    ScaledRatio(c, Total(s, SquaredDeviation(Mean(s))), |s| as real);
  }

  lemma VerdictIgnoresScale(s: seq<real>, t: seq<real>, k: real)
    requires k > 0.0 && |s| == |t|
    requires forall i :: 0 <= i < |s| ==> t[i] == k * s[i]
    ensures TimingMetronomic(t) == TimingMetronomic(s)
  {
    if s != [] {
      MeanScaled(s, t, k);
      var c := ScaledMean(k, Mean(s), Mean(t));
      VarianceScaled(s, t, k, c);
      ScaledTest(c, Mean(s), Variance(s), Mean(t), Variance(t));
    }
  }

  lemma ScaledMean(k: real, m: real, m': real) returns (c: real)
    requires k > 0.0 && m' == k * m
    ensures c == k * k && c > 0.0
    ensures m' * m' == c * (m * m)
    ensures (m' <= 0.0) == (m <= 0.0)
  {
    c := k * k;
    assert c / k == k;
    ScaledSquare(k, m);
    OrderScaled(k, 0.0, m);
  }

  lemma ScaledTest(c: real, m: real, v: real, m': real, v': real)
    requires c > 0.0 && v' == c * v && m' * m' == c * (m * m)
    requires (m' <= 0.0) == (m <= 0.0)
    ensures Regularity(m', v') == Regularity(m, v)
  {
    ScaledComparison(c, v, m * m);
  }

  lemma ScaledSquare(k: real, x: real)
    ensures (k * x) * (k * x) == (k * k) * (x * x)
  {}

  lemma ScaledComparison(c: real, v: real, q: real)
    requires c > 0.0
    ensures (c * v < 0.01 * (c * q)) == (v < 0.01 * q)
    ensures (c * v > 0.09 * (c * q)) == (v > 0.09 * q)
  {
    assert 0.01 * (c * q) == c * (0.01 * q);
    assert 0.09 * (c * q) == c * (0.09 * q);
    OrderScaled(c, v, 0.01 * q);
    OrderScaled(c, 0.09 * q, v);
  }

  lemma OrderScaled(c: real, a: real, b: real)
    requires c > 0.0
    ensures (c * a < c * b) == (a < b)
  {
    assert c * b - c * a == c * (b - a);
  }

  // ---- What the verdict says about the samples ------------------------------

  lemma {:induction false} TotalBelow(s: seq<real>, f: real -> real, b: real)
    requires forall i :: 0 <= i < |s| ==> f(s[i]) <= b
    ensures Total(s, f) <= b * |s| as real
    ensures s != [] && (forall i :: 0 <= i < |s| ==> f(s[i]) < b) ==> Total(s, f) < b * |s| as real
  {
    if s != [] {
      TotalBelow(s[1..], f, b);
    }
  }

  lemma ProductPositive(a: real, b: real)
    requires a > 0.0 && b > 0.0
    ensures a * b > 0.0
  {}

  lemma SquareWithin(x: real, b: real)
    requires AbsReal(x) <= b
    ensures x * x <= b * b
    ensures AbsReal(x) < b ==> x * x < b * b
  {
    var a := AbsReal(x);
    assert x * x == a * a;
    assert b * b - a * a == (b - a) * (b + a);
    if a < b {
      ProductPositive(b - a, b + a);
    }
  }

  lemma DivideBound(a: real, b: real, n: real)
    requires n > 0.0
    ensures a <= b * n ==> a / n <= b
    ensures a < b * n ==> a / n < b
  {
    assert (b * n) / n == b;
  }

  lemma VarianceBelow(s: seq<real>, q: real)
    requires s != [] && forall i :: 0 <= i < |s| ==> SquaredDeviation(Mean(s))(s[i]) <= q
    ensures Variance(s) <= q
    ensures (forall i :: 0 <= i < |s| ==> SquaredDeviation(Mean(s))(s[i]) < q) ==> Variance(s) < q
  {
    hide Mean;
    TotalBelow(s, SquaredDeviation(Mean(s)), q);
    DivideBound(Total(s, SquaredDeviation(Mean(s))), q, |s| as real);
  }

  lemma VarianceWithin(s: seq<real>, b: real)
    requires s != [] && forall i :: 0 <= i < |s| ==> AbsReal(s[i] - Mean(s)) <= b
    ensures Variance(s) <= b * b
    ensures (forall i :: 0 <= i < |s| ==> AbsReal(s[i] - Mean(s)) < b) ==> Variance(s) < b * b
  {
    hide Variance, Mean;
    forall i | 0 <= i < |s|
      ensures SquaredDeviation(Mean(s))(s[i]) <= b * b
      ensures AbsReal(s[i] - Mean(s)) < b ==> SquaredDeviation(Mean(s))(s[i]) < b * b
    {
      SquareWithin(s[i] - Mean(s), b);
    }
    VarianceBelow(s, b * b);
  }

  // Samples all strictly within 10% of a positive mean are called metronomic.
  lemma SteadySamplesAreMetronomic(s: seq<real>)
    requires |s| >= MIN_SAMPLES && Mean(s) > 0.0
    requires forall i :: 0 <= i < |s| ==> AbsReal(s[i] - Mean(s)) < 0.1 * Mean(s)
    ensures TimingMetronomic(s) == Some(true)
  {
    VarianceWithin(s, 0.1 * Mean(s));
    ScaledSquare(0.1, Mean(s));
  }

  // A noisy verdict needs a sample more than 30% away from the mean.
  lemma NoisyVerdictHasOutlier(s: seq<real>)
    requires TimingMetronomic(s) == Some(false)
    ensures exists i :: 0 <= i < |s| && AbsReal(s[i] - Mean(s)) > 0.3 * Mean(s)
  {
    if forall i :: 0 <= i < |s| ==> AbsReal(s[i] - Mean(s)) <= 0.3 * Mean(s) {
      ScaledSquare(0.3, Mean(s));
      VarianceWithin(s, 0.3 * Mean(s));
      assert false;
    }
  }

  // Samples at least 30% away from the mean.
  function Outliers(s: seq<real>, mean: real): nat {
    if s == [] then 0
    else Outliers(s[1..], mean) + if AbsReal(s[0] - mean) >= 0.3 * mean then 1 else 0
  }

  lemma FarSample(x: real, mean: real, u: real)
    requires mean > 0.0 && u == 0.09 * (mean * mean)
    ensures SquaredDeviation(mean)(x) >= if AbsReal(x - mean) >= 0.3 * mean then u else 0.0
  {
    var d := AbsReal(x - mean);
    assert d * d == (x - mean) * (x - mean);
    if d >= 0.3 * mean {
      SquareWithin(0.3 * mean, d);
      ScaledSquare(0.3, mean);
    }
  }

  lemma {:induction false} OutliersAddDeviation(s: seq<real>, mean: real, u: real)
    requires mean > 0.0 && u == 0.09 * (mean * mean)
    ensures Outliers(s, mean) as real * u <= Total(s, SquaredDeviation(mean))
  {
    hide SquaredDeviation;
    if s != [] {
      OutliersAddDeviation(s[1..], mean, u);
      FarSample(s[0], mean, u);
      var k := Outliers(s[1..], mean) as real;
      assert (k + 1.0) * u == k * u + u;
    }
  }

  // A metronomic verdict leaves fewer than one sample in nine that far out.
  lemma MetronomicHasFewOutliers(s: seq<real>)
    requires TimingMetronomic(s) == Some(true)
    ensures 9 * Outliers(s, Mean(s)) < |s|
  {
    hide Mean, Outliers;
    FewOutliers(s, Mean(s), Variance(s));
  }

  lemma MetronomicTest(mean: real, variance: real)
    requires Regularity(mean, variance) == Some(true)
    ensures mean > 0.0 && mean * mean > 0.0 && variance < 0.01 * (mean * mean)
  {
    ProductPositive(mean, mean);
  }

  lemma FewOutliers(s: seq<real>, mean: real, variance: real)
    requires s != [] && variance == Total(s, SquaredDeviation(mean)) / |s| as real
    requires Regularity(mean, variance) == Some(true)
    ensures 9 * Outliers(s, mean) < |s|
  {
    hide Regularity, SquaredDeviation, Outliers, Total;
    MetronomicTest(mean, variance);
    OutliersAddDeviation(s, mean, 0.09 * (mean * mean));
    FewerThanNinth(Outliers(s, mean) as real, |s| as real, mean * mean,
                   Total(s, SquaredDeviation(mean)));
  }

  lemma FewerThanNinth(k: real, n: real, q: real, t: real)
    requires n > 0.0 && q > 0.0
    requires k * (0.09 * q) <= t && t / n < 0.01 * q
    ensures 9.0 * k < n
  {
    OrderScaled(n, t / n, 0.01 * q);
    assert n * (t / n) == t;
    assert k * (0.09 * q) == (0.01 * q) * (9.0 * k);
    assert n * (0.01 * q) == (0.01 * q) * n;
    OrderScaled(0.01 * q, 9.0 * k, n);
  }
}
