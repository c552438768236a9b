// Clock-rate inference from RTP timestamp deltas: `StreamStats::try_infer_clock_hz`.
module ClockInference {
  import opened Basics

  datatype Rate = Rate(hz: real, ptimeMs: real)

  // The (clock rate, packet time) pairs the monitor recognises, in matching order.
  const KNOWN: seq<Rate> := [
    Rate(48000.0, 1.0), Rate(48000.0, 0.5), Rate(48000.0, 2.0), Rate(48000.0, 4.0),
    Rate(48000.0, 8.0), Rate(48000.0, 10.0), Rate(48000.0, 20.0), Rate(48000.0, 0.25),
    Rate(48000.0, 0.125), Rate(44100.0, 10.0), Rate(44100.0, 20.0)]

  // The timestamp steps of those pairs.
  const TABLE_DELTAS: set<int> := {48, 24, 96, 192, 384, 480, 960, 12, 6, 441, 882}

  const BATCH: nat := 8

  // `f64::round` of a non-negative value.
  function Round(x: real): int {
    (x + 0.5).Floor
  }

  function Expected(rate: Rate): int {
    Round(rate.hz * rate.ptimeMs / 1000.0)
  }

  function Lookup(mode: int, table: seq<Rate>): Option<Rate> {
    if table == [] then None
    else if Expected(table[0]) == mode then Some(table[0])
    else Lookup(mode, table[1..])
  }

  // The pair steps by an integral delta of the table.
  ghost predicate Exact(rate: Rate) {
    && rate.hz > 0.0 && rate.ptimeMs > 0.0
    && Expected(rate) in TABLE_DELTAS
    && rate.hz * rate.ptimeMs / 1000.0 == Expected(rate) as real
  }

  lemma KnownAreExact()
    ensures forall i :: 0 <= i < |KNOWN| ==> Exact(KNOWN[i])
    ensures forall d :: d in TABLE_DELTAS ==> exists i :: 0 <= i < |KNOWN| && Expected(KNOWN[i]) == d
  {
    assert Expected(KNOWN[0]) == 48 && Expected(KNOWN[1]) == 24 && Expected(KNOWN[2]) == 96;
    assert Expected(KNOWN[3]) == 192 && Expected(KNOWN[4]) == 384 && Expected(KNOWN[5]) == 480;
    assert Expected(KNOWN[6]) == 960 && Expected(KNOWN[7]) == 12 && Expected(KNOWN[8]) == 6;
    assert Expected(KNOWN[9]) == 441 && Expected(KNOWN[10]) == 882;
  }

  // What a successful lookup means.
  ghost predicate Matches(found: Option<Rate>, d: int) {
    found.Some? ==> found.value.hz > 0.0 && found.value.ptimeMs > 0.0 &&
                    found.value.hz * found.value.ptimeMs / 1000.0 == d as real
  }

  lemma {:induction false} LookupMatches(d: int, table: seq<Rate>)
    requires forall i :: 0 <= i < |table| ==> Exact(table[i])
    ensures Matches(Lookup(d, table), d)
    ensures Lookup(d, table).Some? <==> exists i :: 0 <= i < |table| && Expected(table[i]) == d
  {
    hide Expected;
    if table != [] {
      assert Exact(table[0]);
      LookupMatches(d, table[1..]);
      assert forall i :: 0 <= i < |table| - 1 ==> table[1..][i] == table[i + 1];
    }
  }

  // A delta is recognised exactly when it is in the table, and the pair it selects
  // produces that very delta.
  lemma LookupIsExact(d: int)
    ensures Lookup(d, KNOWN).Some? <==> d in TABLE_DELTAS
    ensures Matches(Lookup(d, KNOWN), d)
    ensures d in TABLE_DELTAS ==> Lookup(d, KNOWN).value.hz == if d == 441 || d == 882 then 44_100.0 else 48_000.0
  {
    KnownAreExact();
    LookupMatches(d, KNOWN);
    LookupIsOfTable(d, KNOWN);
    RatesOfTable();
  }

  lemma {:induction false} LookupIsOfTable(d: int, table: seq<Rate>)
    ensures Lookup(d, table).Some? ==> Lookup(d, table).value in table && Expected(Lookup(d, table).value) == d
  {
    if table != [] {
      LookupIsOfTable(d, table[1..]);
    }
  }

  // Only the steps of 441 and 882 ticks belong to 44.1 kHz.
  lemma RatesOfTable()
    ensures forall rate :: rate in KNOWN ==>
              rate.hz == if Expected(rate) == 441 || Expected(rate) == 882 then 44_100.0 else 48_000.0
  {
    assert Expected(KNOWN[0]) == 48 && Expected(KNOWN[1]) == 24 && Expected(KNOWN[2]) == 96;
    assert Expected(KNOWN[3]) == 192 && Expected(KNOWN[4]) == 384 && Expected(KNOWN[5]) == 480;
    assert Expected(KNOWN[6]) == 960 && Expected(KNOWN[7]) == 12 && Expected(KNOWN[8]) == 6;
    assert Expected(KNOWN[9]) == 441 && Expected(KNOWN[10]) == 882;
  }

  // ---- The mode of a batch --------------------------------------------------

  // The smallest value of maximal multiplicity.
  ghost predicate IsSmallestMode(s: multiset<int>, v: int) {
    && v in s
    && forall w :: w in s ==> s[w] < s[v] || (s[w] == s[v] && v <= w)
  }

  lemma SmallestModeIsUnique(s: multiset<int>, v: int, w: int)
    requires IsSmallestMode(s, v) && IsSmallestMode(s, w)
    ensures v == w
  {}

  function Mode(s: seq<int>): (v: int)
    requires s != []
    ensures IsSmallestMode(multiset(s), v)
  {
    var front, x := s[..|s| - 1], s[|s| - 1];
    assert s == front + [x];
    if front == [] then x
    else
      var b := Mode(front);
      var ms := multiset(s);
      assert ms == multiset(front) + multiset{x};
      if ms[x] > ms[b] || (ms[x] == ms[b] && x < b) then x else b
  }

  ghost predicate Ascending(s: seq<int>) {
    forall i, j :: 0 <= i < j < |s| ==> s[i] <= s[j]
  }

  lemma AscendingCons(x: int, rest: seq<int>, bound: multiset<int>)
    requires Ascending(rest) && multiset(rest) == bound
    requires forall v :: v in bound ==> x <= v
    ensures Ascending([x] + rest)
  {
    forall i | 0 <= i < |rest| ensures x <= rest[i] {
      assert rest[i] in multiset(rest);
    }
  }

  function Insert(x: int, s: seq<int>): (r: seq<int>)
    requires Ascending(s)
    ensures Ascending(r) && multiset(r) == multiset(s) + multiset{x}
  {
    if s == [] then [x]
    else if x <= s[0] then [x] + s
    else
      var rest := Insert(x, s[1..]);
      assert s == [s[0]] + s[1..];
      assert forall v :: v in multiset(s[1..]) ==> s[0] <= v by {
        forall v | v in multiset(s[1..]) ensures s[0] <= v { assert v in s[1..]; }
      }
      AscendingCons(s[0], rest, multiset(s[1..]) + multiset{x});
      [s[0]] + rest
  }

  // `sort_unstable` on integers.
  function Sort(s: seq<int>): (r: seq<int>)
    ensures Ascending(r) && multiset(r) == multiset(s)
    ensures |r| == |s|
  {
    if s == [] then []
    else
      assert s == [s[0]] + s[1..];
      var r := Insert(s[0], Sort(s[1..]));
      assert |r| == |multiset(r)| && |s| == |multiset(s)|;
      r
  }

  // Adding a value no smaller than any so far: it takes over exactly when its count
  // exceeds the best one.
  lemma ModeStep(before: multiset<int>, best: int, v: int)
    requires IsSmallestMode(before, best)
    requires forall w :: w in before ==> w <= v
    ensures var count := before[v] + 1;
            IsSmallestMode(before + multiset{v}, if count > before[best] then v else best)
  {
    var after := before + multiset{v};
    forall w ensures after[w] == before[w] + if w == v then 1 else 0 {}
    forall w | w in after && w != v ensures w in before {}
  }

  lemma UpToNow(sorted: seq<int>, i: nat)
    requires Ascending(sorted) && 0 < i < |sorted|
    ensures forall w :: w in multiset(sorted[..i]) ==> w <= sorted[i - 1]
  {
    forall w | w in multiset(sorted[..i]) ensures w <= sorted[i - 1] {
      assert w in sorted[..i];
    }
  }

  datatype Scan = Scan(best: int, bestCount: nat, cur: int, curCount: nat)

  // The scan of a non-empty prefix: its smallest mode and its last value, counted.
  ghost predicate Scanned(prefix: seq<int>, s: Scan) {
    && prefix != []
    && s.cur == prefix[|prefix| - 1]
    && s.curCount == multiset(prefix)[s.cur]
    && s.bestCount == multiset(prefix)[s.best]
    && IsSmallestMode(multiset(prefix), s.best)
  }

  function ScanNext(s: Scan, v: int): Scan {
    var count := if v == s.cur then s.curCount + 1 else 1;
    if count > s.bestCount then Scan(v, count, v, count) else Scan(s.best, s.bestCount, v, count)
  }

  lemma ScanStep(sorted: seq<int>, i: nat, s: Scan)
    requires Ascending(sorted) && 0 < i < |sorted|
    requires Scanned(sorted[..i], s)
    ensures Scanned(sorted[..i + 1], ScanNext(s, sorted[i]))
  {
    var before, v := multiset(sorted[..i]), sorted[i];
    assert sorted[..i + 1] == sorted[..i] + [v];
    assert multiset(sorted[..i + 1]) == before + multiset{v};
    UpToNow(sorted, i);
    ModeStep(before, s.best, v);
    assert v != s.cur ==> v !in before;
    assert s.best == v ==> v == s.cur;
  }

  lemma ScanStart(sorted: seq<int>)
    requires sorted != []
    ensures Scanned(sorted[..1], Scan(sorted[0], 1, sorted[0], 1))
  {
    assert sorted[..1] == [sorted[0]];
  }

  lemma ScanEnd(samples: seq<int>, sorted: seq<int>, s: Scan)
    requires multiset(sorted) == multiset(samples) && samples != []
    requires Scanned(sorted, s)
    ensures s.best == Mode(samples)
  {
    SmallestModeIsUnique(multiset(samples), s.best, Mode(samples));
  }

  // One pass over the sorted batch, comparing run lengths.
  method ScanForMode(samples: seq<int>) returns (mode: int)
    requires samples != []
    ensures mode == Mode(samples)
  {
    hide Scanned, Mode;
    var sorted := Sort(samples);
    var best, bestCount := sorted[0], 1;
    var cur, curCount := sorted[0], 1;
    ScanStart(sorted);
    for i := 1 to |sorted|
      invariant Scanned(sorted[..i], Scan(best, bestCount, cur, curCount))
    {
      ghost var s := Scan(best, bestCount, cur, curCount);
      ScanStep(sorted, i, s);
      var v := sorted[i];
      if v == cur { curCount := curCount + 1; } else { cur, curCount := v, 1; }
      if curCount > bestCount { best, bestCount := cur, curCount; }
      assert Scan(best, bestCount, cur, curCount) == ScanNext(s, v);
    }
    assert sorted[..|sorted|] == sorted;
    mode := best;
    ScanEnd(samples, sorted, Scan(best, bestCount, cur, curCount));
  }

  lemma {:induction false} CountsOfTwo(s: seq<int>, v: int, w: int)
    requires v != w
    ensures multiset(s)[v] + multiset(s)[w] <= |s|
  {
    if s != [] {
      assert s == [s[0]] + s[1..];
      CountsOfTwo(s[1..], v, w);
    }
  }

  // A value held by more than half of the batch is its mode.
  lemma MajorityIsMode(s: seq<int>, d: int)
    requires s != [] && 2 * multiset(s)[d] > |s|
    ensures Mode(s) == d
  {
    forall w | w in multiset(s) && w != d ensures multiset(s)[w] < multiset(s)[d] {
      CountsOfTwo(s, d, w);
    }
    SmallestModeIsUnique(multiset(s), Mode(s), d);
  }
}
