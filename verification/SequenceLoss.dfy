// Loss and reorder accounting on wrapping sequence counters: the part of
// `StreamStats::update` that looks at the 16-bit RTP sequence number, and
// `AvtpStreamStats::update_seq` on its 8-bit counterpart.
module SequenceLoss {
  import opened Basics
  import opened Wrapping

  datatype Track = Track(last: Option<nat>, lost: nat, reorders: nat)

  const Untracked := Track(None, 0, 0)

  // Signed distance from the number after `last` to `sn`; 0 is an in-order packet.
  function Delta(last: nat, sn: nat, m: nat): (d: int)
    requires Modulus(m)
  {
    SignedSub(sn, (last + 1) % m, m)
  }

  function Step(t: Track, sn: nat, m: nat): Track
    requires Modulus(m)
  {
    match t.last
    case None => t.(last := Some(sn))
    case Some(last) =>
      var d := Delta(last, sn, m);
      Track(Some(sn), t.lost + Max(d, 0), t.reorders + if d < 0 then 1 else 0)
  }

  // ---- Runs of true, unbounded positions ------------------------------------

  // What the monitor holds after receiving a run of positions reduced modulo m.
  function Observe(run: seq<int>, m: nat): Track
    requires Modulus(m)
  {
    if run == [] then Untracked
    else Step(Observe(Front(run), m), Wrap(Last(run), m), m)
  }

  // How far the last packet of the run lies past its successor position.
  function LastGap(run: seq<int>): int
    requires |run| >= 2
  {
    Last(run) - Last(Front(run)) - 1
  }

  // Every step minus one fits the signed range of the counter.
  ghost predicate Faithful(run: seq<int>, m: nat)
    requires Modulus(m)
  {
    |run| <= 1 || (Faithful(Front(run), m) && -(m as int) / 2 <= LastGap(run) < m / 2)
  }

  // Positions jumped over, positions stepped back, and the number of backward steps.
  ghost function ForwardGaps(run: seq<int>): nat {
    if |run| <= 1 then 0 else ForwardGaps(Front(run)) + Max(LastGap(run), 0)
  }

  ghost function BackwardGaps(run: seq<int>): nat {
    if |run| <= 1 then 0 else BackwardGaps(Front(run)) + Max(-LastGap(run), 0)
  }

  ghost function BackwardSteps(run: seq<int>): nat {
    if |run| <= 1 then 0
    else BackwardSteps(Front(run)) + if LastGap(run) < 0 then 1 else 0
  }

  // One step is counted truly exactly when its gap is a forward one that fits, or a
  // backward one whose wrapped image is not a forward one.
  lemma StepCountsTrueGap(t: Track, p: int, q: int, m: nat)
    requires Modulus(m) && t.last == Some(Wrap(p, m))
    ensures Step(t, Wrap(q, m), m).last == Some(Wrap(q, m))
    ensures Step(t, Wrap(q, m), m).lost == t.lost + Max(q - p - 1, 0)
       <==> (if q - p - 1 >= 0 then q - p - 1 < m / 2
             else (q - p - 1) % m == 0 || (q - p - 1) % m >= m / 2)
    ensures -(m as int) / 2 <= q - p - 1 < m / 2 ==>
              Step(t, Wrap(q, m), m).reorders == t.reorders + if q - p - 1 < 0 then 1 else 0
  {
    hide Wrap, Delta;
    DeltaOfWrapped(p, q, m);
  }

  lemma DeltaOfWrapped(p: int, q: int, m: nat)
    requires Modulus(m)
    ensures Delta(Wrap(p, m), Wrap(q, m), m) == SignedSub(q, p + 1, m)
  {
    hide SignedSub, Wrap;
    WrapSuccessor(p, m);
    SignedSubOfWrapped(q, p + 1, m);
  }

  // The wrapped counter refines the true one.
  lemma {:induction false} LossIsSumOfForwardGaps(run: seq<int>, m: nat)
    requires Modulus(m) && run != [] && Faithful(run, m)
    ensures Observe(run, m)
         == Track(Some(Wrap(Last(run), m)), ForwardGaps(run), BackwardSteps(run))
  {
    if |run| == 1 {
      assert Observe(Front(run), m) == Untracked;
    } else {
      LossIsSumOfForwardGaps(Front(run), m);
      StepCountsTrueGap(Observe(Front(run), m), Last(Front(run)), Last(run), m);
    }
  }

  // Packets plus losses make up the span from first to last, plus what was stepped back.
  lemma {:induction false} PacketsPlusLossesSpanRun(run: seq<int>, m: nat)
    requires Modulus(m) && run != [] && Faithful(run, m)
    ensures |run| + Observe(run, m).lost == Last(run) - run[0] + 1 + BackwardGaps(run)
    ensures Observe(run, m).reorders == 0 <==> BackwardGaps(run) == 0
  {
    LossIsSumOfForwardGaps(run, m);
    if |run| > 1 {
      LossIsSumOfForwardGaps(Front(run), m);
      PacketsPlusLossesSpanRun(Front(run), m);
    }
  }

  // ---- No missing packet goes uncounted -------------------------------------

  // The highest position received so far.
  function Highest(run: seq<int>): int
    requires run != []
  {
    if |run| == 1 then run[0] else Max(Highest(Front(run)), Last(run))
  }

  // Positions between the first and the highest received that never arrived.
  ghost function Missing(run: seq<int>): set<int>
    requires run != []
  {
    set k | run[0] < k < Highest(run) && k !in run
  }

  function Between(lo: int, hi: int): (s: set<int>)
    ensures |s| == Max(hi - lo - 1, 0)
    ensures forall k :: k in s <==> lo < k < hi
    decreases hi - lo
  {
    if hi - lo <= 1 then {} else {hi - 1} + Between(lo, hi - 1)
  }

  lemma {:induction false} HighestIsReceived(run: seq<int>)
    requires run != []
    ensures Highest(run) in run
    ensures forall k :: k in run ==> k <= Highest(run)
  {
    if |run| > 1 {
      HighestIsReceived(Front(run));
      assert run == Front(run) + [Last(run)];
    }
  }

  // What a run books beyond the packets it misses: a packet past the highest so far that
  // does not follow on that highest books again what was passed before, and one at or
  // below it books whatever it jumps over, and fills a hole that stays booked.
  ghost function Excess(run: seq<int>): nat {
    if |run| <= 1 then 0
    else
      HighestBounds(Front(run));
      Excess(Front(run)) +
      if Last(run) > Highest(Front(run)) then Highest(Front(run)) - Last(Front(run))
      else Max(LastGap(run), 0) + if Last(run) in Missing(Front(run)) then 1 else 0
  }

  // Every packet either goes past the highest position from that highest itself, or does
  // not jump forward and repeats a position already received or before the first.
  ghost predicate Regular(run: seq<int>) {
    |run| <= 1 ||
    (Regular(Front(run)) &&
     if Last(run) > Highest(Front(run)) then Last(Front(run)) == Highest(Front(run))
     else LastGap(run) <= 0 && (Last(run) in Front(run) || Last(run) < run[0]))
  }

  lemma HighestBounds(run: seq<int>)
    requires run != []
    ensures run[0] <= Highest(run) && Last(run) <= Highest(run)
  {
    HighestIsReceived(run);
    assert run[0] in run && Last(run) in run;
  }

  lemma MissingAhead(run: seq<int>)
    requires |run| >= 2 && Last(run) > Highest(Front(run))
    ensures |Missing(run)| == |Missing(Front(run))| + Last(run) - Highest(Front(run)) - 1
  {
    var r, q := Front(run), Last(run);
    assert run == r + [q];
    HighestBounds(r);
    var jumped := Between(Highest(r), q);
    forall k ensures k in Missing(run) <==> k in Missing(r) || k in jumped {
      assert k in run <==> k in r || k == q;
      assert k in r ==> k <= Highest(r) by { HighestIsReceived(r); }
      assert Highest(r) in r by { HighestIsReceived(r); }
    }
    assert Missing(run) == Missing(r) + jumped;
    assert Missing(r) !! jumped;
  }

  lemma MissingBehind(run: seq<int>)
    requires |run| >= 2 && Last(run) <= Highest(Front(run))
    ensures |Missing(run)| == |Missing(Front(run))| - if Last(run) in Missing(Front(run)) then 1 else 0
  {
    var r, q := Front(run), Last(run);
    assert run == r + [q];
    forall k ensures k in Missing(run) <==> k in Missing(r) && k != q {
      assert k in run <==> k in r || k == q;
    }
    assert Missing(run) == Missing(r) - {q};
  }

  lemma {:induction false} GapsAreMissingAndExcess(run: seq<int>)
    requires run != []
    ensures ForwardGaps(run) == |Missing(run)| + Excess(run)
  {
    if |run| == 1 {
      assert Missing(run) == {};
    } else {
      GapsAreMissingAndExcess(Front(run));
      HighestBounds(Front(run));
      if Last(run) > Highest(Front(run)) { MissingAhead(run); } else { MissingBehind(run); }
    }
  }

  lemma {:induction false} RegularHasNoExcess(run: seq<int>)
    requires run != []
    ensures Excess(run) == 0 <==> Regular(run)
    ensures BackwardSteps(run) == 0 ==> Regular(run)
  {
    if |run| > 1 {
      RegularHasNoExcess(Front(run));
      HighestBounds(Front(run));
      assert Last(run) <= Highest(Front(run)) ==>
               (Last(run) !in Missing(Front(run)) <==> Last(run) in Front(run) || Last(run) < run[0]) by {
        HighestIsReceived(Front(run));
      }
      if BackwardSteps(run) == 0 {
        InOrderIsHighest(Front(run));
      }
    }
  }

  lemma {:induction false} InOrderIsHighest(run: seq<int>)
    requires run != [] && BackwardSteps(run) == 0
    ensures Highest(run) == Last(run)
  {
    if |run| > 1 {
      InOrderIsHighest(Front(run));
    }
  }

  // The loss counter is the number of packets that never arrived plus the excess, so it
  // never understates, and it is exact precisely on the regular runs; those include all
  // runs without a backward step.
  lemma LossCoversMissing(run: seq<int>, m: nat)
    requires Modulus(m) && run != [] && Faithful(run, m)
    ensures Observe(run, m).lost == |Missing(run)| + Excess(run)
    ensures Observe(run, m).lost == |Missing(run)| <==> Regular(run)
    ensures Observe(run, m).reorders == 0 ==> Regular(run)
  {
    LossIsSumOfForwardGaps(run, m);
    GapsAreMissingAndExcess(run);
    RegularHasNoExcess(run);
  }

  // With reordering the counter can overstate: a packet that arrives right after the
  // one that jumped over it leaves nothing missing, yet its absence stays booked.
  lemma LatePacketStaysBooked(first: int, m: nat)
    requires Modulus(m)
    ensures var run := [first, first + 2, first + 1];
            Faithful(run, m) && Missing(run) == {} && Observe(run, m).lost == 1
  {
    var two := [first, first + 2];
    var run := [first, first + 2, first + 1];
    assert Front(two) == [first] && Front(run) == two;
    assert LastGap(two) == 1 && LastGap(run) == -2;
    assert ForwardGaps(two) == 1;
    LossIsSumOfForwardGaps(run, m);
    HighestIsReceived(run);
    assert run[2] in run;
  }

  // Not every reordering costs accuracy: a packet from before the first is a backward step
  // of a regular run, on which nothing is booked and nothing is missing.
  lemma EarlierPacketCostsNothing(first: int, m: nat)
    requires Modulus(m)
    ensures var run := [first, first - 1];
            && Faithful(run, m) && Regular(run)
            && Observe(run, m).reorders == 1 && Observe(run, m).lost == |Missing(run)| == 0
  {
    var run := [first, first - 1];
    assert Front(run) == [first] && LastGap(run) == -2;
    HighestBounds([first]);
    HighestIsReceived([first]);
    LossIsSumOfForwardGaps(run, m);
    LossCoversMissing(run, m);
  }
}
