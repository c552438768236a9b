// What a stream's counters mean over whole runs of packets and window closes.
module StreamRuns {
  import opened Basics
  import opened Wrapping
  import opened Streams
  import SequenceLoss
  import Timing
  import Inference = ClockInference
  import Diagnostics
  import Jitter

  datatype Arrival = Arrival(p: RtpPacket, now: Time)

  function Received(s: Stream, run: seq<Arrival>): (r: Stream)
    requires s.clock.hz > 0.0
    ensures r.clock.hz > 0.0
  {
    if run == [] then s else Updated(Received(s, Front(run)), Last(run).p, Last(run).now)
  }

  // ---- Sequence numbers -----------------------------------------------------

  ghost predicate CarriesPositions(run: seq<Arrival>, truth: seq<int>) {
    |run| == |truth| && forall i :: 0 <= i < |run| ==> run[i].p.sn == Wrap(truth[i], M16)
  }

  // A stream's counters are those of the sequence tracker.
  lemma {:induction false} CountsFollowTracker(s: Stream, run: seq<Arrival>, truth: seq<int>)
    requires s.clock.hz > 0.0 && s.count.lastSeq == None && CarriesPositions(run, truth)
    ensures var (c, t) := (Received(s, run).count, SequenceLoss.Observe(truth, M16));
            && c.lastSeq == t.last
            && c.lost == s.count.lost + t.lost
            && c.lostThisWindow == s.count.lostThisWindow + t.lost
            && c.reordersThisWindow == s.count.reordersThisWindow + t.reorders
            && c.packets == s.count.packets + |run|
            && c.packetsThisWindow == s.count.packetsThisWindow + |run|
  {
    if run != [] {
      CountsFollowTracker(s, Front(run), Front(truth));
    }
  }

  // From the first packet of a stream on: lost packets are the sum of the forward gaps,
  // those that never arrived plus the excess, so exact precisely on regular runs; with
  // packets they span the run, plus what it stepped back.
  lemma LossOfRun(s: Stream, run: seq<Arrival>, truth: seq<int>)
    requires s.clock.hz > 0.0 && s.count == Counts(0, 0, 0, 0, 0, None, false)
    requires run != [] && CarriesPositions(run, truth) && SequenceLoss.Faithful(truth, M16)
    ensures var c := Received(s, run).count;
            && c.lost == SequenceLoss.ForwardGaps(truth)
            && c.lost == |SequenceLoss.Missing(truth)| + SequenceLoss.Excess(truth)
            && (c.lost == |SequenceLoss.Missing(truth)| <==> SequenceLoss.Regular(truth))
            && c.packets + c.lost
               == truth[|truth| - 1] - truth[0] + 1 + SequenceLoss.BackwardGaps(truth)
            && c.reordersThisWindow == SequenceLoss.BackwardSteps(truth)
            && (c.reordersThisWindow == 0 <==> SequenceLoss.BackwardGaps(truth) == 0)
            && (c.reordersThisWindow == 0 ==> SequenceLoss.Regular(truth))
  {
    CountsFollowTracker(s, run, truth);
    SequenceLoss.LossIsSumOfForwardGaps(truth, M16);
    SequenceLoss.LossCoversMissing(truth, M16);
    SequenceLoss.PacketsPlusLossesSpanRun(truth, M16);
  }

  // ---- Timestamps -----------------------------------------------------------

  // The run carries true timestamps, starting from t0, in steps that fit 32 signed bits.
  ghost predicate CarriesTimestamps(run: seq<Arrival>, t0: int, truth: seq<int>) {
    && |run| == |truth|
    && forall i :: 0 <= i < |run| ==>
         run[i].p.ts == Wrap(truth[i], M32) &&
         -0x8000_0000 <= TsStep(t0, truth, i) < 0x8000_0000
  }

  function TsStep(t0: int, truth: seq<int>, i: nat): int
    requires i < |truth|
  {
    truth[i] - if i == 0 then t0 else truth[i - 1]
  }

  function LastTs(t0: int, truth: seq<int>): int {
    if truth == [] then t0 else truth[|truth| - 1]
  }

  lemma EarlierTimestamps(run: seq<Arrival>, t0: int, truth: seq<int>)
    requires run != [] && CarriesTimestamps(run, t0, truth)
    ensures CarriesTimestamps(Front(run), t0, Front(truth))
  {
    hide SignedSub, Wrap;
    forall j | 0 <= j < |run| - 1 ensures TsStep(t0, Front(truth), j) == TsStep(t0, truth, j) {}
  }

  lemma TimestampStep(run: seq<Arrival>, t0: int, truth: seq<int>)
    requires run != [] && CarriesTimestamps(run, t0, truth)
    ensures CarriesTimestamps(Front(run), t0, Front(truth))
    ensures SignedSub(Last(run).p.ts, Wrap(LastTs(t0, Front(truth)), M32), M32)
         == TsStep(t0, truth, |truth| - 1)
  {
    EarlierTimestamps(run, t0, truth);
    var step := TsStep(t0, truth, |run| - 1);
    assert -0x8000_0000 <= step < 0x8000_0000 && Last(run).p.ts == Wrap(Last(truth), M32);
    hide SignedSub, Wrap, CarriesTimestamps;
    assert step == Last(truth) - LastTs(t0, Front(truth));
    SignedSubExact(Last(truth), LastTs(t0, Front(truth)), M32);
  }

  lemma LastTimestamp(run: seq<Arrival>, t0: int, truth: seq<int>)
    requires run != [] && CarriesTimestamps(run, t0, truth)
    ensures |truth| == |run| && Last(run).p.ts == Wrap(LastTs(t0, truth), M32)
  {
    hide Wrap;
  }

  lemma NoTimestamps(t0: int, truth: seq<int>)
    requires CarriesTimestamps([], t0, truth)
    ensures truth == []
  {}

  // A step outside half to one and a half times D.
  ghost predicate Bad(step: int, d: int) {
    d > 0 && !(0.5 * d as real <= step as real <= 1.5 * d as real)
  }

  ghost function BadSteps(t0: int, truth: seq<int>, d: int): nat {
    if truth == [] then 0
    else BadSteps(t0, Front(truth), d) + if Bad(TsStep(t0, truth, |truth| - 1), d) then 1 else 0
  }

  // The clock is confirmed and steps by exactly D per packet.
  ghost predicate StepsBy(k: Clock, d: int) {
    k.confirmed && RateSteps(k.hz, k.ptimeMs, d)
  }

  ghost predicate RateSteps(hz: real, ptimeMs: real, d: int) {
    hz > 0.0 && ptimeMs > 0.0 && hz * ptimeMs / 1000.0 == d as real
  }

  // The ticks of one packet, at 1 ms where no packet time is known.
  ghost function TicksPerPacket(k: Clock): real {
    k.hz * (if k.ptimeMs > 0.0 then k.ptimeMs else 1.0) / 1000.0
  }

  // The clock is confirmed and expects d ticks per packet, fractions dropped.
  ghost predicate Expects(k: Clock, d: int) {
    k.confirmed && k.hz > 0.0 && d as real <= TicksPerPacket(k) < d as real + 1.0
  }

  lemma StepsAreExpected(k: Clock, d: int)
    requires StepsBy(k, d)
    ensures Expects(k, d)
  {}

  lemma ExpectedIsFloor(k: Clock, d: int)
    requires Expects(k, d)
    ensures ExpectedDiff(k.hz, k.ptimeMs) == d
  {}

  lemma BadIsOutOfBand(step: int, d: int)
    ensures Bad(step, d) <==> OutOfBand(step, d)
  {}

  // Of all of `update`, only ReadTimestamp touches the clock.
  lemma ClockOfUpdate(s: Stream, p: RtpPacket, now: Time)
    requires s.clock.hz > 0.0
    ensures Updated(s, p, now).clock == ReadTimestamp(s.clock, p.ts).(lastTs := Some(p.ts))
  {
    hide CountRtp, ObserveGap, FilterJitter, MarkSource, SampleIat, ReadTimestamp;
  }

  ghost function Jump(k: Clock, ts: nat, d: int): nat
    requires k.lastTs.Some?
  {
    if Bad(SignedSub(ts, k.lastTs.value, M32), d) then 1 else 0
  }

  lemma ConfirmedClockCounts(k: Clock, ts: nat, d: int)
    requires Expects(k, d) && k.lastTs.Some?
    ensures var k' := ReadTimestamp(k, ts).(lastTs := Some(ts));
            && Expects(k', d) && k'.hz == k.hz && k'.ptimeMs == k.ptimeMs && k'.lastTs == Some(ts)
            && k'.jumps == k.jumps + Jump(k, ts, d)
            && k'.jumpsThisWindow == k.jumpsThisWindow + Jump(k, ts, d)
            && k'.lastDiff == Some(SignedSub(ts, k.lastTs.value, M32))
  {
    ExpectedIsFloor(k, d);
    BadIsOutOfBand(SignedSub(ts, k.lastTs.value, M32), d);
    hide SignedSub, ExpectedDiff, TicksPerPacket, Bad, OutOfBand;
  }

  // Once confirmed, a clock is kept, and over any run the discontinuity counter counts
  // exactly the true steps out of band, however often the 32-bit timestamp wraps.
  lemma {:induction false} JumpsAreBadSteps(s: Stream, run: seq<Arrival>, t0: int, truth: seq<int>, d: int)
    requires s.clock.hz > 0.0 && Expects(s.clock, d) && s.clock.lastTs == Some(Wrap(t0, M32))
    requires CarriesTimestamps(run, t0, truth)
    ensures var k := Received(s, run).clock;
            && Expects(k, d) && k.hz == s.clock.hz && k.ptimeMs == s.clock.ptimeMs
            && k.lastTs == Some(Wrap(LastTs(t0, truth), M32))
            && k.jumps == s.clock.jumps + BadSteps(t0, truth, d)
            && k.jumpsThisWindow == s.clock.jumpsThisWindow + BadSteps(t0, truth, d)
            && (run != [] ==> k.lastDiff == Some(TsStep(t0, truth, |truth| - 1)))
  {
    hide Updated, ReadTimestamp, Bad, SignedSub, TicksPerPacket;
    if run != [] {
      TimestampStep(run, t0, truth);
      JumpsAreBadSteps(s, Front(run), t0, Front(truth), d);
      var before := Received(s, Front(run));
      ClockOfUpdate(before, Last(run).p, Last(run).now);
      ConfirmedClockCounts(before.clock, Last(run).p.ts, d);
    }
  }

  lemma {:induction false} SteadyStepsAreGood(t0: int, truth: seq<int>, d: int)
    requires d > 0 && forall i :: 0 <= i < |truth| ==> TsStep(t0, truth, i) == d
    ensures BadSteps(t0, truth, d) == 0
  {
    if truth != [] {
      forall j | 0 <= j < |truth| - 1 ensures TsStep(t0, Front(truth), j) == d {
        assert TsStep(t0, truth, j) == d;
      }
      SteadyStepsAreGood(t0, Front(truth), d);
    }
  }

  // ---- Learning the clock ---------------------------------------------------

  ghost function PositiveSteps(t0: int, truth: seq<int>): seq<int> {
    if truth == [] then []
    else
      var d := TsStep(t0, truth, |truth| - 1);
      PositiveSteps(t0, Front(truth)) + if d > 0 then [d] else []
  }

  lemma CollectsStep(k: Clock, ts: nat, d: int)
    requires !k.confirmed && k.lastTs.Some? && SignedSub(ts, k.lastTs.value, M32) == d
    requires |k.samples| + (if d > 0 then 1 else 0) < 8
    ensures ReadTimestamp(k, ts) == k.(samples := k.samples + if d > 0 then [d] else [])
  {
    hide SignedSub;
  }

  // While the batch is short, exactly the positive true steps are collected.
  lemma {:induction false} CollectsPositiveSteps(s: Stream, run: seq<Arrival>, t0: int, truth: seq<int>)
    requires s.clock.hz > 0.0 && !s.clock.confirmed && s.clock.lastTs == Some(Wrap(t0, M32))
    requires CarriesTimestamps(run, t0, truth)
    requires |s.clock.samples + PositiveSteps(t0, truth)| < 8
    ensures var k := Received(s, run).clock;
            && !k.confirmed && k.hz == s.clock.hz && k.ptimeMs == s.clock.ptimeMs
            && k.lastTs == Some(Wrap(LastTs(t0, truth), M32))
            && k.samples == s.clock.samples + PositiveSteps(t0, truth)
            && k.jumps == s.clock.jumps
  {
    hide Updated, SignedSub, ReadTimestamp, Wrap, CarriesTimestamps;
    if run != [] {
      LastTimestamp(run, t0, truth);
      TimestampStep(run, t0, truth);
      CollectsPositiveSteps(s, Front(run), t0, Front(truth));
      var before := Received(s, Front(run));
      ClockOfUpdate(before, Last(run).p, Last(run).now);
      CollectsStep(before.clock, Last(run).p.ts, TsStep(t0, truth, |truth| - 1));
    } else {
      NoTimestamps(t0, truth);
    }
  }

  // The packet that completes the batch decides: most of the batch being a delta D of
  // the table confirms a clock that steps by D.
  lemma MajorityDeltaIsLearned(s: Stream, run: seq<Arrival>, t0: int, truth: seq<int>, d: int)
    requires s.clock.hz > 0.0 && !s.clock.confirmed && s.clock.lastTs == Some(Wrap(t0, M32))
    requires run != [] && CarriesTimestamps(run, t0, truth)
    requires |s.clock.samples + PositiveSteps(t0, truth)| == 8
    requires TsStep(t0, truth, |truth| - 1) > 0
    requires multiset(s.clock.samples + PositiveSteps(t0, truth))[d] >= 5 && d in Inference.TABLE_DELTAS
    ensures StepsBy(Received(s, run).clock, d)
    ensures Received(s, run).clock.hz == if d == 441 || d == 882 then 44_100.0 else 48_000.0
    ensures Received(s, run).clock.samples == []
    ensures Received(s, run).clock.lastTs == Some(Wrap(LastTs(t0, truth), M32))
    ensures Received(s, run).clock.jumps == s.clock.jumps
  {
    hide Updated, SignedSub, RateSteps;
    TimestampStep(run, t0, truth);
    CollectsPositiveSteps(s, Front(run), t0, Front(truth));
    var before, batch := Received(s, Front(run)), s.clock.samples + PositiveSteps(t0, truth);
    assert batch == before.clock.samples + [TsStep(t0, truth, |truth| - 1)];
    ClockOfUpdate(before, Last(run).p, Last(run).now);
    MajorityBatchConfirms(before.clock, Last(run).p.ts, batch, d);
  }

  lemma MajorityBatchConfirms(k: Clock, ts: nat, batch: seq<int>, d: int)
    requires !k.confirmed && k.lastTs.Some? && |batch| == 8
    requires batch == k.samples + [SignedSub(ts, k.lastTs.value, M32)]
    requires SignedSub(ts, k.lastTs.value, M32) > 0
    requires multiset(batch)[d] >= 5 && d in Inference.TABLE_DELTAS
    ensures var k' := ReadTimestamp(k, ts).(lastTs := Some(ts));
            && StepsBy(k', d) && k'.hz == (if d == 441 || d == 882 then 44_100.0 else 48_000.0)
            && k'.samples == [] && k'.jumps == k.jumps && k'.lastTs == Some(ts)
  {
    hide SignedSub, RateSteps, Inference.Lookup, Inference.Mode;
    LearnedRateSteps(batch, d);
  }

  // Whatever the batch, its smallest most frequent delta decides: one outside the table
  // teaches nothing, and collecting starts over.
  lemma UnknownModeTeachesNothing(s: Stream, run: seq<Arrival>, t0: int, truth: seq<int>, d: int)
    requires s.clock.hz > 0.0 && !s.clock.confirmed && s.clock.lastTs == Some(Wrap(t0, M32))
    requires run != [] && CarriesTimestamps(run, t0, truth)
    requires |s.clock.samples + PositiveSteps(t0, truth)| == 8
    requires TsStep(t0, truth, |truth| - 1) > 0
    requires Inference.IsSmallestMode(multiset(s.clock.samples + PositiveSteps(t0, truth)), d)
    requires d !in Inference.TABLE_DELTAS
    ensures var k := Received(s, run).clock;
            && !k.confirmed && k.hz == s.clock.hz && k.ptimeMs == s.clock.ptimeMs && k.samples == []
            && k.jumps == s.clock.jumps && k.lastTs == Some(Wrap(LastTs(t0, truth), M32))
  {
    hide Updated, SignedSub, Inference.IsSmallestMode;
    TimestampStep(run, t0, truth);
    CollectsPositiveSteps(s, Front(run), t0, Front(truth));
    var before, batch := Received(s, Front(run)), s.clock.samples + PositiveSteps(t0, truth);
    assert batch == before.clock.samples + [TsStep(t0, truth, |truth| - 1)];
    ClockOfUpdate(before, Last(run).p, Last(run).now);
    UnknownBatchIsDropped(before.clock, Last(run).p.ts, batch, d);
  }

  lemma UnknownBatchIsDropped(k: Clock, ts: nat, batch: seq<int>, d: int)
    requires !k.confirmed && k.lastTs.Some? && |batch| == 8
    requires batch == k.samples + [SignedSub(ts, k.lastTs.value, M32)]
    requires SignedSub(ts, k.lastTs.value, M32) > 0
    requires Inference.IsSmallestMode(multiset(batch), d) && d !in Inference.TABLE_DELTAS
    ensures ReadTimestamp(k, ts) == k.(samples := [])
  {
    hide SignedSub, Inference.Lookup, Inference.Mode, Inference.IsSmallestMode;
    Inference.SmallestModeIsUnique(multiset(batch), Inference.Mode(batch), d);
    Inference.LookupIsExact(d);
  }

  lemma LearnedRateSteps(batch: seq<int>, d: int)
    requires |batch| == Inference.BATCH && multiset(batch)[d] >= 5 && d in Inference.TABLE_DELTAS
    ensures var found := Inference.Lookup(Inference.Mode(batch), Inference.KNOWN);
            found.Some? && RateSteps(found.value.hz, found.value.ptimeMs, d)
            && found.value.hz == if d == 441 || d == 882 then 44_100.0 else 48_000.0
  {
    hide Inference.Lookup, Inference.Mode, Inference.Matches, RateSteps;
    Inference.MajorityIsMode(batch, d);
    DeltaRateSteps(d);
  }

  lemma DeltaRateSteps(d: int)
    requires d in Inference.TABLE_DELTAS
    ensures var found := Inference.Lookup(d, Inference.KNOWN);
            found.Some? && RateSteps(found.value.hz, found.value.ptimeMs, d)
            && found.value.hz == if d == 441 || d == 882 then 44_100.0 else 48_000.0
  {
    hide Inference.Lookup;
    Inference.LookupIsExact(d);
  }

  lemma {:induction false} ReceivedInTwo(s: Stream, a: seq<Arrival>, b: seq<Arrival>)
    requires s.clock.hz > 0.0
    ensures Received(s, a + b) == Received(Received(s, a), b)
  {
    if b == [] {
      assert a + b == a;
    } else {
      assert Front(a + b) == a + Front(b);
      ReceivedInTwo(s, a, Front(b));
    }
  }

  lemma SteadyClockNeverJumps(s: Stream, t0: int, run: seq<Arrival>, truth: seq<int>, d: int)
    requires s.clock.hz > 0.0 && StepsBy(s.clock, d) && d > 0 && s.clock.lastTs == Some(Wrap(t0, M32))
    requires CarriesTimestamps(run, t0, truth) && forall i :: 0 <= i < |truth| ==> TsStep(t0, truth, i) == d
    ensures StepsBy(Received(s, run).clock, d)
    ensures Received(s, run).clock.jumps == s.clock.jumps
  {
    hide Received, RateSteps, TsStep, BadSteps, Wrap, CarriesTimestamps, Expects;
    StepsAreExpected(s.clock, d);
    JumpsAreBadSteps(s, run, t0, truth, d);
    SteadyStepsAreGood(t0, truth, d);
    StaysConfirmed(Received(s, run).clock, d);
  }

  lemma StaysConfirmed(k: Clock, d: int)
    requires Expects(k, d)
    ensures k.confirmed
  {}

  // Learned once, never disturbed: from then on a stream stepping by D counts no
  // discontinuity at all, across any number of timestamp wraps.
  lemma SteadyStreamNeverJumps(s: Stream, learn: seq<Arrival>, t0: int, truth: seq<int>, d: int,
                               steady: seq<Arrival>, later: seq<int>)
    requires s.clock.hz > 0.0 && !s.clock.confirmed && s.clock.lastTs == Some(Wrap(t0, M32))
    requires learn != [] && CarriesTimestamps(learn, t0, truth)
    requires |s.clock.samples + PositiveSteps(t0, truth)| == 8
    requires TsStep(t0, truth, |truth| - 1) > 0
    requires multiset(s.clock.samples + PositiveSteps(t0, truth))[d] >= 5 && d in Inference.TABLE_DELTAS
    requires CarriesTimestamps(steady, LastTs(t0, truth), later)
    requires forall i :: 0 <= i < |later| ==> TsStep(LastTs(t0, truth), later, i) == d
    ensures StepsBy(Received(s, learn + steady).clock, d)
    ensures Received(s, learn + steady).clock.jumps == s.clock.jumps
  {
    hide Received, StepsBy, PositiveSteps, TsStep, CarriesTimestamps, Wrap;
    MajorityDeltaIsLearned(s, learn, t0, truth, d);
    ReceivedInTwo(s, learn, steady);
    SteadyClockNeverJumps(Received(s, learn), LastTs(t0, truth), steady, later, d);
  }

  // Over any run whatever: confirmation is never undone, and the batch stays short.
  lemma {:induction false} ConfirmationAndBatchOverRuns(s: Stream, run: seq<Arrival>)
    requires s.clock.hz > 0.0 && |s.clock.samples| < 8
    ensures |Received(s, run).clock.samples| < 8
    ensures s.clock.confirmed ==>
              var k := Received(s, run).clock;
              k.confirmed && k.hz == s.clock.hz && k.ptimeMs == s.clock.ptimeMs
  {
    if run != [] {
      ConfirmationAndBatchOverRuns(s, Front(run));
    }
  }

  // ---- Jitter ---------------------------------------------------------------

  // The transit difference the last packet of the run contributes.
  ghost function LastTransit(s: Stream, run: seq<Arrival>): real
    requires s.clock.hz > 0.0 && run != []
  {
    var before := Received(s, Front(run));
    if before.clock.lastTs.Some? && before.arrive.lastArrival.Some? then
      TransitDifference(Since(Last(run).now, before.arrive.lastArrival.value),
                        SignedSub(Last(run).p.ts, before.clock.lastTs.value, M32),
                        Received(s, run).clock.hz)
    else 0.0
  }

  // All of them, in order; the first packet of a stream contributes none.
  ghost function Transits(s: Stream, run: seq<Arrival>): (d: seq<real>)
    requires s.clock.hz > 0.0
    ensures |d| == |run|
  {
    if run == [] then [] else Transits(s, Front(run)) + [LastTransit(s, run)]
  }

  ghost predicate HeardBefore(s: Stream) {
    s.clock.lastTs.Some? && s.arrive.lastArrival.Some?
  }

  lemma {:induction false} JitterFollowsFilter(s: Stream, run: seq<Arrival>)
    requires s.clock.hz > 0.0 && (HeardBefore(s) || s.arrive.jitter == 0.0)
    ensures HeardBefore(s) || run != [] ==> HeardBefore(Received(s, run))
    ensures Received(s, run).arrive.jitter == Jitter.FilterAll(s.arrive.jitter, Transits(s, run))
    ensures forall i :: 0 <= i < |run| ==> Transits(s, run)[i] >= 0.0
  {
    if run != [] {
      JitterFollowsFilter(s, Front(run));
      assert Front(Transits(s, run)) == Transits(s, Front(run));
    }
  }

  // From its first packet on, a stream whose transit differences stay within `bound`
  // seconds.
  lemma JitterOfRun(s: Stream, run: seq<Arrival>, bound: real)
    requires s.clock.hz > 0.0 && s.arrive.jitter == 0.0
    requires forall i :: 0 <= i < |run| ==> Transits(s, run)[i] <= bound
    ensures 0.0 <= Received(s, run).arrive.jitter <= Jitter.Ceiling(bound, |run|)
  {
    hide Updated, LastTransit, Jitter.Ceiling, Jitter.FilterAll;
    JitterFollowsFilter(s, run);
    Jitter.JitterBound(Transits(s, run), bound);
  }

  // Hence a stream whose transit differences never exceed 10 ms raises no HighJitter,
  // after any number of packets and at any time.
  lemma QuietRunIsNeverReported(s: Stream, run: seq<Arrival>, now: Time)
    requires s.clock.hz > 0.0 && s.arrive.jitter == 0.0
    requires forall i :: 0 <= i < |run| ==> Transits(s, run)[i] <= 0.01
    ensures forall d :: d in Diagnostics.Diagnose(Received(s, run), now) ==> !d.HighJitter?
    ensures Diagnostics.Share(Received(s, run), Diagnostics.Jitter, now) == 0.0
  {
    hide Received, Transits, Jitter.Ceiling, Diagnostics.Diagnose, Diagnostics.Share;
    JitterOfRun(s, run, 0.01);
    Jitter.CeilingIsBelow(0.01, |run|);
    Diagnostics.QuietJitterIsNotReported(Received(s, run), now);
  }

  lemma QuietRunDecays(s: Stream, run: seq<Arrival>)
    requires s.clock.hz > 0.0 && HeardBefore(s)
    requires forall i :: 0 <= i < |run| ==> Transits(s, run)[i] == 0.0
    ensures Received(s, run).arrive.jitter == Jitter.Faded(s.arrive.jitter, |run|)
  {
    hide Updated, LastTransit, Jitter.Faded, Jitter.FilterAll;
    JitterFollowsFilter(s, run);
    Jitter.QuietStreamDecays(s.arrive.jitter, Transits(s, run));
  }

  // ---- Conservation across windows ------------------------------------------

  datatype Event = Rtp(p: RtpPacket, now: Time) | NonRtp(now: Time) | Close

  function Apply(s: Stream, e: Event): (r: Stream)
    requires s.clock.hz > 0.0
    ensures r.clock.hz > 0.0
  {
    match e
    case Rtp(p, now) => Updated(s, p, now)
    case NonRtp(now) => UpdatedNonRtp(s, now)
    case Close => WindowReset(s)
  }

  function ApplyAll(s: Stream, events: seq<Event>): (r: Stream)
    requires s.clock.hz > 0.0
    ensures r.clock.hz > 0.0
  {
    if events == [] then s else Apply(ApplyAll(s, Front(events)), Last(events))
  }

  // What the windows closed during the run had counted, summed.
  ghost function ClosedWindows(s: Stream, events: seq<Event>): Totals
    requires s.clock.hz > 0.0
  {
    if events == [] then Totals(0, 0, 0)
    else
      var closed := ClosedWindows(s, Front(events));
      if Last(events) == Close then Plus(closed, Window(ApplyAll(s, Front(events)))) else closed
  }

  lemma StepConservesTotals(s: Stream, e: Event)
    requires s.clock.hz > 0.0
    ensures var r := Apply(s, e);
            if e == Close then Lifetime(r) == Lifetime(s) && Window(r) == Totals(0, 0, 0)
            else Plus(Lifetime(r), Window(s)) == Plus(Lifetime(s), Window(r))
  {
    hide SignedSub, ObserveGap, FilterJitter, MarkSource, SampleIat, CollectDelta;
    if e.Rtp? {
      CollectKeepsTotals(CheckTimestamp(s.clock, e.p.ts), e.p.ts);
    }
  }

  lemma CollectKeepsTotals(k: Clock, ts: nat)
    ensures var r := CollectDelta(k, ts); r.jumps == k.jumps && r.jumpsThisWindow == k.jumpsThisWindow
  {
    hide SignedSub;
  }

  // Lifetime totals grow by exactly what the closed windows had counted plus what the
  // current window holds: nothing is counted twice or dropped at a close.
  lemma {:induction false} WindowsConserveTotals(s: Stream, events: seq<Event>)
    requires s.clock.hz > 0.0
    ensures var r := ApplyAll(s, events);
            Plus(Lifetime(r), Window(s)) == Plus(Lifetime(s), Plus(ClosedWindows(s, events), Window(r)))
  {
    hide Apply, Lifetime, Window;
    if events != [] {
      WindowsConserveTotals(s, Front(events));
      StepConservesTotals(ApplyAll(s, Front(events)), Last(events));
    }
  }

  lemma FreshStreamConservesTotals(protocol: Protocol, hz: real, multicast: bool, dst: Ip, port: nat,
                                   events: seq<Event>)
    requires hz > 0.0
    ensures var s := NewStream(protocol, hz, multicast, dst, port);
            Lifetime(ApplyAll(s, events)) == Plus(ClosedWindows(s, events), Window(ApplyAll(s, events)))
  {
    hide ApplyAll, ClosedWindows;
    WindowsConserveTotals(NewStream(protocol, hz, multicast, dst, port), events);
  }

  // ---- Inter-arrival times --------------------------------------------------

  // When the packets of a stream came, RTP or not.
  function Times(events: seq<Event>): seq<Time> {
    if events == [] then []
    else
      Times(Front(events)) +
      match Last(events)
      case Rtp(_, now) => [now]
      case NonRtp(now) => [now]
      case Close => []
  }

  // The times between consecutive packets, in milliseconds.
  function Gaps(times: seq<Time>): seq<real> {
    if |times| <= 1 then [] else Gaps(Front(times)) + [Millis(Since(Last(times), Last(Front(times))))]
  }

  // The stream has heard packets at these times and at no others.
  ghost predicate HeardAtTimes(s: Stream, times: seq<Time>) {
    && s.arrive.lastArrival == (if times == [] then None else Some(Last(times)))
    && s.arrive.lastPacketTime == s.arrive.lastArrival
    && s.transmitter.iatSamples == Timing.Recorded(Gaps(times))
  }

  lemma OneMorePacket(t: Timing.Profile, times: seq<Time>, now: Time)
    requires t.iatSamples == Timing.Recorded(Gaps(times))
    ensures var last := if times == [] then None else Some(Last(times));
            SampleIat(t, last, now).iatSamples == Timing.Recorded(Gaps(times + [now]))
  {
    hide Timing.Record;
    assert Front(times + [now]) == times;
    if times != [] {
      assert Front(Gaps(times + [now])) == Gaps(times);
    }
  }

  lemma UpdateHears(s: Stream, p: RtpPacket, times: seq<Time>, now: Time)
    requires s.clock.hz > 0.0 && HeardAtTimes(s, times)
    ensures HeardAtTimes(Updated(s, p, now), times + [now])
    ensures HeardAtTimes(UpdatedNonRtp(s, now), times + [now])
  {
    hide CountRtp, ReadTimestamp, ObserveGap, FilterJitter, MarkSource, SampleIat, Timing.Recorded, Gaps;
    OneMorePacket(s.transmitter, times, now);
  }

  // Whatever the packets and closes of a fresh stream, its ring holds the last at most 64
  // positive times between its packets, across window closes.
  lemma {:induction false} RingOfStream(s: Stream, events: seq<Event>)
    requires s.clock.hz > 0.0 && HeardAtTimes(s, [])
    ensures HeardAtTimes(ApplyAll(s, events), Times(events))
    ensures ApplyAll(s, events).transmitter.iatSamples
         == Timing.LastAtMost(Timing.Positives(Gaps(Times(events))), 64)
  {
    hide Updated, UpdatedNonRtp, Gaps, Timing.Recorded, Timing.LastAtMost, Timing.Positives;
    if events != [] {
      RingOfStream(s, Front(events));
      var before, times := ApplyAll(s, Front(events)), Times(Front(events));
      match Last(events) {
        case Rtp(p, now) => UpdateHears(before, p, times, now);
        case NonRtp(now) => UpdateHears(before, RtpPacket(0, 0, 0), times, now);
        case Close => assert Times(events) == times;
      }
    }
    Timing.RingHoldsLastPositives(Gaps(Times(events)));
  }
}
