// What the timing of a stream measures, in true times: arrival instants, unwrapped
// timestamps and the clock rate, with no reference to how a difference is computed.
module PaceLaws {
  import opened Basics
  import opened Streams
  import opened StreamRuns
  import opened Wrapping
  import Diagnostics
  import Jitter

  // Arrivals in order, carrying these true timestamps in steps that fit 32 signed bits.
  ghost predicate Carries(run: seq<Arrival>, truth: seq<int>) {
    && |run| == |truth|
    && (forall i :: 0 <= i < |run| ==> run[i].p.ts == Wrap(truth[i], M32))
    && (forall i :: 0 < i < |run| ==> -0x8000_0000 <= truth[i] - truth[i - 1] < 0x8000_0000)
    && (forall i :: 0 < i < |run| ==> run[i - 1].now <= run[i].now)
  }

  // The stream has heard nothing yet.
  ghost predicate Unheard(s: Stream) {
    s.clock.lastTs == None && s.arrive.lastArrival == None && s.arrive.jitter == 0.0
  }

  // The clock rate in force at every packet of the run.
  ghost predicate RatedAt(s: Stream, run: seq<Arrival>, hz: real)
    requires s.clock.hz > 0.0
  {
    forall i :: 0 < i <= |run| ==> Received(s, run[..i]).clock.hz == hz
  }

  // How much longer packet i took to arrive than its timestamp says, in seconds.
  ghost function Late(run: seq<Arrival>, truth: seq<int>, hz: real, i: nat): real
    requires 0 < i < |run| == |truth| && hz > 0.0
  {
    (run[i].now - run[i - 1].now) as real / 1_000_000.0 - (truth[i] - truth[i - 1]) as real / hz
  }

  lemma CarriesFront(run: seq<Arrival>, truth: seq<int>)
    requires run != [] && Carries(run, truth)
    ensures Carries(Front(run), Front(truth))
  {
    hide Wrap;
  }

  lemma RatedFront(s: Stream, run: seq<Arrival>, hz: real)
    requires s.clock.hz > 0.0 && run != [] && RatedAt(s, run, hz)
    ensures RatedAt(s, Front(run), hz) && Received(s, run).clock.hz == hz
  {
    hide Received;
    assert run[..|run|] == run;
    forall i | 0 < i <= |run| - 1 ensures Received(s, Front(run)[..i]).clock.hz == hz {
      assert Front(run)[..i] == run[..i];
    }
  }

  lemma LastHeard(s: Stream, run: seq<Arrival>)
    requires s.clock.hz > 0.0 && run != []
    ensures var r := Received(s, run);
            r.clock.lastTs == Some(Last(run).p.ts) && r.arrive.lastArrival == Some(Last(run).now)
  {
    hide CountRtp, ReadTimestamp, ObserveGap, FilterJitter, MarkSource, SampleIat;
  }

  // The last difference of a run is the true one.
  lemma LastTransitIsLate(s: Stream, run: seq<Arrival>, truth: seq<int>, hz: real)
    requires s.clock.hz > 0.0 && Carries(run, truth) && |run| > 1 && hz > 0.0
    requires Received(s, run).clock.hz == hz
    ensures LastTransit(s, run) == AbsReal(Late(run, truth, hz, |run| - 1))
  {
    var i := |run| - 1;
    LastHeard(s, Front(run));
    assert Last(Front(run)) == run[i - 1];
    SignedSubExact(truth[i], truth[i - 1], M32);
    hide Received, SignedSub, Wrap, AbsReal;
    assert Since(run[i].now, run[i - 1].now) == run[i].now - run[i - 1].now;
  }

  // Every difference a fresh stream measures is the true lateness of the packet, at the
  // rate in force, whatever that rate and however often the timestamp wraps.
  lemma {:induction false} DifferencesAreTrue(s: Stream, run: seq<Arrival>, truth: seq<int>, hz: real)
    requires s.clock.hz > 0.0 && Unheard(s) && Carries(run, truth) && RatedAt(s, run, hz) && hz > 0.0
    ensures run != [] ==> Transits(s, run)[0] == 0.0
    ensures forall i :: 0 < i < |run| ==> Transits(s, run)[i] == AbsReal(Late(run, truth, hz, i))
  {
    assert |run| == |truth|;
    hide Received, LastTransit, AbsReal, Carries, RatedAt;
    if run != [] {
      CarriesFront(run, truth);
      RatedFront(s, run, hz);
      DifferencesAreTrue(s, Front(run), Front(truth), hz);
      if |run| == 1 {
        FirstTransit(s, run);
      } else {
        LastTransitIsLate(s, run, truth, hz);
        LateOfFront(run, truth, hz);
      }
    }
  }

  lemma FirstTransit(s: Stream, run: seq<Arrival>)
    requires s.clock.hz > 0.0 && Unheard(s) && |run| == 1
    ensures LastTransit(s, run) == 0.0
  {
    assert Front(run) == [];
  }

  lemma LateOfFront(run: seq<Arrival>, truth: seq<int>, hz: real)
    requires |run| == |truth| && |run| > 1 && hz > 0.0
    ensures forall i :: 0 < i < |run| - 1 ==> Late(Front(run), Front(truth), hz, i) == Late(run, truth, hz, i)
  {}

  // Packet k comes within e seconds of a + k * T microseconds and is stamped b + k * D.
  ghost predicate Paced(run: seq<Arrival>, truth: seq<int>, a: int, T: nat, b: int, D: int, e: real) {
    && |run| == |truth|
    && (forall k :: 0 <= k < |run| ==> truth[k] == b + k * D)
    && (forall k :: 0 <= k < |run| ==> AbsReal((run[k].now - (a + k * T)) as real / 1_000_000.0) <= e)
  }

  lemma PacedIsPunctual(run: seq<Arrival>, truth: seq<int>, a: int, T: nat, b: int, D: int, e: real, hz: real, i: nat)
    requires Paced(run, truth, a, T, b, D, e) && 0 < i < |run| && hz > 0.0
    requires D as real / hz == T as real / 1_000_000.0
    ensures AbsReal(Late(run, truth, hz, i)) <= 2.0 * e
  {
    assert truth[i] - truth[i - 1] == D by {
      assert i * D == (i - 1) * D + D;
    }
    assert i * T == (i - 1) * T + T;
    var x, y := run[i].now - (a + i * T), run[i - 1].now - (a + (i - 1) * T);
    assert run[i].now - run[i - 1].now == x - y + T;
    assert AbsReal(x as real / 1_000_000.0) <= e && AbsReal(y as real / 1_000_000.0) <= e;
    assert (x - y + T) as real / 1_000_000.0
        == x as real / 1_000_000.0 - y as real / 1_000_000.0 + T as real / 1_000_000.0;
  }

  // A stream whose packets deviate from the pace of its own timestamps by at most e has
  // jitter of at most 2 e, after any number of packets and at any clock rate.
  lemma PacedRunHasBoundedJitter(s: Stream, run: seq<Arrival>, truth: seq<int>, hz: real,
                                 a: int, T: nat, b: int, D: int, e: real)
    requires s.clock.hz > 0.0 && Unheard(s) && Carries(run, truth) && RatedAt(s, run, hz) && hz > 0.0
    requires Paced(run, truth, a, T, b, D, e) && e >= 0.0 && D as real / hz == T as real / 1_000_000.0
    ensures forall i :: 0 <= i < |run| ==> 0.0 <= Transits(s, run)[i] <= 2.0 * e
    ensures 0.0 <= Received(s, run).arrive.jitter <= 2.0 * e
  {
    hide Received, Transits, AbsReal, Carries, RatedAt, Paced, Late, Jitter.Ceiling;
    DifferencesAreTrue(s, run, truth, hz);
    JitterFollowsFilter(s, run);
    forall i | 0 <= i < |run| ensures Transits(s, run)[i] <= 2.0 * e {
      if i > 0 { PacedIsPunctual(run, truth, a, T, b, D, e, hz, i); }
    }
    JitterOfRun(s, run, 2.0 * e);
    Jitter.CeilingIsBelow(2.0 * e, |run|);
  }

  // Perfectly paced packets leave no jitter at all.
  lemma PerfectPaceHasNoJitter(s: Stream, run: seq<Arrival>, truth: seq<int>, hz: real, a: int, T: nat, b: int, D: int)
    requires s.clock.hz > 0.0 && Unheard(s) && Carries(run, truth) && RatedAt(s, run, hz) && hz > 0.0
    requires forall k :: 0 <= k < |run| ==> run[k].now == a + k * T && truth[k] == b + k * D
    requires D as real / hz == T as real / 1_000_000.0
    ensures Received(s, run).arrive.jitter == 0.0
  {
    assert |run| == |truth|;
    assert Paced(run, truth, a, T, b, D, 0.0);
    hide Received, Carries, RatedAt, Paced;
    PacedRunHasBoundedJitter(s, run, truth, hz, a, T, b, D, 0.0);
  }

  // How late each packet of the run is, in absolute value; the first one sets the pace.
  ghost function Lateness(run: seq<Arrival>, truth: seq<int>, hz: real): seq<real>
    requires |run| == |truth| && hz > 0.0
  {
    seq(|run|, i requires 0 <= i < |run| => if i == 0 then 0.0 else AbsReal(Late(run, truth, hz, i)))
  }

  // The jitter of a stream is the sum of its true lateness, the k-th packet from the end
  // weighing (15/16)^k / 16.
  lemma JitterIsWeightedLateness(s: Stream, run: seq<Arrival>, truth: seq<int>, hz: real)
    requires s.clock.hz > 0.0 && Unheard(s) && Carries(run, truth) && RatedAt(s, run, hz) && hz > 0.0
    ensures Received(s, run).arrive.jitter == Jitter.Weighted(Lateness(run, truth, hz))
  {
    hide Received, Transits, AbsReal, RatedAt, Late, Jitter.FilterAll, Jitter.Weighted, Jitter.Decay;
    assert |run| == |truth|;
    DifferencesAreTrue(s, run, truth, hz);
    assert Transits(s, run) == Lateness(run, truth, hz);
    JitterFollowsFilter(s, run);
    Jitter.FilterIsWeightedSum(0.0, Transits(s, run));
  }

  // A stream never more than 10 ms late raises no HighJitter, whatever its rate.
  lemma PunctualRunIsNeverReported(s: Stream, run: seq<Arrival>, truth: seq<int>, hz: real, now: Time)
    requires s.clock.hz > 0.0 && Unheard(s) && Carries(run, truth) && RatedAt(s, run, hz) && hz > 0.0
    requires forall i :: 0 < i < |run| ==> -0.010 <= Late(run, truth, hz, i) <= 0.010
    ensures forall d :: d in Diagnostics.Diagnose(Received(s, run), now) ==> !d.HighJitter?
  {
    hide Received, Transits, RatedAt, Late, Diagnostics.Diagnose;
    assert |run| == |truth|;
    DifferencesAreTrue(s, run, truth, hz);
    forall i | 0 <= i < |run| ensures Transits(s, run)[i] <= 0.010 {}
    QuietRunIsNeverReported(s, run, now);
  }

  // An announced rate is in force throughout.
  lemma ConfirmedRateStays(s: Stream, run: seq<Arrival>)
    requires s.clock.hz > 0.0 && s.clock.confirmed && |s.clock.samples| < 8
    ensures RatedAt(s, run, s.clock.hz)
  {
    hide Received;
    forall i | 0 < i <= |run| ensures Received(s, run[..i]).clock.hz == s.clock.hz {
      ConfirmationAndBatchOverRuns(s, run[..i]);
    }
  }
}
