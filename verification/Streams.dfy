// One RTP or ATP stream: `StreamStats`. The datatype `Stream` is its value, grouped by
// concern, as the capture state's map owns it. The class updates the flat fields in
// place, and its methods are proved against the functions on the value.
module Streams {
  import opened Basics
  import opened Wrapping
  import SequenceLoss
  import Inference = ClockInference
  import Jitter
  import Timing

  datatype St2110Type = Video | Audio | Ancdata | UnknownType
  datatype Protocol = Aes67 | Dante | Ndi | Avb | St2110(kind: St2110Type)

  // The RTP header fields `update` is given, in their wire widths.
  datatype RtpPacket = RtpPacket(sn: nat, ts: nat, ssrc: nat) {
    predicate Valid() {
      sn < M16 && ts < M32 && ssrc < M32
    }
  }

  datatype Identity = Identity(
    protocol: Protocol, isMulticast: bool, srcIp: Option<Ip>, dstIp: Option<Ip>, dstPort: nat)

  datatype Counts = Counts(
    packets: nat, packetsThisWindow: nat, lost: nat, lostThisWindow: nat,
    reordersThisWindow: nat, lastSeq: Option<nat>, rtpSeen: bool)

  datatype Clock = Clock(
    hz: real, confirmed: bool, ptimeMs: real, lastTs: Option<nat>, lastDiff: Option<int>,
    jumps: nat, jumpsThisWindow: nat, samples: seq<int>)

  datatype Arrivals = Arrivals(
    jitter: real, lastArrival: Option<Time>, lastPacketTime: Option<Time>,
    gapEvents: nat, maxIatMs: real)

  datatype Marks = Marks(
    lastSsrc: Option<nat>, ssrcChanges: nat, expectedPt: Option<nat>, ptMismatches: nat,
    dscpViolations: nat, pcpViolations: nat, observedPcp: Option<nat>)

  datatype Stream = Stream(
    id: Identity, count: Counts, clock: Clock, arrive: Arrivals, marks: Marks, transmitter: Timing.Profile)

  function NewStream(protocol: Protocol, clockHz: real, isMulticast: bool, dstIp: Ip, dstPort: nat): Stream {
    Stream(Identity(protocol, isMulticast, None, Some(dstIp), dstPort),
           Counts(0, 0, 0, 0, 0, None, false),
           Clock(clockHz, false, 0.0, None, None, 0, 0, []),
           Arrivals(0.0, None, None, 0, 0.0),
           Marks(None, 0, None, 0, 0, 0, None),
           Timing.NewProfile)
  }

  // ---- `update`, one concern at a time --------------------------------------

  function CountPacket(c: Counts): Counts {
    c.(packets := c.packets + 1, packetsThisWindow := c.packetsThisWindow + 1)
  }

  // The sequence tracker of SequenceLoss, with a window copy of the loss counter.
  function CountSequence(c: Counts, sn: nat): Counts {
    var t := SequenceLoss.Step(SequenceLoss.Track(c.lastSeq, 0, 0), sn, M16);
    c.(lastSeq := t.last,
       lost := c.lost + t.lost,
       lostThisWindow := c.lostThisWindow + t.lost,
       reordersThisWindow := c.reordersThisWindow + t.reorders)
  }

  function CountRtp(c: Counts, sn: nat): Counts {
    CountSequence(CountPacket(c).(rtpSeen := true), sn)
  }

  // Timestamp step expected between packets, in clock ticks.
  function ExpectedDiff(hz: real, ptimeMs: real): int {
    if hz > 0.0 then (hz * (if ptimeMs > 0.0 then ptimeMs else 1.0) / 1000.0).Floor
    else 48
  }

  // Outside half to one and a half times the expected step.
  predicate OutOfBand(actual: int, expected: int) {
    expected > 0 && (2 * actual < expected || 2 * actual > 3 * expected)
  }

  function CheckTimestamp(k: Clock, ts: nat): Clock {
    if k.confirmed && k.lastTs.Some? then
      var actual := SignedSub(ts, k.lastTs.value, M32);
      var jump := if OutOfBand(actual, ExpectedDiff(k.hz, k.ptimeMs)) then 1 else 0;
      k.(jumps := k.jumps + jump, jumpsThisWindow := k.jumpsThisWindow + jump, lastDiff := Some(actual))
    else k
  }

  // Confirm the rate matching the mode of a full batch, if the table has one.
  function ApplyInference(k: Clock, samples: seq<int>): Clock
    requires samples != []
  {
    match Inference.Lookup(Inference.Mode(samples), Inference.KNOWN)
    case Some(rate) => k.(hz := rate.hz, ptimeMs := rate.ptimeMs, confirmed := true)
    case None => k
  }

  function CollectDelta(k: Clock, ts: nat): Clock {
    if !k.confirmed && k.lastTs.Some? then
      var delta := SignedSub(ts, k.lastTs.value, M32);
      if delta <= 0 then k
      else
        var samples := k.samples + [delta];
        if |samples| >= Inference.BATCH then ApplyInference(k, samples).(samples := [])
        else k.(samples := samples)
    else k
  }

  // The clock part of one packet, before its timestamp is remembered.
  function ReadTimestamp(k: Clock, ts: nat): Clock {
    CollectDelta(CheckTimestamp(k, ts), ts)
  }

  function SampleIat(t: Timing.Profile, lastArrival: Option<Time>, now: Time): Timing.Profile {
    if lastArrival == None then t
    else t.(iatSamples := Timing.Record(t.iatSamples, Millis(Since(now, lastArrival.value))))
  }

  function ObserveGap(a: Arrivals, ptimeMs: real, now: Time): Arrivals {
    if a.lastArrival == None || ptimeMs <= 0.0 then a
    else
      var iat := Millis(Since(now, a.lastArrival.value));
      a.(maxIatMs := if iat > a.maxIatMs then iat else a.maxIatMs,
         gapEvents := a.gapEvents + if iat > 50.0 then 1 else 0)
  }

  // |arrival difference - timestamp difference|, in seconds.
  function TransitDifference(elapsed: nat, ticks: int, hz: real): real
    requires hz > 0.0
  {
    AbsReal(Seconds(elapsed) - ticks as real / hz)
  }

  function FilterJitter(a: Arrivals, lastTs: Option<nat>, hz: real, ts: nat, now: Time): Arrivals
    requires hz > 0.0
  {
    if lastTs.Some? && a.lastArrival.Some? then
      var d := TransitDifference(Since(now, a.lastArrival.value), SignedSub(ts, lastTs.value, M32), hz);
      a.(jitter := Jitter.Filter(a.jitter, d))
    else a
  }

  function HeardAt(a: Arrivals, now: Time): Arrivals {
    a.(lastArrival := Some(now), lastPacketTime := Some(now))
  }

  function MarkSource(m: Marks, ssrc: nat): Marks {
    m.(ssrcChanges := m.ssrcChanges + (if m.lastSsrc.Some? && m.lastSsrc.value != ssrc then 1 else 0),
       lastSsrc := Some(ssrc))
  }

  lemma InferredRateIsPositive(k: Clock, samples: seq<int>)
    requires samples != [] && k.hz > 0.0
    ensures ApplyInference(k, samples).hz > 0.0
  {
    Inference.LookupIsExact(Inference.Mode(samples));
  }

  lemma CollectKeepsRatePositive(k: Clock, ts: nat)
    requires k.hz > 0.0
    ensures CollectDelta(k, ts).hz > 0.0
  {
    if k.lastTs.Some? {
      InferredRateIsPositive(k, k.samples + [SignedSub(ts, k.lastTs.value, M32)]);
    }
  }

  // A full RTP packet. The discontinuity test reads the clock rate as it was before
  // this packet's inference; the gap test and the jitter filter read it afterwards.
  function Updated(s: Stream, p: RtpPacket, now: Time): (r: Stream)
    requires s.clock.hz > 0.0
    ensures r.clock.hz > 0.0
  {
    CollectKeepsRatePositive(CheckTimestamp(s.clock, p.ts), p.ts);
    var clock := ReadTimestamp(s.clock, p.ts);
    var gaps := ObserveGap(s.arrive, clock.ptimeMs, now);
    Stream(s.id,
           CountRtp(s.count, p.sn),
           clock.(lastTs := Some(p.ts)),
           HeardAt(FilterJitter(gaps, s.clock.lastTs, clock.hz, p.ts, now), now),
           MarkSource(s.marks, p.ssrc),
           SampleIat(s.transmitter, s.arrive.lastArrival, now))
  }

  // A packet whose payload is not RTP (Dante ATP): presence and arrival timing only.
  function UpdatedNonRtp(s: Stream, now: Time): Stream {
    s.(count := CountPacket(s.count),
       arrive := HeardAt(s.arrive, now),
       transmitter := SampleIat(s.transmitter, s.arrive.lastArrival, now))
  }

  // Window close: every window-scoped counter of the stream goes back to zero.
  function WindowReset(s: Stream): Stream {
    s.(count := s.count.(packetsThisWindow := 0, lostThisWindow := 0, reordersThisWindow := 0),
       clock := s.clock.(jumpsThisWindow := 0),
       arrive := s.arrive.(gapEvents := 0, maxIatMs := 0.0),
       marks := s.marks.(ssrcChanges := 0, ptMismatches := 0, dscpViolations := 0, pcpViolations := 0))
  }

  // ---- Totals ---------------------------------------------------------------

  // The counters kept both for the lifetime of a stream and for the current window.
  datatype Totals = Totals(packets: int, lost: int, jumps: int)

  const NoTotals := Totals(0, 0, 0)

  function Lifetime(s: Stream): Totals {
    Totals(s.count.packets, s.count.lost, s.clock.jumps)
  }

  function Window(s: Stream): Totals {
    Totals(s.count.packetsThisWindow, s.count.lostThisWindow, s.clock.jumpsThisWindow)
  }

  function Plus(a: Totals, b: Totals): Totals {
    Totals(a.packets + b.packets, a.lost + b.lost, a.jumps + b.jumps)
  }

  function Minus(a: Totals, b: Totals): Totals {
    Totals(a.packets - b.packets, a.lost - b.lost, a.jumps - b.jumps)
  }

  // ---- The stream as the source keeps it, updated in place ------------------

  class StreamStats {
    var id: Identity
    var count: Counts
    var clock: Clock
    var arrive: Arrivals
    var marks: Marks
    const transmitter: Timing.TransmitterProfile

    function View(): Stream
      reads this, transmitter
    {
      Stream(id, count, clock, arrive, marks, transmitter.View())
    }

    constructor (protocol: Protocol, clockHz: real, isMulticast: bool, dstIp: Ip, dstPort: nat)
      ensures View() == NewStream(protocol, clockHz, isMulticast, dstIp, dstPort)
      ensures fresh(transmitter)
    {
      id := Identity(protocol, isMulticast, None, Some(dstIp), dstPort);
      count := Counts(0, 0, 0, 0, 0, None, false);
      clock := Clock(clockHz, false, 0.0, None, None, 0, 0, []);
      arrive := Arrivals(0.0, None, None, 0, 0.0);
      marks := Marks(None, 0, None, 0, 0, 0, None);
      transmitter := new Timing.TransmitterProfile();
    }

    // The entry a map holds.
    constructor Of(s: Stream)
      ensures View() == s
      ensures fresh(transmitter)
    {
      id, count, clock, arrive, marks := s.id, s.count, s.clock, s.arrive, s.marks;
      transmitter := new Timing.TransmitterProfile.Of(s.transmitter);
    }

    // Losses (16-bit wrapping).
    method TrackSequence(sn: nat)
      requires sn < M16
      modifies this`count
      ensures count == CountRtp(old(count), sn)
    {
      count := count.(packets := count.packets + 1);
      count := count.(packetsThisWindow := count.packetsThisWindow + 1);
      count := count.(rtpSeen := true);
      if count.lastSeq.Some? {
        var expected := (count.lastSeq.value + 1) % M16;
        if sn != expected {
          var delta := SignedSub(sn, expected, M16);
          if delta > 0 {
            count := count.(lost := count.lost + delta);
            count := count.(lostThisWindow := count.lostThisWindow + delta);
          } else {
            count := count.(reordersThisWindow := count.reordersThisWindow + 1);
          }
        }
      }
      count := count.(lastSeq := Some(sn));
    }

    // Discontinuity detection, against the clock rate known so far.
    method TrackDiscontinuity(ts: nat)
      modifies this`clock
      ensures clock == CheckTimestamp(old(clock), ts)
      ensures clock.lastTs == old(clock).lastTs && clock.hz == old(clock).hz
    {
      if clock.confirmed && clock.lastTs.Some? {
        var expectedDiff := ExpectedDiff(clock.hz, clock.ptimeMs);
        var actualDiff := SignedSub(ts, clock.lastTs.value, M32);
        if expectedDiff > 0 && (2 * actualDiff < expectedDiff || 2 * actualDiff > 3 * expectedDiff) {
          clock := clock.(jumps := clock.jumps + 1);
          clock := clock.(jumpsThisWindow := clock.jumpsThisWindow + 1);
        }
        clock := clock.(lastDiff := Some(actualDiff));
      }
    }

    method TryInferClockHz()
      requires clock.samples != []
      modifies this`clock
      ensures clock == ApplyInference(old(clock), old(clock).samples)
    {
      var mode := Inference.ScanForMode(clock.samples);
      for i := 0 to |Inference.KNOWN|
        invariant clock == old(clock)
        invariant Inference.Lookup(mode, Inference.KNOWN) == Inference.Lookup(mode, Inference.KNOWN[i..])
      {
        var rate := Inference.KNOWN[i];
        assert Inference.KNOWN[i..][1..] == Inference.KNOWN[i + 1..];
        if Inference.Expected(rate) == mode {
          clock := clock.(hz := rate.hz);
          clock := clock.(ptimeMs := rate.ptimeMs);
          clock := clock.(confirmed := true);
          return;
        }
      }
    }

    // Clock-rate inference from the positive timestamp deltas.
    method TrackDelta(ts: nat)
      modifies this`clock
      ensures clock == CollectDelta(old(clock), ts)
      ensures clock.lastTs == old(clock).lastTs
    {
      if !clock.confirmed && clock.lastTs.Some? {
        var delta := SignedSub(ts, clock.lastTs.value, M32);
        if delta > 0 {
          clock := clock.(samples := clock.samples + [delta]);
          if |clock.samples| >= Inference.BATCH {
            TryInferClockHz();
            clock := clock.(samples := []);
          }
        }
      }
    }

    // Gap detection and jitter, before this packet's arrival is remembered.
    method TrackArrival(ts: nat, now: Time)
      requires clock.hz > 0.0
      modifies this`arrive
      ensures arrive == FilterJitter(ObserveGap(old(arrive), clock.ptimeMs, now),
                                     clock.lastTs, clock.hz, ts, now)
    {
      if clock.ptimeMs > 0.0 && arrive.lastArrival.Some? {
        var iat := Millis(Since(now, arrive.lastArrival.value));
        if iat > arrive.maxIatMs { arrive := arrive.(maxIatMs := iat); }
        if iat > 50.0 { arrive := arrive.(gapEvents := arrive.gapEvents + 1); }
      }
      if clock.lastTs.Some? && arrive.lastArrival.Some? {
        var arrivalDiff := Seconds(Since(now, arrive.lastArrival.value));
        var rtpDiff := SignedSub(ts, clock.lastTs.value, M32) as real / clock.hz;
        var d := AbsReal(arrivalDiff - rtpDiff);
        arrive := arrive.(jitter := arrive.jitter + (d - arrive.jitter) / 16.0);
      }
    }

    method Update(p: RtpPacket, now: Time)
      requires p.Valid() && clock.hz > 0.0
      modifies this, transmitter
      ensures View() == Updated(old(View()), p, now)
    {
      hide CountRtp, CheckTimestamp, CollectDelta, ObserveGap, FilterJitter, Timing.Record;
      ghost var next := Updated(View(), p, now);
      TrackSequence(p.sn);
      assert count == next.count;
      TrackDiscontinuity(p.ts);
      CollectKeepsRatePositive(clock, p.ts);
      TrackDelta(p.ts);
      if arrive.lastArrival.Some? {
        transmitter.RecordIat(Millis(Since(now, arrive.lastArrival.value)));
      }
      assert transmitter.View() == next.transmitter;
      TrackArrival(p.ts, now);
      assert HeardAt(arrive, now) == next.arrive;
      clock := clock.(lastTs := Some(p.ts));
      assert clock == next.clock;
      if marks.lastSsrc.Some? && marks.lastSsrc.value != p.ssrc {
        marks := marks.(ssrcChanges := marks.ssrcChanges + 1);
      }
      marks := marks.(lastSsrc := Some(p.ssrc));
      arrive := arrive.(lastArrival := Some(now));
      arrive := arrive.(lastPacketTime := Some(now));
    }

    method UpdateNonRtp(now: Time)
      modifies this, transmitter
      ensures View() == UpdatedNonRtp(old(View()), now)
    {
      count := count.(packets := count.packets + 1);
      count := count.(packetsThisWindow := count.packetsThisWindow + 1);
      if arrive.lastArrival.Some? {
        transmitter.RecordIat(Millis(Since(now, arrive.lastArrival.value)));
      }
      arrive := arrive.(lastArrival := Some(now));
      arrive := arrive.(lastPacketTime := Some(now));
    }
  }
}
