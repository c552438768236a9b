// What the remaining counters of a stream count, over whole runs: interruptions, source
// changes and marking faults; and that closing windows disturbs nothing that lasts.
module StreamLaws {
  import opened Basics
  import opened Frames
  import opened Streams
  import opened StreamRuns
  import Timing

  // ---- Interruptions --------------------------------------------------------

  ghost predicate InOrder(run: seq<Arrival>) {
    forall i :: 0 < i < |run| ==> run[i - 1].now <= run[i].now
  }

  // Milliseconds between packet i and the one before it.
  ghost function Wait(run: seq<Arrival>, i: nat): real
    requires 0 < i < |run|
  {
    (run[i].now - run[i - 1].now) as real / 1000.0
  }

  // The waits of the packets that came when a packet time was known.
  ghost function Waits(s: Stream, run: seq<Arrival>): seq<real>
    requires s.clock.hz > 0.0
  {
    if |run| <= 1 then []
    else Waits(s, Front(run)) + if Received(s, run).clock.ptimeMs > 0.0 then [Wait(run, |run| - 1)] else []
  }

  // An interruption is a wait of more than 50 ms.
  ghost function Interruptions(waits: seq<real>): nat {
    if waits == [] then 0 else Interruptions(Front(waits)) + if Last(waits) > 50.0 then 1 else 0
  }

  ghost predicate Worst(waits: seq<real>, worst: real) {
    worst >= 0.0 && (forall w :: w in waits ==> w <= worst) && (worst > 0.0 ==> worst in waits)
  }

  // Of all of `update`, only the gap test touches the gap counters.
  lemma GapsOfUpdate(s: Stream, p: RtpPacket, now: Time)
    requires s.clock.hz > 0.0
    ensures var r, ptime := Updated(s, p, now), Updated(s, p, now).clock.ptimeMs;
            var iat := if s.arrive.lastArrival == None then 0.0
                       else Since(now, s.arrive.lastArrival.value) as real / 1000.0;
            var tested := s.arrive.lastArrival.Some? && ptime > 0.0;
            && r.arrive.lastArrival == Some(now)
            && r.arrive.gapEvents == s.arrive.gapEvents + (if tested && iat > 50.0 then 1 else 0)
            && r.arrive.maxIatMs == if tested && iat > s.arrive.maxIatMs then iat else s.arrive.maxIatMs
  {
    hide CountRtp, ReadTimestamp, MarkSource, SampleIat, TransitDifference;
  }

  lemma WaitsExtend(waits: seq<real>, worst: real, w: real)
    requires Worst(waits, worst)
    ensures Worst(waits + [w], if w > worst then w else worst)
    ensures Interruptions(waits + [w]) == Interruptions(waits) + if w > 50.0 then 1 else 0
  {
    assert Front(waits + [w]) == waits;
    forall x ensures x in waits + [w] <==> x in waits || x == w {}
  }

  // From a window's start on, the gap counter is the number of interruptions, and the
  // worst wait is the longest one.
  lemma {:induction false} GapsOfRun(s: Stream, run: seq<Arrival>)
    requires s.clock.hz > 0.0 && InOrder(run)
    requires s.arrive.lastArrival == None && s.arrive.gapEvents == 0 && s.arrive.maxIatMs == 0.0
    ensures Received(s, run).arrive.gapEvents == Interruptions(Waits(s, run))
    ensures Worst(Waits(s, run), Received(s, run).arrive.maxIatMs)
    ensures Received(s, run).arrive.lastArrival == if run == [] then None else Some(Last(run).now)
  {
    hide Updated, Worst;
    if run == [] {
      NothingWaited();
    } else {
      GapsOfRun(s, Front(run));
      var before, waits := Received(s, Front(run)), Waits(s, Front(run));
      GapsOfUpdate(before, Last(run).p, Last(run).now);
      if |run| == 1 {
        NothingWaited();
      } else {
        var i := |run| - 1;
        assert Last(Front(run)) == run[i - 1];
        assert Since(run[i].now, run[i - 1].now) == run[i].now - run[i - 1].now;
        WaitsExtend(waits, before.arrive.maxIatMs, Wait(run, i));
        assert waits + [] == waits;
      }
    }
  }

  lemma NothingWaited()
    ensures Worst([], 0.0) && Interruptions([]) == 0
  {}

  // ---- Sources --------------------------------------------------------------

  // Packets whose source differs from that of the packet before, or from the one known.
  ghost function Switches(known: Option<nat>, run: seq<Arrival>): nat {
    if run == [] then 0
    else
      var before := if |run| == 1 then known else Some(run[|run| - 2].p.ssrc);
      Switches(known, Front(run)) + if before.Some? && before.value != Last(run).p.ssrc then 1 else 0
  }

  lemma MarksOfUpdate(s: Stream, p: RtpPacket, now: Time)
    requires s.clock.hz > 0.0
    ensures Updated(s, p, now).marks == s.marks.(
              lastSsrc := Some(p.ssrc),
              ssrcChanges := s.marks.ssrcChanges + if s.marks.lastSsrc in {None, Some(p.ssrc)} then 0 else 1)
    ensures Updated(s, p, now).id == s.id
    ensures Updated(s, p, now).transmitter.minTtl == s.transmitter.minTtl
  {
    hide CountRtp, ReadTimestamp, ObserveGap, FilterJitter;
  }

  lemma {:induction false} SourcesOfRun(s: Stream, run: seq<Arrival>)
    requires s.clock.hz > 0.0
    ensures Received(s, run).marks.ssrcChanges == s.marks.ssrcChanges + Switches(s.marks.lastSsrc, run)
    ensures Received(s, run).marks.lastSsrc == if run == [] then s.marks.lastSsrc else Some(Last(run).p.ssrc)
  {
    hide Updated;
    if run != [] {
      SourcesOfRun(s, Front(run));
      MarksOfUpdate(Received(s, Front(run)), Last(run).p, Last(run).now);
    }
  }

  // ---- Closes in between ----------------------------------------------------

  // Alike in everything but what the current window counted.
  ghost predicate AlikeButWindow(a: Stream, b: Stream) {
    && a.id == b.id && a.transmitter == b.transmitter
    && a.count.packets == b.count.packets && a.count.lost == b.count.lost && a.count.lastSeq == b.count.lastSeq
    && a.count.rtpSeen == b.count.rtpSeen
    && a.clock.(jumpsThisWindow := 0) == b.clock.(jumpsThisWindow := 0)
    && a.arrive.(gapEvents := 0, maxIatMs := 0.0) == b.arrive.(gapEvents := 0, maxIatMs := 0.0)
    && a.marks.lastSsrc == b.marks.lastSsrc && a.marks.expectedPt == b.marks.expectedPt
    && a.marks.observedPcp == b.marks.observedPcp
  }

  lemma ClockAlike(a: Clock, b: Clock, ts: nat)
    requires a.(jumpsThisWindow := 0) == b.(jumpsThisWindow := 0)
    ensures ReadTimestamp(a, ts).(jumpsThisWindow := 0) == ReadTimestamp(b, ts).(jumpsThisWindow := 0)
  {}

  lemma UpdateAlike(a: Stream, b: Stream, p: RtpPacket, now: Time)
    requires a.clock.hz > 0.0 && b.clock.hz > 0.0 && AlikeButWindow(a, b)
    ensures AlikeButWindow(Updated(a, p, now), Updated(b, p, now))
  {
    hide ReadTimestamp, TransitDifference, Timing.Record;
    ClockAlike(a.clock, b.clock, p.ts);
  }

  lemma ResetAlike(a: Stream, b: Stream)
    requires AlikeButWindow(a, b)
    ensures AlikeButWindow(WindowReset(a), b)
  {}

  // The packets among the events.
  function WithoutCloses(events: seq<Event>): seq<Event> {
    if events == [] then []
    else WithoutCloses(Front(events)) + if Last(events).Close? then [] else [Last(events)]
  }

  // However many windows are closed on the way, everything a stream keeps beyond a window
  // is what its packets alone would have made of it.
  lemma {:induction false} ClosesDisturbNothing(s: Stream, events: seq<Event>)
    requires s.clock.hz > 0.0
    ensures AlikeButWindow(ApplyAll(s, events), ApplyAll(s, WithoutCloses(events)))
  {
    hide Updated, UpdatedNonRtp, WindowReset, AlikeButWindow;
    if events == [] {
      AlikeItself(s);
    } else {
      ClosesDisturbNothing(s, Front(events));
      var a, b := ApplyAll(s, Front(events)), ApplyAll(s, WithoutCloses(Front(events)));
      match Last(events) {
        case Close =>
          ResetAlike(a, b);
          assert WithoutCloses(events) == WithoutCloses(Front(events));
        case Rtp(p, now) =>
          UpdateAlike(a, b, p, now);
          assert Front(WithoutCloses(events)) == WithoutCloses(Front(events));
        case NonRtp(now) =>
          NonRtpAlike(a, b, now);
          assert Front(WithoutCloses(events)) == WithoutCloses(Front(events));
      }
    }
  }

  lemma AlikeItself(s: Stream)
    ensures AlikeButWindow(s, s)
  {}

  lemma NonRtpAlike(a: Stream, b: Stream, now: Time)
    requires AlikeButWindow(a, b)
    ensures AlikeButWindow(UpdatedNonRtp(a, now), UpdatedNonRtp(b, now))
  {
    hide Timing.Record;
  }

  // ---- Frames of one stream -------------------------------------------------

  datatype Arriving = Arriving(f: Frame, now: Time)

  ghost predicate AllMedia(run: seq<Arriving>) {
    forall i :: 0 <= i < |run| ==> run[i].f.MediaFrame?
  }

  ghost predicate AllDante(run: seq<Arriving>) {
    forall i :: 0 <= i < |run| ==> run[i].f.DanteAudio?
  }

  function MediaRun(s: Stream, run: seq<Arriving>): (r: Stream)
    requires s.clock.hz > 0.0 && AllMedia(run)
    ensures r.clock.hz > 0.0
  {
    if run == [] then s else MediaSeen(MediaRun(s, Front(run)), Last(run).f, Last(run).now)
  }

  function DanteRun(s: Stream, run: seq<Arriving>): (r: Stream)
    requires s.clock.hz > 0.0 && AllDante(run)
    ensures r.clock.hz > 0.0
  {
    if run == [] then s else DanteAudioSeen(DanteRun(s, Front(run)), Last(run).f, Last(run).now)
  }

  ghost function Mismarked(run: seq<Arriving>): nat
    requires AllMedia(run) || AllDante(run)
  {
    if run == [] then 0 else Mismarked(Front(run)) + if Last(run).f.dscpOk then 0 else 1
  }

  // Tagged frames with a priority other than 6.
  ghost predicate Unadvised(f: Frame)
    requires f.MediaFrame?
  {
    f.pcp.Some? && f.pcp.value != 6
  }

  ghost function UnadvisedIn(run: seq<Arriving>): nat
    requires AllMedia(run)
  {
    if run == [] then 0 else UnadvisedIn(Front(run)) + if Unadvised(Last(run).f) then 1 else 0
  }

  ghost function FirstUnadvised(run: seq<Arriving>): Option<nat>
    requires AllMedia(run)
  {
    if run == [] then None
    else if FirstUnadvised(Front(run)).Some? then FirstUnadvised(Front(run))
    else if Unadvised(Last(run).f) then Last(run).f.pcp
    else None
  }

  // RTP packets of another payload type than the announced one.
  ghost function Mistyped(expected: Option<nat>, run: seq<Arriving>): nat
    requires AllMedia(run)
  {
    if run == [] then 0
    else
      Mistyped(expected, Front(run)) +
      if Last(run).f.rtp.Some? && expected.Some? && expected.value != Last(run).f.payloadType then 1 else 0
  }

  ghost function RtpIn(run: seq<Arriving>): nat
    requires AllMedia(run)
  {
    if run == [] then 0 else RtpIn(Front(run)) + if Last(run).f.rtp.Some? then 1 else 0
  }

  lemma MarksOfMedia(s: Stream, f: Frame, now: Time)
    requires f.MediaFrame? && s.clock.hz > 0.0
    ensures var m, r := s.marks, MediaSeen(s, f, now);
            && r.marks.expectedPt == m.expectedPt
            && r.marks.dscpViolations == m.dscpViolations + (if f.dscpOk then 0 else 1)
            && r.marks.pcpViolations == m.pcpViolations + (if Unadvised(f) then 1 else 0)
            && r.marks.observedPcp == (if m.observedPcp == None && Unadvised(f) then f.pcp else m.observedPcp)
            && r.marks.ptMismatches == m.ptMismatches +
                 (if f.rtp.Some? && m.expectedPt.Some? && m.expectedPt.value != f.payloadType then 1 else 0)
            && r.count.packets == s.count.packets + (if f.rtp.Some? then 1 else 0)
            && r.id == s.id && r.transmitter.minTtl == s.transmitter.minTtl
  {
    hide Updated;
    if f.rtp.Some? {
      var marks := PcpAdvised(Marked(s.marks, f.dscpOk), f.pcp);
      var mismatch := if marks.expectedPt.Some? && marks.expectedPt.value != f.payloadType then 1 else 0;
      var t := s.(marks := marks.(ptMismatches := marks.ptMismatches + mismatch));
      MarksOfUpdate(t, f.rtp.value, now);
      CountOfUpdate(t, f.rtp.value, now);
    }
  }

  lemma CountOfUpdate(s: Stream, p: RtpPacket, now: Time)
    requires s.clock.hz > 0.0
    ensures Updated(s, p, now).count.packets == s.count.packets + 1
    ensures Updated(s, p, now).count.packetsThisWindow == s.count.packetsThisWindow + 1
  {
    hide ReadTimestamp, ObserveGap, FilterJitter, MarkSource, SampleIat;
  }

  // The marking counters of an AES67 or ST 2110 stream, over all its frames.
  lemma {:induction false} MarksOfMediaRun(s: Stream, run: seq<Arriving>)
    requires s.clock.hz > 0.0 && AllMedia(run) && s.marks.observedPcp == None
    ensures var m, r := s.marks, MediaRun(s, run);
            && r.marks.expectedPt == m.expectedPt
            && r.marks.dscpViolations == m.dscpViolations + Mismarked(run)
            && r.marks.pcpViolations == m.pcpViolations + UnadvisedIn(run)
            && r.marks.observedPcp == FirstUnadvised(run)
            && r.marks.ptMismatches == m.ptMismatches + Mistyped(m.expectedPt, run)
            && r.count.packets == s.count.packets + RtpIn(run)
  {
    hide MediaSeen;
    if run != [] {
      MarksOfMediaRun(s, Front(run));
      MarksOfMedia(MediaRun(s, Front(run)), Last(run).f, Last(run).now);
    }
  }

  // The least time-to-live seen, if any frame was.
  ghost predicate LeastTtl(run: seq<Arriving>, least: Option<nat>)
    requires AllDante(run)
  {
    && (least == None <==> run == [])
    && (least.Some? ==>
          && (forall i :: 0 <= i < |run| ==> least.value <= run[i].f.ttl)
          && (exists i :: 0 <= i < |run| && run[i].f.ttl == least.value))
  }

  lemma MarksOfDante(s: Stream, f: Frame, now: Time)
    requires f.DanteAudio? && s.clock.hz > 0.0
    ensures var r := DanteAudioSeen(s, f, now);
            && r.marks.dscpViolations == s.marks.dscpViolations + (if f.dscpOk then 0 else 1)
            && r.transmitter.minTtl == Timing.LowerTtl(s.transmitter.minTtl, f.ttl)
            && r.count.packets == s.count.packets + 1
            && r.id == s.id
  {
    hide Updated, Timing.LowerTtl;
    var routed := s.(transmitter := s.transmitter.(minTtl := Timing.LowerTtl(s.transmitter.minTtl, f.ttl)));
    if f.rtp.Some? {
      MarksOfUpdate(routed, f.rtp.value, now);
      CountOfUpdate(routed, f.rtp.value, now);
    }
  }

  lemma {:induction false} MarksOfDanteRun(s: Stream, run: seq<Arriving>)
    requires s.clock.hz > 0.0 && AllDante(run) && s.transmitter.minTtl == None
    ensures var r := DanteRun(s, run);
            && r.marks.dscpViolations == s.marks.dscpViolations + Mismarked(run)
            && LeastTtl(run, r.transmitter.minTtl)
            && r.count.packets == s.count.packets + |run|
  {
    hide DanteAudioSeen;
    if run != [] {
      MarksOfDanteRun(s, Front(run));
      var before := DanteRun(s, Front(run));
      MarksOfDante(before, Last(run).f, Last(run).now);
      var least := before.transmitter.minTtl;
      assert run[|run| - 1].f.ttl == Last(run).f.ttl;
      if least.Some? && least.value <= Last(run).f.ttl {
        var i :| 0 <= i < |run| - 1 && Front(run)[i].f.ttl == least.value;
        assert run[i].f.ttl == least.value;
      }
      forall i | 0 <= i < |run| ensures DanteRun(s, run).transmitter.minTtl.value <= run[i].f.ttl {
        if i < |run| - 1 { assert Front(run)[i] == run[i]; }
      }
    }
  }
}
