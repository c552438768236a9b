// A capture on which the score falls and the summary printed with it stays empty.
module SummaryWitness {
  import opened Basics
  import opened Capture
  import opened CloseLaws
  import opened Diagnostics
  import opened Frames
  import opened Scoring
  import opened Streams
  import opened Wrapping
  import FL = FrameLaws
  import R = Replay
  import ReportLaws
  import SequenceLoss
  import Timing

  // A unicast Dante flow as its handler first sees it.
  function DanteFlow(src: Ip, dst: Ip, port: nat): Stream {
    var s := NewStream(Dante, 48_000.0, false, dst, port);
    s.(id := s.id.(srcIp := Some(src)), clock := s.clock.(ptimeMs := 1.0))
  }

  function AudioFrame(src: Ip, dst: Ip, port: nat, p: RtpPacket): Frame {
    DanteAudio(Media("flow"), DanteFlow(src, dst, port), true, 0, 64, Some(p))
  }

  // Two packets of the flow, two milliseconds and 96 ticks apart; the one between them
  // never arrives.
  function LossyFile(src: Ip, dst: Ip, port: nat, p: RtpPacket): seq<R.PcapPacket> {
    [R.PcapPacket(0, 0, Some(Packet(AudioFrame(src, dst, port, p), 300, false))),
     R.PcapPacket(0, 2000, Some(Packet(AudioFrame(src, dst, port, TwoLater(p)), 300, false)))]
  }

  function TwoLater(p: RtpPacket): RtpPacket {
    RtpPacket((p.sn + 2) % M16, (p.ts + 96) % M32, p.ssrc)
  }

  lemma AudioEntry(c: Capture, f: Frame, now: Time)
    requires WellFormed(c) && ValidFrame(f) && f.DanteAudio?
    ensures Handled(c, f, now)
         == c.(streams := c.streams[f.key := DanteAudioSeen(StreamOr(c, f.key, f.created), f, now)],
               health := EcnMarked(c.health, f.ecn))
  {
    hide DanteAudioSeen;
  }

  // What a replay step makes of one audio frame in the first five seconds.
  lemma AudioStep(l: R.Loop, p: R.PcapPacket, wall: Time)
    requires WellFormed(l.capture) && p.eth.Some? && ValidFrame(p.eth.value.frame)
    requires p.eth.value.frame.DanteAudio? && p.eth.value.frame.ecn == 0 && !R.Reports(l.report, p.sec)
    ensures var next, f := R.Step(l, p, wall), p.eth.value.frame;
            next.closes == l.closes &&
            next.capture == l.capture.(
              streams := l.capture.streams[
                f.key := DanteAudioSeen(StreamOr(l.capture, f.key, f.created), f, next.lastNow)],
              traffic := next.capture.traffic)
  {
    hide R.Step, DanteAudioSeen, Handled, WellFormed, ValidFrame;
    R.StepInParts(l, p, wall);
    var counted := l.capture.(traffic := l.capture.traffic.(dispatched := l.capture.traffic.dispatched + 1));
    FL.SameStreamsWellFormed(l.capture, counted);
    AudioEntry(counted, p.eth.value.frame, R.Step(l, p, wall).lastNow);
  }

  lemma FirstPacket(s: Stream, f: Frame, now: Time)
    requires f.DanteAudio? && f.dscpOk && f.rtp.Some? && f.rtp.value.Valid()
    requires Untouched(s) && s.clock.hz == 48_000.0 && !s.clock.confirmed
    ensures var r := DanteAudioSeen(s, f, now);
            && r.id == s.id && r.clock == s.clock.(lastTs := Some(f.rtp.value.ts))
            && r.arrive == s.arrive.(lastArrival := Some(now), lastPacketTime := Some(now))
            && r.marks == s.marks.(lastSsrc := Some(f.rtp.value.ssrc))
            && r.count == Counts(1, 1, 0, 0, 0, Some(f.rtp.value.sn), true)
  {}

  // The second packet: one lost, nothing else amiss.
  lemma SecondPacket(s: Stream, f: Frame, p: RtpPacket, now: Time)
    requires f.DanteAudio? && f.dscpOk && p.Valid() && f.rtp == Some(TwoLater(p))
    requires s.clock.hz == 48_000.0 && !s.clock.confirmed && s.clock.samples == []
    requires s.clock.lastTs == Some(p.ts) && s.clock.jumpsThisWindow == 0
    requires s.arrive == Arrivals(0.0, Some(now), Some(now), 0, 0.0)
    requires s.count == Counts(1, 1, 0, 0, 0, Some(p.sn), true)
    requires s.marks.lastSsrc == Some(p.ssrc)
    ensures var r := DanteAudioSeen(s, f, now + 2000);
            && r.id == s.id && r.arrive.jitter == 0.0 && r.arrive.lastPacketTime == Some(now + 2000)
            && r.count.lostThisWindow == 1 && r.count.packetsThisWindow == 2
  {
    hide ApplyInference, Timing.Record, ObserveGap;
    assert SequenceLoss.Delta(p.sn, TwoLater(p).sn, M16) == 1;
    assert SignedSub(TwoLater(p).ts, p.ts, M32) == 96;
    assert TransitDifference(2000, 96, 48_000.0) == 0.0 by {
      assert Seconds(2000) == 0.002 && 96 as real / 48_000.0 == 0.002;
    }
    NoGap(s.arrive, s.clock.ptimeMs, now + 2000);
  }

  lemma NoGap(a: Arrivals, ptimeMs: real, now: Time)
    ensures ObserveGap(a, ptimeMs, now).jitter == a.jitter
    ensures ObserveGap(a, ptimeMs, now).lastArrival == a.lastArrival
  {}

  lemma LossyRun(wall: Time, src: Ip, dst: Ip, port: nat, p: RtpPacket)
    requires p.Valid()
    ensures var file := LossyFile(src, dst, port, p);
            && R.ValidFile(file) && R.Ordered(file)
            && var l := R.Run(wall, file);
               && l.closes == [] && l.lastNow == wall + 2000
               && l.capture.streams.Keys == {Media("flow")}
               && var s := l.capture.streams[Media("flow")];
                  && l.capture == NewCapture.(streams := map[Media("flow") := s], traffic := l.capture.traffic)
                  && !s.id.isMulticast && s.arrive.jitter == 0.0 && s.arrive.lastPacketTime == Some(wall + 2000)
                  && s.count.lostThisWindow == 1 && s.count.packetsThisWindow == 2
  {
    hide DanteAudioSeen, R.Step, WellFormed;
    var file := LossyFile(src, dst, port, p);
    var f, g := file[0].eth.value.frame, file[1].eth.value.frame;
    assert Front(file) == [file[0]] && Front([file[0]]) == [] && Last([file[0]]) == file[0];
    assert R.Run(wall, []) == R.Start(wall);
    var zero, one := R.Start(wall), R.Run(wall, [file[0]]);
    assert one == R.Step(zero, file[0], wall) && R.Run(wall, file) == R.Step(one, file[1], wall);
    StepTimes(zero, file[0], wall);
    StepTimes(one, file[1], wall);
    AudioStep(zero, file[0], wall);
    FirstPacket(f.created, f, wall);
    AudioStep(one, file[1], wall);
    SecondPacket(one.capture.streams[Media("flow")], g, p, wall);
  }

  lemma StepTimes(l: R.Loop, p: R.PcapPacket, wall: Time)
    requires WellFormed(l.capture) && p.eth.Some? && ValidFrame(p.eth.value.frame)
    requires p.sec == 0 && 0 <= p.usec
    requires || (l == R.Start(wall) && p.usec == 0)
             || (l.anchor == Some(R.Anchor(wall, 0, 0)) && l.report == R.ReportClock(0, true))
    ensures var next := R.Step(l, p, wall);
            && next.anchor == Some(R.Anchor(wall, 0, 0)) && next.report == R.ReportClock(0, true)
            && next.lastNow == wall + p.usec
  {
    hide Processed, Closed, WellFormed, ValidFrame;
  }

  // The capture of two packets of which the one between them was lost: the close at its
  // end lowers the score, and the summary printed with it is empty.
  lemma LossIsScoredButNotPrinted(wall: Time, src: Ip, dst: Ip, port: nat, p: RtpPacket)
    requires p.Valid()
    ensures var file := LossyFile(src, dst, port, p);
            && R.ValidFile(file) && |R.Replayed(wall, file).closes| == 1
            && var close := R.Replayed(wall, file).closes[0];
               && close.after.score < 100.0
               && Summary(Penalties(close.after.health, InputsOf(close.after, close.now))) == []
  {
    hide R.Run, Closed, Penalties, LastingHealthy, NothingForgotten;
    var file := LossyFile(src, dst, port, p);
    LossyRun(wall, src, dst, port, p);
    var l := R.Run(wall, file);
    LossyWindow(l.capture, l.lastNow);
    SummaryPartsFromScore(l.capture, l.lastNow);
    ScoreIsBounded(l.capture, l.lastNow);
  }

  lemma LossyWindow(c: Capture, now: Time)
    requires Media("flow") in c.streams
    requires var s := c.streams[Media("flow")];
             && c == NewCapture.(streams := map[Media("flow") := s], traffic := c.traffic)
             && !s.id.isMulticast && s.arrive.jitter == 0.0 && s.arrive.lastPacketTime == Some(now)
             && s.count.lostThisWindow == 1 && s.count.packetsThisWindow == 2
    ensures LastingHealthy(c, now) && !NothingForgotten(c, now)
  {
    var s := c.streams[Media("flow")];
    assert Share(s, Loss, now) > 0.0 && WindowScoped(Loss);
  }

  // On the same capture the report that follows the score leaves the loss out of the
  // stream's diagnostics, although the stream is still there.
  lemma LossIsScoredButNotShown(wall: Time, src: Ip, dst: Ip, port: nat, p: RtpPacket)
    requires p.Valid()
    ensures var file := LossyFile(src, dst, port, p);
            && R.ValidFile(file) && |R.Replayed(wall, file).closes| == 1
            && var close := R.Replayed(wall, file).closes[0];
               && Media("flow") in close.before.streams && Media("flow") in close.after.streams
               && (exists d :: d in ReportLaws.Scored(close, Media("flow")) && d.PacketLoss?)
               && (forall d :: d in ReportLaws.Shown(close, Media("flow")) ==> !d.PacketLoss?)
  {
    hide R.Run, Closed, Diagnose, ReportLaws.OnlyLasting;
    var file := LossyFile(src, dst, port, p);
    LossyRun(wall, src, dst, port, p);
    var l := R.Run(wall, file);
    R.CloseOfStreams(l.capture, l.lastNow);
    ReportLaws.ReportShowsLasting(wall, file, 0, Media("flow"));
    LossIsRaised(l.capture.streams[Media("flow")], l.lastNow);
    ReportLaws.AllLasting(Diagnose(l.capture.streams[Media("flow")], l.lastNow));
  }

  lemma LossIsRaised(s: Stream, now: Time)
    requires s.count.lostThisWindow > 0
    ensures exists d :: d in Diagnose(s, now) && d.PacketLoss?
  {
    hide Raised;
    HoldingIsRaised(Findings(s, now), 1);
    assert Findings(s, now)[1].d in Diagnose(s, now);
  }
}
