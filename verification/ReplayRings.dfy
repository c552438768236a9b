// The timing samples of a stream in a replay: the ring behind the regularity verdict holds
// the times between the stream's own packets.
module ReplayRings {
  import opened Basics
  import opened Capture
  import opened FrameLaws
  import opened Frames
  import opened Scoring
  import opened Streams
  import opened StreamRuns
  import R = Replay
  import Tcp
  import Timing

  // A packet that reaches the timing of stream k: RTP, or any Dante audio.
  function TimeFor(f: Frame, k: Key, now: Time): seq<Time> {
    match f
    case MediaFrame(key, _, _, _, _, _, rtp) => if key == k && rtp.Some? then [now] else []
    case DanteAudio(key, _, _, _, _, _) => if key == k then [now] else []
    case _ => []
  }

  ghost predicate RingIs(streams: map<Key, Stream>, k: Key, times: seq<Time>) {
    if k in streams then HeardAtTimes(streams[k], times) else times == []
  }

  lemma NothingMore(times: seq<Time>)
    ensures times + [] == times
  {}

  lemma MediaHears(s: Stream, f: Frame, times: seq<Time>, now: Time)
    requires f.MediaFrame? && s.clock.hz > 0.0 && HeardAtTimes(s, times)
    ensures HeardAtTimes(MediaSeen(s, f, now), times + TimeFor(f, f.key, now))
  {
    hide Updated, Gaps, Timing.Recorded;
    NothingMore(times);
    if f.rtp.Some? {
      var marks := PcpAdvised(Marked(s.marks, f.dscpOk), f.pcp);
      var mismatch := if marks.expectedPt.Some? && marks.expectedPt.value != f.payloadType then 1 else 0;
      UpdateHears(s.(marks := marks.(ptMismatches := marks.ptMismatches + mismatch)), f.rtp.value, times, now);
    }
  }

  lemma DanteAudioHears(s: Stream, f: Frame, times: seq<Time>, now: Time)
    requires f.DanteAudio? && s.clock.hz > 0.0 && HeardAtTimes(s, times)
    ensures HeardAtTimes(DanteAudioSeen(s, f, now), times + TimeFor(f, f.key, now))
  {
    hide Updated, UpdatedNonRtp, Gaps, Timing.Recorded;
    var routed := s.(transmitter := s.transmitter.(minTtl := Timing.LowerTtl(s.transmitter.minTtl, f.ttl)));
    UpdateHears(routed, if f.rtp.Some? then f.rtp.value else RtpPacket(0, 0, 0), times, now);
  }

  lemma OtherFramesHear(c: Capture, f: Frame, k: Key, times: seq<Time>, now: Time)
    requires WellFormed(c) && ValidFrame(f) && k.Media? && RingIs(c.streams, k, times)
    requires f.TcpFrame? || f.SapFrame?
    ensures RingIs(Handled(c, f, now).streams, k, times)
  {
    hide Enriched, Tcp.Seen, Tcp.HealthMarks, WellFormed, SdpCached, Gaps, Timing.Recorded;
    if f.SapFrame? && k in c.streams {
      EnrichedTouches(c.streams[k], f.session.media);
    }
  }

  lemma FreshHears(s: Stream)
    requires Untouched(s)
    ensures HeardAtTimes(s, [])
  {}

  lemma FrameHears(c: Capture, f: Frame, k: Key, times: seq<Time>, now: Time)
    requires WellFormed(c) && ValidFrame(f) && k.Media? && RingIs(c.streams, k, times)
    ensures RingIs(Handled(c, f, now).streams, k, times + TimeFor(f, k, now))
  {
    hide MediaSeen, DanteAudioSeen, EnrichedAll, TcpHandled, SdpCached, EcnMarked, HeardAtTimes;
    NothingMore(times);
    match f {
      case MediaFrame(key, created, _, _, _, _, _) =>
        FreshHears(created);
        if key == k { MediaHears(StreamOr(c, key, created), f, times, now); }
      case DanteAudio(key, created, _, _, _, _) =>
        FreshHears(created);
        if key == k { DanteAudioHears(StreamOr(c, key, created), f, times, now); }
      case TcpFrame(_, _, _, _, _) => OtherFramesHear(c, f, k, times, now);
      case SapFrame(_, _) => OtherFramesHear(c, f, k, times, now);
      case _ => StreamsUntouched(c, f, now);
    }
  }

  lemma CloseHears(c: Capture, k: Key, times: seq<Time>, now: Time)
    requires RingIs(c.streams, k, times)
    ensures var after := Closed(c, now).streams;
            RingIs(after, k, if k in after then times else [])
  {
    hide Closed, StreamLives, Gaps, Timing.Recorded;
    R.CloseOfStreams(c, now);
  }

  function PacketTime(p: R.PcapPacket, k: Key, now: Time): seq<Time> {
    if p.eth.Some? then TimeFor(p.eth.value.frame, k, now) else []
  }

  // The packets of a present stream since its entry was created.
  ghost function ArrivalTimes(wall: Time, file: seq<R.PcapPacket>, k: Key): seq<Time>
    requires R.ValidFile(file)
  {
    if file == [] || k !in R.Run(wall, file).capture.streams then []
    else ArrivalTimes(wall, Front(file), k) + PacketTime(Last(file), k, R.Run(wall, file).lastNow)
  }

  lemma StepHears(l: R.Loop, p: R.PcapPacket, wall: Time, k: Key, times: seq<Time>)
    requires WellFormed(l.capture) && (p.eth.Some? ==> ValidFrame(p.eth.value.frame))
    requires k.Media? && RingIs(l.capture.streams, k, times)
    ensures var next := R.Step(l, p, wall);
            RingIs(next.capture.streams, k,
                   if k in next.capture.streams then times + PacketTime(p, k, next.lastNow) else [])
  {
    hide R.Step, Handled, Closed, WellFormed, ValidFrame, TimeFor, HeardAtTimes;
    R.StepInParts(l, p, wall);
    NothingMore(times);
    if p.eth.Some? {
      var now := R.Step(l, p, wall).lastNow;
      var counted := l.capture.(traffic := l.capture.traffic.(dispatched := l.capture.traffic.dispatched + 1));
      SameStreamsWellFormed(l.capture, counted);
      FrameHears(counted, p.eth.value.frame, k, times, now);
      CloseHears(Processed(l.capture, p.eth.value, now), k, times + TimeFor(p.eth.value.frame, k, now), now);
    }
  }

  lemma {:induction false} RunHears(wall: Time, file: seq<R.PcapPacket>, k: Key)
    requires R.ValidFile(file) && k.Media?
    ensures RingIs(R.Run(wall, file).capture.streams, k, ArrivalTimes(wall, file, k))
  {
    hide R.Step, WellFormed, ValidFrame, RingIs, PacketTime;
    if file == [] {
      NoRing(k);
    } else {
      RunHears(wall, Front(file), k);
      StepHears(R.Run(wall, Front(file)), Last(file), wall, k, ArrivalTimes(wall, Front(file), k));
    }
  }

  lemma NoRing(k: Key)
    ensures RingIs(map[], k, [])
  {}

  // In any replay the ring of a present stream holds the last at most 64 positive times
  // between its own packets since it appeared, RTP or not, across closes and whatever
  // other traffic lies between.
  lemma RingOfReplay(wall: Time, file: seq<R.PcapPacket>, k: Key)
    requires R.ValidFile(file) && k.Media? && k in R.Run(wall, file).capture.streams
    ensures var times := ArrivalTimes(wall, file, k);
            Heard(R.Run(wall, file).capture.streams[k]) == if times == [] then None else Some(Last(times))
    ensures R.Run(wall, file).capture.streams[k].transmitter.iatSamples
         == Timing.LastAtMost(Timing.Positives(Gaps(ArrivalTimes(wall, file, k))), 64)
  {
    hide R.Run, ArrivalTimes, Gaps, Timing.Recorded, Timing.LastAtMost, Timing.Positives;
    RunHears(wall, file, k);
    Timing.RingHoldsLastPositives(Gaps(ArrivalTimes(wall, file, k)));
  }
}
