// Loss accounting end to end: from the frames of a capture file, interleaved in any way
// with those of other streams, to the losses the windows of a replay count and its reports show.
module ReplayLoss {
  import opened Basics
  import opened Capture
  import opened Frames
  import opened FrameLaws
  import opened RunLaws
  import opened Scoring
  import opened Streams
  import opened Wrapping
  import R = Replay
  import Tcp
  import Timing
  import SequenceLoss

  // The RTP sequence number a frame carries for a stream, if any.
  function SequenceFor(f: Frame, k: Key): Option<nat> {
    match f
    case MediaFrame(key, _, _, _, _, _, rtp) => if key == k && rtp.Some? then Some(rtp.value.sn) else None
    case DanteAudio(key, _, _, _, _, rtp) => if key == k && rtp.Some? then Some(rtp.value.sn) else None
    case _ => None
  }

  function Advanced(t: SequenceLoss.Track, sn: Option<nat>): SequenceLoss.Track {
    if sn.Some? then SequenceLoss.Step(t, sn.value, M16) else t
  }

  // The stream's loss counters are those of the tracker; an absent stream is untracked.
  ghost predicate Follows(streams: map<Key, Stream>, k: Key, t: SequenceLoss.Track) {
    if k in streams then streams[k].count.lastSeq == t.last && streams[k].count.lost == t.lost
    else t.last == None && t.lost == 0
  }

  lemma UpdateFollows(s: Stream, p: RtpPacket, now: Time, t: SequenceLoss.Track)
    requires s.clock.hz > 0.0 && s.count.lastSeq == t.last && s.count.lost == t.lost
    ensures var n := SequenceLoss.Step(t, p.sn, M16);
            Updated(s, p, now).count.lastSeq == n.last && Updated(s, p, now).count.lost == n.lost
  {
    hide SequenceLoss.Delta, CheckTimestamp, CollectDelta, ObserveGap, FilterJitter, SampleIat;
  }

  lemma MediaFollows(s: Stream, f: Frame, now: Time, t: SequenceLoss.Track)
    requires f.MediaFrame? && s.clock.hz > 0.0 && s.count.lastSeq == t.last && s.count.lost == t.lost
    ensures var n := Advanced(t, SequenceFor(f, f.key));
            MediaSeen(s, f, now).count.lastSeq == n.last && MediaSeen(s, f, now).count.lost == n.lost
  {
    hide Updated, SequenceLoss.Step;
    if f.rtp.Some? {
      var marks := PcpAdvised(Marked(s.marks, f.dscpOk), f.pcp);
      var mismatch := if marks.expectedPt.Some? && marks.expectedPt.value != f.payloadType then 1 else 0;
      UpdateFollows(s.(marks := marks.(ptMismatches := marks.ptMismatches + mismatch)), f.rtp.value, now, t);
    }
  }

  lemma DanteAudioFollows(s: Stream, f: Frame, now: Time, t: SequenceLoss.Track)
    requires f.DanteAudio? && s.clock.hz > 0.0 && s.count.lastSeq == t.last && s.count.lost == t.lost
    ensures var n := Advanced(t, SequenceFor(f, f.key));
            DanteAudioSeen(s, f, now).count.lastSeq == n.last && DanteAudioSeen(s, f, now).count.lost == n.lost
  {
    hide Updated, SequenceLoss.Step;
    if f.rtp.Some? {
      UpdateFollows(s.(transmitter := s.transmitter.(minTtl := Timing.LowerTtl(s.transmitter.minTtl, f.ttl))),
                    f.rtp.value, now, t);
    }
  }

  lemma OtherFramesFollow(c: Capture, f: Frame, now: Time, k: Key, t: SequenceLoss.Track)
    requires WellFormed(c) && ValidFrame(f) && Follows(c.streams, k, t)
    requires f.TcpFrame? || f.SapFrame?
    ensures Follows(Handled(c, f, now).streams, k, t)
  {
    hide Enriched, Tcp.Seen, Tcp.HealthMarks, WellFormed, SdpCached;
    if f.SapFrame? && k in c.streams {
      EnrichedTouches(c.streams[k], f.session.media);
    }
  }

  lemma FrameFollows(c: Capture, f: Frame, now: Time, k: Key, t: SequenceLoss.Track)
    requires WellFormed(c) && ValidFrame(f) && Follows(c.streams, k, t)
    ensures Follows(Handled(c, f, now).streams, k, Advanced(t, SequenceFor(f, k)))
  {
    hide MediaSeen, DanteAudioSeen, EnrichedAll, TcpHandled, SdpCached, EcnMarked, Advanced;
    match f {
      case MediaFrame(key, created, _, _, _, _, _) =>
        if key == k {
          MediaFollows(StreamOr(c, key, created), f, now, t);
        } else {
          NothingAdvanced(t);
        }
      case DanteAudio(key, created, _, _, _, _) =>
        if key == k {
          DanteAudioFollows(StreamOr(c, key, created), f, now, t);
        } else {
          NothingAdvanced(t);
        }
      case TcpFrame(_, _, _, _, _) =>
        NothingAdvanced(t);
        OtherFramesFollow(c, f, now, k, t);
      case SapFrame(_, _) =>
        NothingAdvanced(t);
        OtherFramesFollow(c, f, now, k, t);
      case _ =>
        NothingAdvanced(t);
        StreamsUntouched(c, f, now);
    }
  }

  lemma NothingAdvanced(t: SequenceLoss.Track)
    ensures Advanced(t, None) == t
  {}

  // ---- Over a file ----------------------------------------------------------

  function PacketSequence(p: R.PcapPacket, k: Key): Option<nat> {
    if p.eth.Some? then SequenceFor(p.eth.value.frame, k) else None
  }

  // The tracker of a present stream: its sequence numbers since its entry was created. A
  // close that prunes the stream ends it, and a stream that returns starts afresh.
  ghost function Tracked(wall: Time, file: seq<R.PcapPacket>, k: Key): SequenceLoss.Track
    requires R.ValidFile(file)
  {
    if file == [] || k !in R.Run(wall, file).capture.streams then SequenceLoss.Untracked
    else Advanced(Tracked(wall, Front(file), k), PacketSequence(Last(file), k))
  }

  ghost function TrackOf(t: SequenceLoss.Track, streams: map<Key, Stream>, k: Key): SequenceLoss.Track {
    if k in streams then t else SequenceLoss.Untracked
  }

  lemma StepFollows(l: R.Loop, p: R.PcapPacket, wall: Time, k: Key, t: SequenceLoss.Track)
    requires WellFormed(l.capture) && (p.eth.Some? ==> ValidFrame(p.eth.value.frame))
    requires Follows(l.capture.streams, k, t)
    ensures var after := R.Step(l, p, wall).capture.streams;
            Follows(after, k, TrackOf(Advanced(t, PacketSequence(p, k)), after, k))
  {
    hide Handled, Closed, WellFormed, ValidFrame, R.VirtualNow, Advanced;
    if p.eth.Some? {
      var next := R.Step(l, p, wall);
      var counted := l.capture.(traffic := l.capture.traffic.(dispatched := l.capture.traffic.dispatched + 1));
      SameStreamsWellFormed(l.capture, counted);
      FrameFollows(counted, p.eth.value.frame, next.lastNow, k, t);
      var processed := Processed(l.capture, p.eth.value, next.lastNow);
      CloseFollows(processed, next.lastNow, k, Advanced(t, PacketSequence(p, k)));
    } else {
      NothingAdvanced(t);
    }
  }

  lemma CloseFollows(c: Capture, now: Time, k: Key, t: SequenceLoss.Track)
    requires Follows(c.streams, k, t)
    ensures Follows(Closed(c, now).streams, k, TrackOf(t, Closed(c, now).streams, k))
  {
    hide Closed, StreamLives;
    R.CloseOfStreams(c, now);
  }

  lemma {:induction false} RunFollows(wall: Time, file: seq<R.PcapPacket>, k: Key)
    requires R.ValidFile(file)
    ensures Follows(R.Run(wall, file).capture.streams, k, Tracked(wall, file, k))
  {
    hide Processed, Closed, WellFormed, ValidFrame, R.Step, Advanced;
    if file != [] {
      RunFollows(wall, Front(file), k);
      StepFollows(R.Run(wall, Front(file)), Last(file), wall, k, Tracked(wall, Front(file), k));
    }
  }

  // ---- True positions -------------------------------------------------------

  // Since its entry was created the file carries the stream's true positions, in this
  // order, reduced modulo 2^16.
  ghost predicate Carries(wall: Time, file: seq<R.PcapPacket>, k: Key, truth: seq<int>)
    requires R.ValidFile(file)
  {
    if file == [] || k !in R.Run(wall, file).capture.streams then truth == []
    else
      match PacketSequence(Last(file), k)
      case None => Carries(wall, Front(file), k, truth)
      case Some(sn) => truth != [] && sn == Wrap(Last(truth), M16) && Carries(wall, Front(file), k, Front(truth))
  }

  lemma {:induction false} TrackedIsObserved(wall: Time, file: seq<R.PcapPacket>, k: Key, truth: seq<int>)
    requires R.ValidFile(file) && Carries(wall, file, k, truth)
    ensures Tracked(wall, file, k) == SequenceLoss.Observe(truth, M16)
    decreases |file|
  {
    hide SequenceLoss.Step, Wrap, R.Run;
    if file != [] && k in R.Run(wall, file).capture.streams {
      if PacketSequence(Last(file), k).Some? {
        TrackedIsObserved(wall, Front(file), k, Front(truth));
      } else {
        TrackedIsObserved(wall, Front(file), k, truth);
      }
    }
  }

  // End to end, for any interleaving with other traffic, announcements and closes: the
  // losses of a present stream in the windows closed so far and in the current one
  // add up to the forward gaps of its own true positions, which are the packets that
  // never arrived plus the excess: exactly those packets if and only if the run is regular.
  lemma CountedLossIsTrueLoss(wall: Time, file: seq<R.PcapPacket>, k: Key, truth: seq<int>)
    requires R.ValidFile(file) && k in R.Run(wall, file).capture.streams
    requires Carries(wall, file, k, truth) && truth != [] && SequenceLoss.Faithful(truth, M16)
    ensures var s, closed := R.Run(wall, file).capture.streams[k], Counted(R.Run(wall, file).closes, k);
            var lost := closed.lost + s.count.lostThisWindow;
            && lost == SequenceLoss.ForwardGaps(truth)
            && lost == |SequenceLoss.Missing(truth)| + SequenceLoss.Excess(truth)
            && (lost == |SequenceLoss.Missing(truth)| <==> SequenceLoss.Regular(truth))
  {
    hide R.Run, Counted, Tracked, Carries;
    RunFollows(wall, file, k);
    TrackedIsObserved(wall, file, k, truth);
    WindowsAddUp(wall, file, k);
    SequenceLoss.LossIsSumOfForwardGaps(truth, M16);
    SequenceLoss.LossCoversMissing(truth, M16);
  }
}
