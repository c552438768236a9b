// What every reachable state of a replay keeps: bounded maps, streams and clocks whose
// fields agree with each other, and totals that the closed windows add up to.
module RunLaws {
  import opened Basics
  import opened Capture
  import opened Frames
  import opened FrameLaws
  import opened Scoring
  import opened Streams
  import opened Substates
  import Dante
  import Inference = ClockInference
  import Jitter
  import Ptp
  import R = Replay
  import Tcp
  import Timing

  // ---- Streams --------------------------------------------------------------

  // Window counters never exceed lifetime totals, the pending samples and the timing ring
  // stay within their capacities, and a stream has packets exactly when it was heard.
  ghost predicate Sound(s: Stream) {
    && s.count.packetsThisWindow <= s.count.packets && s.count.lostThisWindow <= s.count.lost
    && s.clock.jumpsThisWindow <= s.clock.jumps
    && |s.clock.samples| < Inference.BATCH && (forall i :: 0 <= i < |s.clock.samples| ==> s.clock.samples[i] > 0)
    && s.arrive.jitter >= 0.0 && s.arrive.maxIatMs >= 0.0
    && |s.transmitter.iatSamples| <= Timing.MAX_IAT_SAMPLES
    && (s.arrive.lastPacketTime.Some? <==> s.count.packets > 0)
  }

  // What the closed windows have counted: lifetime totals less the current window.
  function CarryOf(s: Stream): Totals {
    Minus(Lifetime(s), Window(s))
  }

  lemma ClockStaysSound(k: Clock, ts: nat)
    requires k.jumpsThisWindow <= k.jumps && |k.samples| < Inference.BATCH
    requires forall i :: 0 <= i < |k.samples| ==> k.samples[i] > 0
    ensures var r := ReadTimestamp(k, ts);
            && r.jumpsThisWindow <= r.jumps && |r.samples| < Inference.BATCH
            && (forall i :: 0 <= i < |r.samples| ==> r.samples[i] > 0)
            && r.jumps - r.jumpsThisWindow == k.jumps - k.jumpsThisWindow
  {
    hide ExpectedDiff, OutOfBand, Inference.Lookup;
  }

  lemma ArrivalsStaySound(a: Arrivals, lastTs: Option<nat>, k: Clock, ts: nat, now: Time)
    requires a.jitter >= 0.0 && a.maxIatMs >= 0.0 && k.hz > 0.0
    ensures var r := FilterJitter(ObserveGap(a, k.ptimeMs, now), lastTs, k.hz, ts, now);
            r.jitter >= 0.0 && r.maxIatMs >= 0.0
  {}

  lemma CheckKeepsRate(k: Clock, ts: nat)
    ensures CheckTimestamp(k, ts).hz == k.hz
  {}

  lemma UpdatedIsSound(s: Stream, p: RtpPacket, now: Time)
    requires Sound(s) && s.clock.hz > 0.0
    ensures Sound(Updated(s, p, now)) && CarryOf(Updated(s, p, now)) == CarryOf(s)
  {
    hide ExpectedDiff, ApplyInference, TransitDifference, Jitter.Filter, OutOfBand, CheckTimestamp, CollectDelta;
    ClockStaysSound(s.clock, p.ts);
    CheckKeepsRate(s.clock, p.ts);
    CollectKeepsRatePositive(CheckTimestamp(s.clock, p.ts), p.ts);
    ArrivalsStaySound(s.arrive, s.clock.lastTs, ReadTimestamp(s.clock, p.ts), p.ts, now);
  }

  lemma MediaStaysSound(s: Stream, f: Frame, now: Time)
    requires f.MediaFrame? && Sound(s) && s.clock.hz > 0.0
    ensures Sound(MediaSeen(s, f, now)) && CarryOf(MediaSeen(s, f, now)) == CarryOf(s)
  {
    hide Updated;
    if f.rtp.Some? {
      var marks := PcpAdvised(Marked(s.marks, f.dscpOk), f.pcp);
      var mismatch := if marks.expectedPt.Some? && marks.expectedPt.value != f.payloadType then 1 else 0;
      UpdatedIsSound(s.(marks := marks.(ptMismatches := marks.ptMismatches + mismatch)), f.rtp.value, now);
    }
  }

  lemma DanteAudioStaysSound(s: Stream, f: Frame, now: Time)
    requires f.DanteAudio? && Sound(s) && s.clock.hz > 0.0
    ensures Sound(DanteAudioSeen(s, f, now)) && CarryOf(DanteAudioSeen(s, f, now)) == CarryOf(s)
  {
    hide Updated;
    if f.rtp.Some? {
      UpdatedIsSound(s.(transmitter := s.transmitter.(minTtl := Timing.LowerTtl(s.transmitter.minTtl, f.ttl))),
                     f.rtp.value, now);
    }
  }

  lemma {:induction false} EnrichedStaysSound(s: Stream, media: seq<SdpMedia>)
    requires Sound(s)
    ensures Sound(Enriched(s, media)) && CarryOf(Enriched(s, media)) == CarryOf(s)
  {
    if media != [] {
      EnrichedStaysSound(s, Front(media));
    }
  }

  lemma UntouchedIsSound(s: Stream)
    requires Untouched(s)
    ensures Sound(s) && CarryOf(s) == NoTotals
  {
    assert s.clock.(hz := 0.0, confirmed := false, ptimeMs := 0.0).samples == s.clock.samples;
  }

  lemma ResetStaysSound(s: Stream)
    requires Sound(s)
    ensures Sound(WindowReset(s))
    ensures CarryOf(WindowReset(s)) == Lifetime(s)
  {}

  ghost predicate AllSound(streams: map<Key, Stream>) {
    forall k :: k in streams ==> Sound(streams[k])
  }

  // Between closes no frame changes what the closed windows counted. NDI senders are the
  // exception: their packets count for the lifetime but not for the window.
  ghost predicate SameCarry(before: map<Key, Stream>, after: map<Key, Stream>) {
    && before.Keys <= after.Keys
    && forall k :: k in after ==>
         var was := if k in before then CarryOf(before[k]) else NoTotals;
         CarryOf(after[k]).lost == was.lost && CarryOf(after[k]).jumps == was.jumps
         && (k.Media? ==> CarryOf(after[k]) == was)
  }

  lemma EntryStaysSound(streams: map<Key, Stream>, key: Key, created: Stream, s: Stream)
    requires AllSound(streams) && key.Media? && Untouched(created) && Sound(s)
    requires CarryOf(s) == CarryOf(if key in streams then streams[key] else created)
    ensures AllSound(streams[key := s]) && SameCarry(streams, streams[key := s])
  {
    hide Sound, Untouched;
    UntouchedIsSound(created);
  }

  lemma NdiStaysSound(c: Capture, ip: Ip, now: Time)
    requires AllSound(c.streams)
    ensures AllSound(NdiHeard(c, ip, now)) && SameCarry(c.streams, NdiHeard(c, ip, now))
  {
    var s := StreamOr(c, NdiSender(ip), NewStream(Ndi, 0.0, false, ip, 0));
    assert Sound(s);
  }

  lemma SapStaysSound(streams: map<Key, Stream>, media: seq<SdpMedia>)
    requires AllSound(streams)
    ensures AllSound(EnrichedAll(streams, media)) && SameCarry(streams, EnrichedAll(streams, media))
  {
    hide Sound, Enriched, CarryOf;
    forall k | k in streams
      ensures Sound(Enriched(streams[k], media)) && CarryOf(Enriched(streams[k], media)) == CarryOf(streams[k])
    {
      EnrichedStaysSound(streams[k], media);
    }
  }

  lemma TcpStaysSound(c: Capture, f: Frame, now: Time)
    requires f.TcpFrame? && AllSound(c.streams)
    ensures AllSound(TcpHandled(c, f, now).streams) && SameCarry(c.streams, TcpHandled(c, f, now).streams)
  {
    hide AllSound, NdiHeard, Tcp.Seen, Tcp.HealthMarks;
    SameStreamsCarry(c.streams);
    if IsNdi(c, f) && NdiSenderOf(c, f).Some? {
      NdiStaysSound(c, NdiSenderOf(c, f).value, now);
    }
  }

  lemma SameStreamsCarry(streams: map<Key, Stream>)
    ensures SameCarry(streams, streams)
  {}

  lemma FrameStaysSound(c: Capture, f: Frame, now: Time)
    requires WellFormed(c) && ValidFrame(f) && AllSound(c.streams)
    ensures AllSound(Handled(c, f, now).streams) && SameCarry(c.streams, Handled(c, f, now).streams)
  {
    hide Sound, MediaSeen, DanteAudioSeen, EnrichedAll, TcpHandled, SdpCached, EcnMarked, SameCarry, CarryOf, Untouched;
    match f {
      case MediaFrame(key, created, _, _, _, _, _) =>
        var s := StreamOr(c, key, created);
        StreamOrIsSound(c, key, created);
        MediaStaysSound(s, f, now);
        EntryStaysSound(c.streams, key, created, MediaSeen(s, f, now));
      case DanteAudio(key, created, _, _, _, _) =>
        var s := StreamOr(c, key, created);
        StreamOrIsSound(c, key, created);
        DanteAudioStaysSound(s, f, now);
        EntryStaysSound(c.streams, key, created, DanteAudioSeen(s, f, now));
      case TcpFrame(_, _, _, _, _) => TcpStaysSound(c, f, now);
      case SapFrame(session, _) => SapStaysSound(c.streams, session.media);
      case _ =>
        StreamsUntouched(c, f, now);
        SameStreamsCarry(c.streams);
    }
  }

  lemma StreamOrIsSound(c: Capture, key: Key, created: Stream)
    requires WellFormed(c) && AllSound(c.streams) && key.Media? && Untouched(created)
    ensures Sound(StreamOr(c, key, created)) && StreamOr(c, key, created).clock.hz > 0.0
  {
    hide Sound;
    UntouchedIsSound(created);
  }

  // ---- Clock domains --------------------------------------------------------

  // Every domain sits under its own key; its clock is valid exactly while a grandmaster
  // is remembered, and never valid and lost at once.
  ghost predicate ClocksSound(domains: map<DomainKey, Ptp.Domain>) {
    forall k :: k in domains ==>
      && k == (domains[k].domain, domains[k].version)
      && (domains[k].gm.valid <==> domains[k].gm.last.Some?)
      && !(domains[k].gm.valid && domains[k].gm.lost)
  }

  lemma PtpStaysSound(p: PtpView, info: Ptp.PtpInfo, now: Time)
    requires ClocksSound(p.domains)
    ensures ClocksSound(PtpHandled(p, info, now).domains)
  {
    hide Ptp.DelayHeard, Ptp.SourceHeard;
  }

  lemma CloseKeepsClocksSound(c: Capture, now: Time)
    requires ClocksSound(c.ptp.domains)
    ensures ClocksSound(Closed(c, now).ptp.domains)
  {
    hide Score, Dante.WindowClosed;
  }

  // ---- The whole state ------------------------------------------------------

  ghost predicate Invariant(c: Capture) {
    WellFormed(c) && BoundedMaps(c) && AllSound(c.streams) && ClocksSound(c.ptp.domains)
  }

  lemma FrameKeepsInvariant(c: Capture, f: Frame, now: Time)
    requires Invariant(c) && ValidFrame(f) && LegalFrame(c, f)
    ensures Invariant(Handled(c, f, now))
  {
    hide WellFormed, BoundedMaps, AllSound, ClocksSound, ValidFrame, LegalFrame, SameCarry, Touches, PtpHandled;
    FrameTouches(c, f, now);
    FrameKeepsBounds(c, f, now);
    FrameStaysSound(c, f, now);
    if f.PtpFrame? {
      PtpStaysSound(c.ptp, f.info, now);
    } else {
      EntriesUntouched(c, f, now);
    }
  }

  lemma CloseKeepsBounds(c: Capture, now: Time)
    requires BoundedMaps(c)
    ensures BoundedMaps(Closed(c, now))
  {
    hide Score, Dante.LiveConmon, Dante.Windows;
  }

  lemma CloseKeepsInvariant(c: Capture, now: Time)
    requires Invariant(c)
    ensures Invariant(Closed(c, now))
  {
    hide BoundedMaps, ClocksSound, Closed, Sound, WellFormed, StreamLives, WindowReset;
    CloseKeepsBounds(c, now);
    CloseKeepsClocksSound(c, now);
    R.ClosedIsWellFormed(c, now);
    R.CloseOfStreams(c, now);
    forall k | k in Closed(c, now).streams ensures Sound(Closed(c, now).streams[k]) {
      ResetStaysSound(c.streams[k]);
    }
  }

  // ---- Every replay ---------------------------------------------------------

  // The entries evicted during the replay are ones the source could have picked.
  ghost predicate LegalFile(wall: Time, file: seq<R.PcapPacket>)
    requires R.ValidFile(file)
  {
    file == [] ||
    (LegalFile(wall, Front(file)) &&
     (Last(file).eth.Some? ==> LegalFrame(R.Run(wall, Front(file)).capture, Last(file).eth.value.frame)))
  }

  lemma CountersDoNotMatter(c: Capture, t: Traffic, f: Frame)
    ensures LegalFrame(c.(traffic := t), f) <==> LegalFrame(c, f)
    ensures Invariant(c.(traffic := t)) <==> Invariant(c)
  {}

  lemma PacketKeepsInvariant(c: Capture, p: Packet, now: Time)
    requires Invariant(c) && ValidFrame(p.frame) && LegalFrame(c, p.frame)
    ensures Invariant(Processed(c, p, now))
  {
    hide Handled, Invariant, LegalFrame, ValidFrame;
    assert WellFormed(c) by { InvariantIsWellFormed(c); }
    var counted := c.(traffic := c.traffic.(dispatched := c.traffic.dispatched + 1));
    CountersDoNotMatter(c, counted.traffic, p.frame);
    InvariantIsWellFormed(counted);
    FrameKeepsInvariant(counted, p.frame, now);
    CountersDoNotMatter(Handled(counted, p.frame, now), Processed(c, p, now).traffic, p.frame);
  }

  lemma InvariantIsWellFormed(c: Capture)
    requires Invariant(c)
    ensures WellFormed(c)
  {}

  ghost predicate ClosesSound(closes: seq<R.CloseRecord>) {
    forall i :: 0 <= i < |closes| ==> Invariant(closes[i].before) && Invariant(closes[i].after)
  }

  lemma StepKeepsInvariant(l: R.Loop, p: R.PcapPacket, wall: Time)
    requires Invariant(l.capture) && ClosesSound(l.closes)
    requires p.eth.Some? ==> ValidFrame(p.eth.value.frame) && LegalFrame(l.capture, p.eth.value.frame)
    ensures WellFormed(l.capture)
    ensures Invariant(R.Step(l, p, wall).capture) && ClosesSound(R.Step(l, p, wall).closes)
  {
    hide Processed, Closed, Invariant, LegalFrame, ValidFrame, R.VirtualNow;
    InvariantIsWellFormed(l.capture);
    if p.eth.Some? {
      var now := R.Step(l, p, wall).lastNow;
      PacketKeepsInvariant(l.capture, p.eth.value, now);
      CloseKeepsInvariant(Processed(l.capture, p.eth.value, now), now);
    }
  }

  lemma NewCaptureIsSound()
    ensures Invariant(NewCapture)
  {}

  // Every state a replay reaches, and every state a close starts from, is sound.
  lemma {:induction false} ReplayKeepsInvariant(wall: Time, file: seq<R.PcapPacket>)
    requires R.ValidFile(file) && LegalFile(wall, file)
    ensures Invariant(R.Run(wall, file).capture) && ClosesSound(R.Run(wall, file).closes)
    ensures Invariant(R.Replayed(wall, file).capture)
  {
    hide Processed, Closed, Invariant, LegalFrame, ValidFrame, R.Step;
    if file == [] {
      NewCaptureIsSound();
    } else {
      ReplayKeepsInvariant(wall, Front(file));
      StepKeepsInvariant(R.Run(wall, Front(file)), Last(file), wall);
    }
    CloseKeepsInvariant(R.Run(wall, file).capture, R.Run(wall, file).lastNow);
  }

  // ---- Totals and windows ---------------------------------------------------

  // What the windows closed since the stream appeared had counted for it, summed: the
  // closes back from the last one as long as the stream survived them.
  ghost function Counted(closes: seq<R.CloseRecord>, k: Key): Totals {
    if closes == [] || k !in Last(closes).after.streams then NoTotals
    else
      Plus(Counted(Front(closes), k),
           if k in Last(closes).before.streams then Window(Last(closes).before.streams[k]) else NoTotals)
  }

  ghost predicate Agrees(k: Key, carried: Totals, counted: Totals) {
    carried.lost == counted.lost && carried.jumps == counted.jumps && (k.Media? ==> carried == counted)
  }

  ghost predicate AddsUp(streams: map<Key, Stream>, closes: seq<R.CloseRecord>) {
    && (closes != [] ==> Last(closes).after.streams.Keys <= streams.Keys)
    && forall k :: k in streams ==> Agrees(k, CarryOf(streams[k]), Counted(closes, k))
  }

  lemma FrameAddsUp(before: map<Key, Stream>, after: map<Key, Stream>, closes: seq<R.CloseRecord>)
    requires AddsUp(before, closes) && SameCarry(before, after)
    ensures AddsUp(after, closes)
  {
    forall k | k in after ensures Agrees(k, CarryOf(after[k]), Counted(closes, k)) {
      if k !in before {
        assert Counted(closes, k) == NoTotals;
      }
    }
  }

  lemma CloseAddsUp(l: R.Loop, now: Time)
    requires AddsUp(l.capture.streams, l.closes)
    ensures AddsUp(R.CloseAt(l, now).capture.streams, R.CloseAt(l, now).closes)
  {
    hide Closed, StreamLives;
    R.CloseOfStreams(l.capture, now);
    var r := R.CloseAt(l, now);
    assert Front(r.closes) == l.closes;
    forall k | k in r.capture.streams
      ensures Agrees(k, CarryOf(r.capture.streams[k]), Counted(r.closes, k))
    {
      assert Agrees(k, CarryOf(l.capture.streams[k]), Counted(l.closes, k));
    }
  }

  lemma StepAddsUp(l: R.Loop, p: R.PcapPacket, wall: Time)
    requires WellFormed(l.capture) && AllSound(l.capture.streams)
    requires p.eth.Some? ==> ValidFrame(p.eth.value.frame)
    requires AddsUp(l.capture.streams, l.closes)
    ensures AllSound(R.Step(l, p, wall).capture.streams)
    ensures AddsUp(R.Step(l, p, wall).capture.streams, R.Step(l, p, wall).closes)
  {
    hide Handled, Closed, ValidFrame, WellFormed, AddsUp, AllSound, R.VirtualNow, SameCarry;
    if p.eth.Some? {
      var next := R.Step(l, p, wall);
      var counted := l.capture.(traffic := l.capture.traffic.(dispatched := l.capture.traffic.dispatched + 1));
      SameStreamsWellFormed(l.capture, counted);
      FrameStaysSound(counted, p.eth.value.frame, next.lastNow);
      var processed := Processed(l.capture, p.eth.value, next.lastNow);
      FrameAddsUp(l.capture.streams, processed.streams, l.closes);
      CloseAddsUp(l.(capture := processed), next.lastNow);
      ClosedStaysSound(processed, next.lastNow);
    }
  }

  lemma ClosedStaysSound(c: Capture, now: Time)
    requires AllSound(c.streams)
    ensures AllSound(Closed(c, now).streams)
  {
    hide Closed, Sound, StreamLives, WindowReset;
    R.CloseOfStreams(c, now);
    forall k | k in Closed(c, now).streams ensures Sound(Closed(c, now).streams[k]) {
      ResetStaysSound(c.streams[k]);
    }
  }

  lemma {:induction false} CarriesAddUp(wall: Time, file: seq<R.PcapPacket>)
    requires R.ValidFile(file)
    ensures AllSound(R.Run(wall, file).capture.streams)
    ensures AddsUp(R.Run(wall, file).capture.streams, R.Run(wall, file).closes)
  {
    hide Processed, Closed, WellFormed, ValidFrame, R.Step, AllSound;
    if file == [] {
      NothingToSound();
    } else {
      CarriesAddUp(wall, Front(file));
      StepAddsUp(R.Run(wall, Front(file)), Last(file), wall);
    }
  }

  lemma NothingToSound()
    ensures AllSound(map[])
  {}

  // ---- NDI senders ----------------------------------------------------------

  // Every entry that is no media stream has packets, and none in its window.
  ghost predicate NdiUncounted(streams: map<Key, Stream>) {
    forall k :: k in streams && !k.Media? ==>
      streams[k].count.packets > 0 && streams[k].count.packetsThisWindow == 0
  }

  ghost predicate NdiNeverCounted(closes: seq<R.CloseRecord>) {
    forall i :: 0 <= i < |closes| ==> NdiUncounted(closes[i].before.streams)
  }

  lemma FrameKeepsNdiUncounted(c: Capture, f: Frame, now: Time)
    requires WellFormed(c) && ValidFrame(f) && NdiUncounted(c.streams)
    ensures NdiUncounted(Handled(c, f, now).streams)
  {
    hide MediaSeen, DanteAudioSeen, Enriched, SdpCached, EcnMarked, WellFormed, Tcp.Seen, Tcp.HealthMarks;
    match f {
      case MediaFrame(_, _, _, _, _, _, _) =>
      case DanteAudio(_, _, _, _, _, _) =>
      case TcpFrame(_, _, _, _, _) =>
      case SapFrame(session, _) =>
        forall k | k in c.streams ensures Enriched(c.streams[k], session.media).count == c.streams[k].count {
          EnrichedTouches(c.streams[k], session.media);
        }
      case _ => StreamsUntouched(c, f, now);
    }
  }

  lemma StepKeepsNdiUncounted(l: R.Loop, p: R.PcapPacket, wall: Time)
    requires WellFormed(l.capture) && (p.eth.Some? ==> ValidFrame(p.eth.value.frame))
    requires NdiUncounted(l.capture.streams) && NdiNeverCounted(l.closes)
    ensures NdiUncounted(R.Step(l, p, wall).capture.streams) && NdiNeverCounted(R.Step(l, p, wall).closes)
  {
    hide Handled, Closed, ValidFrame, WellFormed, R.VirtualNow, StreamLives;
    if p.eth.Some? {
      var next := R.Step(l, p, wall);
      var counted := l.capture.(traffic := l.capture.traffic.(dispatched := l.capture.traffic.dispatched + 1));
      SameStreamsWellFormed(l.capture, counted);
      FrameKeepsNdiUncounted(counted, p.eth.value.frame, next.lastNow);
      R.CloseOfStreams(Processed(l.capture, p.eth.value, next.lastNow), next.lastNow);
    }
  }

  lemma {:induction false} NdiIsNeverCounted(wall: Time, file: seq<R.PcapPacket>)
    requires R.ValidFile(file)
    ensures NdiUncounted(R.Run(wall, file).capture.streams) && NdiNeverCounted(R.Run(wall, file).closes)
  {
    hide Processed, Closed, WellFormed, ValidFrame, R.Step;
    if file != [] {
      NdiIsNeverCounted(wall, Front(file));
      StepKeepsNdiUncounted(R.Run(wall, Front(file)), Last(file), wall);
    }
  }

  lemma {:induction false} NdiWindowsAreEmpty(closes: seq<R.CloseRecord>, k: Key)
    requires NdiNeverCounted(closes) && !k.Media?
    ensures Counted(closes, k).packets == 0
  {
    if closes != [] {
      NdiWindowsAreEmpty(Front(closes), k);
    }
  }

  // Whatever the replay, the totals of a present stream are what the windows closed since
  // it appeared had counted, plus the current one: always for losses and discontinuities,
  // and for packets exactly when it is not an NDI sender, whose windows count none.
  lemma WindowsAddUp(wall: Time, file: seq<R.PcapPacket>, k: Key)
    requires R.ValidFile(file) && k in R.Run(wall, file).capture.streams
    ensures var s, closed := R.Run(wall, file).capture.streams[k], Counted(R.Run(wall, file).closes, k);
            && s.count.lost == closed.lost + s.count.lostThisWindow
            && s.clock.jumps == closed.jumps + s.clock.jumpsThisWindow
            && (s.count.packets == closed.packets + s.count.packetsThisWindow <==> k.Media?)
            && (!k.Media? ==> s.count.packets > 0 && closed.packets + s.count.packetsThisWindow == 0)
  {
    hide R.Run, Counted, AllSound;
    CarriesAddUp(wall, file);
    NdiIsNeverCounted(wall, file);
    var l := R.Run(wall, file);
    assert Agrees(k, CarryOf(l.capture.streams[k]), Counted(l.closes, k));
    if !k.Media? {
      NdiWindowsAreEmpty(l.closes, k);
    }
  }

  // An NDI source is discovered and sends one segment: its packet appears in no window.
  function NdiFile(ip: Ip, conn: Key, segment: Tcp.Segment): seq<R.PcapPacket> {
    [R.PcapPacket(0, 0, Some(Packet(NdiDiscovery(ip, 0), 200, true))),
     R.PcapPacket(0, 0, Some(Packet(TcpFrame(conn, ip, 0, false, segment), 1500, false)))]
  }

  lemma NdiPacketGoesUncounted(wall: Time, ip: Ip, conn: Key, segment: Tcp.Segment)
    requires ValidFrame(TcpFrame(conn, ip, 0, false, segment))
    ensures var file := NdiFile(ip, conn, segment);
            && R.ValidFile(file) && NdiSender(ip) in R.Run(wall, file).capture.streams
            && var s := R.Run(wall, file).capture.streams[NdiSender(ip)];
               s.count.packets == 1 && s.count.packetsThisWindow == 0
               && Counted(R.Run(wall, file).closes, NdiSender(ip)).packets == 0
  {
    hide Closed, Tcp.Seen, Tcp.HealthMarks, Counted;
    var file := NdiFile(ip, conn, segment);
    assert Front(file) == [file[0]] && Front([file[0]]) == [];
    var one := R.Run(wall, [file[0]]);
    assert Last([file[0]]) == file[0];
    assert R.Run(wall, Front([file[0]])) == R.Start(wall);
    assert one == R.Step(R.Start(wall), file[0], wall);
    assert ip in one.capture.ndiSources && one.capture.streams == map[] && one.report == R.ReportClock(0, true);
    assert R.Run(wall, file) == R.Step(one, file[1], wall);
    NdiIsNeverCounted(wall, file);
    NdiWindowsAreEmpty(R.Run(wall, file).closes, NdiSender(ip));
  }
}
