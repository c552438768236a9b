// What the entries of the connection, AVTP and clock-domain maps hold at any point of any
// replay: the fold of what the file carried for their key since the entry was created.
module ReplayEntries {
  import opened Basics
  import opened Capture
  import opened FrameLaws
  import opened Frames
  import opened Scoring
  import opened Streams
  import opened Substates
  import opened Wrapping
  import Avtp
  import Ptp
  import R = Replay
  import SequenceLoss
  import Tcp

  // ---- TCP connections ------------------------------------------------------

  function ConnsAfter(c: Capture, f: Frame, now: Time): map<Key, Tcp.Conn> {
    if f.TcpFrame? && IsNdi(c, f) then
      c.tcp[f.conn := Tcp.Seen(if f.conn in c.tcp then c.tcp[f.conn] else Tcp.NewConn(now), f.segment, now)]
    else c.tcp
  }

  lemma ProcessedConns(c: Capture, p: Packet, now: Time)
    requires WellFormed(c) && ValidFrame(p.frame)
    ensures Processed(c, p, now).tcp == ConnsAfter(c, p.frame, now)
  {
    hide Handled, WellFormed, ValidFrame;
    var counted := c.(traffic := c.traffic.(dispatched := c.traffic.dispatched + 1));
    SameStreamsWellFormed(c, counted);
    EntriesUntouched(counted, p.frame, now);
    HandledConns(counted, p.frame, now);
  }

  lemma HandledConns(c: Capture, f: Frame, now: Time)
    requires WellFormed(c) && ValidFrame(f)
    ensures f.TcpFrame? ==> Handled(c, f, now).tcp == ConnsAfter(c, f, now)
  {
    hide Tcp.Seen, Tcp.HealthMarks, NdiHeard, IsNdi, NdiSenderOf, WellFormed, ValidFrame;
  }

  lemma ClosedConns(c: Capture, now: Time)
    ensures Closed(c, now).tcp == LiveConns(c.tcp, now)
  {
    hide Score, LiveConns;
  }

  // A segment is NDI's by its port, or by either end being a known source.
  ghost predicate CarriesNdi(c: Capture, f: Frame) {
    f.TcpFrame? && (f.ndiPort || f.src in c.ndiSources || f.dst in c.ndiSources)
  }

  ghost function SegmentFor(c: Capture, p: R.PcapPacket, k: Key, now: Time): seq<Tcp.Arrival> {
    if p.eth.Some? && CarriesNdi(c, p.eth.value.frame) && p.eth.value.frame.conn == k
    then [Tcp.Arrival(p.eth.value.frame.segment, now)] else []
  }

  // The segments of a present connection since its entry was created.
  ghost function Segments(wall: Time, file: seq<R.PcapPacket>, k: Key): seq<Tcp.Arrival>
    requires R.ValidFile(file)
  {
    if file == [] || k !in R.Run(wall, file).capture.tcp then []
    else
      Segments(wall, Front(file), k) +
      SegmentFor(R.Run(wall, Front(file)).capture, Last(file), k, R.Run(wall, file).lastNow)
  }

  ghost predicate ConnIs(conns: map<Key, Tcp.Conn>, k: Key, run: seq<Tcp.Arrival>) {
    if k in conns then run != [] && conns[k] == Tcp.Run(Tcp.NewConn(0), run) else run == []
  }

  lemma MoreSegments(run: seq<Tcp.Arrival>, a: Tcp.Arrival)
    ensures Tcp.Run(Tcp.NewConn(0), run + [a])
         == Tcp.Seen(if run == [] then Tcp.NewConn(a.now) else Tcp.Run(Tcp.NewConn(0), run), a.s, a.now)
  {
    assert Front(run + [a]) == run && Last(run + [a]) == a;
  }

  lemma FrameConn(c: Capture, p: R.PcapPacket, k: Key, run: seq<Tcp.Arrival>, now: Time)
    requires p.eth.Some? && ConnIs(c.tcp, k, run)
    ensures ConnIs(ConnsAfter(c, p.eth.value.frame, now), k, run + SegmentFor(c, p, k, now))
  {
    hide Tcp.Seen, Tcp.Run, Tcp.NewConn;
    var more := SegmentFor(c, p, k, now);
    if more == [] {
      assert run + more == run;
    } else {
      MoreSegments(run, more[0]);
      assert more == [more[0]];
    }
  }

  lemma StepConn(l: R.Loop, p: R.PcapPacket, wall: Time, k: Key, run: seq<Tcp.Arrival>)
    requires WellFormed(l.capture) && (p.eth.Some? ==> ValidFrame(p.eth.value.frame))
    requires ConnIs(l.capture.tcp, k, run)
    ensures var next := R.Step(l, p, wall);
            ConnIs(next.capture.tcp, k,
                   if k in next.capture.tcp then run + SegmentFor(l.capture, p, k, next.lastNow) else [])
  {
    hide R.Step, Processed, Closed, WellFormed, ValidFrame, ConnLives, Tcp.Run, CarriesNdi, ConnsAfter;
    R.StepInParts(l, p, wall);
    var next := R.Step(l, p, wall);
    if p.eth.Some? {
      var processed := Processed(l.capture, p.eth.value, next.lastNow);
      ProcessedConns(l.capture, p.eth.value, next.lastNow);
      FrameConn(l.capture, p, k, run, next.lastNow);
      ClosedConns(processed, next.lastNow);
    } else {
      assert run + SegmentFor(l.capture, p, k, next.lastNow) == run;
    }
  }

  lemma {:induction false} ConnEntry(wall: Time, file: seq<R.PcapPacket>, k: Key)
    requires R.ValidFile(file)
    ensures ConnIs(R.Run(wall, file).capture.tcp, k, Segments(wall, file, k))
  {
    hide R.Step, WellFormed, ValidFrame, ConnIs, SegmentFor;
    if file == [] {
      NoConn(k);
    } else {
      ConnEntry(wall, Front(file), k);
      StepConn(R.Run(wall, Front(file)), Last(file), wall, k, Segments(wall, Front(file), k));
    }
  }

  lemma NoConn(k: Key)
    ensures ConnIs(map[], k, [])
  {}

  // A present connection tracks the true maximum of the positions its segments carried
  // since it appeared, counts exactly those that fell below it, was last seen when the
  // last of them came, and its quality is the verdict on these counts, FINs and resets.
  lemma ReplayTracksTrueMaximum(wall: Time, file: seq<R.PcapPacket>, k: Key, truth: seq<int>)
    requires R.ValidFile(file) && k in R.Run(wall, file).capture.tcp
    requires Tcp.Carries(Segments(wall, file, k), truth)
    ensures var c, run := R.Run(wall, file).capture.tcp[k], Segments(wall, file, k);
            && run != [] && c.packets == |run|
            && c.lastSeq == Some(Wrap(SequenceLoss.Highest(truth), M32))
            && c.retransmissions == Tcp.Resent(run, truth)
            && c.lastSeen == Last(run).now
            && Tcp.Deserves(c.quality, Tcp.Resent(run, truth), Tcp.Fins(run), Tcp.Resets(run))
  {
    hide R.Run, Segments, Tcp.Seen;
    ConnEntry(wall, file, k);
    Tcp.TracksTrueMaximum(Segments(wall, file, k), truth, 0);
  }

  // The segments a connection has been given when a close comes: those before the packet
  // that brings the close about, and the one it may carry itself.
  ghost function SegmentsAtClose(wall: Time, file: seq<R.PcapPacket>, k: Key): seq<Tcp.Arrival>
    requires R.ValidFile(file) && file != []
  {
    Segments(wall, Front(file), k) +
    SegmentFor(R.Run(wall, Front(file)).capture, Last(file), k, R.Run(wall, file).lastNow)
  }

  // When a report is due at this packet.
  ghost predicate ClosesWith(wall: Time, file: seq<R.PcapPacket>)
    requires R.ValidFile(file)
  {
    file != [] && Last(file).eth.Some? && R.Reports(R.Run(wall, Front(file)).report, Last(file).sec)
  }

  lemma ConnKept(c: Capture, now: Time, k: Key)
    requires k in c.tcp
    ensures k in Closed(c, now).tcp <==>
              now < c.tcp[k].lastSeen + 20 * SECOND && c.tcp[k].quality != Tcp.Terminated
  {
    ClosedConns(c, now);
  }

  lemma {:induction false} ConnVerdict(run: seq<Tcp.Arrival>)
    requires run != []
    ensures var c := Tcp.Run(Tcp.NewConn(0), run);
            && c.lastSeen == Last(run).now && c.finPackets == Tcp.Fins(run) && c.rstPackets == Tcp.Resets(run)
            && (c.quality == Tcp.Terminated <==> Tcp.Resets(run) >= 1 || Tcp.Fins(run) >= 2)
  {
    hide Tcp.IsRetransmission;
    if |run| > 1 {
      ConnVerdict(Front(run));
    } else {
      assert Front(run) == [];
    }
  }

  // Every close within a replay removes a connection exactly when its last segment is
  // twenty seconds old or its segments had ended it, by a reset or two FINs.
  lemma ConnPrunedExactly(wall: Time, file: seq<R.PcapPacket>, k: Key)
    requires R.ValidFile(file) && ClosesWith(wall, file) && SegmentsAtClose(wall, file, k) != []
    ensures var run := SegmentsAtClose(wall, file, k);
            k in R.Run(wall, file).capture.tcp <==>
              && R.Run(wall, file).lastNow < Last(run).now + 20 * SECOND
              && Tcp.Resets(run) == 0 && Tcp.Fins(run) <= 1
  {
    hide R.Step, Closed, Processed, WellFormed, ValidFrame, Tcp.Run, SegmentFor, ConnsAfter, Segments;
    var l, p, now := R.Run(wall, Front(file)), Last(file), R.Run(wall, file).lastNow;
    R.StepInParts(l, p, wall);
    ConnEntry(wall, Front(file), k);
    ProcessedConns(l.capture, p.eth.value, now);
    FrameConn(l.capture, p, k, Segments(wall, Front(file), k), now);
    ConnVerdict(SegmentsAtClose(wall, file, k));
    ConnKept(Processed(l.capture, p.eth.value, now), now, k);
  }

  // ---- AVTP streams ---------------------------------------------------------

  function AvtpAfter(a: Avb, f: Frame, now: Time): map<StreamId, Avtp.AvtpStream> {
    if f.AvtpFrame? then AvtpHandled(a, f, now).streams else a.streams
  }

  lemma ProcessedAvtp(c: Capture, p: Packet, now: Time)
    requires WellFormed(c) && ValidFrame(p.frame)
    ensures Processed(c, p, now).avb.streams == AvtpAfter(c.avb, p.frame, now)
  {
    hide Handled, WellFormed, ValidFrame, AvtpHandled;
    var counted := c.(traffic := c.traffic.(dispatched := c.traffic.dispatched + 1));
    SameStreamsWellFormed(c, counted);
    EntriesUntouched(counted, p.frame, now);
    HandledAvtp(counted, p.frame, now);
  }

  lemma HandledAvtp(c: Capture, f: Frame, now: Time)
    requires WellFormed(c) && ValidFrame(f)
    ensures f.AvtpFrame? ==> Handled(c, f, now).avb.streams == AvtpAfter(c.avb, f, now)
  {
    hide AvtpHandled, WellFormed, ValidFrame;
  }

  lemma ClosedAvtp(c: Capture, now: Time)
    ensures Closed(c, now).avb.streams == LiveAvtp(c.avb.streams, now)
  {
    hide Score, LiveAvtp;
  }

  function RecordFor(a: Avb, p: R.PcapPacket, sid: StreamId, now: Time): seq<Avtp.Record> {
    if p.eth.Some? && p.eth.value.frame.AvtpFrame? && p.eth.value.frame.sid == sid then
      var f := p.eth.value.frame;
      [Avtp.Record(f.sn, f.pcp, if sid in a.msrp then a.msrp[sid].priority else None, now)]
    else []
  }

  // The frames of a present AVTP stream since its entry was created, each with the
  // priority its reservation declared at that time.
  ghost function Records(wall: Time, file: seq<R.PcapPacket>, sid: StreamId): seq<Avtp.Record>
    requires R.ValidFile(file)
  {
    if file == [] || sid !in R.Run(wall, file).capture.avb.streams then []
    else
      Records(wall, Front(file), sid) +
      RecordFor(R.Run(wall, Front(file)).capture.avb, Last(file), sid, R.Run(wall, file).lastNow)
  }

  ghost predicate AvtpIs(streams: map<StreamId, Avtp.AvtpStream>, sid: StreamId, run: seq<Avtp.Record>) {
    if sid in streams then run != [] && streams[sid] == Avtp.SeenAll(Avtp.NewAvtp(0), run) else run == []
  }

  lemma MoreRecords(run: seq<Avtp.Record>, r: Avtp.Record)
    ensures Avtp.SeenAll(Avtp.NewAvtp(0), run + [r])
         == Avtp.FrameSeen(if run == [] then Avtp.NewAvtp(r.now) else Avtp.SeenAll(Avtp.NewAvtp(0), run),
                           r.sn, r.pcp, r.declared, r.now)
  {
    assert Front(run + [r]) == run && Last(run + [r]) == r;
  }

  lemma FrameAvtp(a: Avb, p: R.PcapPacket, sid: StreamId, run: seq<Avtp.Record>, now: Time)
    requires p.eth.Some? && AvtpIs(a.streams, sid, run)
    ensures AvtpIs(AvtpAfter(a, p.eth.value.frame, now), sid, run + RecordFor(a, p, sid, now))
  {
    hide Avtp.FrameSeen, Avtp.SeenAll, Avtp.NewAvtp;
    var more := RecordFor(a, p, sid, now);
    if more == [] {
      assert run + more == run;
    } else {
      MoreRecords(run, more[0]);
      assert more == [more[0]];
    }
  }

  lemma StepAvtp(l: R.Loop, p: R.PcapPacket, wall: Time, sid: StreamId, run: seq<Avtp.Record>)
    requires WellFormed(l.capture) && (p.eth.Some? ==> ValidFrame(p.eth.value.frame))
    requires AvtpIs(l.capture.avb.streams, sid, run)
    ensures var next := R.Step(l, p, wall);
            AvtpIs(next.capture.avb.streams, sid,
                   if sid in next.capture.avb.streams then run + RecordFor(l.capture.avb, p, sid, next.lastNow) else [])
  {
    hide R.Step, Processed, Closed, WellFormed, ValidFrame, Avtp.SeenAll, AvtpAfter;
    R.StepInParts(l, p, wall);
    var next := R.Step(l, p, wall);
    if p.eth.Some? {
      var processed := Processed(l.capture, p.eth.value, next.lastNow);
      ProcessedAvtp(l.capture, p.eth.value, next.lastNow);
      FrameAvtp(l.capture.avb, p, sid, run, next.lastNow);
      ClosedAvtp(processed, next.lastNow);
    } else {
      assert run + RecordFor(l.capture.avb, p, sid, next.lastNow) == run;
    }
  }

  lemma {:induction false} AvtpEntry(wall: Time, file: seq<R.PcapPacket>, sid: StreamId)
    requires R.ValidFile(file)
    ensures AvtpIs(R.Run(wall, file).capture.avb.streams, sid, Records(wall, file, sid))
  {
    hide R.Step, WellFormed, ValidFrame, AvtpIs, RecordFor;
    if file == [] {
      NoAvtp(sid);
    } else {
      AvtpEntry(wall, Front(file), sid);
      StepAvtp(R.Run(wall, Front(file)), Last(file), wall, sid, Records(wall, Front(file), sid));
    }
  }

  lemma NoAvtp(sid: StreamId)
    ensures AvtpIs(map[], sid, [])
  {}

  // A present AVTP stream counts its frames, the forward gaps of their true positions,
  // exactly the frames that never arrived on regular runs and no others, and the frames
  // whose priority differed from the one declared when they came.
  lemma ReplayCountsAvtpFrames(wall: Time, file: seq<R.PcapPacket>, sid: StreamId, truth: seq<int>)
    requires R.ValidFile(file) && sid in R.Run(wall, file).capture.avb.streams
    requires var sns := Avtp.Sns(Records(wall, file, sid));
             sns != [] && |sns| == |truth| && forall i :: 0 <= i < |sns| ==> sns[i] == Wrap(truth[i], M8)
    requires SequenceLoss.Faithful(truth, M8)
    ensures var s, run := R.Run(wall, file).capture.avb.streams[sid], Records(wall, file, sid);
            && s.packets == |run| && s.pcpViolations == Avtp.Mismatches(run) && s.lastSeen == Last(run).now
            && s.lostFrames == SequenceLoss.ForwardGaps(truth)
            && (s.lostFrames == |SequenceLoss.Missing(truth)| <==> SequenceLoss.Regular(truth))
  {
    hide R.Run, Records, Avtp.FrameSeen;
    AvtpEntry(wall, file, sid);
    Avtp.SeenAllCounts(Records(wall, file, sid), 0);
    Avtp.LossOfFrames(Avtp.NewAvtp(0), Avtp.Sns(Records(wall, file, sid)), truth);
  }

  ghost function RecordsAtClose(wall: Time, file: seq<R.PcapPacket>, sid: StreamId): seq<Avtp.Record>
    requires R.ValidFile(file) && file != []
  {
    Records(wall, Front(file), sid) +
    RecordFor(R.Run(wall, Front(file)).capture.avb, Last(file), sid, R.Run(wall, file).lastNow)
  }

  lemma AvtpKept(c: Capture, now: Time, sid: StreamId)
    requires sid in c.avb.streams
    ensures sid in Closed(c, now).avb.streams <==> now < c.avb.streams[sid].lastSeen + 20 * SECOND
  {
    ClosedAvtp(c, now);
  }

  // Every close within a replay removes an AVTP stream exactly when its last frame is
  // twenty seconds old.
  lemma AvtpPrunedExactly(wall: Time, file: seq<R.PcapPacket>, sid: StreamId)
    requires R.ValidFile(file) && ClosesWith(wall, file) && RecordsAtClose(wall, file, sid) != []
    ensures sid in R.Run(wall, file).capture.avb.streams <==>
              R.Run(wall, file).lastNow < Last(RecordsAtClose(wall, file, sid)).now + 20 * SECOND
  {
    hide R.Step, Closed, Processed, WellFormed, ValidFrame, Avtp.SeenAll, RecordFor, AvtpAfter, Records;
    var l, p, now := R.Run(wall, Front(file)), Last(file), R.Run(wall, file).lastNow;
    R.StepInParts(l, p, wall);
    AvtpEntry(wall, Front(file), sid);
    ProcessedAvtp(l.capture, p.eth.value, now);
    FrameAvtp(l.capture.avb, p, sid, Records(wall, Front(file), sid), now);
    Avtp.SeenAllCounts(RecordsAtClose(wall, file, sid), 0);
    AvtpKept(Processed(l.capture, p.eth.value, now), now, sid);
  }

  // ---- Clock domains --------------------------------------------------------

  function DomainsAfter(p: PtpView, f: Frame, now: Time): map<DomainKey, Ptp.Domain> {
    if f.PtpFrame? then PtpHandled(p, f.info, now).domains else p.domains
  }

  lemma ProcessedDomains(c: Capture, p: Packet, now: Time)
    requires WellFormed(c) && ValidFrame(p.frame)
    ensures Processed(c, p, now).ptp.domains == DomainsAfter(c.ptp, p.frame, now)
  {
    hide Handled, WellFormed, ValidFrame, PtpHandled;
    var counted := c.(traffic := c.traffic.(dispatched := c.traffic.dispatched + 1));
    SameStreamsWellFormed(c, counted);
    EntriesUntouched(counted, p.frame, now);
    HandledDomains(counted, p.frame, now);
  }

  lemma HandledDomains(c: Capture, f: Frame, now: Time)
    requires WellFormed(c) && ValidFrame(f)
    ensures f.PtpFrame? ==> Handled(c, f, now).ptp.domains == DomainsAfter(c.ptp, f, now)
  {
    hide PtpHandled, WellFormed, ValidFrame;
  }

  lemma ClosedDomains(c: Capture, now: Time)
    ensures Closed(c, now).ptp.domains == PtpReset(c.ptp.(domains := TimeoutsChecked(c.ptp.domains, now)), now).domains
  {
    hide Score, TimeoutsChecked;
  }

  function MessageFor(p: R.PcapPacket, k: DomainKey, now: Time): seq<Ptp.Step> {
    if p.eth.Some? && p.eth.value.frame.PtpFrame?
       && (p.eth.value.frame.info.domain, p.eth.value.frame.info.version) == k
    then [Ptp.Message(p.eth.value.frame.info, p.eth.value.frame.info.protocolKind, now)] else []
  }

  // A known domain is checked and its sender census cleared at every close.
  function CloseSteps(steps: seq<Ptp.Step>, closes: bool, now: Time): seq<Ptp.Step> {
    if closes && steps != [] then steps + [Ptp.Check(now)] + [Ptp.Reset] else steps
  }

  // All that happened to a domain: the messages for its key and the closes.
  ghost function Steps(wall: Time, file: seq<R.PcapPacket>, k: DomainKey): seq<Ptp.Step>
    requires R.ValidFile(file)
  {
    if file == [] then []
    else
      var l, now := R.Run(wall, Front(file)), R.Run(wall, file).lastNow;
      CloseSteps(Steps(wall, Front(file), k) + MessageFor(Last(file), k, now),
                 Last(file).eth.Some? && R.Reports(l.report, Last(file).sec), now)
  }

  ghost predicate DomainIs(domains: map<DomainKey, Ptp.Domain>, k: DomainKey, steps: seq<Ptp.Step>) {
    if k in domains then steps != [] && domains[k] == Ptp.Run(Ptp.NewDomain(k.0, k.1, 0), steps) else steps == []
  }

  lemma MoreMessages(k: DomainKey, steps: seq<Ptp.Step>, m: Ptp.Step)
    requires m.Message?
    ensures Ptp.Run(Ptp.NewDomain(k.0, k.1, 0), steps + [m])
         == Ptp.Updated(if steps == [] then Ptp.NewDomain(k.0, k.1, m.now)
                        else Ptp.Run(Ptp.NewDomain(k.0, k.1, 0), steps), m.info, m.kind, m.now)
  {
    assert Front(steps + [m]) == steps && Last(steps + [m]) == m;
  }

  lemma FrameDomain(v: PtpView, p: R.PcapPacket, k: DomainKey, steps: seq<Ptp.Step>, now: Time)
    requires p.eth.Some? && DomainIs(v.domains, k, steps)
    ensures DomainIs(DomainsAfter(v, p.eth.value.frame, now), k, steps + MessageFor(p, k, now))
  {
    hide Ptp.Updated, Ptp.NewDomain, Ptp.Run;
    var more := MessageFor(p, k, now);
    if more == [] {
      assert steps + more == steps;
    } else {
      MoreMessages(k, steps, more[0]);
      assert more == [more[0]];
    }
  }

  lemma CloseDomain(c: Capture, k: DomainKey, steps: seq<Ptp.Step>, now: Time)
    requires DomainIs(c.ptp.domains, k, steps)
    ensures DomainIs(Closed(c, now).ptp.domains, k, CloseSteps(steps, true, now))
  {
    hide Closed, Ptp.TimeoutChecked, Ptp.SendersCleared, Ptp.NewDomain;
    ClosedDomains(c, now);
    if k in c.ptp.domains {
      var start, checked := Ptp.NewDomain(k.0, k.1, 0), steps + [Ptp.Check(now)];
      assert Front(checked) == steps && Last(checked) == Ptp.Check(now);
      assert Ptp.Run(start, checked) == Ptp.TimeoutChecked(Ptp.Run(start, steps), now);
      assert Front(checked + [Ptp.Reset]) == checked && Last(checked + [Ptp.Reset]) == Ptp.Reset;
      assert Ptp.Run(start, checked + [Ptp.Reset]) == Ptp.SendersCleared(Ptp.Run(start, checked));
    }
  }

  lemma StepDomain(l: R.Loop, p: R.PcapPacket, wall: Time, k: DomainKey, steps: seq<Ptp.Step>)
    requires WellFormed(l.capture) && (p.eth.Some? ==> ValidFrame(p.eth.value.frame))
    requires DomainIs(l.capture.ptp.domains, k, steps)
    ensures var next := R.Step(l, p, wall);
            DomainIs(next.capture.ptp.domains, k,
                     CloseSteps(steps + MessageFor(p, k, next.lastNow),
                                p.eth.Some? && R.Reports(l.report, p.sec), next.lastNow))
  {
    hide R.Step, Processed, Closed, WellFormed, ValidFrame, DomainIs, DomainsAfter;
    R.StepInParts(l, p, wall);
    var next := R.Step(l, p, wall);
    if p.eth.Some? {
      var processed := Processed(l.capture, p.eth.value, next.lastNow);
      ProcessedDomains(l.capture, p.eth.value, next.lastNow);
      FrameDomain(l.capture.ptp, p, k, steps, next.lastNow);
      CloseDomain(processed, k, steps + MessageFor(p, k, next.lastNow), next.lastNow);
    } else {
      assert steps + MessageFor(p, k, next.lastNow) == steps;
    }
  }

  lemma {:induction false} DomainEntry(wall: Time, file: seq<R.PcapPacket>, k: DomainKey)
    requires R.ValidFile(file)
    ensures DomainIs(R.Run(wall, file).capture.ptp.domains, k, Steps(wall, file, k))
  {
    hide R.Step, WellFormed, ValidFrame, DomainIs, MessageFor, CloseSteps;
    if file == [] {
      NoDomain(k);
    } else {
      DomainEntry(wall, Front(file), k);
      StepDomain(R.Run(wall, Front(file)), Last(file), wall, k, Steps(wall, Front(file), k));
    }
  }

  lemma NoDomain(k: DomainKey)
    ensures DomainIs(map[], k, [])
  {}

  // In any replay every clock domain lives the life cycle: its events are a prefix of
  // (Detected Changed* ClockLost)*, its clock is valid exactly while the last of them is
  // not a loss, and its changes, delay extremes, kind, grandmaster address and Sync
  // senders are those of its own messages.
  lemma ReplayDomainLifeCycle(wall: Time, file: seq<R.PcapPacket>, k: DomainKey)
    requires R.ValidFile(file) && k in R.Run(wall, file).capture.ptp.domains
    ensures var d, steps := R.Run(wall, file).capture.ptp.domains[k], Steps(wall, file, k);
            var start := Ptp.NewDomain(k.0, k.1, 0);
            var trace := Ptp.Trace(start, steps);
            && Ptp.LifeCycle(trace)
            && (d.gm.valid <==> Ptp.ClockUp(trace)) && (d.gm.lost <==> trace != [] && !Ptp.ClockUp(trace))
            && d.gm.changes == Ptp.Changes(trace)
            && Ptp.LastMessage(steps) == Some(d.lastSeen)
            && Ptp.Extremes(Ptp.DelaysSinceChange(start, steps), d.delay.min, d.delay.max)
            && d.packets == |Ptp.Messages(steps)|
            && Ptp.LastWith(steps, Ptp.KindOf()) == Some(d.protocolKind)
            && d.src.grandmasterSrcIp == Ptp.LastWith(steps, Ptp.AnnouncedFrom())
            && (forall ip :: ip in d.src.syncSenders <==> Ptp.SenderStratum(steps, ip).Some?)
            && (forall ip :: ip in d.src.syncSenders ==>
                  d.src.syncSenders[ip] == Ptp.SenderStratum(steps, ip).value)
  {
    hide R.Run, Steps, Ptp.Run, Ptp.Trace, Ptp.LifeCycle, Ptp.DelaysSinceChange, Ptp.LastWith, Ptp.SenderStratum;
    DomainEntry(wall, file, k);
    var steps := Steps(wall, file, k);
    Ptp.GrandmasterLifeCycle(k.0, k.1, 0, steps);
    Ptp.LastSeenIsLastMessage(k.0, k.1, 0, steps);
    Ptp.DelayExtremesAreExact(k.0, k.1, 0, steps);
    Ptp.RemembersLastMessages(k.0, k.1, 0, steps);
    Ptp.KindOfHeard(steps);
    forall ip {
      Ptp.CensusOfSenders(k.0, k.1, 0, steps, ip);
    }
    StepsHaveMessage(wall, file, k);
  }

  lemma {:induction false} StepsHaveMessage(wall: Time, file: seq<R.PcapPacket>, k: DomainKey)
    requires R.ValidFile(file)
    ensures Steps(wall, file, k) != [] ==> Ptp.LastMessage(Steps(wall, file, k)).Some?
  {
    hide R.Run, R.Reports;
    if file != [] {
      StepsHaveMessage(wall, Front(file), k);
      var before, now := Steps(wall, Front(file), k), R.Run(wall, file).lastNow;
      MessageKept(before, MessageFor(Last(file), k, now), now);
    }
  }

  lemma MessageKept(before: seq<Ptp.Step>, more: seq<Ptp.Step>, now: Time)
    requires before != [] ==> Ptp.LastMessage(before).Some?
    requires more == [] || (|more| == 1 && more[0].Message?)
    ensures var heard := before + more;
            heard != [] ==> Ptp.LastMessage(heard).Some?
                            && Ptp.LastMessage(heard + [Ptp.Check(now)] + [Ptp.Reset]).Some?
  {
    var heard := before + more;
    if more == [] {
      assert heard == before;
    } else {
      assert Last(heard) == more[0];
    }
    var checked := heard + [Ptp.Check(now)];
    assert Front(checked) == heard && Front(checked + [Ptp.Reset]) == checked;
  }
}
