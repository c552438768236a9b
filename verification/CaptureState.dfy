// The capture state as the source keeps it: maps, counters and substates that the packet
// handlers and the close of a window change in place, and the replay loop that drives
// them. Every method is proved against the functions on the value.
module CaptureState {
  import opened Alerts
  import opened Basics
  import opened Capture
  import opened Frames
  import opened FrameLaws
  import opened Scoring
  import opened Streams
  import opened Substates
  import opened Sums
  import opened Wrapping
  import Avtp
  import Dante
  import Ptp
  import L = RunLaws
  import R = Replay
  import Tcp

  // The order in which a hash map happens to yield its keys.
  method AnyOrder<K(==)>(keys: set<K>) returns (order: seq<K>)
    ensures Enumerates(order, keys)
  {
    order := [];
    var todo := keys;
    while todo != {}
      invariant todo <= keys && Enumerates(order, keys - todo)
      decreases |todo|
    {
      var k :| k in todo;
      assert forall j :: j in order ==> j in (set x | x in order);
      assert (set x | x in order + [k]) == (set x | x in order) + {k};
      order, todo := order + [k], todo - {k};
    }
  }

  // The same frame, but for the entry that the map evicted.
  ghost predicate SameButVictim(f: Frame, g: Frame) {
    match f
    case DanteFrame(e, _) => g.DanteFrame? && g.e == e
    case NdiDiscovery(ip, _) => g.NdiDiscovery? && g.ip == ip
    case SapFrame(session, _) => g.SapFrame? && g.session == session
    case _ => g == f
  }

  ghost predicate SameFile(file: seq<R.PcapPacket>, taken: seq<R.PcapPacket>) {
    && |file| == |taken|
    && forall i :: 0 <= i < |file| ==>
         && file[i].sec == taken[i].sec && file[i].usec == taken[i].usec
         && (file[i].eth.Some? <==> taken[i].eth.Some?)
         && (file[i].eth.Some? ==>
               && SameButVictim(file[i].eth.value.frame, taken[i].eth.value.frame)
               && taken[i].eth.value == file[i].eth.value.(frame := taken[i].eth.value.frame))
  }

  // ---- What the later checks do not read -------------------------------------

  // The timeout check writes only the grandmaster record of a domain.
  lemma TimeoutWritesClockOnly(domains: map<DomainKey, Ptp.Domain>, now: Time)
    ensures var seen := TimeoutsChecked(domains, now);
            && seen.Keys == domains.Keys
            && forall k :: k in domains ==>
                 seen[k].src == domains[k].src && seen[k].packets == domains[k].packets
                 && seen[k].version == domains[k].version && seen[k].domain == domains[k].domain
  {}

  lemma ChoiceIgnoresTimeouts(p: PtpView, now: Time, gm: Option<Ip>)
    ensures GrandmasterChoice(p.(domains := TimeoutsChecked(p.domains, now)), gm) <==> GrandmasterChoice(p, gm)
  {
    hide TimeoutsChecked;
    TimeoutWritesClockOnly(p.domains, now);
    var seen := TimeoutsChecked(p.domains, now);
    if k :| k in p.domains && k.1 == Ptp.VERSION_V1 && p.domains[k].src.grandmasterSrcIp == gm {
      assert k in seen && seen[k].src.grandmasterSrcIp == gm;
    }
  }

  lemma SameFollowersSameCensus(d: Dante.Dante, p: PtpView, q: PtpView, gm: Option<Ip>)
    requires p.followers == q.followers
    ensures NotFollowing(d, p, gm) == NotFollowing(d, q, gm)
  {}

  lemma CensusIgnoresTimeouts(d: Dante.Dante, p: PtpView, now: Time, gm: Option<Ip>)
    ensures FollowerAlerts(d, p.(domains := TimeoutsChecked(p.domains, now)), gm) == FollowerAlerts(d, p, gm)
  {
    hide TimeoutsChecked, NotFollowing;
    TimeoutWritesClockOnly(p.domains, now);
    var seen := p.(domains := TimeoutsChecked(p.domains, now));
    SameFollowersSameCensus(d, seen, p, gm);
    if k :| k in p.domains && k.1 == Ptp.VERSION_V1 {
      assert k in seen.domains;
    }
  }

  lemma SyncIgnoresTimeouts(domains: map<DomainKey, Ptp.Domain>, now: Time)
    ensures SyncAlerts(TimeoutsChecked(domains, now)) == SyncAlerts(domains)
  {
    hide TimeoutsChecked;
    TimeoutWritesClockOnly(domains, now);
    var seen := TimeoutsChecked(domains, now);
    forall k | k in domains
      ensures SyncConflict(seen[k]) == SyncConflict(domains[k]) && SyncAlert(seen[k]) == SyncAlert(domains[k])
    {}
  }

  // The state some way through the checks: clocks checked, flags raised, nothing else.
  ghost predicate Midway(c: Capture, d: Capture, now: Time) {
    && d.streams == c.streams && d.tcp == c.tcp && d.avb == c.avb && d.dante == c.dante && d.igmp == c.igmp
    && d.eee == c.eee && d.traffic == c.traffic
    && d.health.(multipleQueriers := c.health.multipleQueriers) == c.health
    && d.ptp == c.ptp.(domains := TimeoutsChecked(c.ptp.domains, now))
  }

  lemma ChecksMidway(c: Capture, d: Capture, offline: bool, now: Time)
    requires Midway(c, d, now)
    ensures IntervalAlerts(d.health) == IntervalAlerts(c.health)
    ensures BandwidthAlerts(d) == BandwidthAlerts(c)
    ensures SnoopingAlerts(d, offline) == SnoopingAlerts(c, offline)
    ensures d.suspectCycles == c.suspectCycles ==>
              SuspectCycles(d) == SuspectCycles(c) && FilterAlerts(d) == FilterAlerts(c)
    ensures StreamCount(d) == StreamCount(c)
    ensures d.countHistory == c.countHistory ==> SpikeAlerts(d) == SpikeAlerts(c)
  {
    hide TimeoutsChecked;
    TimeoutWritesClockOnly(c.ptp.domains, now);
    assert (forall k :: k in d.ptp.domains ==> d.ptp.domains[k].packets == 0) <==>
             (forall k :: k in c.ptp.domains ==> c.ptp.domains[k].packets == 0);
  }

  // The close clears the dropout flag and leaves the score alone.
  lemma CloseClearsFlag(c: Capture, score: real, flag: bool, now: Time)
    ensures WindowClosed(c.(score := score, dropoutCorrelated := flag), now) == WindowClosed(c, now).(score := score)
  {
    hide LiveStreams, LiveConns, SourceIps, Dante.WindowClosed, AvbReset, PtpReset, IgmpReset;
  }

  // Everything the missing-clock check reads.
  lemma MissingClocksReads(c: Capture, d: Capture, sel: Selection)
    requires d.streams == c.streams && d.ptp == c.ptp && d.avb == c.avb
    ensures MissingClocks(d, sel) == MissingClocks(c, sel)
  {
    hide HasClock, AnyProtocol, AnySt2110;
  }

  // ---- Entries updated in place ---------------------------------------------

  // The map owns the entry, so it is taken out, updated by its own methods and put back.
  method UpdateRtpMedia(entry: Stream, f: Frame, now: Time) returns (updated: Stream)
    requires f.MediaFrame? && ValidFrame(f) && entry.clock.hz > 0.0
    ensures updated == MediaSeen(entry, f, now)
  {
    hide Updated;
    var stats := new StreamStats.Of(entry);
    if !f.dscpOk {
      stats.marks := stats.marks.(dscpViolations := stats.marks.dscpViolations + 1);
    }
    stats.marks := PcpAdvised(stats.marks, f.pcp);
    if f.rtp.Some? {
      if stats.marks.expectedPt.Some? && stats.marks.expectedPt.value != f.payloadType {
        stats.marks := stats.marks.(ptMismatches := stats.marks.ptMismatches + 1);
      }
      stats.Update(f.rtp.value, now);
    }
    updated := stats.View();
  }

  method UpdateDanteAudio(entry: Stream, f: Frame, now: Time) returns (updated: Stream)
    requires f.DanteAudio? && ValidFrame(f) && entry.clock.hz > 0.0
    ensures updated == DanteAudioSeen(entry, f, now)
  {
    hide Updated, UpdatedNonRtp;
    var stats := new StreamStats.Of(entry);
    stats.transmitter.RecordTtl(f.ttl);
    if f.rtp.Some? {
      stats.Update(f.rtp.value, now);
    } else {
      stats.UpdateNonRtp(now);
    }
    if !f.dscpOk {
      stats.marks := stats.marks.(dscpViolations := stats.marks.dscpViolations + 1);
    }
    updated := stats.View();
  }

  function FailedTalkers(declarations: seq<(StreamId, Declaration)>): seq<(StreamId, Option<nat>)> {
    if declarations == [] then []
    else
      FailedTalkers(Front(declarations)) +
      if Last(declarations).1.declType.TalkerFailed? then [(Last(declarations).0, Last(declarations).1.failureCode)]
      else []
  }

  // Each failed talker is reported with its code in its place, and nothing else is.
  lemma {:induction false} FailuresInOrder(a: seq<(StreamId, Declaration)>, d: (StreamId, Declaration),
                                           b: seq<(StreamId, Declaration)>)
    ensures FailedTalkers(a + [d] + b)
         == FailedTalkers(a) + (if d.1.declType == TalkerFailed then [(d.0, d.1.failureCode)] else [])
            + FailedTalkers(b)
  {
    if b == [] {
      assert a + [d] + b == a + [d] && Front(a + [d]) == a;
    } else {
      FailuresInOrder(a, d, Front(b));
      assert Front(a + [d] + b) == a + [d] + Front(b);
    }
  }

  class CaptureState {
    var streams: map<Key, Stream>
    var tcp: map<Key, Tcp.Conn>
    var sdpCache: map<string, Session>
    var ndiSources: set<Ip>
    var eee: map<PortKey, (nat, nat)>
    var traffic: Traffic
    var suspectCycles: nat
    var countHistory: seq<nat>
    var dropoutCorrelated: bool
    const health: NetworkHealth
    const dante: Dante.DanteState
    const igmp: IgmpState
    const avb: AvbState
    const ptp: PtpState

    function View(): Capture
      reads this, health, dante, igmp, avb, ptp
    {
      Capture(streams, tcp, sdpCache, health.View(), health.networkScore, dante.View(), ndiSources,
              igmp.View(), avb.View(), ptp.View(), eee, traffic,
              suspectCycles, countHistory, dropoutCorrelated)
    }

    constructor ()
      ensures View() == NewCapture
      ensures fresh(health) && fresh(dante) && fresh(igmp) && fresh(avb) && fresh(ptp)
    {
      streams, tcp, sdpCache, ndiSources, eee := map[], map[], map[], {}, map[];
      traffic, suspectCycles, countHistory, dropoutCorrelated := NoTraffic, 0, [], false;
      health := new NetworkHealth();
      dante := new Dante.DanteState();
      igmp := new IgmpState();
      avb := new AvbState();
      ptp := new PtpState();
    }

    // ---- Closing a window ---------------------------------------------------

    method CheckStreamCountAnomaly() returns (alerts: seq<Alert>)
      modifies this`countHistory
      ensures alerts == SpikeAlerts(old(View()))
      ensures View() == old(View()).(countHistory := PushedCount(old(countHistory), StreamCount(old(View()))))
    {
      var current := |streams| + |tcp| + |avb.streams|;
      alerts := [];
      if |countHistory| == 3 {
        var average := (countHistory[0] + countHistory[1] + countHistory[2]) / 3;
        if average > 0 && current > average * 2 {
          alerts := [StreamCountSpike(current, average)];
        }
      }
      if |countHistory| == 3 {
        countHistory := countHistory[1..];
      }
      countHistory := countHistory + [current];
    }

    method CheckFilterUnregistered() returns (alerts: seq<Alert>)
      modifies this`suspectCycles
      ensures alerts == FilterAlerts(old(View()))
      ensures View() == old(View()).(suspectCycles := SuspectCycles(old(View())))
    {
      if FilterSuspected(View()) {
        suspectCycles := suspectCycles + 1;
      } else {
        suspectCycles := 0;
      }
      alerts := if suspectCycles >= 2 then [FilterUnregistered] else [];
    }

    // The timeout check, then the correlation that reads what it wrote.
    method CheckClocks(now: Time) returns (emission: seq<Alert>, ghost order: seq<DomainKey>)
      modifies this`dropoutCorrelated, ptp
      ensures Enumerates(order, old(ptp.domains).Keys) && forall k :: k in order ==> k in old(ptp.domains)
      ensures emission == ClockAlerts(old(View()), now, order)
      ensures ptp.View() == old(ptp.View()).(domains := TimeoutsChecked(old(ptp.domains), now))
      ensures dropoutCorrelated == (old(dropoutCorrelated)
                                    || DropoutCorrelated(TimeoutsChecked(old(ptp.domains), now), streams))
    {
      hide DropoutCorrelated, TimeoutsChecked, LostAlerts;
      var domainOrder := AnyOrder(ptp.domains.Keys);
      order := domainOrder;
      var lost := ptp.CheckTimeouts(domainOrder, now);
      if DropoutCorrelated(ptp.domains, streams) {
        dropoutCorrelated := true;
        emission := [ClockDropout];
      } else {
        emission := lost;
      }
    }

    // Whichever PTPv1 domain the map yields first.
    method GrandmasterAddress() returns (gm: Option<Ip>)
      ensures GrandmasterChoice(ptp.View(), gm)
    {
      var domains := ptp.domains;
      if k :| k in domains && k.1 == Ptp.VERSION_V1 && domains[k].src.grandmasterSrcIp.Some? {
        return domains[k].src.grandmasterSrcIp;
      }
      gm := None;
    }

    method CalculateScore(now: Time)
      modifies health`networkScore
      ensures View() == old(View()).(score := Score(old(health.View()), InputsOf(old(View()), now)))
    {
      hide Score;
      var inputs := InputsOf(View(), now);
      var streamOrder := AnyOrder(streams.Keys);
      var tcpOrder := AnyOrder(tcp.Keys);
      var ptpOrder := AnyOrder(ptp.domains.Keys);
      health.CalculateScore(inputs, Orders(streamOrder, tcpOrder, ptpOrder));
    }

    method ZeroCounters()
      modifies this`traffic, this`dropoutCorrelated, health
      ensures View() == old(View()).(traffic := NoTraffic, dropoutCorrelated := false,
                                     health := HealthReset(old(health.View())))
    {
      traffic := NoTraffic;
      health.ecnMarks := 0;
      health.tcpRetransmissions := 0;
      health.multipleQueriers := false;
      dropoutCorrelated := false;
    }

    method PruneStreams(now: Time)
      modifies this`streams, this`tcp
      ensures View() == old(View()).(streams := LiveStreams(old(streams), now), tcp := LiveConns(old(tcp), now))
    {
      streams := map k | k in streams && StreamLives(streams[k], now) :: WindowReset(streams[k]);
      tcp := map k | k in tcp && ConnLives(tcp[k], now) :: tcp[k];
      assert streams == LiveStreams(old(streams), now);
      assert tcp == LiveConns(old(tcp), now);
    }

    method ResetSubstates(now: Time)
      modifies dante, igmp, avb, ptp
      ensures avb.View() == AvbReset(old(avb.View()), now)
      ensures ptp.View() == PtpReset(old(ptp.View()), now)
      ensures dante.View() == Dante.WindowClosed(old(dante.View()), SourceIps(streams), now)
      ensures igmp.View() == IgmpReset(old(igmp.View()), now)
    {
      hide SourceIps, Dante.WindowClosed, AvbReset, PtpReset, IgmpReset;
      avb.ResetWindow(now);
      ptp.ResetWindow(now);
      dante.ResetWindow(SourceIps(streams), now);
      igmp.ResetWindow(now);
    }

    // Verified sources are those of the streams that survive, so streams go first.
    method ResetWindow(now: Time)
      modifies this, health, dante, igmp, avb, ptp
      ensures View() == WindowClosed(old(View()), now)
    {
      hide LiveStreams, LiveConns, SourceIps, Dante.WindowClosed, AvbReset, PtpReset, IgmpReset, HealthReset;
      ZeroCounters();
      PruneStreams(now);
      ResetSubstates(now);
    }

    // The alert-raising checks in the order of the source; they leave the state the
    // remaining checks and the score see.
    method CollectEmission(offline: bool, now: Time) returns (emission: seq<Alert>, ghost order: seq<DomainKey>)
      modifies this, health`multipleQueriers, ptp
      ensures Enumerates(order, old(ptp.domains).Keys) && forall k :: k in order ==> k in old(ptp.domains)
      ensures emission == Emission(old(View()), offline, now, order)
      ensures View() == Checked(old(View()), now).(dropoutCorrelated := dropoutCorrelated)
    {
      hide ClockAlerts, PushedCount, SpikeAlerts, FilterAlerts, SuspectCycles, IntervalAlerts, BandwidthAlerts;
      hide SnoopingAlerts, TimeoutsChecked, HasMulticast, QuerierConflict, StreamCount, VersionAlerts;
      hide DropoutCorrelated;
      ghost var was := View();
      var clocks, domainOrder := CheckClocks(now);
      order := domainOrder;
      emission := clocks;
      assert Midway(was, View(), now);
      ChecksMidway(was, View(), offline, now);
      var spikes := CheckStreamCountAnomaly();
      emission := emission + spikes;
      emission := emission + IntervalAlerts(health.View());
      var queriers := igmp.CheckMultipleQueriers(health, HasMulticast(streams));
      emission := emission + queriers;
      emission := emission + VersionAlerts(igmp.View());
      assert Midway(was, View(), now);
      ChecksMidway(was, View(), offline, now);
      var filtered := CheckFilterUnregistered();
      emission := emission + filtered;
      assert Midway(was, View(), now);
      ChecksMidway(was, View(), offline, now);
      emission := emission + BandwidthAlerts(View());
      emission := emission + SnoopingAlerts(View(), offline);
    }

    // The checks, then the score, then the snapshot, and the reset last.
    method EndOfWindow(sel: Selection, offline: bool, now: Time)
      returns (checks: WindowChecks, ghost order: seq<DomainKey>, ghost gm: Option<Ip>)
      modifies this, health, dante, igmp, avb, ptp
      ensures Enumerates(order, old(ptp.domains).Keys) && forall k :: k in order ==> k in old(ptp.domains)
      ensures GrandmasterChoice(old(ptp.View()), gm)
      ensures checks == ChecksOf(old(View()), sel, offline, now, order, gm)
      ensures View() == Closed(old(View()), now)
    {
      hide Emission, IpConfigAlerts, BridgeAlerts, FollowerAlerts, SyncAlerts, Dante.Unverified, MissingClocks;
      hide WindowClosed, TimeoutsChecked, GrandmasterChoice, Score, SuspectCycles, PushedCount, StreamCount;
      hide HasMulticast, QuerierConflict;
      ghost var was := View();
      var emission, domainOrder := CollectEmission(offline, now);
      order := domainOrder;
      var gmAddress := GrandmasterAddress();
      gm := gmAddress;
      ChoiceIgnoresTimeouts(was.ptp, now, gm);
      CensusIgnoresTimeouts(was.dante, was.ptp, now, gm);
      SyncIgnoresTimeouts(was.ptp.domains, now);
      var ipConfig, bridge := IpConfigAlerts(dante.View()), BridgeAlerts(dante.View());
      var census, sync := FollowerAlerts(dante.View(), ptp.View(), gmAddress), SyncAlerts(ptp.domains);
      var unverified := Dante.Unverified(dante.View());
      CalculateScore(now);
      var missing := MissingClocks(View(), sel);
      MissingClocksReads(Checked(was, now), View(), sel);
      checks := WindowChecks(emission, ipConfig, bridge, census, sync, unverified, missing, traffic);
      assert View() == Checked(was, now).(score := View().score, dropoutCorrelated := dropoutCorrelated);
      CloseClearsFlag(Checked(was, now), View().score, dropoutCorrelated, now);
      ResetWindow(now);
    }

    // ---- Handlers -----------------------------------------------------------

    method HandleMedia(f: Frame, now: Time)
      requires f.MediaFrame? && ValidFrame(f) && StreamOr(View(), f.key, f.created).clock.hz > 0.0
      modifies this`streams, health`ecnMarks
      ensures View() == old(View()).(
                streams := old(streams)[f.key := MediaSeen(StreamOr(old(View()), f.key, f.created), f, now)],
                health := EcnMarked(old(health.View()), f.ecn))
    {
      hide MediaSeen;
      if f.ecn == ECN_CE {
        health.ecnMarks := health.ecnMarks + 1;
      }
      var stats := if f.key in streams then streams[f.key] else f.created;
      stats := UpdateRtpMedia(stats, f, now);
      streams := streams[f.key := stats];
    }

    method HandleDanteAudio(f: Frame, now: Time)
      requires f.DanteAudio? && ValidFrame(f) && StreamOr(View(), f.key, f.created).clock.hz > 0.0
      modifies this`streams, health`ecnMarks
      ensures View() == old(View()).(
                streams := old(streams)[f.key := DanteAudioSeen(StreamOr(old(View()), f.key, f.created), f, now)],
                health := EcnMarked(old(health.View()), f.ecn))
    {
      hide DanteAudioSeen;
      if f.ecn == ECN_CE {
        health.ecnMarks := health.ecnMarks + 1;
      }
      var stats := if f.key in streams then streams[f.key] else f.created;
      stats := UpdateDanteAudio(stats, f, now);
      streams := streams[f.key := stats];
    }

    // Presence and packet count of the sender; it never touches the RTP fields.
    method CountNdiPacket(sender: Ip, now: Time)
      modifies this`streams
      ensures streams == NdiHeard(old(View()), sender, now)
    {
      var key := NdiSender(sender);
      var stats := if key in streams then streams[key] else NewStream(Ndi, 0.0, false, sender, 0);
      stats := stats.(count := stats.count.(packets := stats.count.packets + 1));
      stats := stats.(arrive := stats.arrive.(lastPacketTime := Some(now)));
      streams := streams[key := stats];
    }

    method CountSegment(key: Key, segment: Tcp.Segment, now: Time)
      requires segment.sn < M32
      modifies this`tcp, health`tcpRetransmissions
      ensures var conn := if key in old(tcp) then old(tcp)[key] else Tcp.NewConn(now);
              && tcp == old(tcp)[key := Tcp.Seen(conn, segment, now)]
              && health.tcpRetransmissions == old(health.tcpRetransmissions) + Tcp.HealthMarks(conn, segment)
    {
      hide Tcp.Seen, Tcp.HealthMarks;
      var conn := if key in tcp then tcp[key] else Tcp.NewConn(now);
      var stats := new Tcp.TcpStreamStats.Of(conn);
      var marks := stats.HandleSegment(segment, now);
      health.tcpRetransmissions := health.tcpRetransmissions + marks;
      tcp := tcp[key := stats.View()];
    }

    method HandleTcp(f: Frame, now: Time)
      requires f.TcpFrame? && f.segment.sn < M32
      modifies this`streams, this`tcp, health`tcpRetransmissions
      ensures View() == TcpHandled(old(View()), f, now)
    {
      hide Tcp.Seen, Tcp.HealthMarks, NdiHeard, IsNdi, NdiSenderOf, Tcp.NewConn;
      if !IsNdi(View(), f) {
        return;
      }
      var sender := NdiSenderOf(View(), f);
      if sender.Some? {
        CountNdiPacket(sender.value, now);
      }
      CountSegment(f.conn, f.segment, now);
    }

    // Every media section enriches every stream it announces.
    method EnrichStreams(media: seq<SdpMedia>)
      modifies this`streams
      ensures streams == EnrichedAll(old(streams), media)
    {
      hide SdpApplied, Announces;
      for i := 0 to |media|
        invariant streams == EnrichedAll(old(streams), media[..i])
      {
        var m := media[i];
        assert Front(media[..i + 1]) == media[..i];
        streams := map k | k in streams :: if Announces(m, streams[k]) then SdpApplied(streams[k], m) else streams[k];
        assert streams == EnrichedAll(old(streams), media[..i + 1]);
      }
      assert media[..|media|] == media;
    }

    method HandleSap(session: Session) returns (ghost stale: string)
      modifies this`streams, this`sdpCache
      ensures var enriched := old(View()).(streams := EnrichedAll(old(streams), session.media));
              && MayDropSession(enriched, session, stale)
              && View() == enriched.(sdpCache := SdpCached(enriched, session, stale))
    {
      hide EnrichedAll, MayDropSession, SdpCached;
      EnrichStreams(session.media);
      stale := CacheSdp(session);
    }

    method CacheSdp(session: Session) returns (ghost stale: string)
      modifies this`sdpCache
      ensures MayDropSession(old(View()), session, stale)
      ensures View() == old(View()).(sdpCache := SdpCached(old(View()), session, stale))
    {
      hide SessionLive;
      stale := "";
      if session.id !in sdpCache && |sdpCache| >= MAX_SDP_SESSIONS {
        var victim: string;
        if id :| id in sdpCache && !SessionLive(sdpCache[id], streams) {
          victim := id;
        } else {
          assert |sdpCache.Keys| > 0;
          victim :| victim in sdpCache;
        }
        stale := victim;
        sdpCache := sdpCache - {victim};
      }
      sdpCache := sdpCache[session.id := session];
    }

    method HandleAvb(f: Frame, now: Time)
      requires f.AvtpFrame? && ValidFrame(f)
      modifies avb`streams
      ensures avb.View() == AvtpHandled(old(avb.View()), f, now)
    {
      hide Avtp.FrameSeen;
      var entry := if f.sid in avb.streams then avb.streams[f.sid] else Avtp.NewAvtp(now);
      var declared := if f.sid in avb.msrp then avb.msrp[f.sid].priority else None;
      var stats := new Avtp.AvtpStreamStats.Of(entry);
      stats.HandleFrame(f.sn, f.pcp, declared, now);
      avb.streams := avb.streams[f.sid := stats.View()];
    }

    // The event is what the caller alerts on.
    method HandlePtp(info: Ptp.PtpInfo, now: Time) returns (event: Option<Ptp.Event>)
      modifies ptp
      ensures ptp.View() == PtpHandled(old(ptp.View()), info, now)
      ensures event == Ptp.EventOf(DomainOr(old(ptp.View()), info, now).gm, info.grandmasterId)
    {
      hide Ptp.Updated;
      if info.version == Ptp.VERSION_V1 && info.messageType == Ptp.DELAY_REQ && info.srcIp.Some? {
        ptp.followers := ptp.followers[info.srcIp.value := now];
      }
      var key := (info.domain, info.version);
      var entry := if key in ptp.domains then ptp.domains[key] else Ptp.NewDomain(info.domain, info.version, now);
      var stats := new Ptp.PtpStats.Of(entry);
      event := stats.Update(info, info.protocolKind, now);
      ptp.domains := ptp.domains[key := stats.View()];
    }

    method HandleNdiDiscovery(ip: Ip) returns (ghost victim: Ip)
      modifies this`ndiSources
      ensures ip !in old(ndiSources) && |old(ndiSources)| >= Dante.MAX_SOURCES ==> victim in old(ndiSources)
      ensures View() == old(View()).(ndiSources := NdiRecorded(old(View()), ip, victim))
    {
      victim := 0;
      if ip !in ndiSources && |ndiSources| >= Dante.MAX_SOURCES {
        var v :| v in ndiSources && v != ip;
        victim := v;
        ndiSources := ndiSources - {v};
      }
      ndiSources := ndiSources + {ip};
    }

    // Every declaration is recorded; the failed ones, with their codes, are what the caller
    // alerts on.
    method HandleMsrp(declarations: seq<(StreamId, Declaration)>)
      returns (failed: seq<(StreamId, Option<nat>)>)
      modifies avb`msrp
      ensures avb.View() == old(avb.View()).(msrp := Declared(old(avb.msrp), declarations))
      ensures failed == FailedTalkers(declarations)
    {
      failed := [];
      for i := 0 to |declarations|
        invariant failed == FailedTalkers(declarations[..i])
        invariant avb.View() == old(avb.View()).(msrp := Declared(old(avb.msrp), declarations[..i]))
      {
        assert Front(declarations[..i + 1]) == declarations[..i];
        if declarations[i].1.declType.TalkerFailed? {
          failed := failed + [(declarations[i].0, declarations[i].1.failureCode)];
        }
        avb.msrp := avb.msrp[declarations[i].0 := declarations[i].1];
      }
      assert declarations[..|declarations|] == declarations;
    }

    method HandleQuery(f: Frame, now: Time)
      requires f.GeneralQuery?
      modifies health, igmp
      ensures View() == QueryHeard(old(View()), f, now)
    {
      if health.lastQuery.Some? {
        health.queryInterval := Some(WholeSecs(Since(now, health.lastQuery.value)));
      }
      health.lastQuery := Some(now);
      igmp.queriers := igmp.queriers + {f.src};
      igmp.querierVersion := Some(f.version);
    }

    method HandleAvbFrame(f: Frame, now: Time)
      requires WellFormed(View()) && ValidFrame(f) && TouchesAvb(f)
      modifies avb
      ensures avb.View() == Handled(old(View()), f, now).avb
    {
      hide AvtpHandled, Declared, WellFormed, ValidFrame;
      match f {
        case AvtpFrame(_, _, _) => HandleAvb(f, now);
        case MsrpFrame(declarations) => var _ := HandleMsrp(declarations);
        case MvrpFrame(vids) => avb.vlans := avb.vlans + set v | v in vids;
        case AdpAvailable(entity, valid, index) => avb.entities := avb.entities[entity := Entity(valid, index, now)];
        case AdpDeparting(entity) => avb.entities := avb.entities - {entity};
      }
    }

    method HandleIgmpReport(f: Frame, now: Time)
      requires WellFormed(View()) && ValidFrame(f) && TouchesIgmp(f)
      modifies igmp
      ensures igmp.View() == Handled(old(View()), f, now).igmp
    {
      hide WellFormed, ValidFrame;
      match f {
        case IgmpJoin(src, group) => igmp.joins := igmp.joins[(src, group) := now];
        case IgmpLeave(src, group) => igmp.joins := igmp.joins - {(src, group)};
        case IgmpV3Report => igmp.v3Report := true;
      }
    }

    method HandleLinkLayer(f: Frame, now: Time)
      requires WellFormed(View()) && ValidFrame(f) && (f.LldpEee? || f.FlowControl?)
      modifies this`eee, this`traffic
      ensures View() == Handled(old(View()), f, now)
    {
      hide WellFormed, ValidFrame;
      match f {
        case LldpEee(port, wake) => eee := eee[port := wake];
        case FlowControl(pfc) =>
          if pfc {
            traffic := traffic.(pfcFrames := traffic.pfcFrames + 1);
          } else {
            traffic := traffic.(pauseFrames := traffic.pauseFrames + 1);
          }
      }
    }

    // Frames of media streams and TCP connections.
    method HandleTraffic(f: Frame, now: Time)
      requires WellFormed(View()) && ValidFrame(f) && (f.MediaFrame? || f.DanteAudio? || f.TcpFrame?)
      modifies this`streams, this`tcp, health
      ensures View() == Handled(old(View()), f, now)
    {
      hide MediaSeen, DanteAudioSeen, EcnMarked, TcpHandled, WellFormed;
      if f.TcpFrame? {
        HandleTcp(f, now);
      } else {
        KnownStreamHasRate(View(), f);
        if f.MediaFrame? {
          HandleMedia(f, now);
        } else {
          HandleDanteAudio(f, now);
        }
      }
    }

    // Frames of one of the protocol-family substates.
    method HandleSubstate(f: Frame, now: Time)
      requires WellFormed(View()) && ValidFrame(f)
      requires TouchesAvb(f) || TouchesIgmp(f) || f.PtpFrame? || f.GeneralQuery?
      modifies health, igmp, avb, ptp
      ensures View() == Handled(old(View()), f, now)
    {
      hide Handled, WellFormed, ValidFrame, PtpHandled, QueryHeard, TouchesAvb, TouchesIgmp;
      HandlesOnePart(View(), f, now);
      if TouchesAvb(f) {
        HandleAvbFrame(f, now);
      } else if TouchesIgmp(f) {
        HandleIgmpReport(f, now);
      } else if f.PtpFrame? {
        var _ := HandlePtp(f.info, now);
      } else {
        HandleQuery(f, now);
      }
    }

    // Frames whose handling evicts nothing.
    method HandleInPlace(f: Frame, now: Time)
      requires WellFormed(View()) && ValidFrame(f) && !Evictable(f)
      modifies this`streams, this`tcp, this`eee, this`traffic, health, igmp, avb, ptp
      ensures View() == Handled(old(View()), f, now)
    {
      hide Handled, WellFormed, ValidFrame;
      HandlesOnePart(View(), f, now);
      if f.MediaFrame? || f.DanteAudio? || f.TcpFrame? {
        HandleTraffic(f, now);
      } else if f.LldpEee? || f.FlowControl? {
        HandleLinkLayer(f, now);
      } else if !f.Unmonitored? {
        HandleSubstate(f, now);
      }
    }

    // One selected frame; the frame taken names the entries its maps evicted.
    method Dispatch(f: Frame, now: Time) returns (ghost taken: Frame)
      requires WellFormed(View()) && ValidFrame(f)
      modifies this, health, dante, igmp, avb, ptp
      ensures SameButVictim(f, taken) && ValidFrame(taken) && LegalFrame(old(View()), taken)
      ensures View() == Handled(old(View()), taken, now)
    {
      hide Handled, WellFormed, EnrichedAll, MayDropSession, SdpCached, Dante.Handled, NdiRecorded, Dante.MayEvict;
      taken := f;
      if !Evictable(f) {
        HandleInPlace(f, now);
      } else if f.DanteFrame? {
        ghost var victim := dante.Handle(f.e, now);
        taken := DanteFrame(f.e, victim);
      } else if f.NdiDiscovery? {
        ghost var victim := HandleNdiDiscovery(f.ip);
        taken := NdiDiscovery(f.ip, victim);
      } else {
        ghost var stale := HandleSap(f.session);
        taken := SapFrame(f.session, stale);
      }
      HandlesEviction(old(View()), taken, now);
    }

    method ProcessPacket(p: Packet, now: Time) returns (ghost taken: Packet)
      requires WellFormed(View()) && ValidFrame(p.frame)
      modifies this, health, dante, igmp, avb, ptp
      ensures SameButVictim(p.frame, taken.frame) && taken == p.(frame := taken.frame) && ValidFrame(taken.frame)
      ensures LegalFrame(old(View()), taken.frame)
      ensures View() == Processed(old(View()), taken, now)
    {
      hide Handled, WellFormed, ValidFrame, SameButVictim, LegalFrame, L.Invariant;
      ghost var was := View();
      traffic := traffic.(dispatched := traffic.dispatched + 1);
      SameStreamsWellFormed(old(View()), View());
      ghost var frame := Dispatch(p.frame, now);
      L.CountersDoNotMatter(was, was.traffic.(dispatched := was.traffic.dispatched + 1), frame);
      taken := p.(frame := frame);
      traffic := traffic.(bytes := traffic.bytes + p.bytes);
      if p.multicastIp {
        traffic := traffic.(multicastBytes := traffic.multicastBytes + p.bytes);
      }
    }
  }

  predicate Evictable(f: Frame) {
    f.DanteFrame? || f.NdiDiscovery? || f.SapFrame?
  }

  lemma HandlesOnePart(c: Capture, f: Frame, now: Time)
    requires WellFormed(c) && ValidFrame(f)
    ensures TouchesAvb(f) ==> Handled(c, f, now) == c.(avb := Handled(c, f, now).avb)
    ensures TouchesIgmp(f) ==> Handled(c, f, now) == c.(igmp := Handled(c, f, now).igmp)
    ensures f.PtpFrame? ==> Handled(c, f, now) == c.(ptp := PtpHandled(c.ptp, f.info, now))
    ensures f.GeneralQuery? ==> Handled(c, f, now) == QueryHeard(c, f, now)
    ensures f.Unmonitored? ==> Handled(c, f, now) == c
  {
    hide AvtpHandled, Declared, PtpHandled, QueryHeard, MediaSeen, DanteAudioSeen, WellFormed;
  }

  lemma HandlesEviction(c: Capture, f: Frame, now: Time)
    requires WellFormed(c) && ValidFrame(f)
    ensures f.DanteFrame? ==> Handled(c, f, now) == c.(dante := Dante.Handled(c.dante, f.e, f.victim, now))
    ensures f.NdiDiscovery? ==> Handled(c, f, now) == c.(ndiSources := NdiRecorded(c, f.ip, f.victim))
    ensures f.SapFrame? ==>
              var enriched := c.(streams := EnrichedAll(c.streams, f.session.media));
              Handled(c, f, now) == enriched.(sdpCache := SdpCached(enriched, f.session, f.stale))
  {
    hide Dante.Handled, NdiRecorded, EnrichedAll, SdpCached, MediaSeen, DanteAudioSeen, WellFormed;
  }

  lemma KnownStreamHasRate(c: Capture, f: Frame)
    requires WellFormed(c) && ValidFrame(f) && (f.MediaFrame? || f.DanteAudio?)
    ensures StreamOr(c, f.key, f.created).clock.hz > 0.0
  {}

  // ---- The replay loop ------------------------------------------------------

  // What a report shows: the checks on the state its close started from, for whatever
  // order the maps yielded.
  ghost predicate ReportOf(checks: WindowChecks, r: R.CloseRecord, sel: Selection) {
    exists order: seq<DomainKey>, gm: Option<Ip> ::
      && Enumerates(order, r.before.ptp.domains.Keys) && (forall k :: k in order ==> k in r.before.ptp.domains)
      && GrandmasterChoice(r.before.ptp, gm)
      && checks == ChecksOf(r.before, sel, true, r.now, order, gm)
  }

  ghost predicate ReportsOf(reports: seq<WindowChecks>, closes: seq<R.CloseRecord>, sel: Selection) {
    && |reports| == |closes|
    && forall i :: 0 <= i < |reports| ==> ReportOf(reports[i], closes[i], sel)
  }

  method CloseWindow(state: CaptureState, sel: Selection, now: Time, reports: seq<WindowChecks>,
                     ghost closes: seq<R.CloseRecord>)
    returns (more: seq<WindowChecks>)
    requires ReportsOf(reports, closes, sel)
    modifies state, state.health, state.dante, state.igmp, state.avb, state.ptp
    ensures state.View() == Closed(old(state.View()), now)
    ensures ReportsOf(more, closes + [R.CloseRecord(now, old(state.View()), state.View())], sel)
  {
    hide Closed, ChecksOf, GrandmasterChoice, Enumerates, ReportOf;
    ghost var was := state.View();
    var checks, order, gm := state.EndOfWindow(sel, true, now);
    AnyReport(checks, R.CloseRecord(now, was, state.View()), sel, order, gm);
    more := reports + [checks];
  }

  lemma AnyReport(checks: WindowChecks, r: R.CloseRecord, sel: Selection, order: seq<DomainKey>, gm: Option<Ip>)
    requires Enumerates(order, r.before.ptp.domains.Keys) && (forall k :: k in order ==> k in r.before.ptp.domains)
    requires GrandmasterChoice(r.before.ptp, gm) && checks == ChecksOf(r.before, sel, true, r.now, order, gm)
    ensures ReportOf(checks, r, sel)
  {}

  // One packet of the file: the clock, the handlers, then the report decision.
  method ReplayPacket(state: CaptureState, clock: R.CaptureClock, report: R.OfflineReportClock, p: R.PcapPacket,
                      sel: Selection, wall: Time, reports: seq<WindowChecks>, ghost l: R.Loop)
    returns (now: Time, more: seq<WindowChecks>, ghost taken: R.PcapPacket)
    requires WellFormed(l.capture) && (p.eth.Some? ==> ValidFrame(p.eth.value.frame))
    requires state.View() == l.capture && report.View() == l.report && clock.anchor == l.anchor
    requires ReportsOf(reports, l.closes, sel)
    modifies state, state.health, state.dante, state.igmp, state.avb, state.ptp, clock, report
    ensures SameFile([p], [taken])
    ensures taken.eth.Some? ==> ValidFrame(taken.eth.value.frame) && LegalFrame(l.capture, taken.eth.value.frame)
    ensures var next := R.Step(l, taken, wall);
            && state.View() == next.capture && report.View() == next.report && clock.anchor == next.anchor
            && now == next.lastNow && ReportsOf(more, next.closes, sel)
  {
    hide Processed, Closed, WellFormed, ValidFrame, LegalFrame, ReportsOf, SameButVictim;
    now := clock.Now(true, p.sec, p.usec, wall);
    more, taken := reports, p;
    if p.eth.Some? {
      ghost var packet := state.ProcessPacket(p.eth.value, now);
      taken := p.(eth := Some(packet));
      var due := report.ShouldReport(p.sec);
      if due {
        more := CloseWindow(state, sel, now, reports, l.closes);
      }
    }
  }

  // Every packet of the file, then the close at its end; the exit status is the last score.
  method ReplayFile(state: CaptureState, file: seq<R.PcapPacket>, sel: Selection, wall: Time)
    returns (healthy: bool, reports: seq<WindowChecks>, ghost taken: seq<R.PcapPacket>)
    requires state.View() == NewCapture && R.ValidFile(file)
    modifies state, state.health, state.dante, state.igmp, state.avb, state.ptp
    ensures SameFile(file, taken) && R.ValidFile(taken) && L.LegalFile(wall, taken)
    ensures L.Invariant(state.View())
    ensures state.View() == R.Replayed(wall, taken).capture
    ensures ReportsOf(reports, R.Replayed(wall, taken).closes, sel)
    ensures healthy == (R.Replayed(wall, taken).capture.score >= 100.0)
  {
    hide Closed, WellFormed, ValidFrame, LegalFrame, ReportsOf, SameButVictim, R.Step, L.Invariant;
    var clock := new R.CaptureClock();
    var report := new R.OfflineReportClock();
    var lastNow := wall;
    reports, taken := [], [];
    NoReports(sel);
    for i := 0 to |file|
      invariant SameFile(file[..i], taken) && R.ValidFile(taken) && L.LegalFile(wall, taken)
      invariant var l := R.Run(wall, taken);
                && state.View() == l.capture && report.View() == l.report && clock.anchor == l.anchor
                && lastNow == l.lastNow && ReportsOf(reports, l.closes, sel)
    {
      ghost var l := R.Run(wall, taken);
      var now, more, packet := ReplayPacket(state, clock, report, file[i], sel, wall, reports, l);
      lastNow, reports := now, more;
      assert Front(taken + [packet]) == taken;
      assert file[..i + 1] == file[..i] + [file[i]];
      SameFileGrows(file[..i], taken, file[i], packet);
      taken := taken + [packet];
    }
    assert file[..|file|] == file;
    ghost var l := R.Run(wall, taken);
    L.ReplayKeepsInvariant(wall, taken);
    reports := CloseWindow(state, sel, lastNow, reports, l.closes);
    healthy := state.health.networkScore >= 100.0;
  }

  lemma NoReports(sel: Selection)
    ensures ReportsOf([], [], sel)
  {}

  lemma SameFileGrows(file: seq<R.PcapPacket>, taken: seq<R.PcapPacket>, p: R.PcapPacket, q: R.PcapPacket)
    requires SameFile(file, taken) && SameFile([p], [q])
    ensures SameFile(file + [p], taken + [q])
  {}
}
