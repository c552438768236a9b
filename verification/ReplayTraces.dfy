// What the smaller maps hold at any point of any replay. An entry is traced through the
// file by two rules of its own: what a packet makes of it, and whether a close keeps it.
module ReplayTraces {
  import opened Basics
  import opened Capture
  import opened FrameLaws
  import opened Frames
  import opened Scoring
  import opened Streams
  import opened Substates
  import opened Wrapping
  import Dante
  import Ptp
  import R = Replay
  import Tcp

  ghost function Get<K, V>(m: map<K, V>, k: K): Option<V> {
    if k in m then Some(m[k]) else None
  }

  // What a packet makes of an entry, given the state it meets.
  type Hearing<!T> = (Option<T>, Capture, Packet, Time) -> Option<T>

  // Whether a close keeps an entry, given the state it leaves.
  type Keeping<!T> = (T, Capture, Time) -> bool

  // The entry through a file, from nothing.
  ghost function Traced<T>(wall: Time, file: seq<R.PcapPacket>, heard: Hearing<T>, kept: Keeping<T>): Option<T>
    requires R.ValidFile(file)
  {
    if file == [] then None
    else if Last(file).eth == None then Traced(wall, Front(file), heard, kept)
    else
      var l, next := R.Run(wall, Front(file)), R.Run(wall, file);
      var after := heard(Traced(wall, Front(file), heard, kept), l.capture, Last(file).eth.value, next.lastNow);
      if R.Reports(l.report, Last(file).sec) && after.Some? && !kept(after.value, next.capture, next.lastNow) then None
      else after
  }

  ghost predicate FramesFare<T(!new)>(look: Capture -> Option<T>, heard: Hearing<T>) {
    forall c: Capture, p: Packet, now: Time :: WellFormed(c) && ValidFrame(p.frame) ==>
      look(Processed(c, p, now)) == heard(look(c), c, p, now)
  }

  ghost predicate ClosesFare<T(!new)>(look: Capture -> Option<T>, kept: Keeping<T>) {
    forall c: Capture, now: Time ::
      look(Closed(c, now)) ==
        if look(c).Some? && kept(look(c).value, Closed(c, now), now) then look(c) else None
  }

  lemma {:induction false} TracedIs<T(!new)>(wall: Time, file: seq<R.PcapPacket>, look: Capture -> Option<T>,
                                             heard: Hearing<T>, kept: Keeping<T>)
    requires R.ValidFile(file) && look(NewCapture) == None && FramesFare(look, heard) && ClosesFare(look, kept)
    ensures look(R.Run(wall, file).capture) == Traced(wall, file, heard, kept)
  {
    hide R.Step, Processed, Closed, WellFormed, ValidFrame, NewCapture;
    if file != [] {
      TracedIs(wall, Front(file), look, heard, kept);
      var l, p := R.Run(wall, Front(file)), Last(file);
      R.StepInParts(l, p, wall);
    } else {
      StartsNew(wall);
    }
  }

  lemma StartsNew(wall: Time)
    ensures R.Run(wall, []).capture == NewCapture
  {}

  // ---- What frames and closes do to each field ------------------------------

  lemma AvbOfFrame(c: Capture, f: Frame, now: Time)
    requires WellFormed(c) && ValidFrame(f)
    ensures var a, r := c.avb, Handled(c, f, now).avb;
            && r.msrp == (if f.MsrpFrame? then Declared(a.msrp, f.declarations) else a.msrp)
            && r.vlans == (if f.MvrpFrame? then a.vlans + (set v | v in f.vlans) else a.vlans)
            && r.entities == (
                 match f
                 case AdpAvailable(e, valid, index) => a.entities[e := Entity(valid, index, now)]
                 case AdpDeparting(e) => a.entities - {e}
                 case _ => a.entities)
  {
    FrameStaysInside(c, f, now);
    if TouchesAvb(f) { AvbFrames(c, f, now); }
    hide Handled;
  }

  lemma AvbFrames(c: Capture, f: Frame, now: Time)
    requires WellFormed(c) && ValidFrame(f) && TouchesAvb(f)
    ensures Handled(c, f, now).avb == (
              match f
              case AvtpFrame(_, _, _) => AvtpHandled(c.avb, f, now)
              case MsrpFrame(ds) => c.avb.(msrp := Declared(c.avb.msrp, ds))
              case MvrpFrame(vids) => c.avb.(vlans := c.avb.vlans + set v | v in vids)
              case AdpAvailable(e, valid, index) => c.avb.(entities := c.avb.entities[e := Entity(valid, index, now)])
              case AdpDeparting(e) => c.avb.(entities := c.avb.entities - {e})
              case _ => c.avb)
  {
    hide AvtpHandled, Declared, WellFormed, ValidFrame;
  }

  lemma IgmpOfFrame(c: Capture, f: Frame, now: Time)
    requires WellFormed(c) && ValidFrame(f)
    ensures var i, r := c.igmp, Handled(c, f, now).igmp;
            && r.joins == (
                 match f
                 case IgmpJoin(src, group) => i.joins[(src, group) := now]
                 case IgmpLeave(src, group) => i.joins - {(src, group)}
                 case _ => i.joins)
            && r.v3Report == (i.v3Report || f.IgmpV3Report?)
  {
    FrameStaysInside(c, f, now);
    if TouchesIgmp(f) || f.GeneralQuery? { IgmpFrames(c, f, now); }
    hide Handled;
  }

  lemma IgmpFrames(c: Capture, f: Frame, now: Time)
    requires WellFormed(c) && ValidFrame(f) && (TouchesIgmp(f) || f.GeneralQuery?)
    ensures Handled(c, f, now).igmp == (
              match f
              case IgmpJoin(src, group) => c.igmp.(joins := c.igmp.joins[(src, group) := now])
              case IgmpLeave(src, group) => c.igmp.(joins := c.igmp.joins - {(src, group)})
              case IgmpV3Report => c.igmp.(v3Report := true)
              case GeneralQuery(src, version) =>
                c.igmp.(queriers := c.igmp.queriers + {src}, querierVersion := Some(version))
              case _ => c.igmp)
  {
    hide WellFormed, ValidFrame;
  }

  lemma SessionsOfFrame(c: Capture, f: Frame, now: Time)
    requires WellFormed(c) && ValidFrame(f)
    ensures Handled(c, f, now).sdpCache == if f.SapFrame? then SdpCached(c, f.session, f.stale) else c.sdpCache
  {
    FrameStaysInside(c, f, now);
    if TouchesStreams(f) { StreamFrames(c, f, now); }
    hide Handled;
  }

  lemma StreamFrames(c: Capture, f: Frame, now: Time)
    requires WellFormed(c) && ValidFrame(f) && TouchesStreams(f)
    ensures var r := Handled(c, f, now);
            && r.sdpCache == (if f.SapFrame? then SdpCached(c, f.session, f.stale) else c.sdpCache)
            && r.health == (
                 if f.MediaFrame? || f.DanteAudio? then EcnMarked(c.health, f.ecn)
                 else if f.TcpFrame? then TcpHandled(c, f, now).health
                 else c.health)
  {
    hide MediaSeen, DanteAudioSeen, EnrichedAll, EcnMarked, TcpHandled, WellFormed, ValidFrame;
    if f.SapFrame? {
      SapSessions(c, f, now);
    } else if f.TcpFrame? {
      SegmentSessions(c, f, now);
    }
  }

  lemma SegmentSessions(c: Capture, f: Frame, now: Time)
    requires f.TcpFrame?
    ensures TcpHandled(c, f, now).sdpCache == c.sdpCache
  {
    hide Tcp.Seen, Tcp.HealthMarks, NdiHeard;
  }

  lemma SapSessions(c: Capture, f: Frame, now: Time)
    requires WellFormed(c) && ValidFrame(f) && f.SapFrame?
    ensures Handled(c, f, now).sdpCache == SdpCached(c, f.session, f.stale)
    ensures Handled(c, f, now).health == c.health
  {
    hide EnrichedAll, SdpCached, WellFormed;
    SameCacheSameSessions(c, c.(streams := EnrichedAll(c.streams, f.session.media)), f.session, f.stale);
  }

  lemma SameCacheSameSessions(c: Capture, d: Capture, s: Session, stale: string)
    requires d.sdpCache == c.sdpCache
    ensures SdpCached(d, s, stale) == SdpCached(c, s, stale)
  {}

  lemma HealthOfFrame(c: Capture, f: Frame, now: Time)
    requires WellFormed(c) && ValidFrame(f)
    ensures var h, r := c.health, Handled(c, f, now).health;
            && r.ecnMarks == h.ecnMarks + (if Congested(f) then 1 else 0)
            && r.tcpRetransmissions == h.tcpRetransmissions + ResentBy(c, f)
  {
    FrameStaysInside(c, f, now);
    if TouchesStreams(f) { StreamFrames(c, f, now); }
    if TouchesIgmp(f) || f.GeneralQuery? { QueryHealth(c, f, now); }
    if f.TcpFrame? { SegmentHealth(c, f, now); }
    hide Handled, TcpHandled, ResentBy;
    assert !f.TcpFrame? ==> ResentBy(c, f) == 0 by { NoSegment(c, f); }
  }

  lemma NoSegment(c: Capture, f: Frame)
    ensures !f.TcpFrame? ==> ResentBy(c, f) == 0
  {}

  lemma QueryHealth(c: Capture, f: Frame, now: Time)
    requires WellFormed(c) && ValidFrame(f) && (TouchesIgmp(f) || f.GeneralQuery?)
    ensures Handled(c, f, now).health.ecnMarks == c.health.ecnMarks
    ensures Handled(c, f, now).health.tcpRetransmissions == c.health.tcpRetransmissions
  {
    hide WellFormed, ValidFrame;
  }

  lemma SegmentHealth(c: Capture, f: Frame, now: Time)
    requires f.TcpFrame?
    ensures TcpHandled(c, f, now).health.ecnMarks == c.health.ecnMarks
    ensures TcpHandled(c, f, now).health.tcpRetransmissions == c.health.tcpRetransmissions + ResentBy(c, f)
  {
    hide Tcp.Seen, NdiHeard, SignedSub;
  }

  lemma TrafficOfPacket(c: Capture, p: Packet, now: Time)
    requires WellFormed(c) && ValidFrame(p.frame)
    ensures var t, u := c.traffic, Processed(c, p, now).traffic;
            && u.bytes == t.bytes + p.bytes
            && u.multicastBytes == t.multicastBytes + (if p.multicastIp then p.bytes else 0)
            && u.dispatched == t.dispatched + 1
            && u.pauseFrames == t.pauseFrames + (if p.frame.FlowControl? && !p.frame.pfc then 1 else 0)
            && u.pfcFrames == t.pfcFrames + (if p.frame.FlowControl? && p.frame.pfc then 1 else 0)
  {
    hide WellFormed, ValidFrame, Handled;
    SameStreamsWellFormed(c, Counted(c));
    TrafficOfFrame(Counted(c), p.frame, now);
  }

  lemma TrafficOfFrame(c: Capture, f: Frame, now: Time)
    requires WellFormed(c) && ValidFrame(f)
    ensures var t := c.traffic;
            Handled(c, f, now).traffic ==
            if !f.FlowControl? then t
            else if f.pfc then t.(pfcFrames := t.pfcFrames + 1) else t.(pauseFrames := t.pauseFrames + 1)
  {
    hide WellFormed, ValidFrame, Handled;
    FrameStaysInside(c, f, now);
    if f.FlowControl? { FlowFrame(c, f, now); }
  }

  lemma FlowFrame(c: Capture, f: Frame, now: Time)
    requires WellFormed(c) && ValidFrame(f) && f.FlowControl?
    ensures Handled(c, f, now).traffic == if f.pfc then c.traffic.(pfcFrames := c.traffic.pfcFrames + 1)
                                          else c.traffic.(pauseFrames := c.traffic.pauseFrames + 1)
  {
    hide WellFormed, ValidFrame;
  }

  function Counted(c: Capture): Capture {
    c.(traffic := c.traffic.(dispatched := c.traffic.dispatched + 1))
  }

  // Beyond the traffic counters a packet does what its frame does.
  lemma PacketIsFrame(c: Capture, p: Packet, now: Time)
    requires WellFormed(c) && ValidFrame(p.frame)
    ensures WellFormed(Counted(c))
    ensures Processed(c, p, now) == Handled(Counted(c), p.frame, now).(traffic := Processed(c, p, now).traffic)
  {
    hide Handled, WellFormed, ValidFrame;
    SameStreamsWellFormed(c, Counted(c));
  }

  lemma FieldsOfClose(c: Capture, now: Time)
    ensures Closed(c, now).ptp.followers == PtpReset(c.ptp, now).followers
    ensures Closed(c, now).igmp == IgmpReset(c.igmp, now)
    ensures Closed(c, now).avb == AvbReset(c.avb, now)
    ensures Closed(c, now).eee == c.eee && Closed(c, now).ndiSources == c.ndiSources
    ensures Closed(c, now).sdpCache == c.sdpCache
    ensures Closed(c, now).dante.conmon == Dante.LiveConmon(c.dante.conmon, now)
    ensures Closed(c, now).dante.names == c.dante.names && Closed(c, now).dante.txClass == c.dante.txClass
    ensures Closed(c, now).dante.sources == c.dante.sources
    ensures Closed(c, now).traffic == NoTraffic
    ensures Closed(c, now).health.ecnMarks == 0 && Closed(c, now).health.tcpRetransmissions == 0
  {
    hide Score, TimeoutsChecked, Ptp.SendersCleared, AvbReset, IgmpReset, Dante.LiveConmon;
    hide LiveStreams, LiveConns, SourceIps, QuerierConflict, HasMulticast, SuspectCycles, PushedCount, StreamCount;
  }

  ghost function YoungerThan(secs: nat): Keeping<Time> {
    (t: Time, c: Capture, now: Time) => now < t + secs * SECOND
  }

  ghost function Always<T>(): Keeping<T> {
    (t: T, c: Capture, now: Time) => true
  }

  ghost function Never<T>(): Keeping<T> {
    (t: T, c: Capture, now: Time) => false
  }

  // ---- Clock followers -------------------------------------------------------

  ghost function Follower(ip: Ip): Capture -> Option<Time> {
    (c: Capture) => Get(c.ptp.followers, ip)
  }

  // A PTPv1 Delay_Req of the address.
  ghost function Requests(ip: Ip): Hearing<Time> {
    (o: Option<Time>, c: Capture, p: Packet, now: Time) =>
      var f := p.frame;
      if f.PtpFrame? && f.info.version == 1 && f.info.messageType == 1 && f.info.srcIp == Some(ip)
      then Some(now) else o
  }

  // The follower map holds the last Delay_Req of each address, and a close drops it at
  // fifteen seconds.
  lemma FollowerOfReplay(wall: Time, file: seq<R.PcapPacket>, ip: Ip)
    requires R.ValidFile(file)
    ensures Get(R.Run(wall, file).capture.ptp.followers, ip) == Traced(wall, file, Requests(ip), YoungerThan(15))
  {
    hide R.Run, Traced, Processed, Closed, Handled, WellFormed, ValidFrame;
    var look, heard, kept := Follower(ip), Requests(ip), YoungerThan(15);
    forall c: Capture, p: Packet, now: Time | WellFormed(c) && ValidFrame(p.frame)
      ensures look(Processed(c, p, now)) == heard(look(c), c, p, now)
    {
      PacketIsFrame(c, p, now);
      FrameStaysInside(Counted(c), p.frame, now);
    }
    forall c: Capture, now: Time
      ensures look(Closed(c, now)) ==
              if look(c).Some? && kept(look(c).value, Closed(c, now), now) then look(c) else None
    {
      FieldsOfClose(c, now);
    }
    TracedIs(wall, file, look, heard, kept);
  }

  // ---- IGMP joins ------------------------------------------------------------

  ghost function Join(pair: (Ip, Ip)): Capture -> Option<Time> {
    (c: Capture) => Get(c.igmp.joins, pair)
  }

  ghost function JoinedOrLeft(pair: (Ip, Ip)): Hearing<Time> {
    (o: Option<Time>, c: Capture, p: Packet, now: Time) =>
      match p.frame
      case IgmpJoin(src, group) => if (src, group) == pair then Some(now) else o
      case IgmpLeave(src, group) => if (src, group) == pair then None else o
      case _ => o
  }

  // A join is remembered until its host leaves the group or 300 seconds have passed.
  lemma JoinOfReplay(wall: Time, file: seq<R.PcapPacket>, pair: (Ip, Ip))
    requires R.ValidFile(file)
    ensures Get(R.Run(wall, file).capture.igmp.joins, pair) == Traced(wall, file, JoinedOrLeft(pair), YoungerThan(300))
  {
    hide R.Run, Traced, Processed, Closed, Handled, WellFormed, ValidFrame;
    var look, heard, kept := Join(pair), JoinedOrLeft(pair), YoungerThan(300);
    forall c: Capture, p: Packet, now: Time | WellFormed(c) && ValidFrame(p.frame)
      ensures look(Processed(c, p, now)) == heard(look(c), c, p, now)
    {
      PacketIsFrame(c, p, now);
      IgmpOfFrame(Counted(c), p.frame, now);
    }
    forall c: Capture, now: Time
      ensures look(Closed(c, now)) ==
              if look(c).Some? && kept(look(c).value, Closed(c, now), now) then look(c) else None
    {
      FieldsOfClose(c, now);
    }
    TracedIs(wall, file, look, heard, kept);
  }

  // ---- AVDECC entities -------------------------------------------------------

  ghost function Advertised(e: nat): Capture -> Option<Entity> {
    (c: Capture) => Get(c.avb.entities, e)
  }

  ghost function AvailableOrDeparted(e: nat): Hearing<Entity> {
    (o: Option<Entity>, c: Capture, p: Packet, now: Time) =>
      match p.frame
      case AdpAvailable(id, valid, index) => if id == e then Some(Entity(valid, index, now)) else o
      case AdpDeparting(id) => if id == e then None else o
      case _ => o
  }

  // Its valid time, at least ten seconds, and ten more.
  ghost function WithinValidity(): Keeping<Entity> {
    (e: Entity, c: Capture, now: Time) =>
      now < e.lastSeen + (if e.validTimeSecs < 10 then 20 else e.validTimeSecs + 10) * SECOND
  }

  // An entity is known from its last advertisement until it departs or its time is up.
  lemma AdvertisedOfReplay(wall: Time, file: seq<R.PcapPacket>, e: nat)
    requires R.ValidFile(file)
    ensures Get(R.Run(wall, file).capture.avb.entities, e)
         == Traced(wall, file, AvailableOrDeparted(e), WithinValidity())
  {
    hide R.Run, Traced, Processed, Closed, Handled, WellFormed, ValidFrame;
    var look, heard, kept := Advertised(e), AvailableOrDeparted(e), WithinValidity();
    forall c: Capture, p: Packet, now: Time | WellFormed(c) && ValidFrame(p.frame)
      ensures look(Processed(c, p, now)) == heard(look(c), c, p, now)
    {
      PacketIsFrame(c, p, now);
      AvbOfFrame(Counted(c), p.frame, now);
    }
    forall c: Capture, now: Time
      ensures look(Closed(c, now)) ==
              if look(c).Some? && kept(look(c).value, Closed(c, now), now) then look(c) else None
    {
      FieldsOfClose(c, now);
    }
    TracedIs(wall, file, look, heard, kept);
  }

  // ---- Reservations ----------------------------------------------------------

  ghost function Reservation(sid: StreamId): Capture -> Option<Declaration> {
    (c: Capture) => Get(c.avb.msrp, sid)
  }

  ghost function DeclaredLast(sid: StreamId): Hearing<Declaration> {
    (o: Option<Declaration>, c: Capture, p: Packet, now: Time) =>
      if p.frame.MsrpFrame? then OrElse(LastDeclared(p.frame.declarations, sid), o) else o
  }

  ghost function LastDeclared(ds: seq<(StreamId, Declaration)>, sid: StreamId): Option<Declaration> {
    if ds == [] then None
    else if Last(ds).0 == sid then Some(Last(ds).1)
    else LastDeclared(Front(ds), sid)
  }

  lemma {:induction false} LastDeclaredWins(m: map<StreamId, Declaration>, ds: seq<(StreamId, Declaration)>,
                                            sid: StreamId)
    ensures Get(Declared(m, ds), sid) == OrElse(LastDeclared(ds, sid), Get(m, sid))
  {
    if ds != [] {
      LastDeclaredWins(m, Front(ds), sid);
    }
  }

  ghost function OfPresentStream(sid: StreamId): Keeping<Declaration> {
    (d: Declaration, c: Capture, now: Time) => sid in c.avb.streams
  }

  // A reservation is the last one declared, kept by a close as long as its stream is.
  lemma ReservationOfReplay(wall: Time, file: seq<R.PcapPacket>, sid: StreamId)
    requires R.ValidFile(file)
    ensures Get(R.Run(wall, file).capture.avb.msrp, sid) == Traced(wall, file, DeclaredLast(sid), OfPresentStream(sid))
  {
    hide R.Run, Traced, Processed, Closed, Handled, WellFormed, ValidFrame;
    var look, heard, kept := Reservation(sid), DeclaredLast(sid), OfPresentStream(sid);
    forall c: Capture, p: Packet, now: Time | WellFormed(c) && ValidFrame(p.frame)
      ensures look(Processed(c, p, now)) == heard(look(c), c, p, now)
    {
      PacketIsFrame(c, p, now);
      AvbOfFrame(Counted(c), p.frame, now);
      if p.frame.MsrpFrame? { LastDeclaredWins(c.avb.msrp, p.frame.declarations, sid); }
    }
    forall c: Capture, now: Time
      ensures look(Closed(c, now)) ==
              if look(c).Some? && kept(look(c).value, Closed(c, now), now) then look(c) else None
    {
      FieldsOfClose(c, now);
    }
    TracedIs(wall, file, look, heard, kept);
  }

  // ---- VLANs -----------------------------------------------------------------

  ghost function Vlan(v: nat): Capture -> Option<nat> {
    (c: Capture) => if v in c.avb.vlans then Some(v) else None
  }

  ghost function Registers(v: nat): Hearing<nat> {
    (o: Option<nat>, c: Capture, p: Packet, now: Time) =>
      if p.frame.MvrpFrame? && v in p.frame.vlans then Some(v) else o
  }

  ghost function WhileAvtp(): Keeping<nat> {
    (v: nat, c: Capture, now: Time) => c.avb.streams != map[]
  }

  // A VLAN once registered stays until a close finds no AVTP stream left.
  lemma VlanOfReplay(wall: Time, file: seq<R.PcapPacket>, v: nat)
    requires R.ValidFile(file)
    ensures (if v in R.Run(wall, file).capture.avb.vlans then Some(v) else None)
         == Traced(wall, file, Registers(v), WhileAvtp())
  {
    hide R.Run, Traced, Processed, Closed, Handled, WellFormed, ValidFrame;
    var look, heard, kept := Vlan(v), Registers(v), WhileAvtp();
    forall c: Capture, p: Packet, now: Time | WellFormed(c) && ValidFrame(p.frame)
      ensures look(Processed(c, p, now)) == heard(look(c), c, p, now)
    {
      PacketIsFrame(c, p, now);
      AvbOfFrame(Counted(c), p.frame, now);
    }
    forall c: Capture, now: Time
      ensures look(Closed(c, now)) ==
              if look(c).Some? && kept(look(c).value, Closed(c, now), now) then look(c) else None
    {
      FieldsOfClose(c, now);
    }
    TracedIs(wall, file, look, heard, kept);
  }

  // ---- Energy-saving ports ---------------------------------------------------

  ghost function Port(port: PortKey): Capture -> Option<(nat, nat)> {
    (c: Capture) => Get(c.eee, port)
  }

  ghost function Advertises(port: PortKey): Hearing<(nat, nat)> {
    (o: Option<(nat, nat)>, c: Capture, p: Packet, now: Time) =>
      if p.frame.LldpEee? && p.frame.port == port then Some(p.frame.wake) else o
  }

  // A port once seen is kept for good, with the wake times last given.
  lemma PortOfReplay(wall: Time, file: seq<R.PcapPacket>, port: PortKey)
    requires R.ValidFile(file)
    ensures Get(R.Run(wall, file).capture.eee, port) == Traced(wall, file, Advertises(port), Always())
  {
    hide R.Run, Traced, Processed, Closed, Handled, WellFormed, ValidFrame;
    var look, heard, kept := Port(port), Advertises(port), Always();
    forall c: Capture, p: Packet, now: Time | WellFormed(c) && ValidFrame(p.frame)
      ensures look(Processed(c, p, now)) == heard(look(c), c, p, now)
    {
      PacketIsFrame(c, p, now);
      FrameStaysInside(Counted(c), p.frame, now);
    }
    forall c: Capture, now: Time
      ensures look(Closed(c, now)) ==
              if look(c).Some? && kept(look(c).value, Closed(c, now), now) then look(c) else None
    {
      FieldsOfClose(c, now);
    }
    TracedIs(wall, file, look, heard, kept);
  }

  // ---- Signs of a source -----------------------------------------------------

  // What one sign of a source does to what is known of any address.
  lemma KnownOfEvent(d: Dante.Dante, e: Dante.Event, victim: Ip, now: Time, ip: Ip)
    ensures var r, evicted := Dante.Handled(d, e, victim, now), Displaced(d, e, victim, ip);
            && (ip in r.sources <==> ip == e.src || (ip in d.sources && !evicted))
            && Get(r.names, ip) == (if e.Discovery? && e.src == ip && e.name.Some? then e.name
                                    else if evicted then None else Get(d.names, ip))
  {}

  lemma ClassOfEvent(d: Dante.Dante, e: Dante.Event, victim: Ip, now: Time, ip: Ip)
    ensures var r, before := Dante.Handled(d, e, victim, now),
                             if Displaced(d, e, victim, ip) then None else Get(d.txClass, ip);
            Get(r.txClass, ip) == (if e.src != ip || e.Discovery? then before
                                   else if e.ControlPlane? && e.class_ != Dante.Hardware then Some(e.class_)
                                   else OrElse(before, Some(Dante.Hardware)))
  {}

  lemma DeviceOfEvent(d: Dante.Dante, e: Dante.Event, victim: Ip, now: Time, ip: Ip)
    ensures Get(Dante.Handled(d, e, victim, now).conmon, ip) ==
            if e.ConMon? && e.src == ip then
              var was := UnwrapOr(Get(d.conmon, ip), Dante.ConmonDevice(0, None, 0, 0));
              Some(Dante.ConmonDevice(e.mac, OrElse(e.channels, was.channels), was.packets + 1, now))
            else Get(d.conmon, ip)
  {}

  // To make room for a new source in a full set.
  ghost predicate Displaced(d: Dante.Dante, e: Dante.Event, victim: Ip, ip: Ip) {
    e.src !in d.sources && |d.sources| >= 4096 && victim == ip
  }

  // ---- ConMon devices --------------------------------------------------------

  ghost function Device(ip: Ip): Capture -> Option<Dante.ConmonDevice> {
    (c: Capture) => Get(c.dante.conmon, ip)
  }

  // The MAC and the time of this packet, one packet more, and the channels last given.
  ghost function Monitored(ip: Ip): Hearing<Dante.ConmonDevice> {
    (o: Option<Dante.ConmonDevice>, c: Capture, p: Packet, now: Time) =>
      if p.frame.DanteFrame? && p.frame.e.ConMon? && p.frame.e.src == ip then
        var before := UnwrapOr(o, Dante.ConmonDevice(0, None, 0, 0));
        Some(Dante.ConmonDevice(p.frame.e.mac, OrElse(p.frame.e.channels, before.channels), before.packets + 1, now))
      else o
  }

  ghost function MonitoredWithin(): Keeping<Dante.ConmonDevice> {
    (d: Dante.ConmonDevice, c: Capture, now: Time) => now < d.lastSeen + 60 * SECOND
  }

  // A ConMon entry is that of the packets of its address, and a close drops it when the
  // last of them is sixty seconds old.
  lemma DeviceOfReplay(wall: Time, file: seq<R.PcapPacket>, ip: Ip)
    requires R.ValidFile(file)
    ensures Get(R.Run(wall, file).capture.dante.conmon, ip) == Traced(wall, file, Monitored(ip), MonitoredWithin())
  {
    hide Dante.Handled, Displaced;
    hide R.Run, Traced, Processed, Closed, Handled, WellFormed, ValidFrame;
    var look, heard, kept := Device(ip), Monitored(ip), MonitoredWithin();
    forall c: Capture, p: Packet, now: Time | WellFormed(c) && ValidFrame(p.frame)
      ensures look(Processed(c, p, now)) == heard(look(c), c, p, now)
    {
      PacketIsFrame(c, p, now);
      FrameStaysInside(Counted(c), p.frame, now);
      if p.frame.DanteFrame? { DeviceOfEvent(c.dante, p.frame.e, p.frame.victim, now, ip); }
    }
    forall c: Capture, now: Time
      ensures look(Closed(c, now)) ==
              if look(c).Some? && kept(look(c).value, Closed(c, now), now) then look(c) else None
    {
      FieldsOfClose(c, now);
    }
    TracedIs(wall, file, look, heard, kept);
  }

  // ---- Sources and what is known of them ------------------------------------

  // The source is evicted to make room for another: only by a new one, and only when full.
  ghost predicate Evicted(c: Capture, f: Frame, ip: Ip) {
    f.DanteFrame? && Displaced(c.dante, f.e, f.victim, ip)
  }

  // ---- Dante sources ---------------------------------------------------------

  ghost function Source(ip: Ip): Capture -> Option<Ip> {
    (c: Capture) => if ip in c.dante.sources then Some(ip) else None
  }

  ghost function Discovered(ip: Ip): Hearing<Ip> {
    (o: Option<Ip>, c: Capture, p: Packet, now: Time) =>
      if p.frame.DanteFrame? && p.frame.e.src == ip then Some(ip)
      else if Evicted(c, p.frame, ip) then None
      else o
  }

  // A source stays tracked from its first sign of life until it is evicted.
  lemma SourceOfReplay(wall: Time, file: seq<R.PcapPacket>, ip: Ip)
    requires R.ValidFile(file)
    ensures (if ip in R.Run(wall, file).capture.dante.sources then Some(ip) else None)
         == Traced(wall, file, Discovered(ip), Always())
  {
    hide Dante.Handled, Displaced;
    hide R.Run, Traced, Processed, Closed, Handled, WellFormed, ValidFrame;
    var look, heard, kept := Source(ip), Discovered(ip), Always();
    forall c: Capture, p: Packet, now: Time | WellFormed(c) && ValidFrame(p.frame)
      ensures look(Processed(c, p, now)) == heard(look(c), c, p, now)
    {
      PacketIsFrame(c, p, now);
      FrameStaysInside(Counted(c), p.frame, now);
      if p.frame.DanteFrame? { KnownOfEvent(c.dante, p.frame.e, p.frame.victim, now, ip); }
    }
    forall c: Capture, now: Time
      ensures look(Closed(c, now)) ==
              if look(c).Some? && kept(look(c).value, Closed(c, now), now) then look(c) else None
    {
      FieldsOfClose(c, now);
    }
    TracedIs(wall, file, look, heard, kept);
  }

  // ---- Names -----------------------------------------------------------------

  ghost function Name(ip: Ip): Capture -> Option<string> {
    (c: Capture) => Get(c.dante.names, ip)
  }

  ghost function Named(ip: Ip): Hearing<string> {
    (o: Option<string>, c: Capture, p: Packet, now: Time) =>
      if p.frame.DanteFrame? && p.frame.e.Discovery? && p.frame.e.src == ip && p.frame.e.name.Some? then p.frame.e.name
      else if Evicted(c, p.frame, ip) then None
      else o
  }

  // And goes by the name it announced last.
  lemma NameOfReplay(wall: Time, file: seq<R.PcapPacket>, ip: Ip)
    requires R.ValidFile(file)
    ensures Get(R.Run(wall, file).capture.dante.names, ip) == Traced(wall, file, Named(ip), Always())
  {
    hide Dante.Handled, Displaced;
    hide R.Run, Traced, Processed, Closed, Handled, WellFormed, ValidFrame;
    var look, heard, kept := Name(ip), Named(ip), Always();
    forall c: Capture, p: Packet, now: Time | WellFormed(c) && ValidFrame(p.frame)
      ensures look(Processed(c, p, now)) == heard(look(c), c, p, now)
    {
      PacketIsFrame(c, p, now);
      FrameStaysInside(Counted(c), p.frame, now);
      if p.frame.DanteFrame? { KnownOfEvent(c.dante, p.frame.e, p.frame.victim, now, ip); }
    }
    forall c: Capture, now: Time
      ensures look(Closed(c, now)) ==
              if look(c).Some? && kept(look(c).value, Closed(c, now), now) then look(c) else None
    {
      FieldsOfClose(c, now);
    }
    TracedIs(wall, file, look, heard, kept);
  }

  // ---- Transmitter classes ---------------------------------------------------

  ghost function Class(ip: Ip): Capture -> Option<Dante.TxClass> {
    (c: Capture) => Get(c.dante.txClass, ip)
  }

  // DVS and Via signs decide; ConMon and hardware signs only fill a gap.
  ghost function Identified(ip: Ip): Hearing<Dante.TxClass> {
    (o: Option<Dante.TxClass>, c: Capture, p: Packet, now: Time) =>
      var before := if Evicted(c, p.frame, ip) then None else o;
      if !p.frame.DanteFrame? || p.frame.e.src != ip || p.frame.e.Discovery? then before
      else if p.frame.e.ControlPlane? && p.frame.e.class_ != Dante.Hardware then Some(p.frame.e.class_)
      else OrElse(before, Some(Dante.Hardware))
  }

  // The class of a source is the software class its signs named last, else hardware if
  // there was any sign.
  lemma ClassOfReplay(wall: Time, file: seq<R.PcapPacket>, ip: Ip)
    requires R.ValidFile(file)
    ensures Get(R.Run(wall, file).capture.dante.txClass, ip) == Traced(wall, file, Identified(ip), Always())
  {
    hide Dante.Handled, Displaced;
    hide R.Run, Traced, Processed, Closed, Handled, WellFormed, ValidFrame;
    var look, heard, kept := Class(ip), Identified(ip), Always();
    forall c: Capture, p: Packet, now: Time | WellFormed(c) && ValidFrame(p.frame)
      ensures look(Processed(c, p, now)) == heard(look(c), c, p, now)
    {
      PacketIsFrame(c, p, now);
      FrameStaysInside(Counted(c), p.frame, now);
      if p.frame.DanteFrame? { ClassOfEvent(c.dante, p.frame.e, p.frame.victim, now, ip); }
    }
    forall c: Capture, now: Time
      ensures look(Closed(c, now)) ==
              if look(c).Some? && kept(look(c).value, Closed(c, now), now) then look(c) else None
    {
      FieldsOfClose(c, now);
    }
    TracedIs(wall, file, look, heard, kept);
  }

  // ---- NDI sources -----------------------------------------------------------

  ghost function Sender(ip: Ip): Capture -> Option<Ip> {
    (c: Capture) => if ip in c.ndiSources then Some(ip) else None
  }

  ghost function DiscoveredNdi(ip: Ip): Hearing<Ip> {
    (o: Option<Ip>, c: Capture, p: Packet, now: Time) =>
      if p.frame.NdiDiscovery? && p.frame.ip == ip then Some(ip)
      else if p.frame.NdiDiscovery? && p.frame.ip !in c.ndiSources && |c.ndiSources| >= 4096 && p.frame.victim == ip
      then None
      else o
  }

  // An NDI source stays known until it is evicted by a new one from a full set.
  lemma SenderOfReplay(wall: Time, file: seq<R.PcapPacket>, ip: Ip)
    requires R.ValidFile(file)
    ensures (if ip in R.Run(wall, file).capture.ndiSources then Some(ip) else None)
         == Traced(wall, file, DiscoveredNdi(ip), Always())
  {
    hide R.Run, Traced, Processed, Closed, Handled, WellFormed, ValidFrame;
    var look, heard, kept := Sender(ip), DiscoveredNdi(ip), Always();
    forall c: Capture, p: Packet, now: Time | WellFormed(c) && ValidFrame(p.frame)
      ensures look(Processed(c, p, now)) == heard(look(c), c, p, now)
    {
      PacketIsFrame(c, p, now);
      FrameStaysInside(Counted(c), p.frame, now);
    }
    forall c: Capture, now: Time
      ensures look(Closed(c, now)) ==
              if look(c).Some? && kept(look(c).value, Closed(c, now), now) then look(c) else None
    {
      FieldsOfClose(c, now);
    }
    TracedIs(wall, file, look, heard, kept);
  }

  // ---- Sessions --------------------------------------------------------------

  ghost function Cached(id: string): Capture -> Option<Session> {
    (c: Capture) => Get(c.sdpCache, id)
  }

  ghost function Announced(id: string): Hearing<Session> {
    (o: Option<Session>, c: Capture, p: Packet, now: Time) =>
      if p.frame.SapFrame? && p.frame.session.id == id then Some(p.frame.session)
      else if p.frame.SapFrame? && p.frame.session.id !in c.sdpCache && |c.sdpCache| >= 1024 && p.frame.stale == id
      then None
      else o
  }

  // A session is cached as last announced until it is evicted by a new one from a full cache.
  lemma CachedOfReplay(wall: Time, file: seq<R.PcapPacket>, id: string)
    requires R.ValidFile(file)
    ensures Get(R.Run(wall, file).capture.sdpCache, id) == Traced(wall, file, Announced(id), Always())
  {
    hide R.Run, Traced, Processed, Closed, Handled, WellFormed, ValidFrame;
    var look, heard, kept := Cached(id), Announced(id), Always();
    forall c: Capture, p: Packet, now: Time | WellFormed(c) && ValidFrame(p.frame)
      ensures look(Processed(c, p, now)) == heard(look(c), c, p, now)
    {
      PacketIsFrame(c, p, now);
      SessionsOfFrame(Counted(c), p.frame, now);
    }
    forall c: Capture, now: Time
      ensures look(Closed(c, now)) ==
              if look(c).Some? && kept(look(c).value, Closed(c, now), now) then look(c) else None
    {
      FieldsOfClose(c, now);
    }
    TracedIs(wall, file, look, heard, kept);
  }

  // ---- NDI senders ----------------------------------------------------------

  // The packets of a stream, its last, and what it is.
  datatype Sent = Sent(packets: nat, heard: Option<Time>, id: Identity)

  ghost function SenderStream(ip: Ip): Capture -> Option<Sent> {
    (c: Capture) =>
      if NdiSender(ip) in c.streams
      then
        var s := c.streams[NdiSender(ip)];
        Some(Sent(s.count.packets, Heard(s), s.id))
      else None
  }

  // A TCP frame is attributed to its source if that is a known NDI source, else to its
  // destination if that is one.
  ghost predicate SentFor(c: Capture, f: Frame, ip: Ip) {
    f.TcpFrame? && ip in c.ndiSources && (f.src == ip || (f.dst == ip && f.src !in c.ndiSources))
  }

  // A new one is NDI, not multicast, addressed to the sender on no port.
  function OneMoreSent(o: Option<Sent>, ip: Ip, now: Time): Sent {
    match o
    case Some(s) => Sent(s.packets + 1, Some(now), s.id)
    case None => Sent(1, Some(now), Identity(Protocol.Ndi, false, None, Some(ip), 0))
  }

  ghost function Sends(ip: Ip): Hearing<Sent> {
    (o: Option<Sent>, c: Capture, p: Packet, now: Time) =>
      if SentFor(c, p.frame, ip) then Some(OneMoreSent(o, ip, now)) else o
  }

  ghost function HeardWithin(): Keeping<Sent> {
    (s: Sent, c: Capture, now: Time) => s.heard == None || now < s.heard.value + 20 * SECOND
  }

  lemma SenderOfFrame(c: Capture, f: Frame, now: Time, ip: Ip)
    requires WellFormed(c) && ValidFrame(f)
    ensures SenderStream(ip)(Handled(c, f, now)) ==
            if SentFor(c, f, ip)
            then Some(OneMoreSent(SenderStream(ip)(c), ip, now)) else SenderStream(ip)(c)
  {
    FrameStaysInside(c, f, now);
    if f.TcpFrame? {
      SenderOfSegment(c, f, now, ip);
    } else if f.SapFrame? {
      SenderOfSap(c, f, now, ip);
    } else if TouchesStreams(f) {
      SenderOfMedia(c, f, now, ip);
    }
    hide Handled, Heard;
  }

  lemma SenderOfSegment(c: Capture, f: Frame, now: Time, ip: Ip)
    requires WellFormed(c) && ValidFrame(f) && f.TcpFrame?
    ensures SenderStream(ip)(Handled(c, f, now)) ==
            if SentFor(c, f, ip)
            then Some(OneMoreSent(SenderStream(ip)(c), ip, now)) else SenderStream(ip)(c)
  {
    hide Tcp.Seen, Tcp.HealthMarks, WellFormed;
  }

  lemma SenderOfSap(c: Capture, f: Frame, now: Time, ip: Ip)
    requires WellFormed(c) && ValidFrame(f) && f.SapFrame?
    ensures SenderStream(ip)(Handled(c, f, now)) == SenderStream(ip)(c)
  {
    hide Enriched, SdpCached, WellFormed;
    if NdiSender(ip) in c.streams {
      EnrichedTouches(c.streams[NdiSender(ip)], f.session.media);
    }
  }

  lemma SenderOfMedia(c: Capture, f: Frame, now: Time, ip: Ip)
    requires WellFormed(c) && ValidFrame(f) && (f.MediaFrame? || f.DanteAudio?)
    ensures SenderStream(ip)(Handled(c, f, now)) == SenderStream(ip)(c)
  {
    hide MediaSeen, DanteAudioSeen, EcnMarked;
  }

  lemma SenderOfClose(c: Capture, now: Time, ip: Ip)
    ensures SenderStream(ip)(Closed(c, now)) ==
            if SenderStream(ip)(c).Some? && HeardWithin()(SenderStream(ip)(c).value, Closed(c, now), now)
            then SenderStream(ip)(c) else None
  {
    hide Closed;
    R.CloseOfStreams(c, now);
  }

  // The stream of an NDI sender counts the segments attributed to it since it appeared,
  // was heard at the last of them, and a close drops it when that is twenty seconds old.
  lemma SenderStreamOfReplay(wall: Time, file: seq<R.PcapPacket>, ip: Ip)
    requires R.ValidFile(file)
    ensures SenderStream(ip)(R.Run(wall, file).capture) == Traced(wall, file, Sends(ip), HeardWithin())
  {
    hide R.Run, Traced, Processed, Closed, Handled, WellFormed, ValidFrame;
    var look, heard, kept := SenderStream(ip), Sends(ip), HeardWithin();
    forall c: Capture, p: Packet, now: Time | WellFormed(c) && ValidFrame(p.frame)
      ensures look(Processed(c, p, now)) == heard(look(c), c, p, now)
    {
      PacketIsFrame(c, p, now);
      SenderOfFrame(Counted(c), p.frame, now, ip);
    }
    forall c: Capture, now: Time
      ensures look(Closed(c, now)) ==
              if look(c).Some? && kept(look(c).value, Closed(c, now), now) then look(c) else None
    {
      SenderOfClose(c, now, ip);
    }
    TracedIs(wall, file, look, heard, kept);
  }

  // ---- Counters of the window -----------------------------------------------

  // A counter as an entry: absent at zero, gone at every close.
  function Counter(n: nat): Option<nat> {
    if n == 0 then None else Some(n)
  }

  // What a packet adds, given the state it meets.
  ghost function Adds(gain: (Capture, Packet) -> nat): Hearing<nat> {
    (o: Option<nat>, c: Capture, p: Packet, now: Time) => Counter(UnwrapOr(o, 0) + gain(c, p))
  }

  // The sum of what the packets since the last close add.
  ghost function SinceClose(wall: Time, file: seq<R.PcapPacket>, gain: (Capture, Packet) -> nat): nat
    requires R.ValidFile(file)
  {
    if file == [] then 0
    else if Last(file).eth == None then SinceClose(wall, Front(file), gain)
    else if R.Reports(R.Run(wall, Front(file)).report, Last(file).sec) then 0
    else SinceClose(wall, Front(file), gain) + gain(R.Run(wall, Front(file)).capture, Last(file).eth.value)
  }

  lemma {:induction false} CounterSums(wall: Time, file: seq<R.PcapPacket>, gain: (Capture, Packet) -> nat)
    requires R.ValidFile(file)
    ensures Traced(wall, file, Adds(gain), Never()) == Counter(SinceClose(wall, file, gain))
  {
    hide R.Run, R.Reports;
    if file != [] {
      CounterSums(wall, Front(file), gain);
    }
  }

  lemma CounterIs(wall: Time, file: seq<R.PcapPacket>, n: Capture -> nat, gain: (Capture, Packet) -> nat)
    requires R.ValidFile(file) && n(NewCapture) == 0
    requires forall c: Capture, p: Packet, now: Time :: WellFormed(c) && ValidFrame(p.frame) ==>
               n(Processed(c, p, now)) == n(c) + gain(c, p)
    requires forall c: Capture, now: Time :: n(Closed(c, now)) == 0
    ensures n(R.Run(wall, file).capture) == SinceClose(wall, file, gain)
  {
    hide R.Run, Traced, SinceClose, Processed, Closed, WellFormed, ValidFrame, NewCapture;
    var look := (c: Capture) => Counter(n(c));
    assert FramesFare(look, Adds(gain));
    assert ClosesFare(look, Never());
    TracedIs(wall, file, look, Adds(gain), Never());
    CounterSums(wall, file, gain);
  }

  ghost function Octets(): (Capture, Packet) -> nat {
    (c: Capture, p: Packet) => p.bytes
  }

  ghost function MulticastOctets(): (Capture, Packet) -> nat {
    (c: Capture, p: Packet) => if p.multicastIp then p.bytes else 0
  }

  ghost function One(): (Capture, Packet) -> nat {
    (c: Capture, p: Packet) => 1
  }

  ghost function Pauses(pfc: bool): (Capture, Packet) -> nat {
    (c: Capture, p: Packet) => if p.frame.FlowControl? && p.frame.pfc == pfc then 1 else 0
  }

  // Between audio or video packets, those whose ECN field says congestion was experienced.
  ghost predicate Congested(f: Frame) {
    (f.MediaFrame? || f.DanteAudio?) && f.ecn == 3
  }

  ghost function CongestionMarks(): (Capture, Packet) -> nat {
    (c: Capture, p: Packet) => if Congested(p.frame) then 1 else 0
  }

  // A reset counts, and so does a non-SYN segment from the third on that lies before the
  // last position taken.
  ghost function ResentBy(c: Capture, f: Frame): nat {
    if !f.TcpFrame? || !(f.ndiPort || f.src in c.ndiSources || f.dst in c.ndiSources) then 0
    else
      (if f.segment.rst then 1 else 0) +
      if f.conn in c.tcp && c.tcp[f.conn].packets >= 2 && c.tcp[f.conn].lastSeq.Some? && !f.segment.syn &&
         SignedSub(f.segment.sn, c.tcp[f.conn].lastSeq.value, M32) < 0
      then 1 else 0
  }

  lemma SameMarks(c: Capture, f: Frame)
    ensures ResentBy(Counted(c), f) == ResentBy(c, f)
  {}

  ghost function Resents(): (Capture, Packet) -> nat {
    (c: Capture, p: Packet) => ResentBy(c, p.frame)
  }

  // The counters of a window are those of the packets since the last close.
  lemma TrafficOfReplay(wall: Time, file: seq<R.PcapPacket>)
    requires R.ValidFile(file)
    ensures var t := R.Run(wall, file).capture.traffic;
            && t.bytes == SinceClose(wall, file, Octets())
            && t.multicastBytes == SinceClose(wall, file, MulticastOctets())
            && t.dispatched == SinceClose(wall, file, One())
            && t.pauseFrames == SinceClose(wall, file, Pauses(false))
            && t.pfcFrames == SinceClose(wall, file, Pauses(true))
  {
    hide R.Run, SinceClose, Processed, Closed, WellFormed, ValidFrame;
    forall c: Capture, p: Packet, now: Time | WellFormed(c) && ValidFrame(p.frame)
      ensures var t, u := c.traffic, Processed(c, p, now).traffic;
              && u.bytes == t.bytes + Octets()(c, p)
              && u.multicastBytes == t.multicastBytes + MulticastOctets()(c, p)
              && u.dispatched == t.dispatched + One()(c, p)
              && u.pauseFrames == t.pauseFrames + Pauses(false)(c, p)
              && u.pfcFrames == t.pfcFrames + Pauses(true)(c, p)
    {
      TrafficOfPacket(c, p, now);
    }
    forall c: Capture, now: Time ensures Closed(c, now).traffic == NoTraffic { FieldsOfClose(c, now); }
    CounterIs(wall, file, (c: Capture) => c.traffic.bytes, Octets());
    CounterIs(wall, file, (c: Capture) => c.traffic.multicastBytes, MulticastOctets());
    CounterIs(wall, file, (c: Capture) => c.traffic.dispatched, One());
    CounterIs(wall, file, (c: Capture) => c.traffic.pauseFrames, Pauses(false));
    CounterIs(wall, file, (c: Capture) => c.traffic.pfcFrames, Pauses(true));
  }

  // And so are the congestion marks and the retransmissions the score reads.
  lemma HealthOfReplay(wall: Time, file: seq<R.PcapPacket>)
    requires R.ValidFile(file)
    ensures var h := R.Run(wall, file).capture.health;
            && h.ecnMarks == SinceClose(wall, file, CongestionMarks())
            && h.tcpRetransmissions == SinceClose(wall, file, Resents())
  {
    hide R.Run, SinceClose, Processed, Closed, WellFormed, ValidFrame, ResentBy, Congested;
    forall c: Capture, p: Packet, now: Time | WellFormed(c) && ValidFrame(p.frame)
      ensures var h, i := c.health, Processed(c, p, now).health;
              && i.ecnMarks == h.ecnMarks + CongestionMarks()(c, p)
              && i.tcpRetransmissions == h.tcpRetransmissions + Resents()(c, p)
    {
      PacketIsFrame(c, p, now);
      HealthOfFrame(Counted(c), p.frame, now);
      SameMarks(c, p.frame);
    }
    forall c: Capture, now: Time
      ensures Closed(c, now).health.ecnMarks == 0 && Closed(c, now).health.tcpRetransmissions == 0
    {
      FieldsOfClose(c, now);
    }
    CounterIs(wall, file, (c: Capture) => c.health.ecnMarks, CongestionMarks());
    CounterIs(wall, file, (c: Capture) => c.health.tcpRetransmissions, Resents());
  }

  // A version-3 report counts until the next close.
  ghost function V3Report(): (Capture, Packet) -> nat {
    (c: Capture, p: Packet) => if p.frame.IgmpV3Report? then 1 else 0
  }

  lemma V3ReportOfReplay(wall: Time, file: seq<R.PcapPacket>)
    requires R.ValidFile(file)
    ensures R.Run(wall, file).capture.igmp.v3Report <==> SinceClose(wall, file, V3Report()) > 0
  {
    hide R.Step, Processed, Closed, WellFormed, ValidFrame;
    if file != [] {
      V3ReportOfReplay(wall, Front(file));
      var l, p := R.Run(wall, Front(file)), Last(file);
      R.StepInParts(l, p, wall);
      if p.eth.Some? {
        var now := R.Run(wall, file).lastNow;
        PacketIsFrame(l.capture, p.eth.value, now);
        IgmpOfFrame(Counted(l.capture), p.eth.value.frame, now);
        FieldsOfClose(Processed(l.capture, p.eth.value, now), now);
      }
    }
  }
}
