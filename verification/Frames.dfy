// What one decoded frame does to the capture state: the packet handlers and
// `process_packet`.
module Frames {
  import opened Basics
  import opened Capture
  import opened Scoring
  import opened Streams
  import opened Substates
  import Avtp
  import Dante
  import Ptp
  import Tcp
  import Timing
  import Wrapping

  const MAX_SDP_SESSIONS: nat := 1024
  const ECN_CE: nat := 3
  const RECOMMENDED_PCP: nat := 6

  // A frame after decoding and protocol detection. `created` is the stream a handler
  // inserts when the key is new; eviction victims are whatever the map yields.
  datatype Frame =
    | MediaFrame(key: Key, created: Stream, dscpOk: bool, ecn: nat, pcp: Option<nat>,
                 payloadType: nat, rtp: Option<RtpPacket>)
    | DanteAudio(key: Key, created: Stream, dscpOk: bool, ecn: nat, ttl: nat, rtp: Option<RtpPacket>)
    | TcpFrame(conn: Key, src: Ip, dst: Ip, ndiPort: bool, segment: Tcp.Segment)
    | AvtpFrame(sid: StreamId, sn: Option<nat>, pcp: Option<nat>)
    | PtpFrame(info: Ptp.PtpInfo)
    | DanteFrame(e: Dante.Event, victim: Ip)
    | NdiDiscovery(ip: Ip, victim: Ip)
    | SapFrame(session: Session, stale: string)
    | MsrpFrame(declarations: seq<(StreamId, Declaration)>)
    | MvrpFrame(vlans: seq<nat>)
    | IgmpJoin(src: Ip, group: Ip)
    | IgmpLeave(src: Ip, group: Ip)
    | IgmpV3Report
    | GeneralQuery(src: Ip, version: nat)
    | AdpAvailable(entity: nat, validTimeSecs: nat, availableIndex: nat)
    | AdpDeparting(entity: nat)
    | LldpEee(port: PortKey, wake: (nat, nat))
    | FlowControl(pfc: bool)
    | Unmonitored

  datatype Packet = Packet(frame: Frame, bytes: nat, multicastIp: bool)

  // A stream no packet has reached yet: as `new_with_info` makes it, but for its identity,
  // clock rate, packet time and expected payload type.
  ghost predicate Untouched(s: Stream) {
    && s.clock.hz > 0.0 && s.count == Counts(0, 0, 0, 0, 0, None, false)
    && s.clock.(hz := 0.0, confirmed := false, ptimeMs := 0.0) == Clock(0.0, false, 0.0, None, None, 0, 0, [])
    && s.arrive == Arrivals(0.0, None, None, 0, 0.0)
    && s.marks.(expectedPt := None) == Marks(None, 0, None, 0, 0, 0, None)
    && s.transmitter == Timing.NewProfile
  }

  ghost predicate ValidFrame(f: Frame) {
    match f
    case MediaFrame(key, created, _, _, _, _, rtp) =>
      key.Media? && Untouched(created) && (rtp.Some? ==> rtp.value.Valid())
    case DanteAudio(key, created, _, _, _, rtp) =>
      key.Media? && Untouched(created) && (rtp.Some? ==> rtp.value.Valid())
    case TcpFrame(conn, _, _, _, segment) => conn.Connection? && segment.sn < Wrapping.M32
    case AvtpFrame(_, sn, _) => sn.Some? ==> sn.value < Wrapping.M8
    case _ => true
  }

  // RTP streams always have a clock rate; NDI streams never see an RTP packet.
  ghost predicate WellFormed(c: Capture) {
    forall k :: k in c.streams ==> (k.Media? ==> c.streams[k].clock.hz > 0.0)
  }

  // ---- Streams --------------------------------------------------------------

  function StreamOr(c: Capture, key: Key, created: Stream): Stream {
    if key in c.streams then c.streams[key] else created
  }

  function Marked(m: Marks, dscpOk: bool): Marks {
    m.(dscpViolations := m.dscpViolations + if dscpOk then 0 else 1)
  }

  function PcpAdvised(m: Marks, pcp: Option<nat>): Marks {
    if pcp.Some? && pcp.value != RECOMMENDED_PCP then
      m.(pcpViolations := m.pcpViolations + 1,
         observedPcp := if m.observedPcp.Some? then m.observedPcp else pcp)
    else m
  }

  // AES67 and ST 2110: marking checks, payload type, then the RTP update.
  function MediaSeen(s: Stream, f: Frame, now: Time): Stream
    requires f.MediaFrame? && s.clock.hz > 0.0
  {
    var marks := PcpAdvised(Marked(s.marks, f.dscpOk), f.pcp);
    if f.rtp == None then s.(marks := marks)
    else
      var mismatch := if marks.expectedPt.Some? && marks.expectedPt.value != f.payloadType then 1 else 0;
      Updated(s.(marks := marks.(ptMismatches := marks.ptMismatches + mismatch)), f.rtp.value, now)
  }

  // Dante audio: TTL, then RTP or ATP framing, then the class-gated marking check.
  function DanteAudioSeen(s: Stream, f: Frame, now: Time): Stream
    requires f.DanteAudio? && s.clock.hz > 0.0
  {
    var routed := s.(transmitter := s.transmitter.(minTtl := Timing.LowerTtl(s.transmitter.minTtl, f.ttl)));
    var heard := if f.rtp.Some? then Updated(routed, f.rtp.value, now) else UpdatedNonRtp(routed, now);
    heard.(marks := Marked(heard.marks, f.dscpOk))
  }

  function EcnMarked(h: Health, ecn: nat): Health {
    if ecn == ECN_CE then h.(ecnMarks := h.ecnMarks + 1) else h
  }

  // ---- TCP ------------------------------------------------------------------

  predicate IsNdi(c: Capture, f: Frame)
    requires f.TcpFrame?
  {
    f.ndiPort || f.src in c.ndiSources || f.dst in c.ndiSources
  }

  function NdiSenderOf(c: Capture, f: Frame): Option<Ip>
    requires f.TcpFrame?
  {
    if f.src in c.ndiSources then Some(f.src)
    else if f.dst in c.ndiSources then Some(f.dst)
    else None
  }

  // The NDI stream entry only counts packets and presence.
  function NdiHeard(c: Capture, ip: Ip, now: Time): map<Key, Stream> {
    var s := StreamOr(c, NdiSender(ip), NewStream(Ndi, 0.0, false, ip, 0));
    c.streams[NdiSender(ip) := s.(count := s.count.(packets := s.count.packets + 1),
                                  arrive := s.arrive.(lastPacketTime := Some(now)))]
  }

  function TcpHandled(c: Capture, f: Frame, now: Time): Capture
    requires f.TcpFrame?
  {
    if !IsNdi(c, f) then c
    else
      var sender := NdiSenderOf(c, f);
      var conn := if f.conn in c.tcp then c.tcp[f.conn] else Tcp.NewConn(now);
      c.(streams := if sender.Some? then NdiHeard(c, sender.value, now) else c.streams,
         tcp := c.tcp[f.conn := Tcp.Seen(conn, f.segment, now)],
         health := c.health.(tcpRetransmissions := c.health.tcpRetransmissions + Tcp.HealthMarks(conn, f.segment)))
  }

  // ---- Announcements --------------------------------------------------------

  // Technical fields re-apply with every announcement that carries them.
  function SdpApplied(s: Stream, m: SdpMedia): Stream {
    var rated := if m.clockHz > 0.0 then s.clock.(hz := m.clockHz, confirmed := true) else s.clock;
    s.(clock := if m.ptimeMs > 0.0 then rated.(ptimeMs := m.ptimeMs) else rated,
       marks := if m.payloadType.Some? then s.marks.(expectedPt := m.payloadType) else s.marks)
  }

  predicate Announces(m: SdpMedia, s: Stream) {
    s.id.dstPort == m.port && (m.connIp == None || s.id.dstIp == m.connIp)
  }

  function Enriched(s: Stream, media: seq<SdpMedia>): Stream {
    if media == [] then s
    else
      var e := Enriched(s, Front(media));
      if Announces(Last(media), e) then SdpApplied(e, Last(media)) else e
  }

  function EnrichedAll(streams: map<Key, Stream>, media: seq<SdpMedia>): map<Key, Stream> {
    map k | k in streams :: Enriched(streams[k], media)
  }

  // A session is live when some stream carries packets to one of its ports.
  predicate SessionLive(s: Session, streams: map<Key, Stream>) {
    exists m, k :: m in s.media && k in streams && streams[k].id.dstPort == m.port && streams[k].count.packets > 0
  }

  predicate SessionEvicts(c: Capture, s: Session) {
    s.id !in c.sdpCache && |c.sdpCache| >= MAX_SDP_SESSIONS
  }

  // The victim is some stale session if there is one, else any.
  ghost predicate MayDropSession(c: Capture, s: Session, victim: string) {
    SessionEvicts(c, s) ==>
      && victim in c.sdpCache
      && (SessionLive(c.sdpCache[victim], c.streams) ==>
            forall id :: id in c.sdpCache ==> SessionLive(c.sdpCache[id], c.streams))
  }

  function SdpCached(c: Capture, s: Session, victim: string): map<string, Session> {
    (if SessionEvicts(c, s) then c.sdpCache - {victim} else c.sdpCache)[s.id := s]
  }

  // ---- The remaining handlers -----------------------------------------------

  function AvtpHandled(a: Avb, f: Frame, now: Time): Avb
    requires f.AvtpFrame?
  {
    var s := if f.sid in a.streams then a.streams[f.sid] else Avtp.NewAvtp(now);
    var declared := if f.sid in a.msrp then a.msrp[f.sid].priority else None;
    a.(streams := a.streams[f.sid := Avtp.FrameSeen(s, f.sn, f.pcp, declared, now)])
  }

  function DomainOr(p: PtpView, info: Ptp.PtpInfo, now: Time): Ptp.Domain {
    var key := (info.domain, info.version);
    if key in p.domains then p.domains[key] else Ptp.NewDomain(info.domain, info.version, now)
  }

  function PtpHandled(p: PtpView, info: Ptp.PtpInfo, now: Time): PtpView {
    PtpView(p.domains[(info.domain, info.version) := Ptp.Updated(DomainOr(p, info, now), info, info.protocolKind, now)],
            if info.version == Ptp.VERSION_V1 && info.messageType == Ptp.DELAY_REQ && info.srcIp.Some?
            then p.followers[info.srcIp.value := now] else p.followers)
  }

  function Declared(msrp: map<StreamId, Declaration>, ds: seq<(StreamId, Declaration)>): map<StreamId, Declaration> {
    if ds == [] then msrp else Declared(msrp, Front(ds))[Last(ds).0 := Last(ds).1]
  }

  // `NdiState::record_source`, bounded like the Dante sources.
  function NdiRecorded(c: Capture, ip: Ip, victim: Ip): set<Ip> {
    if ip !in c.ndiSources && |c.ndiSources| >= Dante.MAX_SOURCES then c.ndiSources - {victim} + {ip}
    else c.ndiSources + {ip}
  }

  function QueryHeard(c: Capture, f: Frame, now: Time): Capture
    requires f.GeneralQuery?
  {
    c.(health := c.health.(
         queryInterval := if c.health.lastQuery.Some?
                          then Some(WholeSecs(Since(now, c.health.lastQuery.value))) else c.health.queryInterval,
         lastQuery := Some(now)),
       igmp := c.igmp.(queriers := c.igmp.queriers + {f.src}, querierVersion := Some(f.version)))
  }

  function Handled(c: Capture, f: Frame, now: Time): Capture
    requires WellFormed(c) && ValidFrame(f)
  {
    match f
    case MediaFrame(key, created, _, ecn, _, _, _) =>
      c.(streams := c.streams[key := MediaSeen(StreamOr(c, key, created), f, now)],
         health := EcnMarked(c.health, ecn))
    case DanteAudio(key, created, _, ecn, _, _) =>
      c.(streams := c.streams[key := DanteAudioSeen(StreamOr(c, key, created), f, now)],
         health := EcnMarked(c.health, ecn))
    case TcpFrame(_, _, _, _, _) => TcpHandled(c, f, now)
    case AvtpFrame(_, _, _) => c.(avb := AvtpHandled(c.avb, f, now))
    case PtpFrame(info) => c.(ptp := PtpHandled(c.ptp, info, now))
    case DanteFrame(e, victim) => c.(dante := Dante.Handled(c.dante, e, victim, now))
    case NdiDiscovery(ip, victim) => c.(ndiSources := NdiRecorded(c, ip, victim))
    case SapFrame(session, stale) =>
      var enriched := c.(streams := EnrichedAll(c.streams, session.media));
      enriched.(sdpCache := SdpCached(enriched, session, stale))
    case MsrpFrame(ds) => c.(avb := c.avb.(msrp := Declared(c.avb.msrp, ds)))
    case MvrpFrame(vids) => c.(avb := c.avb.(vlans := c.avb.vlans + set v | v in vids))
    case IgmpJoin(src, group) => c.(igmp := c.igmp.(joins := c.igmp.joins[(src, group) := now]))
    case IgmpLeave(src, group) => c.(igmp := c.igmp.(joins := c.igmp.joins - {(src, group)}))
    case IgmpV3Report => c.(igmp := c.igmp.(v3Report := true))
    case GeneralQuery(_, _) => QueryHeard(c, f, now)
    case AdpAvailable(e, valid, index) =>
      c.(avb := c.avb.(entities := c.avb.entities[e := Entity(valid, index, now)]))
    case AdpDeparting(e) => c.(avb := c.avb.(entities := c.avb.entities - {e}))
    case LldpEee(port, wake) => c.(eee := c.eee[port := wake])
    case FlowControl(pfc) =>
      c.(traffic := if pfc then c.traffic.(pfcFrames := c.traffic.pfcFrames + 1)
                    else c.traffic.(pauseFrames := c.traffic.pauseFrames + 1))
    case Unmonitored => c
  }

  function Processed(c: Capture, p: Packet, now: Time): Capture
    requires WellFormed(c) && ValidFrame(p.frame)
  {
    var h := Handled(c.(traffic := c.traffic.(dispatched := c.traffic.dispatched + 1)), p.frame, now);
    h.(traffic := h.traffic.(
         bytes := h.traffic.bytes + p.bytes,
         multicastBytes := h.traffic.multicastBytes + if p.multicastIp then p.bytes else 0))
  }
}
