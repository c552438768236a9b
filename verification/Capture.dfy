// The capture state as a value: what one frame does to it, what the periodic checks read
// from it, and what closing a window leaves of it.
module Capture {
  import opened Basics
  import opened Alerts
  import opened Diagnostics
  import opened Scoring
  import opened Streams
  import opened Substates
  import Dante
  import Ptp
  import Tcp

  // Counters of the current window.
  datatype Traffic = Traffic(
    bytes: nat, multicastBytes: nat, dispatched: nat, pauseFrames: nat, pfcFrames: nat)

  const NoTraffic := Traffic(0, 0, 0, 0, 0)

  // A cached session: its media by port, with what each announces.
  datatype SdpMedia = SdpMedia(port: nat, connIp: Option<Ip>, clockHz: real, ptimeMs: real, payloadType: Option<nat>)
  datatype Session = Session(id: string, media: seq<SdpMedia>)

  datatype Capture = Capture(
    streams: map<Key, Stream>, tcp: map<Key, Tcp.Conn>, sdpCache: map<string, Session>,
    health: Health, score: real,
    dante: Dante.Dante, ndiSources: set<Ip>, igmp: Igmp, avb: Avb, ptp: PtpView,
    eee: map<PortKey, (nat, nat)>,
    traffic: Traffic, suspectCycles: nat, countHistory: seq<nat>, dropoutCorrelated: bool)

  const NewCapture := Capture(
    map[], map[], map[], Health(0, 0, None, None, false), 100.0,
    Dante.NoDante, {}, NoIgmp, NoAvb, NoPtp, map[], NoTraffic, 0, [], false)

  function InputsOf(c: Capture, now: Time): Inputs {
    Inputs(c.streams, c.tcp, c.ptp.domains, c.avb.msrp, c.eee, c.avb.streams, now)
  }

  // ---- The periodic checks --------------------------------------------------

  // Which protocol families the user selected, already expanded.
  datatype Selection = Selection(aes67: bool, st2110: bool, dante: bool, avb: bool)

  datatype ClockKind = Ptpv2 | AnyPtp | Gptp
  datatype MissingClock = MissingClock(kind: ClockKind, affected: seq<string>)

  function StreamClockKind(p: Protocol): Option<ClockKind> {
    match p
    case Aes67 => Some(Ptpv2)
    case St2110(_) => Some(Ptpv2)
    case Dante => Some(AnyPtp)
    case Ndi => None
    case Avb => None
  }

  predicate IsGptp(d: Ptp.Domain) {
    d.protocolKind == Some("AVB")
  }

  predicate ClockLostFor(domains: map<DomainKey, Ptp.Domain>, version: nat) {
    exists k :: k in domains && domains[k].gm.lost && domains[k].version == version && !IsGptp(domains[k])
  }

  predicate LosesUnder(s: Stream, kind: ClockKind) {
    s.count.lostThisWindow > 0 && StreamClockKind(s.id.protocol) == Some(kind)
  }

  predicate AnyLoss(streams: map<Key, Stream>, kind: ClockKind) {
    exists k :: k in streams && LosesUnder(streams[k], kind)
  }

  // A lost clock together with losses in the family it serves.
  predicate DropoutCorrelated(domains: map<DomainKey, Ptp.Domain>, streams: map<Key, Stream>) {
    || (ClockLostFor(domains, Ptp.VERSION_V1) && AnyLoss(streams, AnyPtp))
    || (ClockLostFor(domains, Ptp.VERSION_V2) && AnyLoss(streams, Ptpv2))
  }

  function StreamCount(c: Capture): nat {
    |c.streams| + |c.tcp| + |c.avb.streams|
  }

  function Average(h: seq<nat>): nat
    requires |h| == 3
  {
    (h[0] + h[1] + h[2]) / 3
  }

  function SpikeAlerts(c: Capture): seq<Alert> {
    if |c.countHistory| == 3 && Average(c.countHistory) > 0 && StreamCount(c) > Average(c.countHistory) * 2
    then [StreamCountSpike(StreamCount(c), Average(c.countHistory))] else []
  }

  function PushedCount(h: seq<nat>, n: nat): seq<nat> {
    (if |h| == 3 then h[1..] else h) + [n]
  }

  function IntervalAlerts(h: Health): seq<Alert> {
    if h.queryInterval.Some? && h.queryInterval.value > 60 then [QueryIntervalLong(h.queryInterval.value)] else []
  }

  predicate FilterSuspected(c: Capture) {
    && c.dante.conmon != map[]
    && c.dante.names == map[]
    && (forall k :: k in c.ptp.domains ==> c.ptp.domains[k].packets == 0)
    && c.streams == map[] && c.avb.streams == map[]
  }

  function SuspectCycles(c: Capture): nat {
    if FilterSuspected(c) then c.suspectCycles + 1 else 0
  }

  function FilterAlerts(c: Capture): seq<Alert> {
    if SuspectCycles(c) >= 2 then [FilterUnregistered] else []
  }

  // More than 80 Mbit/s over a window of five seconds, without a querier.
  function BandwidthAlerts(c: Capture): seq<Alert> {
    if c.traffic.multicastBytes * 8 > 80_000_000 * 5 && c.health.lastQuery == None
    then [HighMulticastBandwidth(c.traffic.multicastBytes)] else []
  }

  function SnoopingAlerts(c: Capture, offline: bool): seq<Alert> {
    if !offline && (c.dante.sources != {} || c.dante.conmon != map[]) &&
       (forall k :: k in c.ptp.domains ==> c.ptp.domains[k].packets == 0) && c.health.lastQuery == None
    then [SnoopingBlocksPtp] else []
  }

  predicate LinkLocal(ip: Ip) {
    ip / 0x1_0000 == 169 * 256 + 254 || ip / 0x1_0000 == 172 * 256 + 31
  }

  function IpConfigAlerts(d: Dante.Dante): set<Alert> {
    var linkLocal := set ip | ip in d.sources && LinkLocal(ip);
    var routable := d.sources - linkLocal;
    var subnets := set ip | ip in routable :: ip / 0x100;
    if |d.sources| < 2 then {}
    else
      (if linkLocal != {} && routable != {} then set ip | ip in linkLocal :: NoDhcpAddress(ip) else {}) +
      (if |routable| >= 2 && |subnets| > 1 then {SubnetsSpanned(|subnets|)} else {})
  }

  function SharingMac(d: Dante.Dante, mac: nat): set<Ip> {
    set ip | ip in d.conmon && d.conmon[ip].mac == mac
  }

  function BridgeAlerts(d: Dante.Dante): set<Alert> {
    set ip | ip in d.conmon && |SharingMac(d, d.conmon[ip].mac)| >= 2
           :: RedundancyBridged(d.conmon[ip].mac, SharingMac(d, d.conmon[ip].mac))
  }

  // The address of the PTPv1 grandmaster, from whichever domain the map yields first.
  ghost predicate GrandmasterChoice(p: PtpView, gm: Option<Ip>) {
    if gm.Some? then exists k :: k in p.domains && k.1 == Ptp.VERSION_V1 && p.domains[k].src.grandmasterSrcIp == gm
    else forall k :: k in p.domains && k.1 == Ptp.VERSION_V1 ==> p.domains[k].src.grandmasterSrcIp == None
  }

  function NotFollowing(d: Dante.Dante, p: PtpView, gm: Option<Ip>): set<Ip> {
    var candidates := d.sources - p.followers.Keys;
    match gm
    case Some(ip) => candidates - {ip}
    case None => if |candidates| <= 1 then {} else candidates
  }

  function FollowerAlerts(d: Dante.Dante, p: PtpView, gm: Option<Ip>): seq<Alert> {
    if (exists k :: k in p.domains && k.1 == Ptp.VERSION_V1) && |d.sources| >= 2 && p.followers != map[] &&
       NotFollowing(d, p, gm) != {}
    then [FollowersMissing(NotFollowing(d, p, gm))] else []
  }

  predicate AnyProtocol(streams: map<Key, Stream>, p: Protocol) {
    exists k :: k in streams && streams[k].id.protocol == p
  }

  predicate AnySt2110(streams: map<Key, Stream>) {
    exists k :: k in streams && streams[k].id.protocol.St2110?
  }

  // A valid clock that is (or is not) an L2 gPTP one, of some version.
  predicate HasClock(domains: map<DomainKey, Ptp.Domain>, version: Option<nat>, gptp: bool) {
    exists k :: k in domains && domains[k].gm.valid && (version == None || version == Some(domains[k].version))
             && IsGptp(domains[k]) == gptp
  }

  function MissingClocks(c: Capture, sel: Selection): seq<MissingClock> {
    var aes67 := sel.aes67 && AnyProtocol(c.streams, Aes67);
    var st2110 := sel.st2110 && AnySt2110(c.streams);
    (if (aes67 || st2110) && !HasClock(c.ptp.domains, Some(Ptp.VERSION_V2), false)
     then [MissingClock(Ptpv2, (if aes67 then ["AES67"] else []) + if st2110 then ["ST2110"] else [])] else []) +
    (if sel.dante && AnyProtocol(c.streams, Dante) && !HasClock(c.ptp.domains, None, false)
     then [MissingClock(AnyPtp, ["Dante"])] else []) +
    (if sel.avb && c.avb.streams != map[] && !HasClock(c.ptp.domains, None, true)
     then [MissingClock(Gptp, ["AVB"])] else [])
  }

  // ---- Closing a window -----------------------------------------------------

  predicate StreamLives(s: Stream, now: Time) {
    s.arrive.lastPacketTime == None ||
    WholeSecs(Since(now, s.arrive.lastPacketTime.value)) < STREAM_PRUNE_SECS
  }

  function LiveStreams(m: map<Key, Stream>, now: Time): map<Key, Stream> {
    map k | k in m && StreamLives(m[k], now) :: WindowReset(m[k])
  }

  predicate ConnLives(t: Tcp.Conn, now: Time) {
    WholeSecs(Since(now, t.lastSeen)) < STREAM_PRUNE_SECS && t.quality != Tcp.Terminated
  }

  function LiveConns(m: map<Key, Tcp.Conn>, now: Time): map<Key, Tcp.Conn> {
    map k | k in m && ConnLives(m[k], now) :: m[k]
  }

  function SourceIps(m: map<Key, Stream>): set<Ip> {
    set k | k in m && m[k].id.srcIp.Some? :: m[k].id.srcIp.value
  }

  function HealthReset(h: Health): Health {
    h.(tcpRetransmissions := 0, ecnMarks := 0, multipleQueriers := false)
  }

  function WindowClosed(c: Capture, now: Time): Capture {
    var streams := LiveStreams(c.streams, now);
    c.(streams := streams,
       tcp := LiveConns(c.tcp, now),
       health := HealthReset(c.health),
       dante := Dante.WindowClosed(c.dante, SourceIps(streams), now),
       igmp := IgmpReset(c.igmp, now),
       avb := AvbReset(c.avb, now),
       ptp := PtpReset(c.ptp, now),
       traffic := NoTraffic,
       dropoutCorrelated := false)
  }

  // What a check sees: the state before the reset, with the writes of the checks that
  // run earlier.
  function Checked(c: Capture, now: Time): Capture {
    var domains := TimeoutsChecked(c.ptp.domains, now);
    c.(ptp := c.ptp.(domains := domains),
       health := c.health.(multipleQueriers := c.health.multipleQueriers
                                               || QuerierConflict(c.igmp, HasMulticast(c.streams))),
       suspectCycles := SuspectCycles(c),
       countHistory := PushedCount(c.countHistory, StreamCount(c)))
  }

  datatype WindowChecks = WindowChecks(
    emission: seq<Alert>, ipConfig: set<Alert>, conmonBridge: set<Alert>, followerCensus: seq<Alert>,
    ptpSync: set<Alert>, unverified: set<Ip>, missingPtp: seq<MissingClock>, traffic: Traffic)

  // The clock alerts: one combined alert when the dropout correlates with losses.
  function ClockAlerts(c: Capture, now: Time, order: seq<DomainKey>): seq<Alert>
    requires forall k :: k in order ==> k in c.ptp.domains
  {
    if DropoutCorrelated(TimeoutsChecked(c.ptp.domains, now), c.streams) then [ClockDropout]
    else LostAlerts(order, c.ptp.domains, now)
  }

  // The stand-alone alerts, in the order they print.
  function Emission(c: Capture, offline: bool, now: Time, order: seq<DomainKey>): seq<Alert>
    requires forall k :: k in order ==> k in c.ptp.domains
  {
    ClockAlerts(c, now, order) + SpikeAlerts(c) + IntervalAlerts(c.health) +
    (if QuerierConflict(c.igmp, HasMulticast(c.streams)) then [MultipleQuerierAlert(c.igmp.queriers)] else []) +
    VersionAlerts(c.igmp) + FilterAlerts(c) + BandwidthAlerts(c) + SnoopingAlerts(c, offline)
  }

  function ChecksOf(c: Capture, sel: Selection, offline: bool, now: Time, order: seq<DomainKey>,
                    gm: Option<Ip>): WindowChecks
    requires forall k :: k in order ==> k in c.ptp.domains
  {
    var seen := Checked(c, now);
    WindowChecks(
      Emission(c, offline, now, order),
      IpConfigAlerts(c.dante), BridgeAlerts(c.dante), FollowerAlerts(c.dante, c.ptp, gm),
      SyncAlerts(c.ptp.domains), Dante.Unverified(c.dante), MissingClocks(seen, sel), c.traffic)
  }

  ghost function Closed(c: Capture, now: Time): Capture {
    var seen := Checked(c, now);
    WindowClosed(seen, now).(score := Score(seen.health, InputsOf(seen, now)))
  }
}
