// When each alert of a close is raised, read off the sources, clocks, streams and counters
// before it.
module CheckLaws {
  import opened Alerts
  import opened Basics
  import opened Capture
  import opened Scoring
  import opened Streams
  import opened Substates
  import Dante
  import Ptp
  import Sums

  // ---- Which check raises which alert ---------------------------------------

  // The part of the printed alerts that can hold this one.
  function Part(c: Capture, offline: bool, now: Time, order: seq<DomainKey>, a: Alert): seq<Alert>
    requires forall k :: k in order ==> k in c.ptp.domains
  {
    match a
    case ClockLostAlert(_, _, _) => ClockAlerts(c, now, order)
    case ClockDropout => ClockAlerts(c, now, order)
    case StreamCountSpike(_, _) => SpikeAlerts(c)
    case QueryIntervalLong(_) => IntervalAlerts(c.health)
    case MultipleQuerierAlert(_) =>
      if QuerierConflict(c.igmp, HasMulticast(c.streams)) then [MultipleQuerierAlert(c.igmp.queriers)] else []
    case QuerierVersionMismatch => VersionAlerts(c.igmp)
    case FilterUnregistered => FilterAlerts(c)
    case HighMulticastBandwidth(_) => BandwidthAlerts(c)
    case SnoopingBlocksPtp => SnoopingAlerts(c, offline)
    case _ => []
  }

  lemma {:induction false} OnlyLostAlerts(order: seq<DomainKey>, domains: map<DomainKey, Ptp.Domain>, now: Time)
    requires forall k :: k in order ==> k in domains
    ensures forall a :: a in LostAlerts(order, domains, now) ==> a.ClockLostAlert?
  {
    hide Ptp.TimesOut;
    if order != [] {
      OnlyLostAlerts(Front(order), domains, now);
    }
  }

  lemma OnlyOwnKinds(c: Capture, offline: bool, now: Time, order: seq<DomainKey>)
    requires forall k :: k in order ==> k in c.ptp.domains
    ensures forall a :: a in ClockAlerts(c, now, order) ==> a.ClockLostAlert? || a.ClockDropout?
    ensures forall a :: a in SpikeAlerts(c) ==> a.StreamCountSpike?
    ensures forall a :: a in IntervalAlerts(c.health) ==> a.QueryIntervalLong?
    ensures forall a :: a in VersionAlerts(c.igmp) ==> a.QuerierVersionMismatch?
    ensures forall a :: a in FilterAlerts(c) ==> a.FilterUnregistered?
    ensures forall a :: a in BandwidthAlerts(c) ==> a.HighMulticastBandwidth?
    ensures forall a :: a in SnoopingAlerts(c, offline) ==> a.SnoopingBlocksPtp?
  {
    hide DropoutCorrelated, TimeoutsChecked, HasMulticast, FilterSuspected, StreamCount;
    OnlyLostAlerts(order, c.ptp.domains, now);
  }

  lemma EmissionShows(c: Capture, offline: bool, now: Time, order: seq<DomainKey>, a: Alert)
    requires forall k :: k in order ==> k in c.ptp.domains
    ensures a in Emission(c, offline, now, order) <==> a in Part(c, offline, now, order, a)
  {
    hide ClockAlerts, IntervalAlerts, VersionAlerts, BandwidthAlerts, SnoopingAlerts, SpikeAlerts, FilterAlerts;
    hide QuerierConflict, HasMulticast;
    OnlyOwnKinds(c, offline, now, order);
  }

  // The place of an alert in what a close prints.
  function Place(a: Alert): nat {
    match a
    case ClockLostAlert(_, _, _) => 0
    case ClockDropout => 0
    case StreamCountSpike(_, _) => 1
    case QueryIntervalLong(_) => 2
    case MultipleQuerierAlert(_) => 3
    case QuerierVersionMismatch => 4
    case FilterUnregistered => 5
    case HighMulticastBandwidth(_) => 6
    case SnoopingBlocksPtp => 7
    case _ => 8
  }

  ghost predicate InOrder(s: seq<Alert>, places: nat) {
    && (forall i :: 0 <= i < |s| ==> Place(s[i]) < places)
    && (forall i, j :: 0 <= i < j < |s| ==>
          Place(s[i]) < Place(s[j]) || (s[i].ClockLostAlert? && s[j].ClockLostAlert?))
  }

  // One alert at most, or several of lost clocks.
  ghost predicate AllAt(s: seq<Alert>, place: nat) {
    && (forall i :: 0 <= i < |s| ==> Place(s[i]) == place)
    && (|s| > 1 ==> forall i :: 0 <= i < |s| ==> s[i].ClockLostAlert?)
  }

  lemma OrderExtends(s: seq<Alert>, more: seq<Alert>, places: nat)
    requires InOrder(s, places) && AllAt(more, places)
    ensures InOrder(s + more, places + 1)
  {}

  function Rivals(c: Capture): seq<Alert> {
    if QuerierConflict(c.igmp, HasMulticast(c.streams)) then [MultipleQuerierAlert(c.igmp.queriers)] else []
  }

  lemma PartsInPlace(c: Capture, offline: bool, now: Time, order: seq<DomainKey>)
    requires forall k :: k in order ==> k in c.ptp.domains
    ensures AllAt(ClockAlerts(c, now, order), 0) && AllAt(SpikeAlerts(c), 1) && AllAt(IntervalAlerts(c.health), 2)
    ensures AllAt(Rivals(c), 3) && AllAt(VersionAlerts(c.igmp), 4) && AllAt(FilterAlerts(c), 5)
    ensures AllAt(BandwidthAlerts(c), 6) && AllAt(SnoopingAlerts(c, offline), 7)
  {
    OneEach(c, offline);
    hide IntervalAlerts, VersionAlerts, BandwidthAlerts, SnoopingAlerts, SpikeAlerts, FilterAlerts;
    hide QuerierConflict, HasMulticast, DropoutCorrelated, TimeoutsChecked, LostAlerts;
    OnlyLostAlerts(order, c.ptp.domains, now);
    OnlyOwnKinds(c, offline, now, order);
    assert forall a :: a in Rivals(c) ==> a.MultipleQuerierAlert?;
  }

  lemma OneEach(c: Capture, offline: bool)
    ensures |SpikeAlerts(c)| <= 1 && |IntervalAlerts(c.health)| <= 1 && |VersionAlerts(c.igmp)| <= 1
    ensures |FilterAlerts(c)| <= 1 && |BandwidthAlerts(c)| <= 1 && |SnoopingAlerts(c, offline)| <= 1
  {
    hide FilterSuspected, StreamCount, HasMulticast;
  }

  // The stand-alone alerts of a close print in this order, each kind once but for the
  // clocks falling silent.
  lemma EmissionInOrder(c: Capture, offline: bool, now: Time, order: seq<DomainKey>)
    requires forall k :: k in order ==> k in c.ptp.domains
    ensures InOrder(Emission(c, offline, now, order), 8)
  {
    hide ClockAlerts, IntervalAlerts, VersionAlerts, BandwidthAlerts, SnoopingAlerts, SpikeAlerts, FilterAlerts;
    hide QuerierConflict, HasMulticast, InOrder, AllAt;
    PartsInPlace(c, offline, now, order);
    NoneInOrder();
    var s := ClockAlerts(c, now, order);
    OrderExtends([], s, 0);
    assert [] + s == s;
    OrderExtends(s, SpikeAlerts(c), 1);
    s := s + SpikeAlerts(c);
    OrderExtends(s, IntervalAlerts(c.health), 2);
    s := s + IntervalAlerts(c.health);
    OrderExtends(s, Rivals(c), 3);
    s := s + Rivals(c);
    OrderExtends(s, VersionAlerts(c.igmp), 4);
    s := s + VersionAlerts(c.igmp);
    OrderExtends(s, FilterAlerts(c), 5);
    s := s + FilterAlerts(c);
    OrderExtends(s, BandwidthAlerts(c), 6);
    s := s + BandwidthAlerts(c);
    OrderExtends(s, SnoopingAlerts(c, offline), 7);
  }

  lemma NoneInOrder()
    ensures InOrder([], 0)
  {}

  // ---- Clocks ---------------------------------------------------------------

  // Silent for more than five seconds at this very close.
  ghost predicate FallsSilent(d: Ptp.Domain, now: Time) {
    d.gm.valid && now > d.lastSeen + 5 * SECOND
  }

  // A clock of the version, carried by IP, that is lost or falls silent now.
  ghost predicate LostClock(c: Capture, now: Time, version: nat) {
    exists k :: k in c.ptp.domains && c.ptp.domains[k].version == version
                && c.ptp.domains[k].protocolKind != Some("AVB")
                && (c.ptp.domains[k].gm.lost || FallsSilent(c.ptp.domains[k], now))
  }

  ghost predicate LosingDante(c: Capture) {
    exists k :: k in c.streams && c.streams[k].count.lostThisWindow > 0 && c.streams[k].id.protocol.Dante?
  }

  ghost predicate LosingPtpv2(c: Capture) {
    exists k :: k in c.streams && c.streams[k].count.lostThisWindow > 0
                && (c.streams[k].id.protocol.Aes67? || c.streams[k].id.protocol.St2110?)
  }

  // A lost PTPv1 clock meets Dante losses, or a lost PTPv2 clock those of AES67 or ST 2110.
  ghost predicate Dropout(c: Capture, now: Time) {
    (LostClock(c, now, 1) && LosingDante(c)) || (LostClock(c, now, 2) && LosingPtpv2(c))
  }

  lemma LostIsLost(c: Capture, now: Time, version: nat)
    ensures ClockLostFor(TimeoutsChecked(c.ptp.domains, now), version) <==> LostClock(c, now, version)
  {
    var seen := TimeoutsChecked(c.ptp.domains, now);
    forall k | k in c.ptp.domains
      ensures k in seen && seen[k].version == c.ptp.domains[k].version
      ensures seen[k].protocolKind == c.ptp.domains[k].protocolKind
      ensures seen[k].gm.lost <==> c.ptp.domains[k].gm.lost || FallsSilent(c.ptp.domains[k], now)
    {}
  }

  lemma LosingIsLoss(c: Capture)
    ensures AnyLoss(c.streams, AnyPtp) <==> LosingDante(c)
    ensures AnyLoss(c.streams, Ptpv2) <==> LosingPtpv2(c)
  {
    forall k | k in c.streams
      ensures LosesUnder(c.streams[k], AnyPtp) <==>
                c.streams[k].count.lostThisWindow > 0 && c.streams[k].id.protocol.Dante?
      ensures LosesUnder(c.streams[k], Ptpv2) <==>
                c.streams[k].count.lostThisWindow > 0
                && (c.streams[k].id.protocol.Aes67? || c.streams[k].id.protocol.St2110?)
    {}
  }

  lemma DropoutIsCorrelated(c: Capture, now: Time)
    ensures DropoutCorrelated(TimeoutsChecked(c.ptp.domains, now), c.streams) <==> Dropout(c, now)
  {
    hide ClockLostFor, AnyLoss, TimeoutsChecked, LostClock, LosingDante, LosingPtpv2;
    LostIsLost(c, now, 1);
    LostIsLost(c, now, 2);
    LosingIsLoss(c);
  }

  lemma {:induction false} LostAlertsExactly(order: seq<DomainKey>, domains: map<DomainKey, Ptp.Domain>, now: Time,
                                             a: Alert)
    requires forall k :: k in order ==> k in domains
    ensures a in LostAlerts(order, domains, now) <==>
              exists k :: k in order && FallsSilent(domains[k], now) && a == LossOf(domains[k])
  {
    if order != [] {
      LostAlertsExactly(Front(order), domains, now, a);
      assert forall k :: k in order <==> k in Front(order) || k == Last(order);
    }
  }

  ghost function Falling(order: seq<DomainKey>, domains: map<DomainKey, Ptp.Domain>, now: Time): set<DomainKey>
    requires forall k :: k in order ==> k in domains
  {
    set k | k in order && FallsSilent(domains[k], now)
  }

  lemma FallingLast(order: seq<DomainKey>, domains: map<DomainKey, Ptp.Domain>, now: Time)
    requires order != [] && (forall k :: k in order ==> k in domains) && Last(order) !in Front(order)
    ensures |Falling(order, domains, now)|
         == |Falling(Front(order), domains, now)| + if FallsSilent(domains[Last(order)], now) then 1 else 0
  {
    hide FallsSilent;
    var all, before := Falling(order, domains, now), Falling(Front(order), domains, now);
    assert forall k :: k in order <==> k in Front(order) || k == Last(order);
    if FallsSilent(domains[Last(order)], now) {
      assert all == before + {Last(order)};
    } else {
      assert all == before;
    }
  }

  // With one alert for every such clock.
  lemma {:induction false} LostAlertsCount(order: seq<DomainKey>, domains: map<DomainKey, Ptp.Domain>, now: Time)
    requires forall k :: k in order ==> k in domains
    requires forall i, j :: 0 <= i < j < |order| ==> order[i] != order[j]
    ensures |LostAlerts(order, domains, now)| == |Falling(order, domains, now)|
  {
    hide Falling;
    if order == [] {
      NoneFalling(domains, now);
    } else {
      LostAlertsCount(Front(order), domains, now);
      FallingLast(order, domains, now);
    }
  }

  lemma NoneFalling(domains: map<DomainKey, Ptp.Domain>, now: Time)
    ensures Falling([], domains, now) == {}
  {}

  ghost predicate IsFallingSilent(c: Capture, now: Time, a: Alert) {
    exists k :: k in c.ptp.domains && FallsSilent(c.ptp.domains[k], now) && a == LossOf(c.ptp.domains[k])
  }

  function LossOf(d: Ptp.Domain): Alert {
    ClockLostAlert(d.domain, d.version, d.protocolKind)
  }

  // The combined alert is raised exactly when a lost clock meets losses of its family, and
  // otherwise one alert for every clock that falls silent at this close, and no other.
  lemma ClockAlertsExactly(c: Capture, offline: bool, now: Time, order: seq<DomainKey>, a: Alert)
    requires Sums.Enumerates(order, c.ptp.domains.Keys) && forall k :: k in order ==> k in c.ptp.domains
    requires a.ClockDropout? || a.ClockLostAlert?
    ensures a in Emission(c, offline, now, order) <==>
              if a.ClockDropout? then Dropout(c, now)
              else !Dropout(c, now) && IsFallingSilent(c, now, a)
  {
    hide Emission, DropoutCorrelated, TimeoutsChecked, LostAlerts, Dropout, FallsSilent;
    EmissionShows(c, offline, now, order, a);
    DropoutIsCorrelated(c, now);
    OnlyLostAlerts(order, c.ptp.domains, now);
    LostAlertsExactly(order, c.ptp.domains, now, a);
    OrderIsKeys(order, c.ptp.domains.Keys);
  }

  lemma OrderIsKeys<K>(order: seq<K>, keys: set<K>)
    requires Sums.Enumerates(order, keys)
    ensures forall k :: k in order <==> k in keys
  {
    assert forall k :: k in order <==> k in (set x | x in order);
  }

  // ---- Queriers and traffic -------------------------------------------------

  ghost predicate MulticastFlows(c: Capture) {
    exists k :: k in c.streams && c.streams[k].id.isMulticast && c.streams[k].count.packets > 0
  }

  lemma FlowsIsActive(c: Capture)
    ensures HasMulticast(c.streams) <==> MulticastFlows(c)
  {
    if k :| k in c.streams && c.streams[k].id.isMulticast && c.streams[k].count.packets > 0 {
      assert ActiveMulticast(c.streams[k]);
    }
    if k :| k in c.streams && ActiveMulticast(c.streams[k]) {
      assert c.streams[k].id.isMulticast && c.streams[k].count.packets > 0;
    }
  }

  ghost predicate PtpSpoken(c: Capture) {
    exists k :: k in c.ptp.domains && c.ptp.domains[k].packets > 0
  }

  // Queries more than a minute apart; two queriers while multicast flows; a version-2
  // querier among version-3 hosts; more than 80 Mbit/s of multicast over the five seconds
  // without any querier; and, in live mode, Dante devices with neither clock nor querier.
  lemma QuerierAlertsExactly(c: Capture, offline: bool, now: Time, order: seq<DomainKey>, a: Alert)
    requires forall k :: k in order ==> k in c.ptp.domains
    requires a.QueryIntervalLong? || a.MultipleQuerierAlert? || a.QuerierVersionMismatch? || a.HighMulticastBandwidth?
             || a.SnoopingBlocksPtp?
    ensures a in Emission(c, offline, now, order) <==>
              match a
              case QueryIntervalLong(secs) => c.health.queryInterval == Some(secs) && secs > 60
              case MultipleQuerierAlert(ips) => ips == c.igmp.queriers && |ips| >= 2 && MulticastFlows(c)
              case QuerierVersionMismatch => c.igmp.querierVersion == Some(2) && c.igmp.v3Report
              case HighMulticastBandwidth(octets) =>
                octets == c.traffic.multicastBytes && octets > 50_000_000 && c.health.lastQuery == None
              case SnoopingBlocksPtp =>
                !offline && (c.dante.sources != {} || c.dante.conmon != map[]) && !PtpSpoken(c)
                && c.health.lastQuery == None
              case _ => false
  {
    hide Emission, ClockAlerts, SpikeAlerts, FilterAlerts, HasMulticast, MulticastFlows;
    EmissionShows(c, offline, now, order, a);
    FlowsIsActive(c);
  }

  // ---- Addresses of the Dante sources ---------------------------------------

  // The first two octets of an address.
  ghost predicate SelfAssigned(ip: Ip) {
    var (first, second) := (ip / 0x100_0000, ip / 0x1_0000 % 256);
    (first == 169 && second == 254) || (first == 172 && second == 31)
  }

  ghost predicate SameSubnet(a: Ip, b: Ip) {
    a / 256 == b / 256
  }

  lemma SelfAssignedIsLinkLocal(ip: Ip)
    ensures LinkLocal(ip) <==> SelfAssigned(ip)
  {}

  // One address of every subnet of the others.
  ghost predicate Represents(reps: set<Ip>, ips: set<Ip>) {
    && reps <= ips
    && (forall a, b :: a in reps && b in reps && SameSubnet(a, b) ==> a == b)
    && (forall a :: a in ips ==> exists b :: b in reps && SameSubnet(a, b))
  }

  ghost function Subnets(ips: set<Ip>): set<nat> {
    set ip | ip in ips :: ip / 0x100
  }

  lemma {:induction false} RepresentsCounts(reps: set<Ip>, ips: set<Ip>)
    requires Represents(reps, ips)
    ensures |reps| == |Subnets(ips)|
    decreases |reps|
  {
    if reps == {} {
      assert forall a :: a !in ips;
      assert Subnets(ips) == {};
    } else {
      var r :| r in reps;
      var rest := set ip | ip in ips && !SameSubnet(ip, r);
      assert Represents(reps - {r}, rest) by {
        forall a | a in rest ensures exists b :: b in reps - {r} && SameSubnet(a, b) {
          var b :| b in reps && SameSubnet(a, b);
          assert b != r;
        }
      }
      RepresentsCounts(reps - {r}, rest);
      assert r in ips;
      assert Subnets(ips) == Subnets(rest) + {r / 0x100} by {
        forall n ensures n in Subnets(ips) <==> n in Subnets(rest) || n == r / 0x100 {
          if n in Subnets(ips) && n != r / 0x100 {
            var ip :| ip in ips && ip / 0x100 == n;
            assert ip in rest;
          }
        }
      }
      assert r / 0x100 !in Subnets(rest);
    }
  }

  // Among two or more sources, one without a proper address while another has one.
  ghost predicate LacksDhcp(d: Dante.Dante, ip: Ip) {
    && |d.sources| >= 2 && ip in d.sources && SelfAssigned(ip)
    && exists other :: other in d.sources && !SelfAssigned(other)
  }

  lemma NoDhcpExactly(d: Dante.Dante, ip: Ip)
    ensures NoDhcpAddress(ip) in IpConfigAlerts(d) <==> LacksDhcp(d, ip)
  {
    hide LinkLocal, SelfAssigned;
    forall x: Ip ensures LinkLocal(x) <==> SelfAssigned(x) { SelfAssignedIsLinkLocal(x); }
    var linkLocal := set x | x in d.sources && LinkLocal(x);
    if ip in d.sources && SelfAssigned(ip) {
      assert ip in linkLocal;
    }
    if other :| other in d.sources && !SelfAssigned(other) {
      assert other in d.sources - linkLocal;
    }
  }

  // And the number of subnets is, when two or more properly addressed sources span more
  // than one.
  lemma SubnetsExactly(d: Dante.Dante, n: nat, reps: set<Ip>)
    requires Represents(reps, set ip | ip in d.sources && !SelfAssigned(ip))
    ensures SubnetsSpanned(n) in IpConfigAlerts(d) <==> n == |reps| && n >= 2
  {
    hide LinkLocal, SelfAssigned, Represents;
    forall x: Ip ensures LinkLocal(x) <==> SelfAssigned(x) { SelfAssignedIsLinkLocal(x); }
    var linkLocal := set x | x in d.sources && LinkLocal(x);
    var routable := d.sources - linkLocal;
    assert routable == set ip | ip in d.sources && !SelfAssigned(ip);
    RepresentsCounts(reps, routable);
    assert Subnets(routable) == set ip | ip in routable :: ip / 0x100;
    SubsetOf(reps, routable, d.sources);
  }

  lemma SubsetOf(reps: set<Ip>, routable: set<Ip>, sources: set<Ip>)
    requires Represents(reps, routable) && routable <= sources
    ensures |reps| <= |routable| <= |sources|
  {
    Sums.SubsetSize(reps, routable);
    Sums.SubsetSize(routable, sources);
  }

  // A MAC seen from two addresses or more, and all of them.
  ghost predicate Bridges(d: Dante.Dante, mac: nat, ips: set<Ip>) {
    |ips| >= 2 && forall ip :: ip in ips <==> ip in d.conmon && d.conmon[ip].mac == mac
  }

  lemma BridgeExactly(d: Dante.Dante, mac: nat, ips: set<Ip>)
    ensures RedundancyBridged(mac, ips) in BridgeAlerts(d) <==> Bridges(d, mac, ips)
  {
    if RedundancyBridged(mac, ips) in BridgeAlerts(d) {
      assert ips == SharingMac(d, mac);
    }
    if Bridges(d, mac, ips) {
      assert ips == SharingMac(d, mac);
      var ip :| ip in ips;
      assert ip in d.conmon && |SharingMac(d, d.conmon[ip].mac)| >= 2;
    }
  }

  // ---- Followers ------------------------------------------------------------

  // A tracked source that is not following, and not the grandmaster.
  ghost predicate Straggles(d: Dante.Dante, p: PtpView, gm: Option<Ip>, ip: Ip) {
    ip in d.sources && ip !in p.followers && gm != Some(ip)
  }

  // The address the source takes for the grandmaster of PTPv1: one that some domain names,
  // or none if no domain names any.
  lemma ChoiceExactly(p: PtpView, gm: Option<Ip>)
    ensures GrandmasterChoice(p, gm) <==>
              if gm.Some? then exists k :: k in p.domains && k.1 == 1 && p.domains[k].src.grandmasterSrcIp == gm
              else forall k :: k in p.domains && k.1 == 1 ==> p.domains[k].src.grandmasterSrcIp == None
  {}

  // The census is taken when a PTPv1 domain is known, two sources or more are, and someone
  // follows. It reports exactly the stragglers, but not a lone one while no grandmaster is
  // known, which may be it.
  ghost predicate CensusMisses(d: Dante.Dante, p: PtpView, gm: Option<Ip>, missing: set<Ip>) {
    && (exists k :: k in p.domains && k.1 == 1) && |d.sources| >= 2 && p.followers != map[]
    && missing != {} && (forall ip :: ip in missing <==> Straggles(d, p, gm, ip))
    && (gm == None ==> |missing| >= 2)
  }

  lemma FollowersExactly(d: Dante.Dante, p: PtpView, gm: Option<Ip>, missing: set<Ip>)
    ensures FollowersMissing(missing) in FollowerAlerts(d, p, gm) <==> CensusMisses(d, p, gm, missing)
  {
    CensusReports(d, p, gm, missing);
    NotFollowingIsStragglers(d, p, gm);
    IsStragglers(d, p, gm, missing);
    hide FollowerAlerts, NotFollowing, Straggles, Stragglers;
  }

  lemma CensusReports(d: Dante.Dante, p: PtpView, gm: Option<Ip>, missing: set<Ip>)
    ensures FollowersMissing(missing) in FollowerAlerts(d, p, gm) <==>
              && (exists k :: k in p.domains && k.1 == 1) && |d.sources| >= 2 && p.followers != map[]
              && missing != {} && missing == NotFollowing(d, p, gm)
  {
    hide NotFollowing;
  }

  ghost function Stragglers(d: Dante.Dante, p: PtpView, gm: Option<Ip>): set<Ip> {
    set ip | ip in d.sources && Straggles(d, p, gm, ip)
  }

  lemma StragglersAre(d: Dante.Dante, p: PtpView, gm: Option<Ip>)
    ensures Stragglers(d, p, gm) == match gm
                                    case Some(ip) => d.sources - p.followers.Keys - {ip}
                                    case None => d.sources - p.followers.Keys
  {
    match gm
    case Some(ip) =>
      forall x ensures x in Stragglers(d, p, gm) <==> x in d.sources - p.followers.Keys - {ip} {}
    case None =>
      forall x ensures x in Stragglers(d, p, gm) <==> x in d.sources - p.followers.Keys {}
  }

  lemma NotFollowingIsStragglers(d: Dante.Dante, p: PtpView, gm: Option<Ip>)
    ensures NotFollowing(d, p, gm) == if gm == None && |Stragglers(d, p, gm)| <= 1 then {} else Stragglers(d, p, gm)
  {
    StragglersAre(d, p, gm);
    hide Stragglers;
  }

  lemma IsStragglers(d: Dante.Dante, p: PtpView, gm: Option<Ip>, ips: set<Ip>)
    ensures ips == Stragglers(d, p, gm) <==> forall ip :: ip in ips <==> Straggles(d, p, gm, ip)
  {
    assert forall ip :: ip in Stragglers(d, p, gm) <==> Straggles(d, p, gm, ip);
    hide Straggles, Stragglers;
  }

  // Hence a source that follows, or is the grandmaster, is never reported.
  lemma FollowersAreSpared(d: Dante.Dante, p: PtpView, gm: Option<Ip>, missing: set<Ip>, ip: Ip)
    requires FollowersMissing(missing) in FollowerAlerts(d, p, gm)
    requires ip in p.followers || gm == Some(ip) || ip !in d.sources
    ensures ip !in missing
  {
    FollowersExactly(d, p, gm, missing);
  }

  // ---- Sync senders ---------------------------------------------------------

  ghost predicate PrefersIn(d: Ptp.Domain, preferred: set<Ip>) {
    forall ip :: ip in preferred <==> ip in d.src.syncSenders && d.src.syncSenders[ip] == 0
  }

  // A PTPv1 domain with two Sync senders or more is reported, with those of stratum 0 when
  // they are two or more, else with all of them.
  ghost predicate SyncConflicts(d: Ptp.Domain, preferred: set<Ip>, a: Alert) {
    && d.version == 1 && |d.src.syncSenders| >= 2 && PrefersIn(d, preferred)
    && a == if |preferred| >= 2 then MultiplePreferredLeaders(d.domain, preferred)
            else MultipleSyncSenders(d.domain, d.src.syncSenders.Keys)
  }

  lemma SyncExactly(domains: map<DomainKey, Ptp.Domain>, a: Alert)
    ensures a in SyncAlerts(domains) <==>
              exists k, preferred: set<Ip> :: k in domains && SyncConflicts(domains[k], preferred, a)
  {
    if a in SyncAlerts(domains) {
      var k :| k in domains && SyncConflict(domains[k]) && a == SyncAlert(domains[k]);
      assert SyncConflicts(domains[k], Preferred(domains[k]), a);
    }
    if k, preferred: set<Ip> :| k in domains && SyncConflicts(domains[k], preferred, a) {
      assert preferred == Preferred(domains[k]);
      assert SyncConflict(domains[k]) && a == SyncAlert(domains[k]);
    }
  }

  // ---- Missing clocks -------------------------------------------------------

  // Each missing clock names the families that need it: those selected and seen.
  lemma MissingNames(c: Capture, sel: Selection, m: MissingClock)
    requires m in MissingClocks(c, sel)
    ensures match m.kind
            case Ptpv2 =>
              && ("AES67" in m.affected <==> sel.aes67 && exists k :: k in c.streams && c.streams[k].id.protocol.Aes67?)
              && ("ST2110" in m.affected <==>
                    sel.st2110 && exists k :: k in c.streams && c.streams[k].id.protocol.St2110?)
              && m.affected in {["AES67"], ["ST2110"], ["AES67", "ST2110"]}
            case AnyPtp => m.affected == ["Dante"]
            case Gptp => m.affected == ["AVB"]
  {
    hide HasClock;
    assert "AES67" != "ST2110" by { assert |"AES67"| == 5 && |"ST2110"| == 6; }
    assert ["AES67"] + ["ST2110"] == ["AES67", "ST2110"];
    assert ["AES67"] + [] == ["AES67"] && [] + ["ST2110"] == ["ST2110"];
    SeenProtocols(c);
    hide AnyProtocol, AnySt2110;
  }

  lemma SeenProtocols(c: Capture)
    ensures AnyProtocol(c.streams, Aes67) <==> exists k :: k in c.streams && c.streams[k].id.protocol.Aes67?
    ensures AnySt2110(c.streams) <==> exists k :: k in c.streams && c.streams[k].id.protocol.St2110?
  {}

  // ---- What a close collects ------------------------------------------------

  // What a close reports beside the printed alerts, on the state before it.
  lemma CloseReports(c: Capture, sel: Selection, offline: bool, now: Time, order: seq<DomainKey>, gm: Option<Ip>,
                     a: Alert, ip: Ip, ips: set<Ip>, mac: nat)
    requires forall k :: k in order ==> k in c.ptp.domains
    ensures var checks := ChecksOf(c, sel, offline, now, order, gm);
            && (a in checks.emission <==> a in Part(c, offline, now, order, a))
            && (NoDhcpAddress(ip) in checks.ipConfig <==> LacksDhcp(c.dante, ip))
            && (RedundancyBridged(mac, ips) in checks.conmonBridge <==> Bridges(c.dante, mac, ips))
            && (FollowersMissing(ips) in checks.followerCensus <==> CensusMisses(c.dante, c.ptp, gm, ips))
            && (a in checks.ptpSync <==>
                  exists k, preferred: set<Ip> :: k in c.ptp.domains && SyncConflicts(c.ptp.domains[k], preferred, a))
            && (ip in checks.unverified <==>
                  ip in c.dante.sources && ip in c.dante.unverifiedWindows && c.dante.unverifiedWindows[ip] >= 3)
            && checks.missingPtp == MissingClocks(Checked(c, now), sel) && checks.traffic == c.traffic
  {
    hide Emission, IpConfigAlerts, BridgeAlerts, FollowerAlerts, SyncAlerts, MissingClocks, Checked, Part;
    EmissionShows(c, offline, now, order, a);
    NoDhcpExactly(c.dante, ip);
    BridgeExactly(c.dante, mac, ips);
    FollowersExactly(c.dante, c.ptp, gm, ips);
    SyncExactly(c.ptp.domains, a);
    hide LacksDhcp, Bridges, CensusMisses, SyncConflicts;
  }
}
