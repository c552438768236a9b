// The IGMP, AVB and PTP substates of the capture state, with their checks and resets.
module Substates {
  import opened Basics
  import opened Scoring
  import opened Alerts
  import opened Diagnostics
  import Avtp
  import Ptp
  import Sums

  // ---- IGMP -----------------------------------------------------------------

  const IGMP_JOIN_DEDUP_TTL_SECS: nat := 300

  datatype Igmp = Igmp(
    joins: map<(Ip, Ip), Time>, queriers: set<Ip>, querierVersion: Option<nat>, v3Report: bool)

  const NoIgmp := Igmp(map[], {}, None, false)

  function IgmpReset(s: Igmp, now: Time): Igmp {
    Igmp(map k | k in s.joins && Since(now, s.joins[k]) < IGMP_JOIN_DEDUP_TTL_SECS * SECOND :: s.joins[k],
         {}, s.querierVersion, false)
  }

  predicate QuerierConflict(s: Igmp, multicast: bool) {
    multicast && |s.queriers| >= 2
  }

  function VersionAlerts(s: Igmp): seq<Alert> {
    if s.querierVersion == Some(2) && s.v3Report then [QuerierVersionMismatch] else []
  }

  class IgmpState {
    var joins: map<(Ip, Ip), Time>
    var queriers: set<Ip>
    var querierVersion: Option<nat>
    var v3Report: bool

    function View(): Igmp
      reads this
    {
      Igmp(joins, queriers, querierVersion, v3Report)
    }

    constructor ()
      ensures View() == NoIgmp
    {
      joins, queriers, querierVersion, v3Report := map[], {}, None, false;
    }

    // Flags the conflict on the health record, where the score reads it.
    method CheckMultipleQueriers(health: NetworkHealth, multicast: bool) returns (alerts: seq<Alert>)
      modifies health`multipleQueriers
      ensures health.multipleQueriers == (old(health.multipleQueriers) || QuerierConflict(View(), multicast))
      ensures alerts == if QuerierConflict(View(), multicast) then [MultipleQuerierAlert(queriers)] else []
    {
      if !multicast {
        return [];
      }
      if |queriers| < 2 {
        return [];
      }
      health.multipleQueriers := true;
      alerts := [MultipleQuerierAlert(queriers)];
    }

    method ResetWindow(now: Time)
      modifies this
      ensures View() == IgmpReset(old(View()), now)
    {
      queriers := {};
      v3Report := false;
      joins := map k | k in joins && Since(now, joins[k]) < IGMP_JOIN_DEDUP_TTL_SECS * SECOND :: joins[k];
    }
  }

  // ---- AVB ------------------------------------------------------------------

  datatype Entity = Entity(validTimeSecs: nat, availableIndex: nat, lastSeen: Time)

  datatype Avb = Avb(
    streams: map<StreamId, Avtp.AvtpStream>, msrp: map<StreamId, Declaration>, vlans: set<nat>,
    entities: map<nat, Entity>)

  const NoAvb := Avb(map[], map[], {}, map[])

  function LiveAvtp(m: map<StreamId, Avtp.AvtpStream>, now: Time): map<StreamId, Avtp.AvtpStream> {
    map k | k in m && WholeSecs(Since(now, m[k].lastSeen)) < STREAM_PRUNE_SECS :: m[k]
  }

  predicate EntityLives(e: Entity, now: Time) {
    WholeSecs(Since(now, e.lastSeen)) < Max(e.validTimeSecs, 10) + 10
  }

  function AvbReset(s: Avb, now: Time): Avb {
    var live := LiveAvtp(s.streams, now);
    Avb(live,
        map k | k in s.msrp && k in live :: s.msrp[k],
        if live == map[] then {} else s.vlans,
        map k | k in s.entities && EntityLives(s.entities[k], now) :: s.entities[k])
  }

  class AvbState {
    var streams: map<StreamId, Avtp.AvtpStream>
    var msrp: map<StreamId, Declaration>
    var vlans: set<nat>
    var entities: map<nat, Entity>

    function View(): Avb
      reads this
    {
      Avb(streams, msrp, vlans, entities)
    }

    constructor ()
      ensures View() == NoAvb
    {
      streams, msrp, vlans, entities := map[], map[], {}, map[];
    }

    method ResetWindow(now: Time)
      modifies this
      ensures View() == AvbReset(old(View()), now)
    {
      streams := LiveAvtp(streams, now);
      msrp := map k | k in msrp && k in streams :: msrp[k];
      if streams == map[] {
        vlans := {};
      }
      entities := map k | k in entities && EntityLives(entities[k], now) :: entities[k];
    }
  }

  // ---- PTP ------------------------------------------------------------------

  const FOLLOWER_PRUNE_SECS: nat := 15

  datatype PtpView = PtpView(domains: map<DomainKey, Ptp.Domain>, followers: map<Ip, Time>)

  const NoPtp := PtpView(map[], map[])

  function PtpReset(s: PtpView, now: Time): PtpView {
    PtpView(map k | k in s.domains :: Ptp.SendersCleared(s.domains[k]),
            map ip | ip in s.followers && WholeSecs(Since(now, s.followers[ip])) < FOLLOWER_PRUNE_SECS
                   :: s.followers[ip])
  }

  // Every domain after the periodic timeout check.
  function TimeoutsChecked(domains: map<DomainKey, Ptp.Domain>, now: Time): map<DomainKey, Ptp.Domain> {
    map k | k in domains :: Ptp.TimeoutChecked(domains[k], now)
  }

  // One alert per domain that times out, in the order the map yields them.
  function LostAlerts(order: seq<DomainKey>, domains: map<DomainKey, Ptp.Domain>, now: Time): seq<Alert>
    requires forall k :: k in order ==> k in domains
  {
    if order == [] then []
    else
      var d := domains[Last(order)];
      LostAlerts(Front(order), domains, now) +
      if Ptp.TimesOut(d, now) then [ClockLostAlert(d.domain, d.version, d.protocolKind)] else []
  }

  // The domains after checking the first i of the order.
  ghost function CheckedUpTo(domains: map<DomainKey, Ptp.Domain>, order: seq<DomainKey>, i: nat, now: Time)
    : map<DomainKey, Ptp.Domain>
    requires i <= |order|
  {
    map k | k in domains :: if k in order[..i] then Ptp.TimeoutChecked(domains[k], now) else domains[k]
  }

  lemma CheckOneMore(domains: map<DomainKey, Ptp.Domain>, order: seq<DomainKey>, i: nat, now: Time)
    requires i < |order| && Sums.Enumerates(order, domains.Keys)
    ensures forall k :: k in order ==> k in domains
    ensures var k := order[i];
            && CheckedUpTo(domains, order, i, now)[k] == domains[k]
            && CheckedUpTo(domains, order, i + 1, now)
               == CheckedUpTo(domains, order, i, now)[k := Ptp.TimeoutChecked(domains[k], now)]
    ensures LostAlerts(order[..i + 1], domains, now)
         == LostAlerts(order[..i], domains, now) +
            if Ptp.TimesOut(domains[order[i]], now)
            then [ClockLostAlert(domains[order[i]].domain, domains[order[i]].version, domains[order[i]].protocolKind)]
            else []
  {
    hide Ptp.TimeoutChecked, Ptp.TimesOut;
    Sums.VisitedAll(domains, order);
    assert order[..i + 1] == order[..i] + [order[i]];
    assert Front(order[..i + 1]) == order[..i];
  }

  function Preferred(d: Ptp.Domain): set<Ip> {
    set ip | ip in d.src.syncSenders && d.src.syncSenders[ip] == 0
  }

  predicate SyncConflict(d: Ptp.Domain) {
    d.version == Ptp.VERSION_V1 && |d.src.syncSenders| > 1
  }

  function SyncAlert(d: Ptp.Domain): Alert {
    if |Preferred(d)| >= 2 then MultiplePreferredLeaders(d.domain, Preferred(d))
    else MultipleSyncSenders(d.domain, d.src.syncSenders.Keys)
  }

  function SyncAlerts(domains: map<DomainKey, Ptp.Domain>): set<Alert> {
    set k | k in domains && SyncConflict(domains[k]) :: SyncAlert(domains[k])
  }

  class PtpState {
    var domains: map<DomainKey, Ptp.Domain>
    var followers: map<Ip, Time>

    function View(): PtpView
      reads this
    {
      PtpView(domains, followers)
    }

    constructor ()
      ensures View() == NoPtp
    {
      domains, followers := map[], map[];
    }

    method CheckTimeouts(order: seq<DomainKey>, now: Time) returns (alerts: seq<Alert>)
      requires Sums.Enumerates(order, domains.Keys)
      modifies this`domains
      ensures forall k :: k in order ==> k in old(domains)
      ensures domains == TimeoutsChecked(old(domains), now)
      ensures alerts == LostAlerts(order, old(domains), now)
    {
      hide Ptp.TimeoutChecked, Ptp.TimesOut;
      Sums.VisitedAll(domains, order);
      ghost var was := domains;
      alerts := [];
      assert domains == CheckedUpTo(was, order, 0, now);
      for i := 0 to |order|
        invariant domains == CheckedUpTo(was, order, i, now)
        invariant alerts == LostAlerts(order[..i], was, now)
      {
        CheckOneMore(was, order, i, now);
        var d := domains[order[i]];
        var stats := new Ptp.PtpStats.Of(d);
        var event := stats.CheckTimeout(now);
        if event.Some? {
          alerts := alerts + [ClockLostAlert(d.domain, d.version, d.protocolKind)];
        }
        domains := domains[order[i] := stats.View()];
      }
      assert order[..|order|] == order;
      assert domains == TimeoutsChecked(was, now);
    }

    method ResetWindow(now: Time)
      modifies this
      ensures View() == PtpReset(old(View()), now)
    {
      domains := map k | k in domains :: Ptp.SendersCleared(domains[k]);
      followers := map ip | ip in followers && WholeSecs(Since(now, followers[ip])) < FOLLOWER_PRUNE_SECS
                          :: followers[ip];
    }
  }
}
