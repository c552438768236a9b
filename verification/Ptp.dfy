// One PTP domain: `PtpStats`, its grandmaster life cycle and its path-delay extremes.
module Ptp {
  import opened Basics

  const VERSION_V1: nat := 1
  const VERSION_V2: nat := 2
  const SYNC: nat := 0x00
  const DELAY_REQ: nat := 0x01
  const PDELAY_RESP: nat := 0x03
  const FOLLOW_UP: nat := 0x08
  const DELAY_RESP: nat := 0x09
  const TIMEOUT_SECS: nat := 5

  datatype PtpInfo = PtpInfo(
    domain: nat, version: nat, messageType: nat, protocolKind: Option<string>,
    grandmasterId: Option<string>, clockQuality: Option<string>, clockId: Option<string>,
    srcIp: Option<Ip>, stratum: Option<nat>, correctionNs: Option<int>, pathDelayNs: Option<int>)

  datatype Event = Detected | Changed(from: string) | ClockLost

  datatype Grandmaster = Grandmaster(
    last: Option<string>, valid: bool, lost: bool, detected: bool, changes: nat, protocolChanges: nat)

  datatype Delays = Delays(last: Option<int>, min: Option<nat>, max: Option<nat>)

  datatype Sources = Sources(
    lastSrcIp: Option<Ip>, grandmasterSrcIp: Option<Ip>, lastClockId: Option<string>,
    lastQuality: Option<string>, lastOffsetNs: Option<int>, seenSync: bool, syncSenders: map<Ip, nat>)

  datatype Domain = Domain(
    domain: nat, version: nat, packets: nat, protocolKind: Option<string>, lastSeen: Time,
    gm: Grandmaster, delay: Delays, src: Sources)

  function NewDomain(domain: nat, version: nat, now: Time): Domain {
    Domain(domain, version, 0, None, now,
           Grandmaster(None, false, false, false, 0, 0),
           Delays(None, None, None),
           Sources(None, None, None, None, None, false, map[]))
  }

  // ---- `update` and `check_timeout` on the value ----------------------------

  // What a message announcing a grandmaster (or not) means to the clock.
  function EventOf(g: Grandmaster, id: Option<string>): Option<Event> {
    if id == None || g.last == id then None
    else if g.last == None then Some(Detected)
    else Some(Changed(g.last.value))
  }

  function GrandmasterHeard(g: Grandmaster, id: Option<string>): Grandmaster {
    if id == None then g
    else
      var changed := if EventOf(g, id).Some? && EventOf(g, id).value.Changed? then 1 else 0;
      Grandmaster(id, true, false, g.detected || EventOf(g, id).Some?,
                  g.changes + changed, g.protocolChanges + changed)
  }

  function CarriesDelay(info: PtpInfo): bool {
    info.messageType == DELAY_RESP || info.messageType == PDELAY_RESP
  }

  function LeastOf(m: Option<nat>, d: nat): Option<nat> {
    if m.Some? && m.value <= d then m else Some(d)
  }

  function GreatestOf(m: Option<nat>, d: nat): Option<nat> {
    if m.Some? && m.value >= d then m else Some(d)
  }

  // A grandmaster change forgets the extremes before this message's delay counts.
  function DelayHeard(d: Delays, event: Option<Event>, info: PtpInfo): Delays {
    var kept := if event.Some? && event.value.Changed? then d.(min := None, max := None) else d;
    if !CarriesDelay(info) then kept
    else if info.pathDelayNs == None then kept.(last := None)
    else
      var a := Abs(info.pathDelayNs.value);
      Delays(info.pathDelayNs, LeastOf(kept.min, a), GreatestOf(kept.max, a))
  }

  function SourceHeard(s: Sources, info: PtpInfo): Sources {
    var announces := info.grandmasterId.Some?;
    var isSync := info.messageType == SYNC;
    Sources(OrElse(info.srcIp, s.lastSrcIp),
            if announces then OrElse(info.srcIp, s.grandmasterSrcIp) else s.grandmasterSrcIp,
            OrElse(info.clockId, s.lastClockId),
            if announces then OrElse(info.clockQuality, s.lastQuality) else s.lastQuality,
            if isSync || info.messageType == FOLLOW_UP then info.correctionNs else s.lastOffsetNs,
            s.seenSync || isSync,
            if isSync && info.version == VERSION_V1 && info.srcIp.Some?
            then s.syncSenders[info.srcIp.value := if info.stratum.Some? then info.stratum.value else 255]
            else s.syncSenders)
  }

  function Updated(d: Domain, info: PtpInfo, kind: Option<string>, now: Time): Domain {
    Domain(d.domain, d.version, d.packets + 1, kind, now,
           GrandmasterHeard(d.gm, info.grandmasterId),
           DelayHeard(d.delay, EventOf(d.gm, info.grandmasterId), info),
           SourceHeard(d.src, info))
  }

  predicate TimesOut(d: Domain, now: Time) {
    d.gm.valid && Since(now, d.lastSeen) > TIMEOUT_SECS * SECOND
  }

  function TimeoutChecked(d: Domain, now: Time): Domain {
    if TimesOut(d, now) then d.(gm := d.gm.(valid := false, lost := true, last := None)) else d
  }

  // Window close: the census of Sync senders starts over.
  function SendersCleared(d: Domain): Domain {
    d.(src := d.src.(syncSenders := map[]))
  }

  // ---- The domain as the source keeps it, updated in place ------------------

  class PtpStats {
    const domain: nat
    const version: nat
    var packets: nat
    var protocolKind: Option<string>
    var lastSeen: Time
    var gm: Grandmaster
    var delay: Delays
    var src: Sources

    function View(): Domain
      reads this
    {
      Domain(domain, version, packets, protocolKind, lastSeen, gm, delay, src)
    }

    constructor (domain: nat, version: nat, now: Time)
      ensures View() == NewDomain(domain, version, now)
    {
      this.domain, this.version := domain, version;
      packets, protocolKind, lastSeen := 0, None, now;
      gm := Grandmaster(None, false, false, false, 0, 0);
      delay := Delays(None, None, None);
      src := Sources(None, None, None, None, None, false, map[]);
    }

    constructor Of(d: Domain)
      ensures View() == d
    {
      domain, version := d.domain, d.version;
      packets, protocolKind, lastSeen, gm, delay, src := d.packets, d.protocolKind, d.lastSeen, d.gm, d.delay, d.src;
    }

    // Grandmaster detection, on any message that names one.
    method HearGrandmaster(info: PtpInfo) returns (event: Option<Event>)
      modifies this`gm, this`delay
      ensures gm == GrandmasterHeard(old(gm), info.grandmasterId)
      ensures event == EventOf(old(gm), info.grandmasterId)
      ensures delay == if event.Some? && event.value.Changed? then old(delay).(min := None, max := None)
                       else old(delay)
    {
      event := None;
      if info.grandmasterId.Some? {
        if gm.last.Some? {
          if gm.last != info.grandmasterId {
            gm := gm.(changes := gm.changes + 1, protocolChanges := gm.protocolChanges + 1);
            event := Some(Changed(gm.last.value));
            gm := gm.(last := info.grandmasterId, detected := true);
            delay := delay.(min := None, max := None);
          }
        } else {
          event := Some(Detected);
          gm := gm.(last := info.grandmasterId, detected := true);
        }
        gm := gm.(valid := true);
        gm := gm.(lost := false);
      }
    }

    method HearSource(info: PtpInfo)
      modifies this`src
      ensures src == SourceHeard(old(src), info)
    {
      if info.srcIp.Some? { src := src.(lastSrcIp := info.srcIp); }
      if info.clockId.Some? { src := src.(lastClockId := info.clockId); }
      if info.grandmasterId.Some? {
        if info.srcIp.Some? { src := src.(grandmasterSrcIp := info.srcIp); }
        if info.clockQuality.Some? { src := src.(lastQuality := info.clockQuality); }
      }
      if info.messageType == SYNC || info.messageType == FOLLOW_UP {
        src := src.(lastOffsetNs := info.correctionNs);
      }
      if info.messageType == SYNC {
        src := src.(seenSync := true);
        if info.version == VERSION_V1 && info.srcIp.Some? {
          var stratum := if info.stratum.Some? then info.stratum.value else 255;
          src := src.(syncSenders := src.syncSenders[info.srcIp.value := stratum]);
        }
      }
    }

    method HearDelay(info: PtpInfo)
      modifies this`delay
      ensures delay == DelayHeard(old(delay), None, info)
    {
      if info.messageType == DELAY_RESP || info.messageType == PDELAY_RESP {
        delay := delay.(last := info.pathDelayNs);
        if info.pathDelayNs.Some? {
          var a := Abs(info.pathDelayNs.value);
          delay := delay.(min := Some(if delay.min.Some? && delay.min.value <= a then delay.min.value else a));
          delay := delay.(max := Some(if delay.max.Some? && delay.max.value >= a then delay.max.value else a));
        }
      }
    }

    method Update(info: PtpInfo, kind: Option<string>, now: Time) returns (event: Option<Event>)
      modifies this
      ensures View() == Updated(old(View()), info, kind, now)
      ensures event == EventOf(old(gm), info.grandmasterId)
    {
      hide GrandmasterHeard, SourceHeard;
      packets := packets + 1;
      lastSeen := now;
      protocolKind := kind;
      event := HearGrandmaster(info);
      HearSource(info);
      HearDelay(info);
    }

    method CheckTimeout(now: Time) returns (event: Option<Event>)
      modifies this
      ensures View() == TimeoutChecked(old(View()), now)
      ensures event == if TimesOut(old(View()), now) then Some(ClockLost) else None
    {
      if gm.valid && Since(now, lastSeen) > TIMEOUT_SECS * SECOND {
        gm := gm.(valid := false);
        gm := gm.(lost := true);
        gm := gm.(last := None);
        event := Some(ClockLost);
      } else {
        event := None;
      }
    }
  }

  // ---- Runs: any interleaving of messages, timeout checks and window resets -

  datatype Step = Message(info: PtpInfo, kind: Option<string>, now: Time) | Check(now: Time) | Reset

  function Next(d: Domain, s: Step): Domain {
    match s
    case Message(info, kind, now) => Updated(d, info, kind, now)
    case Check(now) => TimeoutChecked(d, now)
    case Reset => SendersCleared(d)
  }

  function EventAt(d: Domain, s: Step): Option<Event> {
    match s
    case Message(info, _, _) => EventOf(d.gm, info.grandmasterId)
    case Check(now) => if TimesOut(d, now) then Some(ClockLost) else None
    case Reset => None
  }

  function Run(d: Domain, steps: seq<Step>): Domain {
    if steps == [] then d else Next(Run(d, Front(steps)), Last(steps))
  }

  function Trace(d: Domain, steps: seq<Step>): seq<Event> {
    if steps == [] then []
    else
      var e := EventAt(Run(d, Front(steps)), Last(steps));
      Trace(d, Front(steps)) + if e.Some? then [e.value] else []
  }

  // A prefix of (Detected Changed* ClockLost)*.
  ghost predicate LifeCycle(trace: seq<Event>) {
    && (trace != [] ==> trace[0].Detected?)
    && forall i :: 0 < i < |trace| ==> (trace[i].Detected? <==> trace[i - 1].ClockLost?)
  }

  ghost function Changes(trace: seq<Event>): nat {
    if trace == [] then 0 else Changes(Front(trace)) + if Last(trace).Changed? then 1 else 0
  }

  // The clock is up exactly when the last thing that happened to it was not its loss.
  ghost predicate ClockUp(trace: seq<Event>) {
    trace != [] && !Last(trace).ClockLost?
  }

  lemma TraceExtends(trace: seq<Event>, e: Event)
    requires LifeCycle(trace) && (e.Detected? <==> !ClockUp(trace))
    ensures LifeCycle(trace + [e])
    ensures ClockUp(trace + [e]) <==> !e.ClockLost?
    ensures ClockUp(trace) ==> trace != []
    ensures Changes(trace + [e]) == Changes(trace) + if e.Changed? then 1 else 0
  {
    assert Front(trace + [e]) == trace;
  }

  lemma {:induction false} GrandmasterLifeCycle(d: nat, v: nat, start: Time, steps: seq<Step>)
    ensures var (r, trace) := (Run(NewDomain(d, v, start), steps), Trace(NewDomain(d, v, start), steps));
            && LifeCycle(trace)
            && (r.gm.valid <==> ClockUp(trace))
            && (r.gm.valid <==> r.gm.last.Some?)
            && (r.gm.lost <==> trace != [] && !ClockUp(trace))
            && (r.gm.detected <==> trace != [])
            && r.gm.changes == Changes(trace) && r.gm.protocolChanges == Changes(trace)
  {
    hide LifeCycle, ClockUp, Changes, DelayHeard, SourceHeard, TimesOut;
    var fresh0 := NewDomain(d, v, start);
    if steps == [] {
      EmptyTrace();
    } else {
      GrandmasterLifeCycle(d, v, start, Front(steps));
      var before, trace := Run(fresh0, Front(steps)), Trace(fresh0, Front(steps));
      var e := EventAt(before, Last(steps));
      if e.Some? {
        assert e.value.ClockLost? || e.value.Changed? ==> before.gm.valid by {
          if Last(steps).Check? { TimeoutNeedsClock(before, Last(steps).now); }
        }
        TraceExtends(trace, e.value);
      } else {
        assert Trace(fresh0, steps) == trace;
      }
    }
  }

  lemma EmptyTrace()
    ensures LifeCycle([]) && !ClockUp([]) && Changes([]) == 0
  {}

  lemma TimeoutNeedsClock(d: Domain, now: Time)
    ensures TimesOut(d, now) ==> d.gm.valid
  {}

  // When the last message of the run arrived.
  ghost function LastMessage(steps: seq<Step>): Option<Time> {
    if steps == [] then None
    else if Last(steps).Message? then Some(Last(steps).now)
    else LastMessage(Front(steps))
  }

  lemma {:induction false} LastSeenIsLastMessage(d: nat, v: nat, start: Time, steps: seq<Step>)
    ensures var r := Run(NewDomain(d, v, start), steps);
            r.lastSeen == (if LastMessage(steps).Some? then LastMessage(steps).value else start)
            && (LastMessage(steps) == None ==> !r.gm.valid)
  {
    if steps != [] {
      LastSeenIsLastMessage(d, v, start, Front(steps));
    }
  }

  // A check reports the loss of a clock exactly when the clock is up and every message,
  // whatever its type, is more than five seconds old.
  lemma LossIsReportedExactly(d: nat, v: nat, start: Time, steps: seq<Step>, now: Time)
    ensures var trace := Trace(NewDomain(d, v, start), steps);
            var later := Trace(NewDomain(d, v, start), steps + [Check(now)]);
            (later == trace + [ClockLost]) <==>
              (ClockUp(trace) && LastMessage(steps).Some? &&
               Since(now, LastMessage(steps).value) > 5 * SECOND)
  {
    GrandmasterLifeCycle(d, v, start, steps);
    LastSeenIsLastMessage(d, v, start, steps);
    assert Front(steps + [Check(now)]) == steps;
  }

  // A Pdelay_Resp or Delay_Resp.
  ghost predicate ReportsDelay(s: Step) {
    s.Message? && (s.info.messageType == 3 || s.info.messageType == 9)
  }

  // Path delays reported since the grandmaster last changed, the changing message included.
  ghost function DelaysSinceChange(d: Domain, steps: seq<Step>): seq<nat> {
    if steps == [] then []
    else
      var e := EventAt(Run(d, Front(steps)), Last(steps));
      var kept := if e.Some? && e.value.Changed? then [] else DelaysSinceChange(d, Front(steps));
      if ReportsDelay(Last(steps)) && Last(steps).info.pathDelayNs.Some?
      then kept + [Abs(Last(steps).info.pathDelayNs.value)]
      else kept
  }

  ghost predicate Extremes(s: seq<nat>, min: Option<nat>, max: Option<nat>) {
    && (s == [] ==> min == None && max == None)
    && (s != [] ==> && min.Some? && max.Some? && min.value in s && max.value in s
                    && forall x :: x in s ==> min.value <= x <= max.value)
  }

  lemma ExtremesExtend(s: seq<nat>, min: Option<nat>, max: Option<nat>, x: nat)
    requires Extremes(s, min, max)
    ensures Extremes(s + [x], LeastOf(min, x), GreatestOf(max, x))
  {
    assert x in s + [x];
    forall y ensures y in s + [x] <==> y in s || y == x {}
  }

  lemma {:induction false} DelayExtremesAreExact(d: nat, v: nat, start: Time, steps: seq<Step>)
    ensures var r := Run(NewDomain(d, v, start), steps);
            Extremes(DelaysSinceChange(NewDomain(d, v, start), steps), r.delay.min, r.delay.max)
  {
    if steps != [] {
      DelayExtremesAreExact(d, v, start, Front(steps));
      var fresh0 := NewDomain(d, v, start);
      var before, step := Run(fresh0, Front(steps)), Last(steps);
      var e := EventAt(before, step);
      var changed := e.Some? && e.value.Changed?;
      var kept := if changed then [] else DelaysSinceChange(fresh0, Front(steps));
      var keptMin := if changed then None else before.delay.min;
      var keptMax := if changed then None else before.delay.max;
      assert Extremes(kept, keptMin, keptMax);
      if ReportsDelay(step) && step.info.pathDelayNs.Some? {
        ExtremesExtend(kept, keptMin, keptMax, Abs(step.info.pathDelayNs.value));
      }
    }
  }

  // Follow the grandmaster identities themselves: a change names the one it replaces,
  // and the clock follows the identity announced last.
  lemma ChangeNamesPredecessor(d: Domain, info: PtpInfo, kind: Option<string>, now: Time)
    requires d.gm.valid <==> d.gm.last.Some?
    ensures var r := Updated(d, info, kind, now);
            && (info.grandmasterId.Some? ==> r.gm.last == info.grandmasterId && r.gm.valid && !r.gm.lost)
            && (info.grandmasterId == None ==> r.gm == d.gm)
            && (EventOf(d.gm, info.grandmasterId).Some? <==>
                  info.grandmasterId.Some? && r.gm.last != d.gm.last)
            && (forall from :: EventOf(d.gm, info.grandmasterId) == Some(Changed(from)) ==> d.gm.last == Some(from))
  {}

  // ---- What the last messages said ------------------------------------------

  ghost function Messages(steps: seq<Step>): seq<Step> {
    if steps == [] then []
    else Messages(Front(steps)) + if Last(steps).Message? then [Last(steps)] else []
  }

  // The last message that says something.
  ghost function LastWith<T>(steps: seq<Step>, says: Step -> Option<T>): Option<T> {
    if steps == [] then None else OrElse(says(Last(steps)), LastWith(Front(steps), says))
  }

  // The kind of the last message, whatever it is.
  ghost function KindOf(): Step -> Option<Option<string>> {
    (s: Step) => if s.Message? then Some(s.kind) else None
  }

  ghost function SourceOf(): Step -> Option<Ip> {
    (s: Step) => if s.Message? then s.info.srcIp else None
  }

  // The address a message names a grandmaster from.
  ghost function AnnouncedFrom(): Step -> Option<Ip> {
    (s: Step) => if s.Message? && s.info.grandmasterId.Some? then s.info.srcIp else None
  }

  ghost function ClockOf(): Step -> Option<string> {
    (s: Step) => if s.Message? then s.info.clockId else None
  }

  ghost function AnnouncedQuality(): Step -> Option<string> {
    (s: Step) => if s.Message? && s.info.grandmasterId.Some? then s.info.clockQuality else None
  }

  // The correction of a Sync or Follow_Up, which may carry none.
  ghost function CorrectionOf(): Step -> Option<Option<int>> {
    (s: Step) => if s.Message? && (s.info.messageType == 0 || s.info.messageType == 8)
      then Some(s.info.correctionNs) else None
  }

  ghost function DelayOf(): Step -> Option<Option<int>> {
    (s: Step) => if ReportsDelay(s) then Some(s.info.pathDelayNs) else None
  }

  ghost predicate SyncFrom(s: Step, ip: Ip) {
    s.Message? && s.info.messageType == 0 && s.info.version == 1 && s.info.srcIp == Some(ip)
  }

  // The stratum of the last PTPv1 Sync of a sender since the census last started over;
  // 255 where the message carries none.
  ghost function SenderStratum(steps: seq<Step>, ip: Ip): Option<nat> {
    if steps == [] || Last(steps).Reset? then None
    else if SyncFrom(Last(steps), ip) then Some(UnwrapOr(Last(steps).info.stratum, 255))
    else SenderStratum(Front(steps), ip)
  }

  // A domain remembers the kind of its last message, the addresses, identities, offsets
  // and delays last given, and of every Sync sender since the last reset its last stratum.
  lemma {:induction false} RemembersLastMessages(d: nat, v: nat, start: Time, steps: seq<Step>)
    ensures var r := Run(NewDomain(d, v, start), steps);
            && r.domain == d && r.version == v && r.packets == |Messages(steps)|
            && r.protocolKind == UnwrapOr(LastWith(steps, KindOf()), None)
            && r.src.lastSrcIp == LastWith(steps, SourceOf())
            && r.src.grandmasterSrcIp == LastWith(steps, AnnouncedFrom())
            && r.src.lastClockId == LastWith(steps, ClockOf())
            && r.src.lastQuality == LastWith(steps, AnnouncedQuality())
            && r.src.lastOffsetNs == UnwrapOr(LastWith(steps, CorrectionOf()), None)
            && r.delay.last == UnwrapOr(LastWith(steps, DelayOf()), None)
            && (r.src.seenSync <==> exists i :: 0 <= i < |steps| && steps[i].Message? && steps[i].info.messageType == 0)
  {
    hide EventOf, GrandmasterHeard, TimesOut;
    if steps != [] {
      RemembersLastMessages(d, v, start, Front(steps));
      assert steps[|steps| - 1] == Last(steps);
      assert forall i :: 0 <= i < |steps| - 1 ==> Front(steps)[i] == steps[i];
    }
  }

  lemma {:induction false} KindOfHeard(steps: seq<Step>)
    ensures LastMessage(steps).Some? <==> LastWith(steps, KindOf()).Some?
  {
    if steps != [] {
      KindOfHeard(Front(steps));
    }
  }

  lemma {:induction false} CensusOfSenders(d: nat, v: nat, start: Time, steps: seq<Step>, ip: Ip)
    ensures var census := Run(NewDomain(d, v, start), steps).src.syncSenders;
            && (ip in census <==> SenderStratum(steps, ip).Some?)
            && (ip in census ==> census[ip] == SenderStratum(steps, ip).value)
  {
    hide EventOf, GrandmasterHeard, TimesOut, DelayHeard;
    if steps != [] {
      CensusOfSenders(d, v, start, Front(steps), ip);
    }
  }
}
