// What closing a window keeps, forgets, and shows: the state it leaves, the writes its
// checks see, and how far the printed summary accounts for the score.
module CloseLaws {
  import opened Alerts
  import opened Basics
  import opened Capture
  import opened Diagnostics
  import opened Scoring
  import opened Streams
  import opened Substates
  import opened Sums
  import Dante
  import Ptp
  import ScoreLaws
  import Tcp

  // ---- The state a close leaves ---------------------------------------------

  ghost predicate WindowCountersZero(s: Stream) {
    && s.count.packetsThisWindow == 0 && s.count.lostThisWindow == 0 && s.count.reordersThisWindow == 0
    && s.clock.jumpsThisWindow == 0 && s.arrive.gapEvents == 0 && s.arrive.maxIatMs == 0.0
    && s.marks.ssrcChanges == 0 && s.marks.ptMismatches == 0
    && s.marks.dscpViolations == 0 && s.marks.pcpViolations == 0
  }

  // Silence, in whole seconds, is below a limit.
  ghost predicate Fresh(now: Time, seen: Time, limit: nat) {
    WholeSecs(Since(now, seen)) < limit
  }

  // Every window counter is zero.
  ghost predicate CountersZero(c: Capture) {
    && c.traffic == NoTraffic && !c.dropoutCorrelated
    && c.health.tcpRetransmissions == 0 && c.health.ecnMarks == 0 && !c.health.multipleQueriers
    && c.igmp.queriers == {} && !c.igmp.v3Report
    && (forall k :: k in c.streams ==> WindowCountersZero(c.streams[k]))
    && (forall k :: k in c.ptp.domains ==> c.ptp.domains[k].src.syncSenders == map[])
  }

  // Reservations only for present AVTP streams, and no VLANs without any.
  ghost predicate Coupled(a: Avb) {
    && a.msrp.Keys <= a.streams.Keys
    && (a.streams == map[] ==> a.vlans == {})
  }

  // Whatever survived was heard recently enough.
  ghost predicate SurvivorsFresh(c: Capture, now: Time) {
    && (forall k :: k in c.streams && c.streams[k].arrive.lastPacketTime.Some? ==>
          Fresh(now, c.streams[k].arrive.lastPacketTime.value, 20))
    && (forall k :: k in c.tcp ==> Fresh(now, c.tcp[k].lastSeen, 20) && c.tcp[k].quality != Tcp.Terminated)
    && (forall k :: k in c.avb.streams ==> Fresh(now, c.avb.streams[k].lastSeen, 20))
    && (forall k :: k in c.avb.entities ==> EntityLives(c.avb.entities[k], now))
    && (forall ip :: ip in c.dante.conmon ==> Fresh(now, c.dante.conmon[ip].lastSeen, 60))
    && (forall ip :: ip in c.ptp.followers ==> Fresh(now, c.ptp.followers[ip], 15))
    && (forall k :: k in c.igmp.joins ==> Fresh(now, c.igmp.joins[k], 300))
  }

  // Every close leaves zero counters, coupled maps and only recent survivors.
  lemma CloseEstablishes(c: Capture, now: Time)
    ensures CountersZero(Closed(c, now))
    ensures Coupled(Closed(c, now).avb)
    ensures SurvivorsFresh(Closed(c, now), now)
  {
    hide CountersZero, SurvivorsFresh, Coupled, Closed;
    CloseZeroesCounters(c, now);
    CloseCouples(c, now);
    CloseKeepsFresh(c, now);
  }

  lemma CloseZeroesCounters(c: Capture, now: Time)
    ensures CountersZero(Closed(c, now))
  {
    hide Score, Dante.WindowClosed, Ptp.TimeoutChecked, AvbReset;
  }

  lemma CloseCouples(c: Capture, now: Time)
    ensures Coupled(Closed(c, now).avb)
  {
    hide Score, Dante.WindowClosed, Ptp.TimeoutChecked;
  }

  lemma CloseKeepsFresh(c: Capture, now: Time)
    ensures SurvivorsFresh(Closed(c, now), now)
  {
    hide Closed, Fresh, EntityLives;
    StreamsStayFresh(c, now);
    SubstatesStayFresh(c, now);
  }

  lemma StreamsStayFresh(c: Capture, now: Time)
    ensures var r := Closed(c, now);
            && (forall k :: k in r.streams && r.streams[k].arrive.lastPacketTime.Some? ==>
                  Fresh(now, r.streams[k].arrive.lastPacketTime.value, 20))
            && (forall k :: k in r.tcp ==> Fresh(now, r.tcp[k].lastSeen, 20) && r.tcp[k].quality != Tcp.Terminated)
  {
    hide Score, Dante.WindowClosed, AvbReset, IgmpReset, PtpReset, TimeoutsChecked;
  }

  lemma SubstatesStayFresh(c: Capture, now: Time)
    ensures var r := Closed(c, now);
            && (forall k :: k in r.avb.streams ==> Fresh(now, r.avb.streams[k].lastSeen, 20))
            && (forall k :: k in r.avb.entities ==> EntityLives(r.avb.entities[k], now))
            && (forall ip :: ip in r.dante.conmon ==> Fresh(now, r.dante.conmon[ip].lastSeen, 60))
            && (forall ip :: ip in r.ptp.followers ==> Fresh(now, r.ptp.followers[ip], 15))
            && (forall k :: k in r.igmp.joins ==> Fresh(now, r.igmp.joins[k], 300))
  {
    hide Score, Dante.Windows, TimeoutsChecked, EntityLives, LiveStreams, LiveConns;
  }

  // ---- What the checks see --------------------------------------------------

  // A clock that times out at this very close already counts as lost for the dropout
  // correlation: together with losses in its family the single combined alert replaces
  // every individual one.
  lemma FreshTimeoutCorrelates(c: Capture, now: Time, order: seq<DomainKey>, d: DomainKey, k: Key)
    requires forall j :: j in order ==> j in c.ptp.domains
    requires d in c.ptp.domains && Ptp.TimesOut(c.ptp.domains[d], now) && !IsGptp(c.ptp.domains[d])
    requires k in c.streams && c.streams[k].count.lostThisWindow > 0
    requires || (c.ptp.domains[d].version == Ptp.VERSION_V1 && c.streams[k].id.protocol.Dante?)
             || (c.ptp.domains[d].version == Ptp.VERSION_V2
                 && (c.streams[k].id.protocol.Aes67? || c.streams[k].id.protocol.St2110?))
    ensures ClockAlerts(c, now, order) == [ClockDropout]
  {
    var domains := TimeoutsChecked(c.ptp.domains, now);
    assert d in domains && domains[d].gm.lost;
    assert ClockLostFor(domains, c.ptp.domains[d].version);
    var kind := StreamClockKind(c.streams[k].id.protocol).value;
    assert LosesUnder(c.streams[k], kind);
    assert AnyLoss(c.streams, kind);
  }

  // A family is needed when it is selected and a stream of it was observed.
  predicate Needed(c: Capture, sel: Selection, kind: ClockKind) {
    match kind
    case Ptpv2 => (sel.aes67 && AnyProtocol(c.streams, Aes67)) || (sel.st2110 && AnySt2110(c.streams))
    case AnyPtp => sel.dante && AnyProtocol(c.streams, Dante)
    case Gptp => sel.avb && c.avb.streams != map[]
  }

  // A clock a family can use, before the close: valid, and not timing out at it.
  predicate Serves(d: Ptp.Domain, kind: ClockKind, now: Time) {
    && d.gm.valid && !Ptp.TimesOut(d, now)
    && match kind
       case Ptpv2 => d.version == Ptp.VERSION_V2 && !IsGptp(d)
       case AnyPtp => !IsGptp(d)
       case Gptp => IsGptp(d)
  }

  lemma ClocksAfterTimeouts(domains: map<DomainKey, Ptp.Domain>, now: Time)
    ensures var seen := TimeoutsChecked(domains, now);
            && (HasClock(seen, Some(Ptp.VERSION_V2), false) <==>
                  exists d :: d in domains && Serves(domains[d], Ptpv2, now))
            && (HasClock(seen, None, false) <==> exists d :: d in domains && Serves(domains[d], AnyPtp, now))
            && (HasClock(seen, None, true) <==> exists d :: d in domains && Serves(domains[d], Gptp, now))
  {
    var seen := TimeoutsChecked(domains, now);
    forall d | d in domains
      ensures d in seen && seen[d].version == domains[d].version && IsGptp(seen[d]) == IsGptp(domains[d])
      ensures seen[d].gm.valid <==> domains[d].gm.valid && !Ptp.TimesOut(domains[d], now)
    {}
  }

  // A clock that times out at this very close already counts as missing: for each family,
  // the close reports its clock missing exactly when the family is needed and no clock it
  // can use was both valid and in time.
  lemma FreshTimeoutIsMissing(c: Capture, now: Time, sel: Selection, kind: ClockKind)
    ensures (exists m :: m in MissingClocks(Checked(c, now), sel) && m.kind == kind) <==>
              Needed(c, sel, kind) && !exists d :: d in c.ptp.domains && Serves(c.ptp.domains[d], kind, now)
  {
    hide HasClock, AnyProtocol, AnySt2110, TimeoutsChecked, Serves, QuerierConflict, HasMulticast;
    ClocksAfterTimeouts(c.ptp.domains, now);
    var missing := MissingClocks(Checked(c, now), sel);
    if Needed(c, sel, kind) && !exists d :: d in c.ptp.domains && Serves(c.ptp.domains[d], kind, now) {
      var i := match kind
        case Ptpv2 => 0
        case AnyPtp => if missing[0].kind == AnyPtp then 0 else 1
        case Gptp => |missing| - 1;
      assert missing[i] in missing && missing[i].kind == kind;
    }
  }

  // The follower census is taken before stale followers are pruned: a follower this
  // close prunes is not reported by it, and is a candidate from the next one on.
  lemma CensusPrecedesPruning(c: Capture, now: Time, gm: Option<Ip>, ip: Ip)
    requires ip in c.dante.sources && ip in c.ptp.followers && !Fresh(now, c.ptp.followers[ip], 15)
    ensures ip !in NotFollowing(c.dante, c.ptp, gm)
    ensures ip in Closed(c, now).dante.sources - Closed(c, now).ptp.followers.Keys
  {
    hide Score;
  }

  // The combined-dropout flag is raised and cleared within one close, so whatever reads
  // it afterwards finds it down, even when the combined alert was emitted.
  lemma DropoutFlagNeverSurvives(c: Capture, now: Time, order: seq<DomainKey>)
    requires forall j :: j in order ==> j in c.ptp.domains
    ensures !Closed(c, now).dropoutCorrelated
    ensures DropoutCorrelated(TimeoutsChecked(c.ptp.domains, now), c.streams) <==>
              ClockAlerts(c, now, order) == [ClockDropout]
  {
    hide Score, DropoutCorrelated;
    LostAlertsAreNotDropout(order, c.ptp.domains, now);
  }

  lemma {:induction false} LostAlertsAreNotDropout(order: seq<DomainKey>, domains: map<DomainKey, Ptp.Domain>,
                                                   now: Time)
    requires forall k :: k in order ==> k in domains
    ensures ClockDropout !in LostAlerts(order, domains, now)
  {
    hide Ptp.TimesOut;
    if order != [] {
      LostAlertsAreNotDropout(Front(order), domains, now);
    }
  }

  // ---- Score and summary ----------------------------------------------------

  // The score is taken from the state the checks see; the printed summary is rebuilt
  // from the state the close leaves.
  ghost function ScoredDeduction(c: Capture, now: Time): real {
    ScoreLaws.Terms(Checked(c, now).health, InputsOf(Checked(c, now), now))
  }

  ghost function PrintedDeduction(c: Capture, now: Time): real {
    ScoreLaws.Terms(Closed(c, now).health, InputsOf(Closed(c, now), now))
  }

  lemma DeductionsAreTotals(c: Capture, now: Time)
    ensures Closed(c, now).score == if ScoredDeduction(c, now) <= 100.0 then 100.0 - ScoredDeduction(c, now) else 0.0
    ensures TotalDeduction(Penalties(Closed(c, now).health, InputsOf(Closed(c, now), now))) == PrintedDeduction(c, now)
  {
    hide Penalties, ScoreLaws.Terms, WindowClosed, Checked;
    ScoreLaws.PenaltiesDeduct(Checked(c, now).health, InputsOf(Checked(c, now), now));
    ScoreLaws.PenaltiesDeduct(Closed(c, now).health, InputsOf(Closed(c, now), now));
  }

  predicate WindowScoped(c: Category) {
    c != Jitter && c != DeadStream
  }

  lemma ShareAfterReset(s: Stream, c: Category, now: Time)
    ensures Share(WindowReset(s), c, now) == if WindowScoped(c) then 0.0 else Share(s, c, now)
  {}

  // The streams a close keeps, as they were.
  ghost function Kept(m: map<Key, Stream>, now: Time): map<Key, Stream> {
    map k | k in m && StreamLives(m[k], now) :: m[k]
  }

  lemma CategoryAfterClose(m: map<Key, Stream>, c: Category, now: Time)
    ensures Sum(LiveStreams(m, now), ShareFn(c, now))
         == if WindowScoped(c) then 0.0 else Sum(Kept(m, now), ShareFn(c, now))
  {
    hide Share, WindowReset, StreamLives, Sum;
    var live, kept, f := LiveStreams(m, now), Kept(m, now), ShareFn(c, now);
    forall k | k in live ensures f(live[k]) == if WindowScoped(c) then 0.0 else f(kept[k]) {
      ShareAfterReset(m[k], c, now);
    }
    if WindowScoped(c) {
      SumPositive(live, f);
    } else {
      SumLessOrEqual(live, f, kept, f);
      SumLessOrEqual(kept, f, live, f);
    }
  }

  lemma PrunedIsDead(s: Stream, now: Time)
    requires !StreamLives(s, now)
    ensures Share(s, DeadStream, now) == 30.0
  {}

  // Jitter and silence never sum to more after the close, and silence sums to the same
  // only if no stream was pruned.
  lemma LastingCategories(m: map<Key, Stream>, c: Category, now: Time)
    requires !WindowScoped(c)
    ensures Sum(Kept(m, now), ShareFn(c, now)) <= Sum(m, ShareFn(c, now))
    ensures c == DeadStream && Sum(Kept(m, now), ShareFn(c, now)) == Sum(m, ShareFn(c, now)) ==> Kept(m, now) == m
  {
    hide Share, StreamLives, Sum;
    var f := ShareFn(c, now);
    SumMonotone(Kept(m, now), m, f);
    SumStrict(Kept(m, now), m, f);
    forall k | k in m && !StreamLives(m[k], now) ensures c == DeadStream ==> f(m[k]) > 0.0 {
      PrunedIsDead(m[k], now);
    }
    assert (forall k :: k in m ==> k in Kept(m, now)) ==> Kept(m, now) == m;
  }

  // What the score of this close counted but the state it leaves no longer shows:
  // window-scoped issues, pruned streams, and pruned entries that carried a penalty.
  ghost predicate StreamsForgetNothing(m: map<Key, Stream>, now: Time) {
    forall k :: k in m ==>
      StreamLives(m[k], now) && forall c :: WindowScoped(c) ==> Share(m[k], c, now) == 0.0
  }

  ghost predicate NothingForgotten(c: Capture, now: Time) {
    && StreamsForgetNothing(c.streams, now)
    && c.health.tcpRetransmissions == 0 && c.health.ecnMarks == 0
    && !c.health.multipleQueriers && !QuerierConflict(c.igmp, HasMulticast(c.streams))
    && (forall k :: k in c.tcp ==> ConnLives(c.tcp[k], now) || c.tcp[k].quality.Healthy?)
    && (forall k :: k in c.avb.streams ==> k in LiveAvtp(c.avb.streams, now) || c.avb.streams[k].pcpViolations == 0)
    && (forall k :: k in c.avb.msrp ==> k in LiveAvtp(c.avb.streams, now) || !c.avb.msrp[k].declType.TalkerFailed?)
  }

  lemma CategoryLoses(m: map<Key, Stream>, inp: Inputs, after: Inputs, c: Category)
    requires inp.streams == m && after.streams == LiveStreams(m, inp.now) && inp.now == after.now
    ensures 0.0 <= CategoryDeduction(after, c) <= CategoryDeduction(inp, c)
    ensures WindowScoped(c) ==> CategoryDeduction(after, c) == 0.0
    ensures WindowScoped(c) ==>
              (CategoryDeduction(inp, c) == 0.0 <==> forall k :: k in m ==> Share(m[k], c, inp.now) == 0.0)
    ensures c == DeadStream && CategoryDeduction(after, c) == CategoryDeduction(inp, c) ==> Kept(m, inp.now) == m
    ensures !WindowScoped(c) && Kept(m, inp.now) == m ==> CategoryDeduction(after, c) == CategoryDeduction(inp, c)
  {
    hide Share, StreamLives, Sum, LiveStreams, Kept;
    CategoryAfterClose(m, c, inp.now);
    ScoreLaws.CategoryZero(inp, c);
    ScoreLaws.CategoryZero(after, c);
    if !WindowScoped(c) {
      LastingCategories(m, c, inp.now);
    }
  }

  lemma StreamTermAfterClose(m: map<Key, Stream>, inp: Inputs, after: Inputs)
    requires inp.streams == m && after.streams == LiveStreams(m, inp.now) && inp.now == after.now
    ensures ScoreLaws.StreamTerm(after) <= ScoreLaws.StreamTerm(inp)
    ensures ScoreLaws.StreamTerm(after) == ScoreLaws.StreamTerm(inp) <==> StreamsForgetNothing(m, inp.now)
  {
    hide Share, CategoryDeduction, LiveStreams, StreamLives, Kept;
    forall c: Category
      ensures 0.0 <= CategoryDeduction(after, c) <= CategoryDeduction(inp, c)
      ensures WindowScoped(c) ==> CategoryDeduction(after, c) == 0.0
    {
      CategoryLoses(m, inp, after, c);
    }
    KeptIsAll(m, inp.now);
    CategoryLoses(m, inp, after, DeadStream);
    CategoryLoses(m, inp, after, Jitter);
    if ScoreLaws.StreamTerm(after) == ScoreLaws.StreamTerm(inp) {
      forall k, c | k in m && WindowScoped(c) ensures Share(m[k], c, inp.now) == 0.0 {
        CategoryLoses(m, inp, after, c);
        match c {
          case Loss => case Jitter => case Discontinuity => case Ssrc => case DeadStream => case Gap => case Dscp =>
        }
      }
    }
    if StreamsForgetNothing(m, inp.now) {
      forall c | WindowScoped(c) ensures CategoryDeduction(inp, c) == 0.0 {
        CategoryLoses(m, inp, after, c);
      }
    }
  }

  lemma KeptIsAll(m: map<Key, Stream>, now: Time)
    ensures Kept(m, now) == m <==> forall k :: k in m ==> StreamLives(m[k], now)
  {
    hide StreamLives;
    if Kept(m, now) == m {
      forall k | k in m ensures StreamLives(m[k], now) {
        assert k in Kept(m, now);
      }
    }
  }

  lemma TcpAfterClose(m: map<Key, Tcp.Conn>, now: Time)
    ensures Sum(LiveConns(m, now), QualityDeduction()) <= Sum(m, QualityDeduction())
    ensures Sum(LiveConns(m, now), QualityDeduction()) == Sum(m, QualityDeduction()) <==>
              forall k :: k in m ==> ConnLives(m[k], now) || m[k].quality.Healthy?
  {
    hide Sum, ConnLives;
    SumMonotone(LiveConns(m, now), m, QualityDeduction());
    SumStrict(LiveConns(m, now), m, QualityDeduction());
    forall k | k in m ensures QualityDeduction()(m[k]) > 0.0 <==> !m[k].quality.Healthy? {}
  }

  lemma CountAfterClose<K, V>(m: map<K, V>, kept: map<K, V>, p: V -> bool)
    requires Submap(kept, m)
    ensures Count(kept, p) <= Count(m, p)
    ensures Count(kept, p) == Count(m, p) <==> forall k :: k in m ==> k in kept || !p(m[k])
  {
    CountMonotone(kept, m, p);
    assert forall k :: k in Matching(m, p) && k !in Matching(kept, p) ==> k in m && k !in kept && p(m[k]);
    assert forall k :: k in m && k !in kept && p(m[k]) ==> k in Matching(m, p) && k !in Matching(kept, p);
  }

  lemma AvbAfterClose(a: Avb, now: Time)
    ensures var r := AvbReset(a, now);
            && Count(r.streams, PcpFn()) <= Count(a.streams, PcpFn())
            && Count(r.msrp, FailedFn()) <= Count(a.msrp, FailedFn())
            && (Count(r.streams, PcpFn()) == Count(a.streams, PcpFn()) <==>
                  forall k :: k in a.streams ==> k in LiveAvtp(a.streams, now) || a.streams[k].pcpViolations == 0)
            && (Count(r.msrp, FailedFn()) == Count(a.msrp, FailedFn()) <==>
                  forall k :: k in a.msrp ==> k in LiveAvtp(a.streams, now) || !a.msrp[k].declType.TalkerFailed?)
  {
    hide Count;
    var r := AvbReset(a, now);
    CountAfterClose(a.streams, r.streams, PcpFn());
    CountAfterClose(a.msrp, r.msrp, FailedFn());
    forall k | k in a.streams ensures PcpFn()(a.streams[k]) <==> a.streams[k].pcpViolations > 0 {}
    forall k | k in a.msrp ensures FailedFn()(a.msrp[k]) <==> a.msrp[k].declType.TalkerFailed? {}
  }

  lemma PtpAfterClose(p: PtpView, now: Time)
    ensures Sum(PtpReset(p, now).domains, ScoreLaws.DomainFn()) == Sum(p.domains, ScoreLaws.DomainFn())
  {
    hide Sum;
    var m, n := p.domains, PtpReset(p, now).domains;
    SumLessOrEqual(m, ScoreLaws.DomainFn(), n, ScoreLaws.DomainFn());
    SumLessOrEqual(n, ScoreLaws.DomainFn(), m, ScoreLaws.DomainFn());
  }

  lemma MulticastAfterClose(m: map<Key, Stream>, now: Time)
    ensures HasMulticast(LiveStreams(m, now)) ==> HasMulticast(m)
    ensures (forall k :: k in m ==> StreamLives(m[k], now)) ==> (HasMulticast(m) ==> HasMulticast(LiveStreams(m, now)))
  {
    hide StreamLives;
    var live := LiveStreams(m, now);
    if HasMulticast(live) {
      var k :| k in live && ActiveMulticast(live[k]);
      assert ActiveMulticast(m[k]);
    }
    if HasMulticast(m) && forall k :: k in m ==> StreamLives(m[k], now) {
      var k :| k in m && ActiveMulticast(m[k]);
      assert ActiveMulticast(live[k]);
    }
  }

  lemma CountersAfterClose(h: Health)
    ensures RetransmissionDeduction(h) >= 0.0 && EcnDeduction(h) >= 0.0
    ensures RetransmissionDeduction(h) == 0.0 <==> h.tcpRetransmissions == 0
    ensures EcnDeduction(h) == 0.0 <==> h.ecnMarks == 0
    ensures RetransmissionDeduction(HealthReset(h)) == 0.0 && EcnDeduction(HealthReset(h)) == 0.0
  {}

  lemma QuerierAfterClose(c: Capture, now: Time)
    ensures var h, g := Checked(c, now).health, Closed(c, now).health;
            var inp, after := InputsOf(Checked(c, now), now), InputsOf(Closed(c, now), now);
            && 0.0 <= ScoreLaws.QuerierTerm(g, after) <= ScoreLaws.QuerierTerm(h, inp)
            && (ScoreLaws.QuerierTerm(g, after) == ScoreLaws.QuerierTerm(h, inp) ==> !h.multipleQueriers)
            && ((forall k :: k in c.streams ==> StreamLives(c.streams[k], now)) && !h.multipleQueriers ==>
                  ScoreLaws.QuerierTerm(g, after) == ScoreLaws.QuerierTerm(h, inp))
  {
    hide Score, WholeSecs, StreamLives, LiveStreams, LiveConns, HasMulticast;
    hide QuerierConflict, AvbReset, PtpReset, IgmpReset, Dante.WindowClosed, TimeoutsChecked;
    MulticastAfterClose(c.streams, now);
  }

  // The inputs before and after, term by term.
  lemma InputsAfterClose(c: Capture, now: Time)
    ensures var inp, after := InputsOf(Checked(c, now), now), InputsOf(Closed(c, now), now);
            && inp.now == now == after.now && inp.streams == c.streams && inp.tcp == c.tcp
            && inp.avtp == c.avb.streams && inp.msrp == c.avb.msrp && inp.eee == after.eee
            && after.streams == LiveStreams(c.streams, now) && after.tcp == LiveConns(c.tcp, now)
            && after.avtp == AvbReset(c.avb, now).streams && after.msrp == AvbReset(c.avb, now).msrp
            && after.ptp == PtpReset(Checked(c, now).ptp, now).domains && inp.ptp == Checked(c, now).ptp.domains
    ensures Closed(c, now).health == HealthReset(Checked(c, now).health)
  {
    hide Score, LiveStreams, LiveConns, AvbReset, PtpReset, IgmpReset;
    hide TimeoutsChecked, Dante.WindowClosed, QuerierConflict;
  }

  // A close only forgets: the summary it prints never accounts for more than the score
  // deducted, and it accounts for all of it exactly when nothing was forgotten.
  lemma SummaryAccountsForScore(c: Capture, now: Time)
    ensures PrintedDeduction(c, now) <= ScoredDeduction(c, now)
    ensures PrintedDeduction(c, now) == ScoredDeduction(c, now) <==> NothingForgotten(c, now)
  {
    hide Closed, Checked, InputsOf, Score, Sum, Count, StreamsForgetNothing, LiveStreams, LiveConns, ConnLives;
    hide ScoreLaws.StreamTerm, ScoreLaws.QuerierTerm, RetransmissionDeduction, EcnDeduction;
    hide LiveAvtp, AvbReset, PtpReset, StreamLives;
    var seen, after := Checked(c, now), Closed(c, now);
    var before, printed := InputsOf(seen, now), InputsOf(after, now);
    InputsAfterClose(c, now);
    StreamTermAfterClose(c.streams, before, printed);
    TcpAfterClose(c.tcp, now);
    AvbAfterClose(c.avb, now);
    PtpAfterClose(seen.ptp, now);
    QuerierAfterClose(c, now);
    CountersAfterClose(seen.health);
    CheckedCounters(c, now);
    ForgettingStreams(c.streams, now);
    assert EeeDeduction(before) == EeeDeduction(printed);
  }

  lemma CheckedCounters(c: Capture, now: Time)
    ensures Checked(c, now).health.tcpRetransmissions == c.health.tcpRetransmissions
    ensures Checked(c, now).health.ecnMarks == c.health.ecnMarks
    ensures Checked(c, now).health.multipleQueriers <==>
              c.health.multipleQueriers || QuerierConflict(c.igmp, HasMulticast(c.streams))
  {}

  lemma ForgettingStreams(m: map<Key, Stream>, now: Time)
    ensures StreamsForgetNothing(m, now) ==> forall k :: k in m ==> StreamLives(m[k], now)
  {}

  // ---- When they part -------------------------------------------------------

  // What survives the close deserves no deduction, judged before it.
  ghost predicate LastingHealthy(c: Capture, now: Time) {
    && (forall k :: k in c.streams && StreamLives(c.streams[k], now) ==>
          JitterMs(c.streams[k].arrive) <= 10.0 && !IsDead(c.streams[k].arrive, now)
          && (ActiveMulticast(c.streams[k]) ==> !QuerierSilent(c.health, now)))
    && (forall k :: k in c.tcp && ConnLives(c.tcp[k], now) ==> c.tcp[k].quality.Healthy?)
    && (forall k :: k in LiveAvtp(c.avb.streams, now) ==>
          c.avb.streams[k].pcpViolations == 0 && (k in c.avb.msrp ==> !c.avb.msrp[k].declType.TalkerFailed?))
    && (forall k :: k in c.ptp.domains ==> ClockLasts(c.ptp.domains[k], now))
    && c.eee == map[]
  }

  // Not timing out now, never changed, and valid unless nothing was ever heard.
  ghost predicate ClockLasts(d: Ptp.Domain, now: Time) {
    d.gm.changes == 0 && !Ptp.TimesOut(d, now) && (d.gm.valid || (!d.gm.lost && d.packets == 0))
  }

  ghost predicate Spotless(s: Stream, now: Time) {
    forall cat :: Share(s, cat, now) == 0.0
  }

  lemma StreamAfterClose(s: Stream, now: Time)
    ensures Spotless(WindowReset(s), now) <==>
              JitterMs(s.arrive) <= 10.0 && !IsDead(s.arrive, now)
  {
    forall cat ensures Share(WindowReset(s), cat, now) == if WindowScoped(cat) then 0.0 else Share(s, cat, now) {
      ShareAfterReset(s, cat, now);
    }
    if Spotless(WindowReset(s), now) {
      assert Share(WindowReset(s), Jitter, now) == 0.0 && Share(WindowReset(s), DeadStream, now) == 0.0;
    }
  }

  lemma StreamsAfterClose(m: map<Key, Stream>, now: Time)
    ensures (forall k, cat :: k in LiveStreams(m, now) ==> Share(LiveStreams(m, now)[k], cat, now) == 0.0) <==>
              forall k :: k in m && StreamLives(m[k], now) ==>
                JitterMs(m[k].arrive) <= 10.0 && !IsDead(m[k].arrive, now)
  {
    hide Share, WindowReset, StreamLives, IsDead, JitterMs;
    var live := LiveStreams(m, now);
    forall k | k in m && StreamLives(m[k], now)
      ensures k in live && live[k] == WindowReset(m[k])
      ensures Spotless(live[k], now) <==> JitterMs(m[k].arrive) <= 10.0 && !IsDead(m[k].arrive, now)
    {
      StreamAfterClose(m[k], now);
    }
    assert (forall k, cat :: k in live ==> Share(live[k], cat, now) == 0.0) <==>
             forall k :: k in live ==> Spotless(live[k], now);
  }

  lemma MulticastAmongLive(m: map<Key, Stream>, now: Time)
    ensures HasMulticast(LiveStreams(m, now)) <==>
              exists k :: k in m && StreamLives(m[k], now) && ActiveMulticast(m[k])
  {
    hide StreamLives;
    var live := LiveStreams(m, now);
    forall k | k in m && StreamLives(m[k], now) ensures ActiveMulticast(live[k]) == ActiveMulticast(m[k]) {}
    if k :| k in m && StreamLives(m[k], now) && ActiveMulticast(m[k]) {
      assert k in live && ActiveMulticast(live[k]);
    }
  }

  lemma ClocksAfterClose(p: PtpView, now: Time)
    ensures var r := PtpReset(p.(domains := TimeoutsChecked(p.domains, now)), now).domains;
            (forall k :: k in r ==> ScoreLaws.ClockHealthy(r[k])) <==>
              forall k :: k in p.domains ==> ClockLasts(p.domains[k], now)
  {
    var r := PtpReset(p.(domains := TimeoutsChecked(p.domains, now)), now).domains;
    forall k | k in p.domains ensures k in r && (ScoreLaws.ClockHealthy(r[k]) <==> ClockLasts(p.domains[k], now)) {}
  }

  lemma SameSilence(h: Health, now: Time)
    ensures QuerierSilent(HealthReset(h), now) <==> QuerierSilent(h, now)
    ensures !HealthReset(h).multipleQueriers && HealthReset(h).tcpRetransmissions == 0 && HealthReset(h).ecnMarks == 0
  {}

  lemma CheckedSilence(c: Capture, now: Time)
    ensures QuerierSilent(Checked(c, now).health, now) <==> QuerierSilent(c.health, now)
    ensures Checked(c, now).ptp == c.ptp.(domains := TimeoutsChecked(c.ptp.domains, now))
    ensures InputsOf(Closed(c, now), now).eee == c.eee
  {
    hide TimeoutsChecked, Score, WindowClosed, QuerierConflict, HasMulticast;
    InputsAfterClose(c, now);
  }

  lemma ClosedIsHealthy(c: Capture, now: Time)
    ensures ScoreLaws.Healthy(Closed(c, now).health, InputsOf(Closed(c, now), now)) <==> LastingHealthy(c, now)
  {
    hide Closed, Checked, InputsOf, StreamLives, ConnLives, LiveStreams, HasMulticast, QuerierSilent, ActiveMulticast;
    hide Share, IsDead, JitterMs, ScoreLaws.ClockHealthy, ClockLasts, TimeoutsChecked, PtpReset, HealthReset, LiveAvtp;
    InputsAfterClose(c, now);
    StreamsAfterClose(c.streams, now);
    MulticastAmongLive(c.streams, now);
    ClocksAfterClose(c.ptp, now);
    SameSilence(Checked(c, now).health, now);
    CheckedSilence(c, now);
    AvtpAmongLive(c.avb, now);
    ConnsAmongLive(c.tcp, now);
  }

  lemma ConnsAmongLive(m: map<Key, Tcp.Conn>, now: Time)
    ensures (forall k :: k in LiveConns(m, now) ==> LiveConns(m, now)[k].quality.Healthy?) <==>
              forall k :: k in m && ConnLives(m[k], now) ==> m[k].quality.Healthy?
  {
    hide ConnLives;
    forall k | k in m && ConnLives(m[k], now) ensures k in LiveConns(m, now) && LiveConns(m, now)[k] == m[k] {}
  }

  lemma AvtpAmongLive(a: Avb, now: Time)
    ensures var r := AvbReset(a, now);
            ((forall k :: k in r.streams ==> r.streams[k].pcpViolations == 0)
             && (forall k :: k in r.msrp ==> !r.msrp[k].declType.TalkerFailed?)) <==>
              forall k :: k in LiveAvtp(a.streams, now) ==>
                a.streams[k].pcpViolations == 0 && (k in a.msrp ==> !a.msrp[k].declType.TalkerFailed?)
  {
    var r := AvbReset(a, now);
    forall k | k in LiveAvtp(a.streams, now)
      ensures k in r.streams && r.streams[k] == a.streams[k]
      ensures k in a.msrp ==> k in r.msrp && r.msrp[k] == a.msrp[k]
    {}
  }

  // The score is 100 and the printed summary is empty together, except when what survives
  // the close is healthy and something was forgotten on the way: only then do "100%" and
  // "no issues" part. Both conditions are read off the state before the close.
  lemma SummaryPartsFromScore(c: Capture, now: Time)
    ensures var after := Closed(c, now);
            && (after.score == 100.0 ==> Summary(Penalties(after.health, InputsOf(after, now))) == [])
            && (Summary(Penalties(after.health, InputsOf(after, now))) == [] <==> LastingHealthy(c, now))
            && ((after.score == 100.0 <==> Summary(Penalties(after.health, InputsOf(after, now))) == []) <==>
                  (LastingHealthy(c, now) ==> NothingForgotten(c, now)))
  {
    hide Penalties, ScoreLaws.Terms, Closed, Checked, InputsOf, ScoreLaws.Healthy, NothingForgotten, LastingHealthy;
    var after := Closed(c, now);
    DeductionsAreTotals(c, now);
    SummaryAccountsForScore(c, now);
    ClosedIsHealthy(c, now);
    ScoreLaws.PerfectScore(after.health, InputsOf(after, now));
    ScoreLaws.ScoreAgreesWithSummary(after.health, InputsOf(after, now));
    ScoreLaws.ScoreAgreesWithSummary(Checked(c, now).health, InputsOf(Checked(c, now), now));
  }

  lemma ScoreIsBounded(c: Capture, now: Time)
    ensures Closed(c, now).score <= 100.0
  {
    hide Score;
    ScoreLaws.ScoreAgreesWithSummary(Checked(c, now).health, InputsOf(Checked(c, now), now));
  }
}
