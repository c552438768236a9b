// Which bullets the health summary prints, and what each of them says.
module SummaryBullets {
  import opened Basics
  import opened Diagnostics
  import opened Scoring
  import opened ScoreLaws
  import opened ScoreNumbers
  import opened Streams
  import opened Sums
  import Ptp
  import Tcp

  ghost predicate Affected(s: Stream, c: Category, now: Time) {
    match c
    case Loss => s.count.lostThisWindow > 0
    case Jitter => s.arrive.jitter > 0.01
    case Discontinuity => s.clock.jumpsThisWindow > 0
    case Ssrc => s.marks.ssrcChanges > 0
    case DeadStream => Silent(s, now)
    case Gap => s.arrive.gapEvents >= 2
    case Dscp => s.marks.dscpViolations > 0
  }

  ghost function AffectedFn(c: Category, now: Time): Stream -> bool {
    (s: Stream) => Affected(s, c, now)
  }

  ghost function UnhealthyFn(): Tcp.Conn -> bool {
    (t: Tcp.Conn) => !t.quality.Healthy?
  }

  // What a bullet says, in terms of what is in view.
  ghost predicate Tells(h: Health, inp: Inputs, b: Bullet) {
    match b.kind
    case Streams(c) => b.count > 0 && b.count == Count(inp.streams, AffectedFn(c, inp.now))
    case AvbPcp => b.count > 0 && b.count == Count(inp.avtp, PcpFn())
    case TcpQuality => b.count > 0 && b.count == Count(inp.tcp, UnhealthyFn())
    case Retransmissions => b.count > 0 && b.count == h.tcpRetransmissions
    case Ecn => b.count > 0 && b.count == h.ecnMarks
    case QuerierAbsent => b.count == 1 && QuerierGone(h, inp)
    case MultipleQueriers => b.count == 1 && h.multipleQueriers
    case ClockSourceLost(domain) =>
      b.count == 1 && exists k :: k in inp.ptp && k.0 == domain && !inp.ptp[k].gm.valid && inp.ptp[k].gm.lost
    case NoGrandmaster(domain) =>
      b.count == 1 && exists k :: k in inp.ptp && k.0 == domain && !inp.ptp[k].gm.valid && !inp.ptp[k].gm.lost
                                  && inp.ptp[k].packets > 0
    case GrandmasterChanged(domain) =>
      b.count == 1 && exists k :: k in inp.ptp && k.0 == domain && inp.ptp[k].gm.changes > 0
    case ReservationFailure => b.count > 0 && b.count == Count(inp.msrp, FailedFn())
    case EeePorts => b.count > 0 && b.count == |inp.eee|
  }

  ghost predicate Lists(ps: seq<Penalty>, b: Bullet) {
    exists i :: 0 <= i < |ps| && ps[i].kind == b.kind && ps[i].count == b.count
  }

  lemma ListsConcat(a: seq<Penalty>, c: seq<Penalty>, b: Bullet)
    ensures Lists(a + c, b) <==> Lists(a, b) || Lists(c, b)
  {
    if Lists(a, b) {
      var i :| 0 <= i < |a| && a[i].kind == b.kind && a[i].count == b.count;
      assert (a + c)[i] == a[i];
    }
    if Lists(c, b) {
      var i :| 0 <= i < |c| && c[i].kind == b.kind && c[i].count == b.count;
      assert (a + c)[|a| + i] == c[i];
    }
  }

  lemma ListsWhen(x: bool, p: Penalty, b: Bullet)
    ensures Lists(When(x, p), b) <==> x && p.kind == b.kind && p.count == b.count
  {
    if x { assert When(x, p)[0] == p; }
  }

  lemma SummaryLists(ps: seq<Penalty>, b: Bullet)
    ensures b in Summary(ps) <==> Lists(ps, b)
  {
    if Lists(ps, b) {
      var i :| 0 <= i < |ps| && ps[i].kind == b.kind && ps[i].count == b.count;
      assert Summary(ps)[i] == b;
    }
  }

  lemma StreamBullet(inp: Inputs, c: Category, b: Bullet)
    ensures Lists(StreamPenalty(inp, c), b) <==>
              b.kind == Kind.Streams(c) && b.count > 0 && b.count == Count(inp.streams, AffectedFn(c, inp.now))
  {
    hide Count, Lists, CategoryDeduction;
    forall k | k in inp.streams ensures FlagFn(c, inp.now)(inp.streams[k]) <==> AffectedFn(c, inp.now)(inp.streams[k]) {
      AffectedIsShare(inp.streams[k], c, inp.now);
    }
    SameCount(inp.streams, FlagFn(c, inp.now), AffectedFn(c, inp.now));
    var n := Count(inp.streams, FlagFn(c, inp.now));
    ListsWhen(n > 0, Penalty(Kind.Streams(c), n, CategoryDeduction(inp, c)), b);
  }

  lemma AffectedIsShare(s: Stream, c: Category, now: Time)
    ensures Affected(s, c, now) <==> Share(s, c, now) > 0.0
  {
    if c == Loss && s.count.lostThisWindow > 0 {
      PositiveShare(s.count.lostThisWindow as real, (s.count.packetsThisWindow + s.count.lostThisWindow) as real);
    }
  }

  lemma PositiveShare(part: real, whole: real)
    requires 0.0 < part <= whole
    ensures 100.0 * part / whole > 0.0
  {
    var p := 100.0 * part / whole;
    assert p * whole == 100.0 * part;
    if p <= 0.0 { NonPositiveProduct(p, whole); }
  }

  lemma NonPositiveProduct(p: real, w: real)
    requires p <= 0.0 && w > 0.0
    ensures p * w <= 0.0
  {}

  lemma StreamBullets(inp: Inputs, b: Bullet)
    ensures Lists(StreamPenalties(inp), b) <==>
              b.kind.Streams? && b.count > 0 && b.count == Count(inp.streams, AffectedFn(b.kind.c, inp.now))
  {
    hide Lists, StreamPenalty, Count;
    var p := (c: Category) => StreamPenalty(inp, c);
    forall c: Category
      ensures Lists(p(c), b) <==>
                b.kind == Kind.Streams(c) && b.count > 0 && b.count == Count(inp.streams, AffectedFn(c, inp.now))
    {
      StreamBullet(inp, c, b);
    }
    ListsConcat(p(Loss), p(Jitter), b);
    ListsConcat(p(Loss) + p(Jitter), p(Discontinuity), b);
    ListsConcat(p(Loss) + p(Jitter) + p(Discontinuity), p(Ssrc), b);
    ListsConcat(p(Loss) + p(Jitter) + p(Discontinuity) + p(Ssrc), p(DeadStream), b);
    ListsConcat(p(Loss) + p(Jitter) + p(Discontinuity) + p(Ssrc) + p(DeadStream), p(Gap), b);
    ListsConcat(p(Loss) + p(Jitter) + p(Discontinuity) + p(Ssrc) + p(DeadStream) + p(Gap), p(Dscp), b);
    if b.kind.Streams? {
      match b.kind.c {
        case Loss => case Jitter => case Discontinuity => case Ssrc => case DeadStream => case Gap => case Dscp =>
      }
    }
  }

  ghost predicate ClockTells(d: Ptp.Domain, key: DomainKey, b: Bullet) {
    b.count == 1 &&
    match b.kind
    case ClockSourceLost(domain) => key.0 == domain && !d.gm.valid && d.gm.lost
    case NoGrandmaster(domain) => key.0 == domain && !d.gm.valid && !d.gm.lost && d.packets > 0
    case GrandmasterChanged(domain) => key.0 == domain && d.gm.changes > 0
    case _ => false
  }

  lemma ClockBullet(key: DomainKey, d: Ptp.Domain, b: Bullet)
    ensures Lists(DomainPenalties(key, d), b) <==> ClockTells(d, key, b)
  {
    hide Lists;
    var lost, none := !d.gm.valid && d.gm.lost, !d.gm.valid && !d.gm.lost && d.packets > 0;
    var p, q := Penalty(ClockSourceLost(key.0), 1, 25.0), Penalty(NoGrandmaster(key.0), 1, 15.0);
    var r := Penalty(GrandmasterChanged(key.0), 1, 10.0 * MinReal(d.gm.changes as real, 3.0));
    ListsConcat(When(lost, p), When(none, q), b);
    ListsConcat(When(lost, p) + When(none, q), When(d.gm.changes > 0, r), b);
    ListsWhen(lost, p, b);
    ListsWhen(none, q, b);
    ListsWhen(d.gm.changes > 0, r, b);
  }

  lemma {:induction false} ClockBullets(keys: seq<DomainKey>, ptp: map<DomainKey, Ptp.Domain>, b: Bullet)
    requires forall k :: k in keys ==> k in ptp
    ensures Lists(PtpPenalties(keys, ptp), b) <==> exists i :: 0 <= i < |keys| && ClockTells(ptp[keys[i]], keys[i], b)
  {
    hide Lists, ClockTells, DomainPenalties;
    if keys == [] {
      NothingListed(b);
    } else {
      ClockBullets(Front(keys), ptp, b);
      ListsConcat(PtpPenalties(Front(keys), ptp), DomainPenalties(Last(keys), ptp[Last(keys)]), b);
      ClockBullet(Last(keys), ptp[Last(keys)], b);
      assert keys[|keys| - 1] == Last(keys);
      assert forall i :: 0 <= i < |keys| - 1 ==> Front(keys)[i] == keys[i];
    }
  }

  lemma NothingListed(b: Bullet)
    ensures !Lists([], b)
  {}

  lemma CounterBullets(h: Health, inp: Inputs, b: Bullet)
    ensures Lists(AvbPenalty(inp), b) <==> b.kind == AvbPcp && b.count > 0 && b.count == Count(inp.avtp, PcpFn())
    ensures Lists(MsrpPenalty(inp), b) <==>
              b.kind == ReservationFailure && b.count > 0 && b.count == Count(inp.msrp, FailedFn())
    ensures Lists(EeePenalty(inp), b) <==> b.kind == EeePorts && b.count > 0 && b.count == |inp.eee|
    ensures Lists(CounterPenalties(h), b) <==>
              || (b.kind == Retransmissions && b.count > 0 && b.count == h.tcpRetransmissions)
              || (b.kind == Ecn && b.count > 0 && b.count == h.ecnMarks)
    ensures Lists(QuerierPenalties(h, inp), b) <==>
              || (b.kind == QuerierAbsent && b.count == 1 && QuerierGone(h, inp))
              || (b.kind == MultipleQueriers && b.count == 1 && h.multipleQueriers)
  {
    hide Count, Lists, QuerierGone, HasMulticast, QuerierSilent;
    var n, m, w := Count(inp.avtp, PcpFn()), Count(inp.msrp, FailedFn()), EeeDeduction(inp);
    ListsWhen(n > 0, Penalty(AvbPcp, n, n as real * 15.0), b);
    ListsWhen(m > 0, Penalty(ReservationFailure, m, m as real * 20.0), b);
    ListsWhen(w > 0.0, Penalty(EeePorts, |inp.eee|, w), b);
    var r, e := RetransmissionDeduction(h), EcnDeduction(h);
    var p, q := Penalty(Retransmissions, h.tcpRetransmissions, r), Penalty(Ecn, h.ecnMarks, e);
    ListsConcat(When(r > 0.0, p), When(e > 0.0, q), b);
    ListsWhen(r > 0.0, p, b);
    ListsWhen(e > 0.0, q, b);
    var absent := HasMulticast(inp.streams) && QuerierSilent(h, inp.now);
    AbsentIsGone(h, inp);
    var a, d := Penalty(QuerierAbsent, 1, 10.0), Penalty(MultipleQueriers, 1, 15.0);
    ListsConcat(When(absent, a), When(h.multipleQueriers, d), b);
    ListsWhen(absent, a, b);
    ListsWhen(h.multipleQueriers, d, b);
  }

  lemma AbsentIsGone(h: Health, inp: Inputs)
    ensures HasMulticast(inp.streams) && QuerierSilent(h, inp.now) <==> QuerierGone(h, inp)
  {
    QuerierInPoints(h, inp);
  }

  lemma ConnBullet(inp: Inputs, b: Bullet)
    ensures Lists(TcpPenalty(inp), b) <==>
              b.kind == TcpQuality && b.count > 0 && b.count == Count(inp.tcp, UnhealthyFn())
  {
    hide Count, Lists, Sum;
    forall k | k in inp.tcp ensures DegradedFn()(inp.tcp[k]) <==> UnhealthyFn()(inp.tcp[k]) {
      assert DegradedFn()(inp.tcp[k]) <==> QualityDeduction()(inp.tcp[k]) > 0.0;
    }
    SameCount(inp.tcp, DegradedFn(), UnhealthyFn());
    var n := Count(inp.tcp, DegradedFn());
    ListsWhen(n > 0, Penalty(TcpQuality, n, Sum(inp.tcp, QualityDeduction())), b);
  }

  // The summary prints a bullet exactly when what it says is so.
  lemma SummaryTells(h: Health, inp: Inputs, b: Bullet)
    ensures b in Summary(Penalties(h, inp)) <==> Tells(h, inp, b)
  {
    hide Lists, StreamPenalties, AvbPenalty, TcpPenalty, CounterPenalties, QuerierPenalties, PtpPenalties;
    hide MsrpPenalty, EeePenalty, SortedKeys, Summary, Count, QuerierGone, ClockTells;
    SummaryLists(Penalties(h, inp), b);
    StreamBullets(inp, b);
    CounterBullets(h, inp, b);
    ConnBullet(inp, b);
    var keys := SortedKeys(inp.ptp.Keys);
    ClockBullets(keys, inp.ptp, b);
    SomeClockTells(inp, keys, b);
    var ps := StreamPenalties(inp);
    ListsConcat(ps, AvbPenalty(inp), b);
    ps := ps + AvbPenalty(inp);
    ListsConcat(ps, TcpPenalty(inp), b);
    ps := ps + TcpPenalty(inp);
    ListsConcat(ps, CounterPenalties(h), b);
    ps := ps + CounterPenalties(h);
    ListsConcat(ps, QuerierPenalties(h, inp), b);
    ps := ps + QuerierPenalties(h, inp);
    ListsConcat(ps, PtpPenalties(keys, inp.ptp), b);
    ps := ps + PtpPenalties(keys, inp.ptp);
    ListsConcat(ps, MsrpPenalty(inp), b);
    ps := ps + MsrpPenalty(inp);
    ListsConcat(ps, EeePenalty(inp), b);
  }

  predicate OfClock(k: Kind) {
    k.ClockSourceLost? || k.NoGrandmaster? || k.GrandmasterChanged?
  }

  lemma SomeClockTells(inp: Inputs, keys: seq<DomainKey>, b: Bullet)
    requires forall k :: k in keys <==> k in inp.ptp.Keys
    ensures forall k :: k in keys ==> k in inp.ptp
    ensures (exists i :: 0 <= i < |keys| && ClockTells(inp.ptp[keys[i]], keys[i], b)) <==>
              OfClock(b.kind) && Tells(HealthyRecord, inp, b)
  {
    if i :| 0 <= i < |keys| && ClockTells(inp.ptp[keys[i]], keys[i], b) {
      assert keys[i] in inp.ptp;
    }
    if OfClock(b.kind) && Tells(HealthyRecord, inp, b) {
      var k :| k in inp.ptp && ClockTells(inp.ptp[k], k, b);
      assert k in keys;
      var i :| 0 <= i < |keys| && keys[i] == k;
    }
  }

  // Bullets about clocks do not read the health record.
  const HealthyRecord: Health := Health(0, 0, None, None, false)

  // ---- The order of the bullets ---------------------------------------------

  function CategoryPlace(c: Category): nat {
    match c
    case Loss => 0
    case Jitter => 1
    case Discontinuity => 2
    case Ssrc => 3
    case DeadStream => 4
    case Gap => 5
    case Dscp => 6
  }

  // The place of a bullet in the summary; those of the clocks share one, by domain.
  function Place(k: Kind): nat {
    match k
    case Streams(c) => CategoryPlace(c)
    case AvbPcp => 7
    case TcpQuality => 8
    case Retransmissions => 9
    case Ecn => 10
    case QuerierAbsent => 11
    case MultipleQueriers => 12
    case ClockSourceLost(_) => 13
    case NoGrandmaster(_) => 13
    case GrandmasterChanged(_) => 13
    case ReservationFailure => 14
    case EeePorts => 15
  }

  function DomainOf(k: Kind): nat {
    match k
    case ClockSourceLost(domain) => domain
    case NoGrandmaster(domain) => domain
    case GrandmasterChanged(domain) => domain
    case _ => 0
  }

  // Before it in the summary, or beside it.
  predicate Leads(a: Kind, b: Kind) {
    Place(a) < Place(b) || (Place(a) == Place(b) && DomainOf(a) <= DomainOf(b))
  }

  ghost predicate InOrder(ps: seq<Penalty>, places: nat) {
    && (forall i :: 0 <= i < |ps| ==> Place(ps[i].kind) < places)
    && (forall i, j :: 0 <= i < j < |ps| ==> Leads(ps[i].kind, ps[j].kind))
  }

  // In order among themselves, all from one place up to another.
  ghost predicate Between(ps: seq<Penalty>, first: nat, places: nat) {
    InOrder(ps, places) && forall i :: 0 <= i < |ps| ==> first <= Place(ps[i].kind)
  }

  lemma OrderExtends(ps: seq<Penalty>, more: seq<Penalty>, first: nat, places: nat)
    requires InOrder(ps, first) && Between(more, first, places) && first <= places
    ensures InOrder(ps + more, places)
  {
    hide Place, DomainOf;
  }

  lemma OneAfter(ps: seq<Penalty>, b: bool, p: Penalty)
    requires InOrder(ps, Place(p.kind))
    ensures InOrder(ps + When(b, p), Place(p.kind) + 1)
  {
    hide Place, DomainOf;
  }

  lemma StreamsInOrder(inp: Inputs)
    ensures InOrder(StreamPenalties(inp), 7)
  {
    hide StreamPenalty, InOrder;
    NoneInOrder();
    var ps := StreamPenalty(inp, Loss);
    CategoryAfter(inp, [], Loss);
    assert [] + ps == ps;
    CategoryAfter(inp, ps, Jitter);
    ps := ps + StreamPenalty(inp, Jitter);
    CategoryAfter(inp, ps, Discontinuity);
    ps := ps + StreamPenalty(inp, Discontinuity);
    CategoryAfter(inp, ps, Ssrc);
    ps := ps + StreamPenalty(inp, Ssrc);
    CategoryAfter(inp, ps, DeadStream);
    ps := ps + StreamPenalty(inp, DeadStream);
    CategoryAfter(inp, ps, Gap);
    ps := ps + StreamPenalty(inp, Gap);
    CategoryAfter(inp, ps, Dscp);
  }

  lemma CategoryAfter(inp: Inputs, ps: seq<Penalty>, c: Category)
    requires InOrder(ps, CategoryPlace(c))
    ensures InOrder(ps + StreamPenalty(inp, c), CategoryPlace(c) + 1)
  {
    hide Count, CategoryDeduction, InOrder, When;
    var n := Count(inp.streams, FlagFn(c, inp.now));
    OneAfter(ps, n > 0, Penalty(Kind.Streams(c), n, CategoryDeduction(inp, c)));
  }

  lemma NoneInOrder()
    ensures InOrder([], 0)
  {}

  // Clock penalties of domains up to this one, in order.
  ghost predicate ClocksUpTo(ps: seq<Penalty>, domain: nat) {
    && Between(ps, 13, 14)
    && forall i :: 0 <= i < |ps| ==> DomainOf(ps[i].kind) <= domain
  }

  lemma ClocksExtend(ps: seq<Penalty>, more: seq<Penalty>, before: nat, domain: nat)
    requires ClocksUpTo(ps, before) && before <= domain
    requires forall i :: 0 <= i < |more| ==> Place(more[i].kind) == 13 && DomainOf(more[i].kind) == domain
    ensures ClocksUpTo(ps + more, domain)
  {
    hide Place, DomainOf;
  }

  lemma {:induction false} ClocksInOrder(keys: seq<DomainKey>, ptp: map<DomainKey, Ptp.Domain>)
    requires (forall k :: k in keys ==> k in ptp) && Ascending(keys)
    ensures ClocksUpTo(PtpPenalties(keys, ptp), if keys == [] then 0 else Last(keys).0)
  {
    if keys != [] {
      var front := Front(keys);
      assert |keys| > 1 ==> Before(keys[|keys| - 2], keys[|keys| - 1]);
      ClocksInOrder(front, ptp);
      OneClockInPlace(Last(keys), ptp[Last(keys)]);
      hide ClocksUpTo, DomainPenalties, Place, DomainOf;
      ClocksExtend(PtpPenalties(front, ptp), DomainPenalties(Last(keys), ptp[Last(keys)]),
                   if front == [] then 0 else Last(front).0, Last(keys).0);
    }
  }

  lemma OneClockInPlace(key: DomainKey, d: Ptp.Domain)
    ensures forall i :: 0 <= i < |DomainPenalties(key, d)| ==>
              Place(DomainPenalties(key, d)[i].kind) == 13 && DomainOf(DomainPenalties(key, d)[i].kind) == key.0
  {}

  // The bullets of the summary are printed in this order, those of the clocks by domain.
  lemma SummaryInOrder(h: Health, inp: Inputs, i: nat, j: nat)
    requires i < j < |Summary(Penalties(h, inp))|
    ensures Leads(Summary(Penalties(h, inp))[i].kind, Summary(Penalties(h, inp))[j].kind)
  {
    PenaltiesInOrder(h, inp);
    hide Penalties, Leads;
  }

  lemma PenaltiesInOrder(h: Health, inp: Inputs)
    ensures InOrder(Penalties(h, inp), 16)
  {
    hide InOrder, Between, StreamPenalties, PtpPenalties, SortedKeys, Count, Sum, When, HasMulticast, QuerierSilent;
    hide RetransmissionDeduction, EcnDeduction, EeeDeduction;
    StreamsInOrder(inp);
    var ps := StreamPenalties(inp);
    var n := Count(inp.avtp, PcpFn());
    OneAfter(ps, n > 0, Penalty(AvbPcp, n, n as real * 15.0));
    ps := ps + AvbPenalty(inp);
    var m := Count(inp.tcp, DegradedFn());
    OneAfter(ps, m > 0, Penalty(TcpQuality, m, Sum(inp.tcp, QualityDeduction())));
    ps := ps + TcpPenalty(inp);
    CountersInOrder(h, inp, ps);
    ps := ps + CounterPenalties(h) + QuerierPenalties(h, inp);
    var keys := SortedKeys(inp.ptp.Keys);
    ClocksInOrder(keys, inp.ptp);
    OrderExtends(ps, PtpPenalties(keys, inp.ptp), 13, 14);
    ps := ps + PtpPenalties(keys, inp.ptp);
    var f := Count(inp.msrp, FailedFn());
    OneAfter(ps, f > 0, Penalty(ReservationFailure, f, f as real * 20.0));
    ps := ps + MsrpPenalty(inp);
    OneAfter(ps, EeeDeduction(inp) > 0.0, Penalty(EeePorts, |inp.eee|, EeeDeduction(inp)));
  }

  lemma CountersInOrder(h: Health, inp: Inputs, ps: seq<Penalty>)
    requires InOrder(ps, 9)
    ensures InOrder(ps + CounterPenalties(h) + QuerierPenalties(h, inp), 13)
  {
    hide InOrder, When, HasMulticast, QuerierSilent, RetransmissionDeduction, EcnDeduction;
    var r, e := RetransmissionDeduction(h), EcnDeduction(h);
    var resent := When(r > 0.0, Penalty(Retransmissions, h.tcpRetransmissions, r));
    var marked := When(e > 0.0, Penalty(Ecn, h.ecnMarks, e));
    var gone := When(HasMulticast(inp.streams) && QuerierSilent(h, inp.now), Penalty(QuerierAbsent, 1, 10.0));
    var rivals := When(h.multipleQueriers, Penalty(MultipleQueriers, 1, 15.0));
    OneAfter(ps, r > 0.0, Penalty(Retransmissions, h.tcpRetransmissions, r));
    OneAfter(ps + resent, e > 0.0, Penalty(Ecn, h.ecnMarks, e));
    OneAfter(ps + resent + marked, HasMulticast(inp.streams) && QuerierSilent(h, inp.now),
             Penalty(QuerierAbsent, 1, 10.0));
    OneAfter(ps + resent + marked + gone, h.multipleQueriers, Penalty(MultipleQueriers, 1, 15.0));
    assert ps + CounterPenalties(h) + QuerierPenalties(h, inp) == ps + resent + marked + gone + rivals;
  }
}
