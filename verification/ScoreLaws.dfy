// What the health score promises: its range, its agreement with the summary, and that
// more of the network in view never raises it.
module ScoreLaws {
  import opened Basics
  import opened Sums
  import opened Diagnostics
  import opened Scoring
  import Ptp

  // ---- Deductions of a list of penalties ------------------------------------

  lemma {:induction false} TotalOfConcat(a: seq<Penalty>, b: seq<Penalty>)
    ensures TotalDeduction(a + b) == TotalDeduction(a) + TotalDeduction(b)
  {
    if b == [] {
      assert a + b == a;
    } else {
      assert Front(a + b) == a + Front(b);
      TotalOfConcat(a, Front(b));
    }
  }

  lemma TotalOfWhen(b: bool, p: Penalty)
    ensures TotalDeduction(When(b, p)) == if b then p.deduction else 0.0
  {
    assert Front([p]) == [];
  }

  ghost predicate AllPositive(ps: seq<Penalty>) {
    forall i :: 0 <= i < |ps| ==> ps[i].deduction > 0.0
  }

  lemma {:induction false} PositiveTotal(ps: seq<Penalty>)
    requires AllPositive(ps)
    ensures TotalDeduction(ps) >= 0.0
    ensures TotalDeduction(ps) == 0.0 <==> ps == []
  {
    if ps != [] {
      PositiveTotal(Front(ps));
    }
  }

  // ---- Each piece of the table is positive, and sums to a term --------------

  ghost function DomainDeduction(d: Ptp.Domain): real {
    (if !d.gm.valid && d.gm.lost then 25.0 else 0.0) +
    (if !d.gm.valid && !d.gm.lost && d.packets > 0 then 15.0 else 0.0) +
    10.0 * MinReal(d.gm.changes as real, 3.0)
  }

  ghost function DomainFn(): Ptp.Domain -> real {
    (d: Ptp.Domain) => DomainDeduction(d)
  }

  ghost function StreamTerm(inp: Inputs): real {
    CategoryDeduction(inp, Loss) + CategoryDeduction(inp, Jitter) + CategoryDeduction(inp, Discontinuity) +
    CategoryDeduction(inp, Ssrc) + CategoryDeduction(inp, DeadStream) + CategoryDeduction(inp, Gap) +
    CategoryDeduction(inp, Dscp)
  }

  ghost function QuerierTerm(h: Health, inp: Inputs): real {
    (if HasMulticast(inp.streams) && QuerierSilent(h, inp.now) then 10.0 else 0.0) +
    (if h.multipleQueriers then 15.0 else 0.0)
  }

  // The total deduction as a plain sum over the maps.
  ghost function Terms(h: Health, inp: Inputs): real {
    StreamTerm(inp) + Count(inp.avtp, PcpFn()) as real * 15.0 + Sum(inp.tcp, QualityDeduction()) +
    (RetransmissionDeduction(h) + EcnDeduction(h)) + QuerierTerm(h, inp) + Sum(inp.ptp, DomainFn()) +
    Count(inp.msrp, FailedFn()) as real * 20.0 + EeeDeduction(inp)
  }

  lemma CategoryPiece(inp: Inputs, c: Category)
    ensures TotalDeduction(StreamPenalty(inp, c)) == CategoryDeduction(inp, c)
    ensures AllPositive(StreamPenalty(inp, c))
    ensures CategoryDeduction(inp, c) >= 0.0
  {
    hide Share;
    var f, p := ShareFn(c, inp.now), FlagFn(c, inp.now);
    SumPositive(inp.streams, f);
    CountPositive(inp.streams, p);
    TotalOfWhen(Count(inp.streams, p) > 0,
                Penalty(Kind.Streams(c), Count(inp.streams, p), CategoryDeduction(inp, c)));
    assert (exists k :: k in inp.streams && f(inp.streams[k]) > 0.0)
      <==> (exists k :: k in inp.streams && p(inp.streams[k])) by {
      if k :| k in inp.streams && p(inp.streams[k]) {
        assert f(inp.streams[k]) > 0.0;
      }
      if k :| k in inp.streams && f(inp.streams[k]) > 0.0 {
        assert p(inp.streams[k]);
      }
    }
  }

  lemma CountPositive<K, V>(m: map<K, V>, p: V -> bool)
    ensures Count(m, p) > 0 <==> exists k :: k in m && p(m[k])
  {
    if k :| k in m && p(m[k]) {
      assert k in Matching(m, p);
    }
    if Matching(m, p) != {} {
      var k :| k in Matching(m, p);
      assert k in m && p(m[k]);
    }
  }

  // A list of penalties that are all positive and deduct t in total.
  ghost predicate Deducts(ps: seq<Penalty>, t: real) {
    AllPositive(ps) && TotalDeduction(ps) == t
  }

  lemma Joined(a: seq<Penalty>, t: real, b: seq<Penalty>, u: real)
    requires Deducts(a, t) && Deducts(b, u)
    ensures Deducts(a + b, t + u)
  {
    TotalOfConcat(a, b);
  }

  lemma Single(b: bool, p: Penalty)
    requires b ==> p.deduction > 0.0
    ensures Deducts(When(b, p), if b then p.deduction else 0.0)
  {
    TotalOfWhen(b, p);
  }

  lemma StreamPieces(inp: Inputs)
    ensures Deducts(StreamPenalties(inp), StreamTerm(inp))
  {
    hide CategoryDeduction, StreamPenalty, Deducts;
    var p := (c: Category) => StreamPenalty(inp, c);
    var t := (c: Category) => CategoryDeduction(inp, c);
    forall c: Category ensures Deducts(p(c), t(c)) { CategoryDeducts(inp, c); }
    Joined(p(Loss), t(Loss), p(Jitter), t(Jitter));
    var ps, u := p(Loss) + p(Jitter), t(Loss) + t(Jitter);
    Joined(ps, u, p(Discontinuity), t(Discontinuity));
    ps, u := ps + p(Discontinuity), u + t(Discontinuity);
    Joined(ps, u, p(Ssrc), t(Ssrc));
    ps, u := ps + p(Ssrc), u + t(Ssrc);
    Joined(ps, u, p(DeadStream), t(DeadStream));
    ps, u := ps + p(DeadStream), u + t(DeadStream);
    Joined(ps, u, p(Gap), t(Gap));
    ps, u := ps + p(Gap), u + t(Gap);
    Joined(ps, u, p(Dscp), t(Dscp));
  }

  lemma CategoryDeducts(inp: Inputs, c: Category)
    ensures Deducts(StreamPenalty(inp, c), CategoryDeduction(inp, c))
  {
    CategoryPiece(inp, c);
  }

  lemma TcpPiece(inp: Inputs)
    ensures Deducts(TcpPenalty(inp), Sum(inp.tcp, QualityDeduction()))
  {
    hide Sum, Count;
    var f, p := QualityDeduction(), DegradedFn();
    SumPositive(inp.tcp, f);
    CountPositive(inp.tcp, p);
    assert forall k :: k in inp.tcp ==> (p(inp.tcp[k]) <==> f(inp.tcp[k]) > 0.0);
    Single(Count(inp.tcp, p) > 0, Penalty(TcpQuality, Count(inp.tcp, p), Sum(inp.tcp, f)));
  }

  lemma CounterPieces(h: Health, inp: Inputs)
    ensures Deducts(AvbPenalty(inp), Count(inp.avtp, PcpFn()) as real * 15.0)
    ensures Deducts(CounterPenalties(h), RetransmissionDeduction(h) + EcnDeduction(h))
    ensures Deducts(QuerierPenalties(h, inp), QuerierTerm(h, inp))
    ensures Deducts(MsrpPenalty(inp), Count(inp.msrp, FailedFn()) as real * 20.0)
    ensures Deducts(EeePenalty(inp), EeeDeduction(inp))
  {
    hide Count, HasMulticast, QuerierSilent, Deducts;
    var n, m, r, e, w := Count(inp.avtp, PcpFn()), Count(inp.msrp, FailedFn()), RetransmissionDeduction(h),
                         EcnDeduction(h), EeeDeduction(inp);
    Single(n > 0, Penalty(AvbPcp, n, n as real * 15.0));
    Single(m > 0, Penalty(ReservationFailure, m, m as real * 20.0));
    Single(w > 0.0, Penalty(EeePorts, |inp.eee|, w));
    Single(r > 0.0, Penalty(Retransmissions, h.tcpRetransmissions, r));
    Single(e > 0.0, Penalty(Ecn, h.ecnMarks, e));
    Joined(When(r > 0.0, Penalty(Retransmissions, h.tcpRetransmissions, r)), r,
           When(e > 0.0, Penalty(Ecn, h.ecnMarks, e)), e);
    var absent := HasMulticast(inp.streams) && QuerierSilent(h, inp.now);
    Single(absent, Penalty(QuerierAbsent, 1, 10.0));
    Single(h.multipleQueriers, Penalty(MultipleQueriers, 1, 15.0));
    Joined(When(absent, Penalty(QuerierAbsent, 1, 10.0)), if absent then 10.0 else 0.0,
           When(h.multipleQueriers, Penalty(MultipleQueriers, 1, 15.0)), if h.multipleQueriers then 15.0 else 0.0);
  }

  lemma DomainPiece(key: DomainKey, d: Ptp.Domain)
    ensures Deducts(DomainPenalties(key, d), DomainDeduction(d))
  {
    hide Deducts;
    var lost, none := !d.gm.valid && d.gm.lost, !d.gm.valid && !d.gm.lost && d.packets > 0;
    var p, q := Penalty(ClockSourceLost(key.0), 1, 25.0), Penalty(NoGrandmaster(key.0), 1, 15.0);
    var r := Penalty(GrandmasterChanged(key.0), 1, 10.0 * MinReal(d.gm.changes as real, 3.0));
    Single(lost, p);
    Single(none, q);
    Single(d.gm.changes > 0, r);
    Joined(When(lost, p), if lost then 25.0 else 0.0, When(none, q), if none then 15.0 else 0.0);
    Joined(When(lost, p) + When(none, q), (if lost then 25.0 else 0.0) + if none then 15.0 else 0.0,
           When(d.gm.changes > 0, r), if d.gm.changes > 0 then r.deduction else 0.0);
  }

  lemma {:induction false} PtpPieces(keys: seq<DomainKey>, ptp: map<DomainKey, Ptp.Domain>)
    requires Enumerates(keys, ptp.Keys)
    ensures forall k :: k in keys ==> k in ptp
    ensures Deducts(PtpPenalties(keys, ptp), Sum(ptp, DomainFn()))
    decreases |keys|
  {
    hide Deducts, DomainPenalties, DomainDeduction, Enumerates, Visited;
    VisitedAll(ptp, keys);
    if keys == [] {
      EmptyOrder(ptp, keys);
      EmptyDeducts();
    } else {
      var k := Last(keys);
      var rest := ptp - {k};
      EnumeratesFront(keys, ptp.Keys);
      assert rest.Keys == ptp.Keys - {k};
      PtpPieces(Front(keys), rest);
      SamePenalties(Front(keys), rest, ptp);
      SumWithout(ptp, DomainFn(), k);
      DomainPiece(k, ptp[k]);
      Joined(PtpPenalties(Front(keys), ptp), Sum(rest, DomainFn()),
             DomainPenalties(k, ptp[k]), DomainDeduction(ptp[k]));
    }
  }

  lemma EnumeratesFront<K>(order: seq<K>, keys: set<K>)
    requires order != [] && Enumerates(order, keys)
    ensures Last(order) in keys && Enumerates(Front(order), keys - {Last(order)})
  {
    var k := Last(order);
    assert order == Front(order) + [k];
    assert forall j :: j in order <==> j in (set x | x in order);
    forall j ensures j in (set x | x in Front(order)) <==> j in keys - {k} {
      assert j in Front(order) ==> j in order;
    }
  }

  lemma EmptyOrder<K, V>(m: map<K, V>, order: seq<K>)
    requires order == [] && Enumerates(order, m.Keys)
    ensures m == map[]
  {
    assert m.Keys == {};
  }

  lemma EmptyDeducts()
    ensures Deducts([], 0.0)
  {}

  lemma {:induction false} SamePenalties(keys: seq<DomainKey>, m: map<DomainKey, Ptp.Domain>,
                                         m': map<DomainKey, Ptp.Domain>)
    requires Submap(m, m') && forall k :: k in keys ==> k in m
    ensures PtpPenalties(keys, m) == PtpPenalties(keys, m')
  {
    if keys != [] {
      SamePenalties(Front(keys), m, m');
    }
  }

  lemma SortedKeysEnumerate(keys: set<DomainKey>)
    ensures Enumerates(SortedKeys(keys), keys)
  {
    var s := SortedKeys(keys);
    assert Elements(s) == keys;
  }

  // The table is all positive, and its total is the plain sum over the maps.
  lemma PenaltiesDeduct(h: Health, inp: Inputs)
    ensures Deducts(Penalties(h, inp), Terms(h, inp))
  {
    hide Deducts, StreamPenalties, AvbPenalty, TcpPenalty, CounterPenalties, QuerierPenalties, PtpPenalties;
    hide MsrpPenalty, EeePenalty, SortedKeys, StreamTerm, QuerierTerm, Sum, Count;
    StreamPieces(inp);
    TcpPiece(inp);
    CounterPieces(h, inp);
    var keys := SortedKeys(inp.ptp.Keys);
    SortedKeysEnumerate(inp.ptp.Keys);
    PtpPieces(keys, inp.ptp);
    var ps, t := StreamPenalties(inp), StreamTerm(inp);
    var u := Count(inp.avtp, PcpFn()) as real * 15.0;
    Joined(ps, t, AvbPenalty(inp), u);
    ps, t := ps + AvbPenalty(inp), t + u;
    u := Sum(inp.tcp, QualityDeduction());
    Joined(ps, t, TcpPenalty(inp), u);
    ps, t := ps + TcpPenalty(inp), t + u;
    u := RetransmissionDeduction(h) + EcnDeduction(h);
    Joined(ps, t, CounterPenalties(h), u);
    ps, t := ps + CounterPenalties(h), t + u;
    u := QuerierTerm(h, inp);
    Joined(ps, t, QuerierPenalties(h, inp), u);
    ps, t := ps + QuerierPenalties(h, inp), t + u;
    u := Sum(inp.ptp, DomainFn());
    Joined(ps, t, PtpPenalties(keys, inp.ptp), u);
    ps, t := ps + PtpPenalties(keys, inp.ptp), t + u;
    u := Count(inp.msrp, FailedFn()) as real * 20.0;
    Joined(ps, t, MsrpPenalty(inp), u);
    ps, t := ps + MsrpPenalty(inp), t + u;
    Joined(ps, t, EeePenalty(inp), EeeDeduction(inp));
  }

  // ---- The laws -------------------------------------------------------------

  // Every penalty deducts something, so the score is in range and is perfect exactly
  // when the summary is empty.
  lemma ScoreAgreesWithSummary(h: Health, inp: Inputs)
    ensures AllPositive(Penalties(h, inp))
    ensures 0.0 <= Score(h, inp) <= 100.0
    ensures Score(h, inp) == 100.0 <==> Summary(Penalties(h, inp)) == []
    ensures |Summary(Penalties(h, inp))| == |Penalties(h, inp)|
  {
    hide Penalties, Terms;
    PenaltiesDeduct(h, inp);
    PositiveTotal(Penalties(h, inp));
  }

  // Nothing in sight deserves a deduction.
  ghost predicate Healthy(h: Health, inp: Inputs) {
    && (forall k, c :: k in inp.streams ==> Share(inp.streams[k], c, inp.now) == 0.0)
    && (forall k :: k in inp.avtp ==> inp.avtp[k].pcpViolations == 0)
    && (forall k :: k in inp.tcp ==> inp.tcp[k].quality.Healthy?)
    && h.tcpRetransmissions == 0 && h.ecnMarks == 0 && !h.multipleQueriers
    && (HasMulticast(inp.streams) ==> !QuerierSilent(h, inp.now))
    && (forall k :: k in inp.ptp ==> ClockHealthy(inp.ptp[k]))
    && (forall k :: k in inp.msrp ==> !inp.msrp[k].declType.TalkerFailed?)
    && inp.eee == map[]
  }

  lemma CategoryZero(inp: Inputs, c: Category)
    ensures CategoryDeduction(inp, c) >= 0.0
    ensures CategoryDeduction(inp, c) == 0.0 <==>
              forall k :: k in inp.streams ==> Share(inp.streams[k], c, inp.now) == 0.0
  {
    hide Share, Sum;
    SumPositive(inp.streams, ShareFn(c, inp.now));
    forall k | k in inp.streams
      ensures ShareFn(c, inp.now)(inp.streams[k]) == Share(inp.streams[k], c, inp.now)
    {}
  }

  lemma StreamTermZero(inp: Inputs)
    ensures StreamTerm(inp) >= 0.0
    ensures StreamTerm(inp) == 0.0 <==> forall k, c :: k in inp.streams ==> Share(inp.streams[k], c, inp.now) == 0.0
  {
    hide Share, CategoryDeduction;
    forall c: Category ensures CategoryDeduction(inp, c) >= 0.0 {
      CategoryZero(inp, c);
    }
    if forall k, c :: k in inp.streams ==> Share(inp.streams[k], c, inp.now) == 0.0 {
      forall c: Category ensures CategoryDeduction(inp, c) == 0.0 {
        CategoryZero(inp, c);
      }
    }
    if StreamTerm(inp) == 0.0 {
      forall k, c | k in inp.streams ensures Share(inp.streams[k], c, inp.now) == 0.0 {
        CategoryZero(inp, c);
        match c {
          case Loss => case Jitter => case Discontinuity => case Ssrc => case DeadStream => case Gap => case Dscp =>
        }
      }
    }
  }

  lemma TcpZero(inp: Inputs)
    ensures Sum(inp.tcp, QualityDeduction()) >= 0.0
    ensures Sum(inp.tcp, QualityDeduction()) == 0.0 <==> forall k :: k in inp.tcp ==> inp.tcp[k].quality.Healthy?
  {
    hide Sum;
    SumPositive(inp.tcp, QualityDeduction());
    forall k | k in inp.tcp ensures QualityDeduction()(inp.tcp[k]) > 0.0 <==> !inp.tcp[k].quality.Healthy? {}
  }

  ghost predicate ClockHealthy(d: Ptp.Domain) {
    d.gm.changes == 0 && (d.gm.valid || (!d.gm.lost && d.packets == 0))
  }

  lemma PtpZero(inp: Inputs)
    ensures Sum(inp.ptp, DomainFn()) >= 0.0
    ensures Sum(inp.ptp, DomainFn()) == 0.0 <==> forall k :: k in inp.ptp ==> ClockHealthy(inp.ptp[k])
  {
    hide Sum;
    DomainFnPositive();
    SumPositive(inp.ptp, DomainFn());
    forall k | k in inp.ptp ensures DomainFn()(inp.ptp[k]) > 0.0 <==> !ClockHealthy(inp.ptp[k]) {}
  }

  lemma CountsZero(inp: Inputs)
    ensures Count(inp.avtp, PcpFn()) == 0 <==> forall k :: k in inp.avtp ==> inp.avtp[k].pcpViolations == 0
    ensures Count(inp.msrp, FailedFn()) == 0 <==> forall k :: k in inp.msrp ==> !inp.msrp[k].declType.TalkerFailed?
    ensures EeeDeduction(inp) >= 0.0 && (EeeDeduction(inp) == 0.0 <==> inp.eee == map[])
  {
    hide Count;
    CountPositive(inp.avtp, PcpFn());
    CountPositive(inp.msrp, FailedFn());
    forall k | k in inp.avtp ensures PcpFn()(inp.avtp[k]) <==> inp.avtp[k].pcpViolations > 0 {}
    forall k | k in inp.msrp ensures FailedFn()(inp.msrp[k]) <==> inp.msrp[k].declType.TalkerFailed? {}
  }

  // The score is perfect exactly when nothing in sight deserves a deduction.
  lemma PerfectScore(h: Health, inp: Inputs)
    ensures Score(h, inp) == 100.0 <==> Healthy(h, inp)
  {
    hide Penalties, Count, Sum, StreamTerm, Share, HasMulticast, QuerierSilent, EeeDeduction;
    PenaltiesDeduct(h, inp);
    PositiveTotal(Penalties(h, inp));
    StreamTermZero(inp);
    TcpZero(inp);
    PtpZero(inp);
    CountsZero(inp);
  }

  // The maps of one view are contained in those of another.
  ghost predicate Within(inp: Inputs, more: Inputs) {
    && Submap(inp.streams, more.streams) && Submap(inp.tcp, more.tcp) && Submap(inp.ptp, more.ptp)
    && Submap(inp.msrp, more.msrp) && Submap(inp.eee, more.eee) && Submap(inp.avtp, more.avtp)
    && inp.now == more.now
  }

  lemma CategoryMonotone(inp: Inputs, more: Inputs, c: Category)
    requires Within(inp, more)
    ensures 0.0 <= CategoryDeduction(inp, c) <= CategoryDeduction(more, c)
  {
    hide Share, Sum;
    SumMonotone(inp.streams, more.streams, ShareFn(c, inp.now));
  }

  lemma StreamTermMonotone(inp: Inputs, more: Inputs)
    requires Within(inp, more)
    ensures StreamTerm(inp) <= StreamTerm(more)
  {
    hide CategoryDeduction;
    forall c: Category ensures CategoryDeduction(inp, c) <= CategoryDeduction(more, c) {
      CategoryMonotone(inp, more, c);
    }
  }

  lemma TermsMonotone(h: Health, inp: Inputs, more: Inputs)
    requires Within(inp, more)
    ensures Terms(h, inp) <= Terms(h, more)
  {
    hide Sum, Count, StreamTerm, DomainDeduction;
    StreamTermMonotone(inp, more);
    SumMonotone(inp.tcp, more.tcp, QualityDeduction());
    SumMonotone(inp.ptp, more.ptp, DomainFn()) by {
      assert forall d :: DomainFn()(d) >= 0.0 by { DomainFnPositive(); }
    }
    CountMonotone(inp.avtp, more.avtp, PcpFn());
    CountMonotone(inp.msrp, more.msrp, FailedFn());
    SubsetSize(inp.eee.Keys, more.eee.Keys);
    assert |inp.eee| == |inp.eee.Keys| && |more.eee| == |more.eee.Keys|;
    assert HasMulticast(inp.streams) ==> HasMulticast(more.streams);
  }

  lemma DomainFnPositive()
    ensures forall d :: DomainFn()(d) >= 0.0
  {}

  // Seeing more streams, connections, domains, reservations or ports never raises the score.
  lemma ScoreNeverRises(h: Health, inp: Inputs, more: Inputs)
    requires Within(inp, more)
    ensures Score(h, more) <= Score(h, inp)
  {
    hide Penalties, Terms;
    PenaltiesDeduct(h, inp);
    PenaltiesDeduct(h, more);
    TermsMonotone(h, inp, more);
  }
}
