// The health score in points, as numbers: what each fault costs, and that worsening
// anything in view never raises the score.
module ScoreNumbers {
  import opened Basics
  import opened Diagnostics
  import opened Scoring
  import opened ScoreLaws
  import opened Streams
  import opened Sums
  import Ptp
  import Tcp

  // ---- What each entry costs ------------------------------------------------

  // The share of the window's packets that were lost, in percent, at most ten points.
  ghost function LossCost(s: Stream): real {
    var (lost, got) := (s.count.lostThisWindow, s.count.packetsThisWindow);
    if lost == 0 then 0.0
    else
      var percent := 100.0 * lost as real / (got + lost) as real;
      if percent > 10.0 then 10.0 else percent
  }

  // Above 10 ms, and above 20 ms.
  ghost function JitterCost(s: Stream): real {
    if s.arrive.jitter > 0.02 then 5.0 else if s.arrive.jitter > 0.01 then 2.0 else 0.0
  }

  ghost function Capped(n: nat, each: real, most: nat): real {
    (if n <= most then n else most) as real * each
  }

  ghost predicate Silent(s: Stream, now: Time) {
    s.arrive.lastPacketTime.Some? && now > s.arrive.lastPacketTime.value + 10 * SECOND
  }

  // All of a stream's costs but that of its marking, which is capped over all streams.
  ghost function StreamCost(s: Stream, now: Time): real {
    LossCost(s) + JitterCost(s) + Capped(s.clock.jumpsThisWindow, 3.0, 5) + Capped(s.marks.ssrcChanges, 10.0, 3) +
    (if Silent(s, now) then 30.0 else 0.0) + (if s.arrive.gapEvents >= 2 then 10.0 else 0.0)
  }

  ghost function StreamCostFn(now: Time): Stream -> real {
    (s: Stream) => StreamCost(s, now)
  }

  ghost function MismarkedFn(): Stream -> bool {
    (s: Stream) => s.marks.dscpViolations > 0
  }

  ghost function ConnCost(q: Tcp.Quality): real {
    match q case Healthy => 0.0 case Degrading => 5.0 case Critical => 15.0 case Terminated => 25.0
  }

  ghost function ConnCostFn(): Tcp.Conn -> real {
    (t: Tcp.Conn) => ConnCost(t.quality)
  }

  // A clock lost, or traffic without one, and each change of grandmaster up to three.
  ghost function ClockCost(d: Ptp.Domain): real {
    (if d.gm.valid then 0.0 else if d.gm.lost then 25.0 else if d.packets > 0 then 15.0 else 0.0) +
    Capped(d.gm.changes, 10.0, 3)
  }

  ghost function ClockCostFn(): Ptp.Domain -> real {
    (d: Ptp.Domain) => ClockCost(d)
  }

  // No general query for twice the interval and ten seconds, or 260 s, with multicast about.
  ghost predicate QuerierGone(h: Health, inp: Inputs) {
    && (exists k :: k in inp.streams && inp.streams[k].id.isMulticast && inp.streams[k].count.packets > 0)
    && (h.lastQuery == None ||
        WholeSecs(Since(inp.now, h.lastQuery.value)) >
          if h.queryInterval.Some? then 2 * h.queryInterval.value + 10 else 260)
  }

  // The points lost in all.
  ghost function Points(h: Health, inp: Inputs): real {
    Sum(inp.streams, StreamCostFn(inp.now)) + Capped(Count(inp.streams, MismarkedFn()), 5.0, 4) +
    Count(inp.avtp, PcpFn()) as real * 15.0 + Sum(inp.tcp, ConnCostFn()) +
    Capped(h.tcpRetransmissions, 0.5, 20) + Capped(h.ecnMarks, 2.0, 10) +
    (if QuerierGone(h, inp) then 10.0 else 0.0) + (if h.multipleQueriers then 15.0 else 0.0) +
    Sum(inp.ptp, ClockCostFn()) + Count(inp.msrp, FailedFn()) as real * 20.0 + Capped(|inp.eee|, 15.0, 2)
  }

  // ---- The score is a hundred less the points -------------------------------

  lemma {:induction false} SumOfSum<K(!new), V(!new)>(m: map<K, V>, f: V -> real, g: V -> real, h: V -> real)
    requires forall k :: k in m ==> h(m[k]) == f(m[k]) + g(m[k])
    ensures Sum(m, h) == Sum(m, f) + Sum(m, g)
    decreases m.Keys
  {
    hide Sum;
    if m == map[] {
      EmptySum(m, f);
      EmptySum(m, g);
      EmptySum(m, h);
    } else {
      var k :| k in m;
      SumWithout(m, f, k);
      SumWithout(m, g, k);
      SumWithout(m, h, k);
      SumOfSum(m - {k}, f, g, h);
    }
  }

  lemma EmptySum<K(!new), V(!new)>(m: map<K, V>, f: V -> real)
    requires m == map[]
    ensures Sum(m, f) == 0.0
  {}

  lemma {:induction false} SameSum<K(!new), V(!new)>(m: map<K, V>, f: V -> real, g: V -> real)
    requires forall k :: k in m ==> f(m[k]) == g(m[k])
    ensures Sum(m, f) == Sum(m, g)
  {
    SumLessOrEqual(m, f, m, g);
    SumLessOrEqual(m, g, m, f);
  }

  lemma LossIsShare(s: Stream, now: Time)
    ensures LossCost(s) == Share(s, Loss, now)
  {}

  lemma SharesOfCosts(s: Stream, now: Time)
    ensures JitterCost(s) == Share(s, Jitter, now)
    ensures Capped(s.clock.jumpsThisWindow, 3.0, 5) == Share(s, Discontinuity, now)
    ensures Capped(s.marks.ssrcChanges, 10.0, 3) == Share(s, Ssrc, now)
    ensures (if Silent(s, now) then 30.0 else 0.0) == Share(s, DeadStream, now)
    ensures (if s.arrive.gapEvents >= 2 then 10.0 else 0.0) == Share(s, Gap, now)
    ensures (if s.marks.dscpViolations > 0 then 5.0 else 0.0) == Share(s, Dscp, now)
  {}

  lemma StreamsInPoints(inp: Inputs)
    ensures StreamTerm(inp) == Sum(inp.streams, StreamCostFn(inp.now)) +
                               Capped(Count(inp.streams, MismarkedFn()), 5.0, 4)
  {
    hide Sum, Count, Share, LossCost, JitterCost, Capped, Silent;
    var m, now := inp.streams, inp.now;
    var f := (c: Category) => ShareFn(c, now);
    var two := (s: Stream) => Share(s, Loss, now) + Share(s, Jitter, now);
    var three := (s: Stream) => two(s) + Share(s, Discontinuity, now);
    var four := (s: Stream) => three(s) + Share(s, Ssrc, now);
    var five := (s: Stream) => four(s) + Share(s, DeadStream, now);
    SumOfSum(m, f(Loss), f(Jitter), two);
    SumOfSum(m, two, f(Discontinuity), three);
    SumOfSum(m, three, f(Ssrc), four);
    SumOfSum(m, four, f(DeadStream), five);
    SumOfSum(m, five, f(Gap), StreamCostFn(now)) by {
      forall k | k in m ensures StreamCostFn(now)(m[k]) == five(m[k]) + f(Gap)(m[k]) {
        LossIsShare(m[k], now);
        SharesOfCosts(m[k], now);
      }
    }
    MarkingInPoints(inp);
  }

  lemma MarkingInPoints(inp: Inputs)
    ensures CategoryDeduction(inp, Dscp) == Capped(Count(inp.streams, MismarkedFn()), 5.0, 4)
  {
    hide Sum;
    FlatCategories(inp.streams, inp.now);
    SameCount(inp.streams, FlagFn(Dscp, inp.now), MismarkedFn());
  }

  lemma SameCount<K, V>(m: map<K, V>, p: V -> bool, q: V -> bool)
    requires forall k :: k in m ==> (p(m[k]) <==> q(m[k]))
    ensures Count(m, p) == Count(m, q)
  {
    assert Matching(m, p) == Matching(m, q);
  }

  lemma QuerierInPoints(h: Health, inp: Inputs)
    ensures QuerierTerm(h, inp) == (if QuerierGone(h, inp) then 10.0 else 0.0) +
                                   if h.multipleQueriers then 15.0 else 0.0
  {
    hide WholeSecs;
    assert HasMulticast(inp.streams) <==>
             exists k :: k in inp.streams && inp.streams[k].id.isMulticast && inp.streams[k].count.packets > 0 by {
      if k :| k in inp.streams && ActiveMulticast(inp.streams[k]) {
        assert inp.streams[k].id.isMulticast && inp.streams[k].count.packets > 0;
      }
      if k :| k in inp.streams && inp.streams[k].id.isMulticast && inp.streams[k].count.packets > 0 {
        assert ActiveMulticast(inp.streams[k]);
      }
    }
  }

  lemma ClocksInPoints(inp: Inputs)
    ensures Sum(inp.ptp, DomainFn()) == Sum(inp.ptp, ClockCostFn())
  {
    hide Sum;
    SameSum(inp.ptp, DomainFn(), ClockCostFn());
  }

  lemma ConnsInPoints(inp: Inputs)
    ensures Sum(inp.tcp, QualityDeduction()) == Sum(inp.tcp, ConnCostFn())
  {
    hide Sum;
    SameSum(inp.tcp, QualityDeduction(), ConnCostFn());
  }

  lemma CountersInPoints(h: Health, inp: Inputs)
    ensures RetransmissionDeduction(h) == Capped(h.tcpRetransmissions, 0.5, 20)
    ensures EcnDeduction(h) == Capped(h.ecnMarks, 2.0, 10)
    ensures EeeDeduction(inp) == Capped(|inp.eee|, 15.0, 2)
  {}

  ghost predicate IsScore(score: real, points: real) {
    score == if points >= 100.0 then 0.0 else 100.0 - points
  }

  // The score is a hundred less the points lost, and never below zero.
  lemma ScoreInPoints(h: Health, inp: Inputs)
    ensures IsScore(Score(h, inp), Points(h, inp))
  {
    hide Penalties, Sum, Count, StreamTerm, QuerierTerm, Capped, QuerierGone, EcnDeduction, EeeDeduction;
    hide RetransmissionDeduction;
    PenaltiesDeduct(h, inp);
    StreamsInPoints(inp);
    QuerierInPoints(h, inp);
    ClocksInPoints(inp);
    ConnsInPoints(inp);
    CountersInPoints(h, inp);
  }

  // ---- One entry at a time --------------------------------------------------

  lemma SumReplaced<K(!new), V(!new)>(m: map<K, V>, f: V -> real, k: K, v: V)
    requires k in m
    ensures Sum(m[k := v], f) == Sum(m, f) - f(m[k]) + f(v)
  {
    hide Sum;
    SumWithout(m, f, k);
    SumWithout(m[k := v], f, k);
    assert m[k := v] - {k} == m - {k};
  }

  // While the score stays above zero, a connection that was healthy costs five points once
  // degrading, fifteen once critical and twenty-five once terminated.
  lemma ConnectionStep(h: Health, inp: Inputs, k: Key, t: Tcp.Conn)
    requires k in inp.tcp && inp.tcp[k].quality.Healthy?
    requires Score(h, inp.(tcp := inp.tcp[k := t])) > 0.0
    ensures Score(h, inp) - Score(h, inp.(tcp := inp.tcp[k := t])) == (
              match t.quality case Healthy => 0.0 case Degrading => 5.0 case Critical => 15.0 case Terminated => 25.0)
  {
    hide Score, Sum, Count, Capped, StreamCost;
    var worse := inp.(tcp := inp.tcp[k := t]);
    ScoreInPoints(h, inp);
    ScoreInPoints(h, worse);
    SumReplaced(inp.tcp, ConnCostFn(), k, t);
    SameQuerier(h, inp, worse);
    assert Points(h, worse) == Points(h, inp) + ConnCost(t.quality);
    hide QuerierGone, Points;
    NoNegativeCost(t.quality);
  }

  lemma NoNegativeCost(q: Tcp.Quality)
    ensures ConnCost(q) >= 0.0
  {}

  lemma SameQuerier(h: Health, inp: Inputs, other: Inputs)
    requires other.streams == inp.streams && other.now == inp.now
    ensures QuerierGone(h, other) <==> QuerierGone(h, inp)
  {}

  // In the same way a domain that was healthy costs what is wrong with its clock.
  lemma ClockStep(h: Health, inp: Inputs, k: DomainKey, d: Ptp.Domain)
    requires k in inp.ptp && inp.ptp[k].gm.valid && inp.ptp[k].gm.changes == 0
    requires Score(h, inp.(ptp := inp.ptp[k := d])) > 0.0
    ensures Score(h, inp) - Score(h, inp.(ptp := inp.ptp[k := d])) ==
              (if d.gm.valid then 0.0 else if d.gm.lost then 25.0 else if d.packets > 0 then 15.0 else 0.0) +
              (if d.gm.changes >= 3 then 30.0 else d.gm.changes as real * 10.0)
  {
    hide Score, Sum, Count, StreamCost, LossCost, JitterCost;
    var worse := inp.(ptp := inp.ptp[k := d]);
    ScoreInPoints(h, inp);
    ScoreInPoints(h, worse);
    SumReplaced(inp.ptp, ClockCostFn(), k, d);
    SameQuerier(h, inp, worse);
    ClockIsFine(inp.ptp[k]);
    hide ClockCost;
    assert Points(h, worse) == Points(h, inp) + ClockCost(d);
    hide QuerierGone, Points;
    ClockCostIs(d);
  }

  lemma ClockIsFine(d: Ptp.Domain)
    requires d.gm.valid && d.gm.changes == 0
    ensures ClockCost(d) == 0.0
  {}

  lemma ClockCostIs(d: Ptp.Domain)
    ensures ClockCost(d) >= 0.0
    ensures ClockCost(d) ==
              (if d.gm.valid then 0.0 else if d.gm.lost then 25.0 else if d.packets > 0 then 15.0 else 0.0) +
              (if d.gm.changes >= 3 then 30.0 else d.gm.changes as real * 10.0)
  {}

  // Every retransmission costs half a point, up to ten, every congestion mark two, up to
  // twenty, and every energy-saving port fifteen, up to thirty.
  lemma CounterStep(h: Health, inp: Inputs, resent: nat, marks: nat, ports: map<PortKey, (nat, nat)>)
    requires h.tcpRetransmissions == 0 && h.ecnMarks == 0 && inp.eee == map[]
    requires Score(h.(tcpRetransmissions := resent, ecnMarks := marks), inp.(eee := ports)) > 0.0
    ensures Score(h, inp) - Score(h.(tcpRetransmissions := resent, ecnMarks := marks), inp.(eee := ports)) ==
              (if resent >= 20 then 10.0 else resent as real * 0.5) +
              (if marks >= 10 then 20.0 else marks as real * 2.0) +
              (if |ports| >= 2 then 30.0 else |ports| as real * 15.0)
  {
    hide Score, Sum, Count, StreamCost, ClockCost;
    var g, worse := h.(tcpRetransmissions := resent, ecnMarks := marks), inp.(eee := ports);
    ScoreInPoints(h, inp);
    ScoreInPoints(g, worse);
    SameQuerier(h, inp, worse);
    assert QuerierGone(g, worse) <==> QuerierGone(h, worse);
    hide QuerierGone;
  }

  // And a stream costs what its window and its timing add, marking and reach apart.
  lemma StreamStep(h: Health, inp: Inputs, k: Key, s: Stream)
    requires k in inp.streams && StreamCost(inp.streams[k], inp.now) == 0.0
    requires (s.marks.dscpViolations > 0) == (inp.streams[k].marks.dscpViolations > 0)
    requires s.id.isMulticast == inp.streams[k].id.isMulticast
    requires (s.count.packets > 0) == (inp.streams[k].count.packets > 0)
    requires Score(h, inp.(streams := inp.streams[k := s])) > 0.0
    ensures Score(h, inp) - Score(h, inp.(streams := inp.streams[k := s])) == StreamCost(s, inp.now)
  {
    hide Score, Sum, Count, StreamCost, Capped;
    var worse := inp.(streams := inp.streams[k := s]);
    ScoreInPoints(h, inp);
    ScoreInPoints(h, worse);
    SumReplaced(inp.streams, StreamCostFn(inp.now), k, s);
    CountReplaced(inp.streams, MismarkedFn(), k, s);
    QuerierReplaced(h, inp, k, s);
    assert Points(h, worse) == Points(h, inp) + StreamCost(s, inp.now);
    hide QuerierGone, Points;
    NoNegativeStream(s, inp.now);
  }

  lemma NoNegativeStream(s: Stream, now: Time)
    ensures StreamCost(s, now) >= 0.0
  {
    LossIsShare(s, now);
    SharesOfCosts(s, now);
    hide LossCost, JitterCost, Capped, Share, Silent;
  }

  lemma CountReplaced<K, V>(m: map<K, V>, p: V -> bool, k: K, v: V)
    requires k in m && p(v) == p(m[k])
    ensures Count(m[k := v], p) == Count(m, p)
  {
    assert Matching(m[k := v], p) == Matching(m, p);
  }

  lemma QuerierReplaced(h: Health, inp: Inputs, k: Key, s: Stream)
    requires k in inp.streams && s.id.isMulticast == inp.streams[k].id.isMulticast
    requires (s.count.packets > 0) == (inp.streams[k].count.packets > 0)
    ensures QuerierGone(h, inp.(streams := inp.streams[k := s])) <==> QuerierGone(h, inp)
  {
    var m, w := inp.streams, inp.streams[k := s];
    if j :| j in m && m[j].id.isMulticast && m[j].count.packets > 0 {
      assert j in w && w[j].id.isMulticast && w[j].count.packets > 0;
    }
    if j :| j in w && w[j].id.isMulticast && w[j].count.packets > 0 {
      assert j in m && m[j].id.isMulticast && m[j].count.packets > 0;
    }
  }

  // ---- Worse never scores better --------------------------------------------

  ghost predicate WorseStream(s: Stream, t: Stream) {
    && t.count.packetsThisWindow == s.count.packetsThisWindow && t.count.lostThisWindow >= s.count.lostThisWindow
    && t.arrive.jitter >= s.arrive.jitter && t.clock.jumpsThisWindow >= s.clock.jumpsThisWindow
    && t.marks.ssrcChanges >= s.marks.ssrcChanges && t.arrive.gapEvents >= s.arrive.gapEvents
    && t.marks.dscpViolations >= s.marks.dscpViolations
    && (s.arrive.lastPacketTime.Some? ==>
          t.arrive.lastPacketTime.Some? && t.arrive.lastPacketTime.value <= s.arrive.lastPacketTime.value)
    && (s.id.isMulticast && s.count.packets > 0 ==> t.id.isMulticast && t.count.packets > 0)
  }

  // More changes, and a clock no better off: valid, or silent, before one never heard,
  // before one lost.
  ghost predicate WorseClock(d: Ptp.Domain, e: Ptp.Domain) {
    && e.gm.changes >= d.gm.changes
    && (e.gm.valid ==> d.gm.valid || (!d.gm.lost && d.packets == 0))
    && (!e.gm.valid && !e.gm.lost ==> d.gm.valid || (!d.gm.lost && (e.packets == 0 ==> d.packets == 0)))
  }

  ghost predicate Worse(h: Health, inp: Inputs, g: Health, bad: Inputs) {
    && bad.now == inp.now
    && bad.streams.Keys == inp.streams.Keys && bad.tcp.Keys == inp.tcp.Keys && bad.ptp.Keys == inp.ptp.Keys
    && bad.msrp.Keys == inp.msrp.Keys && bad.avtp.Keys == inp.avtp.Keys && inp.eee.Keys <= bad.eee.Keys
    && (forall k :: k in inp.streams ==> WorseStream(inp.streams[k], bad.streams[k]))
    && (forall k :: k in inp.tcp ==> Tcp.Rank(inp.tcp[k].quality) <= Tcp.Rank(bad.tcp[k].quality))
    && (forall k :: k in inp.ptp ==> WorseClock(inp.ptp[k], bad.ptp[k]))
    && (forall k :: k in inp.msrp && inp.msrp[k].declType.TalkerFailed? ==> bad.msrp[k].declType.TalkerFailed?)
    && (forall k :: k in inp.avtp && inp.avtp[k].pcpViolations > 0 ==> bad.avtp[k].pcpViolations > 0)
    && g.tcpRetransmissions >= h.tcpRetransmissions && g.ecnMarks >= h.ecnMarks
    && (h.multipleQueriers ==> g.multipleQueriers)
    && (g.lastQuery == None || (g.lastQuery == h.lastQuery && g.queryInterval == h.queryInterval))
  }

  lemma WorseShareCosts(part: nat, more: nat, got: nat)
    requires 0 < part <= more
    ensures 100.0 * part as real / (got + part) as real <= 100.0 * more as real / (got + more) as real
  {
    var p, q := 100.0 * part as real / (got + part) as real, 100.0 * more as real / (got + more) as real;
    var m, n := (got + part) as real, (got + more) as real;
    assert p * m == 100.0 * part as real && q * n == 100.0 * more as real;
    CrossMultiplied(part as real, more as real, got as real);
    Divided(100.0 * part as real, m, 100.0 * more as real, n);
  }

  lemma CrossMultiplied(x: real, y: real, g: real)
    requires 0.0 < x <= y && g >= 0.0
    ensures (100.0 * x) * (g + y) <= (100.0 * y) * (g + x)
  {
    assert x * (g + y) == x * g + x * y && y * (g + x) == y * g + x * y;
    assert (y - x) * g >= 0.0;
  }

  lemma Divided(a: real, m: real, b: real, n: real)
    requires m > 0.0 && n > 0.0 && a * n <= b * m
    ensures a / m <= b / n
  {
    var p, q := a / m, b / n;
    assert p * m == a && q * n == b;
    assert (p * m) * n == p * (m * n) && (q * n) * m == q * (m * n);
    var w := PositiveProduct(m, n);
    if p > q { ScaledLess(q, p, w); }
  }

  lemma PositiveProduct(m: real, n: real) returns (w: real)
    requires m > 0.0 && n > 0.0
    ensures w == m * n && w > 0.0
  {
    w := m * n;
  }

  lemma ScaledLess(p: real, q: real, w: real)
    requires w > 0.0 && p < q
    ensures p * w < q * w
  {}

  lemma WorseStreamCosts(s: Stream, t: Stream, now: Time)
    requires WorseStream(s, t)
    ensures StreamCost(s, now) <= StreamCost(t, now)
  {
    WorseLossCosts(s, t);
    hide LossCost;
    CappedMonotone(s.clock.jumpsThisWindow, t.clock.jumpsThisWindow, 3.0, 5);
    CappedMonotone(s.marks.ssrcChanges, t.marks.ssrcChanges, 10.0, 3);
    hide Capped;
  }

  lemma WorseLossCosts(s: Stream, t: Stream)
    requires WorseStream(s, t)
    ensures LossCost(s) <= LossCost(t)
  {
    var got := s.count.packetsThisWindow;
    if s.count.lostThisWindow > 0 {
      WorseShareCosts(s.count.lostThisWindow, t.count.lostThisWindow, got);
    }
  }

  lemma CappedMonotone(n: nat, m: nat, each: real, most: nat)
    requires n <= m && each >= 0.0
    ensures Capped(n, each, most) <= Capped(m, each, most)
  {
    var a, b := if n <= most then n else most, if m <= most then m else most;
    assert (b - a) as real * each >= 0.0;
    assert b as real * each == a as real * each + (b - a) as real * each;
  }

  lemma WorseCount<K, V>(m: map<K, V>, n: map<K, V>, p: V -> bool)
    requires m.Keys == n.Keys && forall k :: k in m && p(m[k]) ==> p(n[k])
    ensures Count(m, p) <= Count(n, p)
  {
    SubsetSize(Matching(m, p), Matching(n, p));
  }

  lemma WorseStreams(h: Health, inp: Inputs, g: Health, bad: Inputs)
    requires Worse(h, inp, g, bad)
    ensures Sum(inp.streams, StreamCostFn(inp.now)) <= Sum(bad.streams, StreamCostFn(bad.now))
    ensures Count(inp.streams, MismarkedFn()) <= Count(bad.streams, MismarkedFn())
    ensures QuerierGone(h, inp) ==> QuerierGone(g, bad)
  {
    hide Sum, StreamCost, Count, WholeSecs;
    forall k | k in inp.streams
      ensures StreamCostFn(inp.now)(inp.streams[k]) <= StreamCostFn(bad.now)(bad.streams[k])
    {
      WorseStreamCosts(inp.streams[k], bad.streams[k], inp.now);
    }
    SumLessOrEqual(inp.streams, StreamCostFn(inp.now), bad.streams, StreamCostFn(bad.now));
    WorseCount(inp.streams, bad.streams, MismarkedFn());
    if QuerierGone(h, inp) {
      var k :| k in inp.streams && inp.streams[k].id.isMulticast && inp.streams[k].count.packets > 0;
      assert k in bad.streams && bad.streams[k].id.isMulticast && bad.streams[k].count.packets > 0;
    }
  }

  lemma WorseEntries(h: Health, inp: Inputs, g: Health, bad: Inputs)
    requires Worse(h, inp, g, bad)
    ensures Sum(inp.tcp, ConnCostFn()) <= Sum(bad.tcp, ConnCostFn())
    ensures Sum(inp.ptp, ClockCostFn()) <= Sum(bad.ptp, ClockCostFn())
    ensures Count(inp.avtp, PcpFn()) <= Count(bad.avtp, PcpFn())
    ensures Count(inp.msrp, FailedFn()) <= Count(bad.msrp, FailedFn())
    ensures |inp.eee| <= |bad.eee|
  {
    hide Sum, Count, WorseStream;
    SumLessOrEqual(inp.tcp, ConnCostFn(), bad.tcp, ConnCostFn());
    forall k | k in inp.ptp ensures ClockCostFn()(inp.ptp[k]) <= ClockCostFn()(bad.ptp[k]) {
      CappedMonotone(inp.ptp[k].gm.changes, bad.ptp[k].gm.changes, 10.0, 3);
    }
    SumLessOrEqual(inp.ptp, ClockCostFn(), bad.ptp, ClockCostFn());
    WorseCount(inp.avtp, bad.avtp, PcpFn());
    WorseCount(inp.msrp, bad.msrp, FailedFn());
    SubsetSize(inp.eee.Keys, bad.eee.Keys);
    assert |inp.eee| == |inp.eee.Keys| && |bad.eee| == |bad.eee.Keys|;
  }

  // Whatever is in view, the score does not rise when any of it gets worse.
  lemma WorseNeverScoresBetter(h: Health, inp: Inputs, g: Health, bad: Inputs)
    requires Worse(h, inp, g, bad)
    ensures Score(g, bad) <= Score(h, inp)
  {
    hide Score, Sum, Count, QuerierGone, Capped;
    ScoreInPoints(h, inp);
    ScoreInPoints(g, bad);
    WorseStreams(h, inp, g, bad);
    WorseEntries(h, inp, g, bad);
    CappedMonotone(Count(inp.streams, MismarkedFn()), Count(bad.streams, MismarkedFn()), 5.0, 4);
    CappedMonotone(h.tcpRetransmissions, g.tcpRetransmissions, 0.5, 20);
    CappedMonotone(h.ecnMarks, g.ecnMarks, 2.0, 10);
    CappedMonotone(|inp.eee|, |bad.eee|, 15.0, 2);
  }
}
