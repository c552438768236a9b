// The health score and its summary: `NetworkHealth::collect_penalties`,
// `calculate_score` and `build_health_summary`.
module Scoring {
  import opened Basics
  import opened Sums
  import opened Streams
  import opened Diagnostics
  import Avtp
  import Tcp
  import Ptp

  // A media stream by its label, or the NDI stream of a sender; a TCP connection by its label.
  datatype Key = Media(name: string) | NdiSender(ip: Ip) | Connection(name: string)
  type StreamId = nat
  type DomainKey = (nat, nat)
  type PortKey = (string, string)

  datatype DeclType = TalkerAdvertise | TalkerFailed | Listener
  datatype Declaration = Declaration(declType: DeclType, priority: Option<nat>, failureCode: Option<nat>)

  // The six maps the score reads, and the capture time.
  datatype Inputs = Inputs(
    streams: map<Key, Stream>, tcp: map<Key, Tcp.Conn>, ptp: map<DomainKey, Ptp.Domain>,
    msrp: map<StreamId, Declaration>, eee: map<PortKey, (nat, nat)>, avtp: map<StreamId, Avtp.AvtpStream>,
    now: Time)

  // The scored fields of `NetworkHealth`.
  datatype Health = Health(
    tcpRetransmissions: nat, ecnMarks: nat, lastQuery: Option<Time>, queryInterval: Option<nat>,
    multipleQueriers: bool)

  datatype Kind =
    | Streams(c: Category) | AvbPcp | TcpQuality | Retransmissions | Ecn | QuerierAbsent | MultipleQueriers
    | ClockSourceLost(domain: nat) | NoGrandmaster(domain: nat) | GrandmasterChanged(domain: nat)
    | ReservationFailure | EeePorts

  // A penalty; kind and count are what its summary bullet says.
  datatype Penalty = Penalty(kind: Kind, count: nat, deduction: real)
  datatype Bullet = Bullet(kind: Kind, count: nat)

  // ---- The penalty table, on the values of the maps -------------------------

  function ShareFn(c: Category, now: Time): Stream -> real {
    (s: Stream) => Share(s, c, now)
  }

  function FlagFn(c: Category, now: Time): Stream -> bool {
    (s: Stream) => Share(s, c, now) > 0.0
  }

  ghost function CategoryDeduction(inp: Inputs, c: Category): real {
    var total := Sum(inp.streams, ShareFn(c, inp.now));
    if c == Dscp then MinReal(total, 20.0) else total
  }

  function When(b: bool, p: Penalty): seq<Penalty> {
    if b then [p] else []
  }

  ghost function StreamPenalty(inp: Inputs, c: Category): seq<Penalty> {
    var n := Count(inp.streams, FlagFn(c, inp.now));
    When(n > 0, Penalty(Streams(c), n, CategoryDeduction(inp, c)))
  }

  ghost function StreamPenalties(inp: Inputs): seq<Penalty> {
    StreamPenalty(inp, Loss) + StreamPenalty(inp, Jitter) + StreamPenalty(inp, Discontinuity) +
    StreamPenalty(inp, Ssrc) + StreamPenalty(inp, DeadStream) + StreamPenalty(inp, Gap) + StreamPenalty(inp, Dscp)
  }

  function PcpFn(): Avtp.AvtpStream -> bool {
    (s: Avtp.AvtpStream) => s.pcpViolations > 0
  }

  function AvbPenalty(inp: Inputs): seq<Penalty> {
    var n := Count(inp.avtp, PcpFn());
    When(n > 0, Penalty(AvbPcp, n, n as real * 15.0))
  }

  function QualityDeduction(): Tcp.Conn -> real {
    (t: Tcp.Conn) =>
      match t.quality case Healthy => 0.0 case Degrading => 5.0 case Critical => 15.0 case Terminated => 25.0
  }

  function DegradedFn(): Tcp.Conn -> bool {
    (t: Tcp.Conn) => QualityDeduction()(t) > 0.0
  }

  ghost function TcpPenalty(inp: Inputs): seq<Penalty> {
    var n := Count(inp.tcp, DegradedFn());
    When(n > 0, Penalty(TcpQuality, n, Sum(inp.tcp, QualityDeduction())))
  }

  function RetransmissionDeduction(h: Health): real {
    MinReal(h.tcpRetransmissions as real * 0.5, 10.0)
  }

  function EcnDeduction(h: Health): real {
    MinReal(h.ecnMarks as real * 2.0, 20.0)
  }

  function CounterPenalties(h: Health): seq<Penalty> {
    When(RetransmissionDeduction(h) > 0.0,
         Penalty(Retransmissions, h.tcpRetransmissions, RetransmissionDeduction(h))) +
    When(EcnDeduction(h) > 0.0, Penalty(Ecn, h.ecnMarks, EcnDeduction(h)))
  }

  function QuerierSilentAfterSecs(h: Health): nat {
    if h.queryInterval.Some? then h.queryInterval.value * 2 + 10 else 260
  }

  predicate ActiveMulticast(s: Stream) {
    s.id.isMulticast && s.count.packets > 0
  }

  predicate HasMulticast(streams: map<Key, Stream>) {
    exists k :: k in streams && ActiveMulticast(streams[k])
  }

  predicate QuerierSilent(h: Health, now: Time) {
    h.lastQuery == None || WholeSecs(Since(now, h.lastQuery.value)) > QuerierSilentAfterSecs(h)
  }

  function QuerierPenalties(h: Health, inp: Inputs): seq<Penalty> {
    When(HasMulticast(inp.streams) && QuerierSilent(h, inp.now), Penalty(QuerierAbsent, 1, 10.0)) +
    When(h.multipleQueriers, Penalty(MultipleQueriers, 1, 15.0))
  }

  function DomainPenalties(key: DomainKey, d: Ptp.Domain): seq<Penalty> {
    When(!d.gm.valid && d.gm.lost, Penalty(ClockSourceLost(key.0), 1, 25.0)) +
    When(!d.gm.valid && !d.gm.lost && d.packets > 0, Penalty(NoGrandmaster(key.0), 1, 15.0)) +
    When(d.gm.changes > 0,
         Penalty(GrandmasterChanged(key.0), 1, 10.0 * MinReal(d.gm.changes as real, 3.0)))
  }

  function PtpPenalties(keys: seq<DomainKey>, ptp: map<DomainKey, Ptp.Domain>): seq<Penalty>
    requires forall k :: k in keys ==> k in ptp
  {
    if keys == [] then []
    else PtpPenalties(Front(keys), ptp) + DomainPenalties(Last(keys), ptp[Last(keys)])
  }

  function FailedFn(): Declaration -> bool {
    (d: Declaration) => d.declType.TalkerFailed?
  }

  function MsrpPenalty(inp: Inputs): seq<Penalty> {
    var n := Count(inp.msrp, FailedFn());
    When(n > 0, Penalty(ReservationFailure, n, n as real * 20.0))
  }

  function EeeDeduction(inp: Inputs): real {
    MinReal(|inp.eee| as real * 15.0, 30.0)
  }

  function EeePenalty(inp: Inputs): seq<Penalty> {
    When(EeeDeduction(inp) > 0.0, Penalty(EeePorts, |inp.eee|, EeeDeduction(inp)))
  }

  ghost function Penalties(h: Health, inp: Inputs): seq<Penalty> {
    StreamPenalties(inp) + AvbPenalty(inp) + TcpPenalty(inp) + CounterPenalties(h) + QuerierPenalties(h, inp) +
    PtpPenalties(SortedKeys(inp.ptp.Keys), inp.ptp) + MsrpPenalty(inp) + EeePenalty(inp)
  }

  function TotalDeduction(ps: seq<Penalty>): real {
    if ps == [] then 0.0 else TotalDeduction(Front(ps)) + Last(ps).deduction
  }

  function ScoreOf(ps: seq<Penalty>): real {
    var left := 100.0 - TotalDeduction(ps);
    if left >= 0.0 then left else 0.0
  }

  ghost function Score(h: Health, inp: Inputs): real {
    ScoreOf(Penalties(h, inp))
  }

  function Summary(ps: seq<Penalty>): seq<Bullet> {
    seq(|ps|, i requires 0 <= i < |ps| => Bullet(ps[i].kind, ps[i].count))
  }

  // ---- Sorted domain keys ---------------------------------------------------

  predicate Before(a: DomainKey, b: DomainKey) {
    a.0 < b.0 || (a.0 == b.0 && a.1 < b.1)
  }

  ghost predicate Ascending(s: seq<DomainKey>) {
    forall i, j :: 0 <= i < j < |s| ==> Before(s[i], s[j])
  }

  ghost function Elements(s: seq<DomainKey>): set<DomainKey> {
    set k | k in s
  }

  function InsertKey(k: DomainKey, s: seq<DomainKey>): (r: seq<DomainKey>)
    requires Ascending(s) && k !in s
    ensures Ascending(r) && Elements(r) == Elements(s) + {k}
    ensures |r| == |s| + 1
  {
    if s == [] then [k]
    else if Before(k, s[0]) then
      assert Elements([k] + s) == Elements(s) + {k};
      [k] + s
    else
      var rest := InsertKey(k, s[1..]);
      assert s == [s[0]] + s[1..];
      assert Elements([s[0]] + rest) == Elements(s) + {k} by {
        assert Elements(s) == {s[0]} + Elements(s[1..]);
        assert Elements([s[0]] + rest) == {s[0]} + Elements(rest);
      }
      assert forall x :: x in rest ==> Before(s[0], x) by {
        forall x | x in rest ensures Before(s[0], x) {
          assert x in Elements(rest);
          assert x == k || x in s[1..];
        }
      }
      [s[0]] + rest
  }

  // The keys of a map in `sort` order.
  ghost function SortedKeys(keys: set<DomainKey>): (r: seq<DomainKey>)
    ensures Ascending(r) && Elements(r) == keys
    ensures forall k :: k in r <==> k in keys
  {
    if keys == {} then []
    else
      var k :| k in keys;
      var rest := SortedKeys(keys - {k});
      var r := InsertKey(k, rest);
      assert forall x :: x in r <==> x in Elements(r);
      r
  }

  function SortKeys(order: seq<DomainKey>): (r: seq<DomainKey>)
    requires forall i, j :: 0 <= i < j < |order| ==> order[i] != order[j]
    ensures Ascending(r) && Elements(r) == Elements(order)
  {
    if order == [] then []
    else
      var rest := SortKeys(order[1..]);
      assert order == [order[0]] + order[1..];
      assert Elements(order) == Elements(order[1..]) + {order[0]};
      assert forall k :: k in rest <==> k in Elements(rest);
      InsertKey(order[0], rest)
  }

  lemma NonEmptyElements(s: seq<DomainKey>)
    ensures s != [] ==> Elements(s) != {}
  {
    if s != [] {
      assert s[0] in Elements(s);
    }
  }

  lemma {:induction false} AscendingIsUnique(s: seq<DomainKey>, t: seq<DomainKey>)
    requires Ascending(s) && Ascending(t) && Elements(s) == Elements(t)
    ensures s == t
  {
    NonEmptyElements(s);
    NonEmptyElements(t);
    if s != [] {
      assert s[0] in Elements(t);
      assert t[0] in Elements(s);
      HeadIsLeast(s, t[0]);
      HeadIsLeast(t, s[0]);
      assert s == [s[0]] + s[1..] && t == [t[0]] + t[1..];
      ElementsOfTail(s);
      ElementsOfTail(t);
      AscendingIsUnique(s[1..], t[1..]);
    }
  }

  lemma HeadIsLeast(s: seq<DomainKey>, k: DomainKey)
    requires Ascending(s) && s != [] && k in s
    ensures k == s[0] || Before(s[0], k)
  {}

  lemma ElementsOfTail(s: seq<DomainKey>)
    requires Ascending(s) && s != []
    ensures Elements(s[1..]) == Elements(s) - {s[0]}
  {
    assert s == [s[0]] + s[1..];
  }

  // ---- The table as the source builds it ------------------------------------

  datatype Entry = Entry(count: nat, total: real)
  type Tally = map<Category, Entry>

  const CATEGORIES: set<Category> := {Loss, Jitter, Discontinuity, Ssrc, DeadStream, Gap, Dscp}

  const EmptyTally: Tally := map c | c in CATEGORIES :: Entry(0, 0.0)

  function Accumulate(t: Tally, d: Diagnostic): Tally
    requires t.Keys == CATEGORIES
  {
    match CategoryOf(d)
    case Some(c) => t[c := Entry(t[c].count + 1, t[c].total + Deduction(d))]
    case None => t
  }

  ghost predicate Tallied(t: Tally, base: Tally, ds: seq<Diagnostic>) {
    && t.Keys == CATEGORIES == base.Keys
    && forall c :: c in CATEGORIES ==>
         t[c] == Entry(base[c].count + CountIn(ds, c), base[c].total + SumIn(ds, c))
  }

  lemma TallyPushed(t: Tally, base: Tally, ds: seq<Diagnostic>, d: Diagnostic)
    requires Tallied(t, base, ds)
    ensures Tallied(Accumulate(t, d), base, ds + [d])
  {
    hide CountIn, SumIn, Deduction, CategoryOf;
    forall c: Category ensures c in CATEGORIES {
      match c {
        case Loss => case Jitter => case Discontinuity => case Ssrc => case DeadStream => case Gap => case Dscp =>
      }
    }
    forall c | c in CATEGORIES
      ensures Accumulate(t, d)[c]
           == Entry(base[c].count + CountIn(ds + [d], c), base[c].total + SumIn(ds + [d], c))
    {
      InPushed(ds, d, c);
    }
  }

  // The tally of the streams visited so far.
  ghost predicate TallyOf(t: Tally, seen: map<Key, Stream>, now: Time) {
    && t.Keys == CATEGORIES
    && forall c :: c in CATEGORIES ==> t[c] == Entry(Count(seen, FlagFn(c, now)), Sum(seen, ShareFn(c, now)))
  }

  lemma TallyNext(t: Tally, t': Tally, seen: map<Key, Stream>, k: Key, s: Stream, now: Time)
    requires k !in seen && TallyOf(t, seen, now) && Tallied(t', t, Diagnose(s, now))
    ensures TallyOf(t', seen[k := s], now)
  {
    forall c | c in CATEGORIES
      ensures t'[c] == Entry(Count(seen[k := s], FlagFn(c, now)), Sum(seen[k := s], ShareFn(c, now)))
    {
      DiagnosticsScoreShare(s, now, c);
      CountWith(seen, FlagFn(c, now), k, s);
      SumWith(seen, ShareFn(c, now), k, s);
    }
  }

  lemma EmptyTallies(now: Time)
    ensures TallyOf(EmptyTally, map[], now)
  {
    var none: map<Key, Stream> := map[];
    forall c | c in CATEGORIES
      ensures Count(none, FlagFn(c, now)) == 0 && Sum(none, ShareFn(c, now)) == 0.0
    {
      assert Matching(none, FlagFn(c, now)) == {};
    }
  }

  method TallyStream(base: Tally, s: Stream, now: Time) returns (t: Tally)
    requires base.Keys == CATEGORIES
    ensures Tallied(t, base, Diagnose(s, now))
  {
    hide Diagnose, Deduction, CategoryOf;
    var diags := Diagnose(s, now);
    t := base;
    for j := 0 to |diags|
      invariant Tallied(t, base, diags[..j])
    {
      TallyPushed(t, base, diags[..j], diags[j]);
      assert diags[..j + 1] == diags[..j] + [diags[j]];
      t := Accumulate(t, diags[j]);
    }
    assert diags[..|diags|] == diags;
  }

  lemma MulticastNext(seen: map<Key, Stream>, k: Key, s: Stream)
    requires k !in seen
    ensures HasMulticast(seen[k := s]) <==> HasMulticast(seen) || ActiveMulticast(s)
  {
    var next := seen[k := s];
    assert k in next && next[k] == s;
    if HasMulticast(seen) {
      var j :| j in seen && ActiveMulticast(seen[j]);
      assert j in next && next[j] == seen[j];
    }
  }

  // One pass over the streams, in whatever order the map yields them.
  method TallyStreams(streams: map<Key, Stream>, order: seq<Key>, now: Time)
    returns (t: Tally, multicast: bool)
    requires Enumerates(order, streams.Keys)
    ensures TallyOf(t, streams, now)
    ensures multicast == HasMulticast(streams)
  {
    hide Share, Diagnose, Sum, Count, Tallied, Visited, HasMulticast, ActiveMulticast;
    VisitedAll(streams, order);
    t, multicast := EmptyTally, false;
    EmptyTallies(now);
    NothingVisited(streams, order);
    for i := 0 to |order|
      invariant TallyOf(t, Visited(streams, order, i), now)
      invariant multicast == HasMulticast(Visited(streams, order, i))
    {
      var s := streams[order[i]];
      ghost var seen := Visited(streams, order, i);
      VisitedStep(streams, order, i);
      MulticastNext(seen, order[i], s);
      if ActiveMulticast(s) { multicast := true; }
      ghost var base := t;
      t := TallyStream(t, s, now);
      TallyNext(base, t, seen, order[i], s, now);
    }
  }

  lemma NothingVisited(streams: map<Key, Stream>, order: seq<Key>)
    requires forall k :: k in order ==> k in streams
    ensures Visited(streams, order, 0) == map[]
    ensures !HasMulticast(map[])
  {}

  lemma {:induction false} UniformSum<K(!new), V(!new)>(m: map<K, V>, f: V -> real, p: V -> bool, u: real)
    requires forall v :: f(v) == if p(v) then u else 0.0
    ensures Sum(m, f) == Count(m, p) as real * u
    decreases m.Keys
  {
    hide Count, Sum;
    if m == map[] {
      NothingCounted(m, f, p);
    } else {
      var k :| k in m;
      SumWithout(m, f, k);
      UniformSum(m - {k}, f, p, u);
      CountWith(m - {k}, p, k, m[k]);
      assert (m - {k})[k := m[k]] == m;
      OneMore(Count(m - {k}, p), u);
    }
  }

  lemma NothingCounted<K(!new), V(!new)>(m: map<K, V>, f: V -> real, p: V -> bool)
    requires m == map[]
    ensures Count(m, p) == 0 && Sum(m, f) == 0.0
  {
    assert Matching(m, p) == {};
  }

  lemma OneMore(n: nat, u: real)
    ensures (n + 1) as real * u == n as real * u + u
  {}

  // Categories in which every affected stream deducts the same.
  lemma FlatCategories(streams: map<Key, Stream>, now: Time)
    ensures Sum(streams, ShareFn(DeadStream, now)) == Count(streams, FlagFn(DeadStream, now)) as real * 30.0
    ensures Sum(streams, ShareFn(Gap, now)) == Count(streams, FlagFn(Gap, now)) as real * 10.0
    ensures Sum(streams, ShareFn(Dscp, now)) == Count(streams, FlagFn(Dscp, now)) as real * 5.0
  {
    hide Share;
    FlatShare(DeadStream, now, 30.0);
    FlatShare(Gap, now, 10.0);
    FlatShare(Dscp, now, 5.0);
    UniformSum(streams, ShareFn(DeadStream, now), FlagFn(DeadStream, now), 30.0);
    UniformSum(streams, ShareFn(Gap, now), FlagFn(Gap, now), 10.0);
    UniformSum(streams, ShareFn(Dscp, now), FlagFn(Dscp, now), 5.0);
  }

  lemma FlatShare(c: Category, now: Time, u: real)
    requires (c == DeadStream && u == 30.0) || (c == Gap && u == 10.0) || (c == Dscp && u == 5.0)
    ensures forall s: Stream :: ShareFn(c, now)(s) == if FlagFn(c, now)(s) then u else 0.0
  {}

  method CollectStreamPenalties(inp: Inputs, order: seq<Key>) returns (p: seq<Penalty>, multicast: bool)
    requires Enumerates(order, inp.streams.Keys)
    ensures p == StreamPenalties(inp)
    ensures multicast == HasMulticast(inp.streams)
  {
    hide Sum, Count, HasMulticast;
    var t;
    t, multicast := TallyStreams(inp.streams, order, inp.now);
    FlatCategories(inp.streams, inp.now);
    p := When(t[Loss].count > 0, Penalty(Streams(Loss), t[Loss].count, t[Loss].total));
    p := p + When(t[Jitter].count > 0, Penalty(Streams(Jitter), t[Jitter].count, t[Jitter].total));
    p := p + When(t[Discontinuity].count > 0,
                  Penalty(Streams(Discontinuity), t[Discontinuity].count, t[Discontinuity].total));
    p := p + When(t[Ssrc].count > 0, Penalty(Streams(Ssrc), t[Ssrc].count, t[Ssrc].total));
    p := p + When(t[DeadStream].count > 0,
                  Penalty(Streams(DeadStream), t[DeadStream].count, t[DeadStream].count as real * 30.0));
    p := p + When(t[Gap].count > 0, Penalty(Streams(Gap), t[Gap].count, t[Gap].count as real * 10.0));
    p := p + When(t[Dscp].count > 0,
                  Penalty(Streams(Dscp), t[Dscp].count, MinReal(t[Dscp].count as real * 5.0, 20.0)));
  }

  method CollectTcpPenalty(inp: Inputs, order: seq<Key>) returns (p: seq<Penalty>)
    requires Enumerates(order, inp.tcp.Keys)
    ensures p == TcpPenalty(inp)
  {
    hide Sum, Count, Visited;
    VisitedAll(inp.tcp, order);
    var n, total := 0, 0.0;
    NoneVisited(inp.tcp, order, QualityDeduction(), DegradedFn());
    for i := 0 to |order|
      invariant n == Count(Visited(inp.tcp, order, i), DegradedFn())
      invariant total == Sum(Visited(inp.tcp, order, i), QualityDeduction())
    {
      VisitedStep(inp.tcp, order, i);
      SumWith(Visited(inp.tcp, order, i), QualityDeduction(), order[i], inp.tcp[order[i]]);
      CountWith(Visited(inp.tcp, order, i), DegradedFn(), order[i], inp.tcp[order[i]]);
      var d := QualityDeduction()(inp.tcp[order[i]]);
      if d > 0.0 { n, total := n + 1, total + d; }
    }
    p := When(n > 0, Penalty(TcpQuality, n, total));
  }

  lemma NoneVisited<K(!new), V(!new)>(m: map<K, V>, order: seq<K>, f: V -> real, p: V -> bool)
    requires forall k :: k in order ==> k in m
    ensures Count(Visited(m, order, 0), p) == 0 && Sum(Visited(m, order, 0), f) == 0.0
  {
    assert Visited(m, order, 0) == map[];
    NothingCounted(Visited(m, order, 0), f, p);
  }

  method CollectPtpPenalties(ptp: map<DomainKey, Ptp.Domain>, order: seq<DomainKey>) returns (p: seq<Penalty>)
    requires Enumerates(order, ptp.Keys)
    ensures p == PtpPenalties(SortedKeys(ptp.Keys), ptp)
  {
    hide DomainPenalties;
    var keys := SortKeys(order);
    assert Elements(order) == ptp.Keys;
    AscendingIsUnique(keys, SortedKeys(ptp.Keys));
    p := [];
    for i := 0 to |keys|
      invariant p == PtpPenalties(keys[..i], ptp)
    {
      assert Front(keys[..i + 1]) == keys[..i];
      p := p + DomainPenalties(keys[i], ptp[keys[i]]);
    }
    assert keys[..|keys|] == keys;
  }

  // In which order the maps happen to yield their entries.
  datatype Orders = Orders(streams: seq<Key>, tcp: seq<Key>, ptp: seq<DomainKey>)

  ghost predicate Iterates(orders: Orders, inp: Inputs) {
    && Enumerates(orders.streams, inp.streams.Keys)
    && Enumerates(orders.tcp, inp.tcp.Keys)
    && Enumerates(orders.ptp, inp.ptp.Keys)
  }

  class NetworkHealth {
    var tcpRetransmissions: nat
    var ecnMarks: nat
    var lastQuery: Option<Time>
    var queryInterval: Option<nat>
    var multipleQueriers: bool
    var networkScore: real

    function View(): Health
      reads this
    {
      Health(tcpRetransmissions, ecnMarks, lastQuery, queryInterval, multipleQueriers)
    }

    constructor ()
      ensures View() == Health(0, 0, None, None, false) && networkScore == 100.0
    {
      tcpRetransmissions, ecnMarks, lastQuery, queryInterval := 0, 0, None, None;
      multipleQueriers, networkScore := false, 100.0;
    }

    // The table does not depend on the order in which the maps are walked.
    method CollectPenalties(inp: Inputs, orders: Orders) returns (p: seq<Penalty>)
      requires Iterates(orders, inp)
      ensures p == Penalties(View(), inp)
    {
      hide StreamPenalties, TcpPenalty, AvbPenalty, PtpPenalties, MsrpPenalty, EeePenalty, HasMulticast, SortedKeys;
      var multicast;
      p, multicast := CollectStreamPenalties(inp, orders.streams);
      p := p + AvbPenalty(inp);
      var tcp := CollectTcpPenalty(inp, orders.tcp);
      p := p + tcp;
      p := p + CounterPenalties(View());
      var absent := multicast && QuerierSilent(View(), inp.now);
      p := p + (When(absent, Penalty(QuerierAbsent, 1, 10.0)) +
                When(multipleQueriers, Penalty(MultipleQueriers, 1, 15.0)));
      var ptp := CollectPtpPenalties(inp.ptp, orders.ptp);
      p := p + ptp;
      p := p + MsrpPenalty(inp) + EeePenalty(inp);
    }

    method CalculateScore(inp: Inputs, orders: Orders)
      requires Iterates(orders, inp)
      modifies this`networkScore
      ensures networkScore == Score(View(), inp)
      ensures View() == old(View())
    {
      hide Penalties;
      var p := CollectPenalties(inp, orders);
      var total := 0.0;
      for i := 0 to |p|
        invariant total == TotalDeduction(p[..i])
      {
        assert Front(p[..i + 1]) == p[..i];
        total := total + p[i].deduction;
      }
      assert p[..|p|] == p;
      networkScore := if 100.0 - total >= 0.0 then 100.0 - total else 0.0;
    }

    method BuildHealthSummary(inp: Inputs, orders: Orders) returns (bullets: seq<Bullet>)
      requires Iterates(orders, inp)
      ensures bullets == Summary(Penalties(View(), inp))
    {
      hide Penalties;
      var p := CollectPenalties(inp, orders);
      bullets := seq(|p|, i requires 0 <= i < |p| => Bullet(p[i].kind, p[i].count));
    }
  }
}
