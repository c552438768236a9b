// Per-stream diagnostics and what each deducts from the health score:
// `StreamStats::diagnostics` and `StreamDiagnostic::deduction`.
module Diagnostics {
  import opened Basics
  import opened Streams

  const STREAM_TIMEOUT_SECS: nat := 10

  // Pruning waits for twice the silence that shows a stream dead.
  const STREAM_PRUNE_SECS: nat := STREAM_TIMEOUT_SECS * 2

  datatype Diagnostic =
    | PacketLoss(windowCount: nat, windowPct: real, lifetimePct: real)
    | HighJitter(jitterMs: real)
    | TsDiscontinuity(windowCount: nat)
    | SsrcChange(count: nat)
    | SignalGap(windowCount: nat, maxIatMs: real)
    | DscpViolation(count: nat, video: bool)
    | Dead(silent: nat)
    | Reorder(windowCount: nat, pct: real)
    | TtlRouted(ttl: nat)
    | PtMismatch(count: nat)
    | NotAnnounced
    | UnknownStreamType
    | Aes67PtpLockHint
    | DanteClockOrSubscriptionHint
    | PcpAdvisory(observed: nat)

  function Percent(part: nat, total: nat): real {
    if total == 0 then 0.0 else 100.0 * part as real / total as real
  }

  function LossPct(c: Counts): real {
    Percent(c.lost, c.packets + c.lost)
  }

  function LossPctThisWindow(c: Counts): real {
    Percent(c.lostThisWindow, c.packetsThisWindow + c.lostThisWindow)
  }

  function ReorderPct(c: Counts): real {
    Percent(c.reordersThisWindow, Max(c.packetsThisWindow + c.lostThisWindow, 1))
  }

  function JitterMs(a: Arrivals): real {
    a.jitter * 1000.0
  }

  predicate IsDead(a: Arrivals, now: Time) {
    a.lastPacketTime.Some? && Since(now, a.lastPacketTime.value) > STREAM_TIMEOUT_SECS * SECOND
  }

  predicate ExpectsSdp(s: Stream) {
    (s.id.protocol.Aes67? || s.id.protocol.Dante? || s.id.protocol.St2110?) && s.count.rtpSeen
  }

  // A condition and the diagnostic it raises.
  datatype Finding = Finding(holds: bool, d: Diagnostic)

  // The fifteen conditions, in the order of the report.
  function Findings(s: Stream, now: Time): seq<Finding> {
    var (c, a, m) := (s.count, s.arrive, s.marks);
    var ttl := s.transmitter.minTtl;
    var proto := s.id.protocol;
    [Finding(s.clock.jumpsThisWindow > 0, TsDiscontinuity(s.clock.jumpsThisWindow)),
     Finding(c.lostThisWindow > 0, PacketLoss(c.lostThisWindow, LossPctThisWindow(c), LossPct(c))),
     Finding(c.reordersThisWindow > 0 && ReorderPct(c) > 1.0, Reorder(c.reordersThisWindow, ReorderPct(c))),
     Finding(m.dscpViolations > 0, DscpViolation(m.dscpViolations, proto == St2110(Video))),
     Finding(proto.Dante? && ttl.Some? && ttl.value < 64, TtlRouted(if ttl.Some? then ttl.value else 0)),
     Finding(JitterMs(a) > 10.0, HighJitter(JitterMs(a))),
     Finding(proto.Aes67? && JitterMs(a) > 10.0, Aes67PtpLockHint),
     Finding(proto.Dante? && (LossPct(c) > 0.1 || JitterMs(a) > 15.0), DanteClockOrSubscriptionHint),
     Finding(m.ssrcChanges > 0, SsrcChange(m.ssrcChanges)),
     Finding(m.ptMismatches > 0, PtMismatch(m.ptMismatches)),
     Finding(ExpectsSdp(s) && !s.clock.confirmed && c.packets > 10, NotAnnounced),
     Finding(proto == St2110(UnknownType), UnknownStreamType),
     Finding(a.gapEvents >= 2, SignalGap(a.gapEvents, a.maxIatMs)),
     Finding(IsDead(a, now), Dead(SilentFor(a, now))),
     Finding(m.pcpViolations > 0 && (proto.Aes67? || proto.St2110?),
             PcpAdvisory(if m.observedPcp.Some? then m.observedPcp.value else 0))]
  }

  function SilentFor(a: Arrivals, now: Time): nat {
    if a.lastPacketTime.Some? then Since(now, a.lastPacketTime.value) else 0
  }

  function Raised(fs: seq<Finding>): seq<Diagnostic> {
    if fs == [] then []
    else Raised(Front(fs)) + if Last(fs).holds then [Last(fs).d] else []
  }

  function Diagnose(s: Stream, now: Time): seq<Diagnostic> {
    Raised(Findings(s, now))
  }

  // Health score deduction of one diagnostic of one stream.
  function Deduction(d: Diagnostic): real {
    match d
    case PacketLoss(_, windowPct, _) => MinReal(windowPct, 10.0)
    case HighJitter(jitterMs) => if jitterMs > 20.0 then 5.0 else 2.0
    case TsDiscontinuity(n) => 3.0 * MinReal(n as real, 5.0)
    case SsrcChange(n) => 10.0 * MinReal(n as real, 3.0)
    case SignalGap(_, _) => 10.0
    case DscpViolation(_, _) => 5.0
    case Dead(_) => 30.0
    case _ => 0.0
  }

  // ---- Scored categories ----------------------------------------------------

  datatype Category = Loss | Jitter | Discontinuity | Ssrc | DeadStream | Gap | Dscp

  function CategoryOf(d: Diagnostic): Option<Category> {
    match d
    case PacketLoss(_, _, _) => Some(Loss)
    case HighJitter(_) => Some(Jitter)
    case TsDiscontinuity(_) => Some(Discontinuity)
    case SsrcChange(_) => Some(Ssrc)
    case SignalGap(_, _) => Some(Gap)
    case DscpViolation(_, _) => Some(Dscp)
    case Dead(_) => Some(DeadStream)
    case _ => None
  }

  // What a stream deducts in a category, straight from its counters.
  function Share(s: Stream, c: Category, now: Time): (r: real)
    ensures r >= 0.0
  {
    match c
    case Loss => if s.count.lostThisWindow > 0 then MinReal(LossPctThisWindow(s.count), 10.0) else 0.0
    case Jitter => if JitterMs(s.arrive) > 20.0 then 5.0 else if JitterMs(s.arrive) > 10.0 then 2.0 else 0.0
    case Discontinuity => 3.0 * MinReal(s.clock.jumpsThisWindow as real, 5.0)
    case Ssrc => 10.0 * MinReal(s.marks.ssrcChanges as real, 3.0)
    case DeadStream => if IsDead(s.arrive, now) then 30.0 else 0.0
    case Gap => if s.arrive.gapEvents >= 2 then 10.0 else 0.0
    case Dscp => if s.marks.dscpViolations > 0 then 5.0 else 0.0
  }

  function CountIn(ds: seq<Diagnostic>, c: Category): nat {
    if ds == [] then 0 else CountIn(Front(ds), c) + if CategoryOf(Last(ds)) == Some(c) then 1 else 0
  }

  function SumIn(ds: seq<Diagnostic>, c: Category): real {
    if ds == [] then 0.0
    else SumIn(Front(ds), c) + if CategoryOf(Last(ds)) == Some(c) then Deduction(Last(ds)) else 0.0
  }

  lemma InPushed(ds: seq<Diagnostic>, d: Diagnostic, c: Category)
    ensures CountIn(ds + [d], c) == CountIn(ds, c) + if CategoryOf(d) == Some(c) then 1 else 0
    ensures SumIn(ds + [d], c) == SumIn(ds, c) + if CategoryOf(d) == Some(c) then Deduction(d) else 0.0
  {
    assert Front(ds + [d]) == ds;
  }

  // If only the i-th finding belongs to a category, it alone decides it.
  lemma {:induction false} OnlyFinding(fs: seq<Finding>, c: Category, i: nat)
    requires forall j :: 0 <= j < |fs| && j != i ==> CategoryOf(fs[j].d) != Some(c)
    ensures var x := i < |fs| && fs[i].holds && CategoryOf(fs[i].d) == Some(c);
            && CountIn(Raised(fs), c) == (if x then 1 else 0)
            && SumIn(Raised(fs), c) == (if x then Deduction(fs[i].d) else 0.0)
  {
    if fs != [] {
      OnlyFinding(Front(fs), c, i);
      if Last(fs).holds {
        InPushed(Raised(Front(fs)), Last(fs).d, c);
      } else {
        assert Raised(fs) == Raised(Front(fs));
      }
    }
  }

  function Position(c: Category): nat {
    match c
    case Discontinuity => 0
    case Loss => 1
    case Dscp => 3
    case Jitter => 5
    case Ssrc => 8
    case Gap => 12
    case DeadStream => 13
  }

  // The diagnostics raised for a stream score, category by category, exactly its
  // share: one diagnostic if the share is positive and none otherwise.
  lemma DiagnosticsScoreShare(s: Stream, now: Time, c: Category)
    ensures CountIn(Diagnose(s, now), c) == if Share(s, c, now) > 0.0 then 1 else 0
    ensures SumIn(Diagnose(s, now), c) == Share(s, c, now)
  {
    var fs := Findings(s, now);
    OnlyFinding(fs, c, Position(c));
    FindingScoresShare(s, now, c);
  }

  lemma FindingScoresShare(s: Stream, now: Time, c: Category)
    ensures |Findings(s, now)| == 15
    ensures var f := Findings(s, now)[Position(c)];
            && CategoryOf(f.d) == Some(c)
            && (f.holds <==> Share(s, c, now) > 0.0)
            && (f.holds ==> Deduction(f.d) == Share(s, c, now))
  {}

  // A stream whose jitter stays at or below 10 ms never raises HighJitter.
  lemma QuietJitterIsNotReported(s: Stream, now: Time)
    requires s.arrive.jitter <= 0.01
    ensures forall d :: d in Diagnose(s, now) ==> !d.HighJitter?
    ensures Share(s, Jitter, now) == 0.0
  {
    DiagnosticsScoreShare(s, now, Jitter);
    NoneCounted(Diagnose(s, now), Jitter);
  }

  lemma {:induction false} NoneCounted(ds: seq<Diagnostic>, c: Category)
    requires CountIn(ds, c) == 0
    ensures forall d :: d in ds ==> CategoryOf(d) != Some(c)
  {
    if ds != [] {
      NoneCounted(Front(ds), c);
      assert ds == Front(ds) + [Last(ds)];
    }
  }

  // ---- Which diagnostics are raised -----------------------------------------

  lemma {:induction false} HoldingIsRaised(fs: seq<Finding>, i: nat)
    requires i < |fs| && fs[i].holds
    ensures fs[i].d in Raised(fs)
  {
    if i < |fs| - 1 {
      HoldingIsRaised(Front(fs), i);
    }
  }

  lemma {:induction false} RaisedHolds(fs: seq<Finding>, d: Diagnostic)
    requires d in Raised(fs)
    ensures exists i :: 0 <= i < |fs| && fs[i].holds && fs[i].d == d
  {
    if !Last(fs).holds || d != Last(fs).d {
      RaisedHolds(Front(fs), d);
    }
  }

  // The place of each diagnostic in the report.
  function Place(d: Diagnostic): nat {
    match d
    case TsDiscontinuity(_) => 0
    case PacketLoss(_, _, _) => 1
    case Reorder(_, _) => 2
    case DscpViolation(_, _) => 3
    case TtlRouted(_) => 4
    case HighJitter(_) => 5
    case Aes67PtpLockHint => 6
    case DanteClockOrSubscriptionHint => 7
    case SsrcChange(_) => 8
    case PtMismatch(_) => 9
    case NotAnnounced => 10
    case UnknownStreamType => 11
    case SignalGap(_, _) => 12
    case Dead(_) => 13
    case PcpAdvisory(_) => 14
  }

  // The part in hundredths of the total, nothing of nothing being none.
  ghost predicate Hundredths(pct: real, part: nat, total: nat) {
    if total == 0 then pct == 0.0 else pct * total as real == 100.0 * part as real
  }

  ghost predicate Announced(p: Protocol) {
    p == Aes67 || p == Dante || p.St2110?
  }

  // What each diagnostic says of a stream, in its own counters.
  ghost predicate Merits(s: Stream, now: Time, d: Diagnostic) {
    var (c, m, p) := (s.count, s.marks, s.id.protocol);
    match d
    case TsDiscontinuity(n) => n == s.clock.jumpsThisWindow && n > 0
    case PacketLoss(n, windowPct, lifetimePct) =>
      && n == c.lostThisWindow && n > 0
      && Hundredths(windowPct, n, c.packetsThisWindow + n) && Hundredths(lifetimePct, c.lost, c.packets + c.lost)
    case Reorder(n, pct) =>
      && n == c.reordersThisWindow && pct > 1.0
      && Hundredths(pct, n, if c.packetsThisWindow + c.lostThisWindow == 0 then 1
                            else c.packetsThisWindow + c.lostThisWindow)
    case DscpViolation(n, video) => n == m.dscpViolations && n > 0 && (video <==> p == St2110(Video))
    case TtlRouted(ttl) => p == Dante && s.transmitter.minTtl == Some(ttl) && ttl < 64
    case HighJitter(ms) => ms == 1000.0 * s.arrive.jitter && s.arrive.jitter > 0.010
    case Aes67PtpLockHint => p == Aes67 && s.arrive.jitter > 0.010
    case DanteClockOrSubscriptionHint =>
      p == Dante && (1000 * c.lost > c.packets + c.lost || s.arrive.jitter > 0.015)
    case SsrcChange(n) => n == m.ssrcChanges && n > 0
    case PtMismatch(n) => n == m.ptMismatches && n > 0
    case NotAnnounced => Announced(p) && c.rtpSeen && c.packets > 10 && !s.clock.confirmed
    case UnknownStreamType => p == St2110(UnknownType)
    case SignalGap(n, ms) => n == s.arrive.gapEvents && n >= 2 && ms == s.arrive.maxIatMs
    case Dead(silent) =>
      s.arrive.lastPacketTime.Some? && now == s.arrive.lastPacketTime.value + silent && silent > 10_000_000
    case PcpAdvisory(n) => (p == Aes67 || p.St2110?) && m.pcpViolations > 0 && n == UnwrapOr(m.observedPcp, 0)
  }

  lemma PercentIsHundredths(pct: real, part: nat, total: nat)
    ensures pct == Percent(part, total) <==> Hundredths(pct, part, total)
  {
    if total > 0 {
      var t := total as real;
      assert Percent(part, total) * t == 100.0 * part as real;
      if pct * t == 100.0 * part as real {
        assert (pct - Percent(part, total)) * t == 0.0;
      }
    }
  }

  lemma OverTenth(pct: real, part: real, total: real)
    requires total > 0.0 && pct * total == 100.0 * part
    ensures pct > 0.1 <==> 1000.0 * part > total
  {
    if pct > 0.1 {
      assert (pct - 0.1) * total > 0.0;
    } else {
      assert (0.1 - pct) * total >= 0.0;
    }
  }

  lemma OverOneInThousand(c: Counts)
    ensures LossPct(c) > 0.1 <==> 1000 * c.lost > c.packets + c.lost
  {
    var (lost, total) := (c.lost, c.packets + c.lost);
    if total > 0 {
      PercentIsHundredths(Percent(lost, total), lost, total);
      hide Percent;
      OverTenth(Percent(lost, total), lost as real, total as real);
      assert (1000 * lost) as real == 1000.0 * lost as real;
    }
  }

  lemma FindingIsMerit(s: Stream, now: Time, d: Diagnostic)
    ensures |Findings(s, now)| == 15
    ensures var f := Findings(s, now)[Place(d)]; f.holds && f.d == d <==> Merits(s, now, d)
    ensures forall i :: 0 <= i < 15 ==> Place(Findings(s, now)[i].d) == i
  {
    hide Percent, Hundredths;
    var c := s.count;
    OverOneInThousand(c);
    match d {
      case PacketLoss(n, windowPct, lifetimePct) =>
        PercentIsHundredths(windowPct, c.lostThisWindow, c.packetsThisWindow + c.lostThisWindow);
        PercentIsHundredths(lifetimePct, c.lost, c.packets + c.lost);
      case Reorder(n, pct) =>
        PercentIsHundredths(pct, c.reordersThisWindow, Max(c.packetsThisWindow + c.lostThisWindow, 1));
        NothingInNothing(pct, c.reordersThisWindow, Max(c.packetsThisWindow + c.lostThisWindow, 1));
      case _ =>
    }
  }

  lemma NothingInNothing(pct: real, part: nat, total: nat)
    ensures Hundredths(pct, part, total) && pct > 1.0 ==> part > 0
  {
    if Hundredths(pct, part, total) && pct > 1.0 {
      assert pct * total as real > 0.0;
    }
  }

  // A stream shows each of the fifteen diagnostics exactly when its counters merit it, with
  // the numbers they give.
  lemma DiagnosedExactly(s: Stream, now: Time, d: Diagnostic)
    ensures d in Diagnose(s, now) <==> Merits(s, now, d)
  {
    hide Findings, Merits;
    var fs := Findings(s, now);
    FindingIsMerit(s, now, d);
    if d in Raised(fs) {
      RaisedHolds(fs, d);
      var i :| 0 <= i < |fs| && fs[i].holds && fs[i].d == d;
      assert i == Place(d);
    }
    if Merits(s, now, d) {
      HoldingIsRaised(fs, Place(d));
    }
  }

  lemma {:induction false} RaisedInOrder(fs: seq<Finding>)
    requires |fs| <= 15 && forall i :: 0 <= i < |fs| ==> Place(fs[i].d) == i
    ensures forall i, j :: 0 <= i < j < |Raised(fs)| ==> Place(Raised(fs)[i]) < Place(Raised(fs)[j])
    ensures forall i :: 0 <= i < |Raised(fs)| ==> Place(Raised(fs)[i]) < |fs|
  {
    if fs != [] {
      RaisedInOrder(Front(fs));
    }
  }

  // And shows them in the order of the report.
  lemma DiagnosedInOrder(s: Stream, now: Time, i: nat, j: nat)
    requires i < j < |Diagnose(s, now)|
    ensures Place(Diagnose(s, now)[i]) < Place(Diagnose(s, now)[j])
  {
    hide Findings, Merits;
    FindingIsMerit(s, now, NotAnnounced);
    RaisedInOrder(Findings(s, now));
  }
}
