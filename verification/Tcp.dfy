// One TCP connection carrying NDI: `TcpStreamStats` and the part of `handle_tcp` that
// updates it.
module Tcp {
  import opened Basics
  import opened Wrapping
  import SequenceLoss

  datatype Quality = Healthy | Degrading | Critical | Terminated

  datatype Segment = Segment(sn: nat, ack: nat, fin: bool, syn: bool, rst: bool, frameBytes: nat)

  datatype Conn = Conn(
    packets: nat, bytes: nat, retransmissions: nat, finPackets: nat, rstPackets: nat,
    lastSeen: Time, quality: Quality, lastSeq: Option<nat>, lastAck: Option<nat>)

  function NewConn(now: Time): Conn {
    Conn(0, 0, 0, 0, 0, now, Healthy, None, None)
  }

  function QualityOf(retransmissions: nat, fins: nat, rsts: nat): Quality {
    if rsts > 0 || fins >= 2 then Terminated
    else if retransmissions > 10 then Critical
    else if retransmissions > 2 then Degrading
    else Healthy
  }

  // A non-SYN segment from the third on that lies before the last position taken.
  predicate IsRetransmission(c: Conn, s: Segment) {
    !s.syn && c.lastSeq.Some? && SignedSub(s.sn, c.lastSeq.value, M32) < 0 && c.packets + 1 > 2
  }

  function Seen(c: Conn, s: Segment, now: Time): Conn {
    var retransmissions := c.retransmissions + if IsRetransmission(c, s) then 1 else 0;
    var fins := c.finPackets + if s.fin then 1 else 0;
    var rsts := c.rstPackets + if s.rst then 1 else 0;
    Conn(c.packets + 1, c.bytes + Max(s.frameBytes - 40, 0), retransmissions, fins, rsts, now,
         QualityOf(retransmissions, fins, rsts),
         if c.lastSeq.Some? && SignedSub(s.sn, c.lastSeq.value, M32) <= 0 then c.lastSeq else Some(s.sn),
         Some(s.ack))
  }

  // What the segment adds to the network-wide retransmission counter.
  function HealthMarks(c: Conn, s: Segment): nat {
    (if s.rst then 1 else 0) + if IsRetransmission(c, s) then 1 else 0
  }

  class TcpStreamStats {
    var packets: nat
    var bytes: nat
    var retransmissions: nat
    var finPackets: nat
    var rstPackets: nat
    var lastSeen: Time
    var quality: Quality
    var lastSeq: Option<nat>
    var lastAck: Option<nat>

    function View(): Conn
      reads this
    {
      Conn(packets, bytes, retransmissions, finPackets, rstPackets, lastSeen, quality, lastSeq, lastAck)
    }

    constructor (now: Time)
      ensures View() == NewConn(now)
    {
      packets, bytes, retransmissions, finPackets, rstPackets := 0, 0, 0, 0, 0;
      lastSeen, quality, lastSeq, lastAck := now, Healthy, None, None;
    }

    constructor Of(c: Conn)
      ensures View() == c
    {
      packets, bytes, retransmissions := c.packets, c.bytes, c.retransmissions;
      finPackets, rstPackets := c.finPackets, c.rstPackets;
      lastSeen, quality, lastSeq, lastAck := c.lastSeen, c.quality, c.lastSeq, c.lastAck;
    }

    method UpdateQuality()
      modifies this`quality
      ensures quality == QualityOf(retransmissions, finPackets, rstPackets)
    {
      if rstPackets > 0 || finPackets >= 2 {
        quality := Terminated;
      } else if retransmissions > 10 {
        quality := Critical;
      } else if retransmissions > 2 {
        quality := Degrading;
      } else {
        quality := Healthy;
      }
    }

    // The per-connection body of `handle_tcp`; `marks` is what it adds to
    // `network_health.tcp_retransmissions`.
    method HandleSegment(s: Segment, now: Time) returns (marks: nat)
      requires s.sn < M32
      modifies this
      ensures View() == Seen(old(View()), s, now)
      ensures marks == HealthMarks(old(View()), s)
    {
      hide SignedSub, QualityOf;
      marks := 0;
      packets := packets + 1;
      lastSeen := now;
      bytes := bytes + if s.frameBytes >= 40 then s.frameBytes - 40 else 0;
      if s.fin { finPackets := finPackets + 1; }
      if s.rst {
        rstPackets := rstPackets + 1;
        marks := marks + 1;
      }
      if !s.syn && lastSeq.Some? && SignedSub(s.sn, lastSeq.value, M32) < 0 && packets > 2 {
        retransmissions := retransmissions + 1;
        marks := marks + 1;
      }
      if lastSeq.Some? {
        if SignedSub(s.sn, lastSeq.value, M32) > 0 { lastSeq := Some(s.sn); }
      } else {
        lastSeq := Some(s.sn);
      }
      lastAck := Some(s.ack);
      UpdateQuality();
    }
  }

  // ---- Runs of one connection -----------------------------------------------

  datatype Arrival = Arrival(s: Segment, now: Time)

  function Run(c: Conn, run: seq<Arrival>): Conn {
    if run == [] then c else Seen(Run(c, Front(run)), Last(run).s, Last(run).now)
  }

  function MarksOf(c: Conn, run: seq<Arrival>): nat {
    if run == [] then 0 else MarksOf(c, Front(run)) + HealthMarks(Run(c, Front(run)), Last(run).s)
  }

  // True stream positions, each within half the 32-bit space of the highest before it.
  ghost predicate Carries(run: seq<Arrival>, truth: seq<int>) {
    && |run| == |truth|
    && (run != [] ==>
          && Carries(Front(run), Front(truth))
          && Last(run).s.sn == Wrap(Last(truth), M32)
          && (|run| > 1 ==> -0x8000_0000 <= Last(truth) - SequenceLoss.Highest(Front(truth)) < 0x8000_0000))
  }

  // Non-SYN segments from the third on that fall below the highest position before them.
  ghost function Resent(run: seq<Arrival>, truth: seq<int>): nat
    requires |run| == |truth|
  {
    if |run| == 0 then 0
    else Resent(Front(run), Front(truth)) +
         (if |run| > 2 && !Last(run).s.syn && Last(truth) < SequenceLoss.Highest(Front(truth)) then 1 else 0)
  }

  ghost function Resets(run: seq<Arrival>): nat {
    if run == [] then 0 else Resets(Front(run)) + if Last(run).s.rst then 1 else 0
  }

  ghost function Fins(run: seq<Arrival>): nat {
    if run == [] then 0 else Fins(Front(run)) + if Last(run).s.fin then 1 else 0
  }

  // Frame octets beyond 40 each, which stand for the payload.
  ghost function Payload(run: seq<Arrival>): nat {
    if run == [] then 0
    else Payload(Front(run)) + if Last(run).s.frameBytes > 40 then Last(run).s.frameBytes - 40 else 0
  }

  // The verdict on so many retransmissions, FINs and resets.
  ghost predicate Deserves(q: Quality, retransmissions: nat, fins: nat, resets: nat) {
    match q
    case Terminated => resets >= 1 || fins >= 2
    case Critical => resets == 0 && fins <= 1 && retransmissions >= 11
    case Degrading => resets == 0 && fins <= 1 && 3 <= retransmissions <= 10
    case Healthy => resets == 0 && fins <= 1 && retransmissions <= 2
  }

  // The wrapped position tracked is the true maximum, retransmissions are exactly the
  // segments that fall below it, and the network-wide counter adds them and the resets.
  lemma {:induction false} TracksTrueMaximum(run: seq<Arrival>, truth: seq<int>, start: Time)
    requires run != [] && Carries(run, truth)
    ensures var c := Run(NewConn(start), run);
            && c.packets == |run|
            && c.lastSeq == Some(Wrap(SequenceLoss.Highest(truth), M32))
            && c.retransmissions == Resent(run, truth)
            && MarksOf(NewConn(start), run) == Resent(run, truth) + Resets(run)
            && c.finPackets == Fins(run) && c.rstPackets == Resets(run) && c.bytes == Payload(run)
            && c.lastSeen == Last(run).now && c.lastAck == Some(Last(run).s.ack)
            && Deserves(c.quality, Resent(run, truth), Fins(run), Resets(run))
  {
    var before := Run(NewConn(start), Front(run));
    if |run| == 1 {
      assert before == NewConn(start);
    } else {
      TracksTrueMaximum(Front(run), Front(truth), start);
      SignedSubExact(Last(truth), SequenceLoss.Highest(Front(truth)), M32);
    }
  }

  function Rank(q: Quality): nat {
    match q case Healthy => 0 case Degrading => 1 case Critical => 2 case Terminated => 3
  }

  // Whatever arrives, quality is the verdict on the counters and never improves.
  lemma {:induction false} QualityNeverImproves(c: Conn, run: seq<Arrival>)
    requires c.quality == QualityOf(c.retransmissions, c.finPackets, c.rstPackets)
    ensures var r := Run(c, run);
            && r.quality == QualityOf(r.retransmissions, r.finPackets, r.rstPackets)
            && Rank(r.quality) >= Rank(c.quality)
            && r.retransmissions >= c.retransmissions
            && r.finPackets >= c.finPackets && r.rstPackets >= c.rstPackets
  {
    if run != [] {
      QualityNeverImproves(c, Front(run));
    }
  }
}
