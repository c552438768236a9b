// One AVB media stream: `AvtpStreamStats`.
module Avtp {
  import opened Basics
  import opened Wrapping
  import SequenceLoss

  datatype AvtpStream = AvtpStream(
    packets: nat, lostFrames: nat, lastSeq: Option<nat>, lastSeen: Time,
    pcpViolations: nat, observedPcp: Option<nat>, declaredPcp: Option<nat>)

  function NewAvtp(now: Time): AvtpStream {
    AvtpStream(0, 0, None, now, 0, None, None)
  }

  function SequenceUpdated(s: AvtpStream, sn: nat): AvtpStream {
    var t := SequenceLoss.Step(SequenceLoss.Track(s.lastSeq, s.lostFrames, 0), sn, M8);
    s.(lastSeq := t.last, lostFrames := t.lost)
  }

  // One frame as `handle_avb` books it: the sequence byte and the outermost PCP may be
  // missing, and the PCP is compared with the declared priority when both are known.
  function FrameSeen(s: AvtpStream, sn: Option<nat>, pcp: Option<nat>, declared: Option<nat>, now: Time): AvtpStream {
    var counted := s.(packets := s.packets + 1, lastSeen := now);
    var sequenced := if sn.Some? then SequenceUpdated(counted, sn.value) else counted;
    if pcp.Some? && declared.Some? && pcp.value != declared.value then
      sequenced.(pcpViolations := s.pcpViolations + 1,
                 observedPcp := if s.observedPcp.Some? then s.observedPcp else pcp,
                 declaredPcp := declared)
    else sequenced
  }

  class AvtpStreamStats {
    var packets: nat
    var lostFrames: nat
    var lastSeq: Option<nat>
    var lastSeen: Time
    var pcpViolations: nat
    var observedPcp: Option<nat>
    var declaredPcp: Option<nat>

    function View(): AvtpStream
      reads this
    {
      AvtpStream(packets, lostFrames, lastSeq, lastSeen, pcpViolations, observedPcp, declaredPcp)
    }

    constructor Of(s: AvtpStream)
      ensures View() == s
    {
      packets, lostFrames, lastSeq, lastSeen := s.packets, s.lostFrames, s.lastSeq, s.lastSeen;
      pcpViolations, observedPcp, declaredPcp := s.pcpViolations, s.observedPcp, s.declaredPcp;
    }

    method UpdateSeq(sn: nat)
      requires sn < M8
      modifies this`lostFrames, this`lastSeq
      ensures View() == SequenceUpdated(old(View()), sn)
    {
      if lastSeq.Some? {
        var expected := (lastSeq.value + 1) % M8;
        if sn != expected {
          var delta := SignedSub(sn, expected, M8);
          if delta > 0 {
            lostFrames := lostFrames + delta;
          }
        }
      }
      lastSeq := Some(sn);
    }

    // The per-entry body of `handle_avb`.
    method HandleFrame(sn: Option<nat>, pcp: Option<nat>, declared: Option<nat>, now: Time)
      requires sn.Some? ==> sn.value < M8
      modifies this
      ensures View() == FrameSeen(old(View()), sn, pcp, declared, now)
    {
      hide SequenceLoss.Step;
      packets := packets + 1;
      lastSeen := now;
      if sn.Some? { UpdateSeq(sn.value); }
      if pcp.Some? && declared.Some? && pcp.value != declared.value {
        pcpViolations := pcpViolations + 1;
        if observedPcp == None { observedPcp := pcp; }
        declaredPcp := declared;
      }
    }
  }

  function Frames(s: AvtpStream, sns: seq<nat>): AvtpStream {
    if sns == [] then s else SequenceUpdated(Frames(s, Front(sns)), Last(sns))
  }

  lemma {:induction false} FramesFollowTracker(s: AvtpStream, sns: seq<nat>, truth: seq<int>)
    requires s.lastSeq == None && |sns| == |truth|
    requires forall i :: 0 <= i < |sns| ==> sns[i] == Wrap(truth[i], M8)
    ensures Frames(s, sns).lastSeq == SequenceLoss.Observe(truth, M8).last
    ensures Frames(s, sns).lostFrames == s.lostFrames + SequenceLoss.Observe(truth, M8).lost
  {
    if sns != [] {
      FramesFollowTracker(s, Front(sns), Front(truth));
    }
  }

  // The 8-bit counter obeys the law of the 16-bit one: lost frames are the sum of the
  // forward gaps, and exactly the frames that did not arrive on regular runs and no others.
  lemma LossOfFrames(s: AvtpStream, sns: seq<nat>, truth: seq<int>)
    requires s.lastSeq == None && s.lostFrames == 0 && sns != [] && |sns| == |truth|
    requires forall i :: 0 <= i < |sns| ==> sns[i] == Wrap(truth[i], M8)
    requires SequenceLoss.Faithful(truth, M8)
    ensures Frames(s, sns).lostFrames == SequenceLoss.ForwardGaps(truth)
    ensures Frames(s, sns).lostFrames == |SequenceLoss.Missing(truth)| + SequenceLoss.Excess(truth)
    ensures Frames(s, sns).lostFrames == |SequenceLoss.Missing(truth)| <==> SequenceLoss.Regular(truth)
    ensures |sns| + Frames(s, sns).lostFrames
         == truth[|truth| - 1] - truth[0] + 1 + SequenceLoss.BackwardGaps(truth)
  {
    FramesFollowTracker(s, sns, truth);
    SequenceLoss.LossIsSumOfForwardGaps(truth, M8);
    SequenceLoss.LossCoversMissing(truth, M8);
    SequenceLoss.PacketsPlusLossesSpanRun(truth, M8);
  }

  // ---- Runs of frames -------------------------------------------------------

  // A frame of the stream, with the priority declared for it when it came.
  datatype Record = Record(sn: Option<nat>, pcp: Option<nat>, declared: Option<nat>, now: Time)

  function SeenAll(s: AvtpStream, run: seq<Record>): AvtpStream {
    if run == [] then s
    else FrameSeen(SeenAll(s, Front(run)), Last(run).sn, Last(run).pcp, Last(run).declared, Last(run).now)
  }

  // The sequence bytes of the frames that carry one.
  function Sns(run: seq<Record>): seq<nat> {
    if run == [] then []
    else Sns(Front(run)) + if Last(run).sn.Some? then [Last(run).sn.value] else []
  }

  predicate Mismatch(r: Record) {
    r.pcp.Some? && r.declared.Some? && r.pcp.value != r.declared.value
  }

  function Mismatches(run: seq<Record>): nat {
    if run == [] then 0 else Mismatches(Front(run)) + if Mismatch(Last(run)) then 1 else 0
  }

  // The priority of the first mismatched frame, and the one declared at the last.
  ghost function FirstMismatch(run: seq<Record>): Option<nat> {
    if run == [] then None
    else if FirstMismatch(Front(run)).Some? then FirstMismatch(Front(run))
    else if Mismatch(Last(run)) then Last(run).pcp
    else None
  }

  ghost function LastDeclared(run: seq<Record>): Option<nat> {
    if run == [] then None
    else if Mismatch(Last(run)) then Last(run).declared
    else LastDeclared(Front(run))
  }

  // What one frame adds to an entry; the sequence byte acts on number and losses alone.
  lemma FrameCounts(s: AvtpStream, f: AvtpStream, r: Record)
    requires s.lastSeq == f.lastSeq && s.lostFrames == f.lostFrames
    ensures var t := FrameSeen(s, r.sn, r.pcp, r.declared, r.now);
            var g := if r.sn.Some? then SequenceUpdated(f, r.sn.value) else f;
            && t.packets == s.packets + 1 && t.lastSeen == r.now
            && t.lastSeq == g.lastSeq && t.lostFrames == g.lostFrames
            && t.pcpViolations == s.pcpViolations + (if Mismatch(r) then 1 else 0)
            && t.observedPcp == (if s.observedPcp == None && Mismatch(r) then r.pcp else s.observedPcp)
            && t.declaredPcp == (if Mismatch(r) then r.declared else s.declaredPcp)
  {
    hide SequenceLoss.Step;
  }

  lemma SnsOfLast(run: seq<Record>, s: AvtpStream)
    requires run != []
    ensures Frames(s, Sns(run)) ==
            if Last(run).sn.Some? then SequenceUpdated(Frames(s, Sns(Front(run))), Last(run).sn.value)
            else Frames(s, Sns(Front(run)))
  {
    hide SequenceUpdated;
    if Last(run).sn.Some? {
      assert Front(Sns(run)) == Sns(Front(run));
    } else {
      assert Sns(run) == Sns(Front(run));
    }
  }

  // An entry counts its frames, those whose priority differs from the declared one, and
  // the sequence bytes as LossOfFrames says.
  lemma {:induction false} SeenAllCounts(run: seq<Record>, start: Time)
    ensures var r, f := SeenAll(NewAvtp(start), run), Frames(NewAvtp(start), Sns(run));
            && r.packets == |run| && r.pcpViolations == Mismatches(run)
            && r.lastSeq == f.lastSeq && r.lostFrames == f.lostFrames
            && r.lastSeen == (if run == [] then start else Last(run).now)
            && r.observedPcp == FirstMismatch(run) && r.declaredPcp == LastDeclared(run)
  {
    hide SequenceUpdated;
    if run != [] {
      SeenAllCounts(Front(run), start);
      FrameCounts(SeenAll(NewAvtp(start), Front(run)), Frames(NewAvtp(start), Sns(Front(run))), Last(run));
      SnsOfLast(run, NewAvtp(start));
      hide FrameSeen, Frames, Sns;
    }
  }
}
