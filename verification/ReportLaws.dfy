// What a report shows of the streams. It is rendered from the state after the reset,
// while the score beside it was taken before: no window counter ever appears, and of the
// scored diagnostics only those whose condition outlives the window.
module ReportLaws {
  import opened Basics
  import opened Capture
  import opened Diagnostics
  import opened Frames
  import opened Scoring
  import opened Streams
  import opened Wrapping
  import L = ReplayLoss
  import R = Replay
  import SequenceLoss

  // ---- Diagnostics across the reset -----------------------------------------

  // Raised by what a stream is or has become, not by what the window counted.
  predicate Lasting(d: Diagnostic) {
    || d.HighJitter? || d.Aes67PtpLockHint? || d.DanteClockOrSubscriptionHint? || d.TtlRouted?
    || d.NotAnnounced? || d.UnknownStreamType? || d.Dead?
  }

  function OnlyLasting(ds: seq<Diagnostic>): seq<Diagnostic> {
    if ds == [] then []
    else OnlyLasting(Front(ds)) + if Lasting(Last(ds)) then [Last(ds)] else []
  }

  // The window counted nothing that a diagnostic is raised for.
  predicate QuietWindow(s: Stream) {
    && s.clock.jumpsThisWindow == 0 && s.count.lostThisWindow == 0
    && (s.count.reordersThisWindow == 0 || ReorderPct(s.count) <= 1.0)
    && s.marks.dscpViolations == 0 && s.marks.ssrcChanges == 0 && s.marks.ptMismatches == 0
    && s.arrive.gapEvents < 2
    && (s.marks.pcpViolations == 0 || !(s.id.protocol.Aes67? || s.id.protocol.St2110?))
  }

  lemma LastingAppend(ds: seq<Diagnostic>, d: Diagnostic)
    ensures OnlyLasting(ds + [d]) == OnlyLasting(ds) + if Lasting(d) then [d] else []
  {
    assert Front(ds + [d]) == ds;
  }

  // Findings that differ only in dropping those that do not last.
  ghost predicate KeepsLasting(fs: seq<Finding>, gs: seq<Finding>) {
    && |fs| == |gs|
    && forall i :: 0 <= i < |fs| ==>
         (gs[i].holds <==> fs[i].holds && Lasting(fs[i].d)) && (gs[i].holds ==> gs[i].d == fs[i].d)
  }

  lemma {:induction false} RaisedAreLasting(fs: seq<Finding>, gs: seq<Finding>)
    requires KeepsLasting(fs, gs)
    ensures Raised(gs) == OnlyLasting(Raised(fs))
  {
    if fs != [] {
      RaisedAreLasting(Front(fs), Front(gs));
      if Last(fs).holds {
        LastingAppend(Raised(Front(fs)), Last(fs).d);
      } else {
        assert Raised(fs) == Raised(Front(fs)) && Raised(gs) == Raised(Front(gs));
      }
    }
  }

  lemma {:induction false} AllLasting(ds: seq<Diagnostic>)
    ensures OnlyLasting(ds) == ds <==> forall d :: d in ds ==> Lasting(d)
    ensures forall d :: d in OnlyLasting(ds) <==> d in ds && Lasting(d)
  {
    if ds != [] {
      AllLasting(Front(ds));
      assert ds == Front(ds) + [Last(ds)];
    }
  }

  lemma FindingsAfterReset(s: Stream, now: Time)
    ensures KeepsLasting(Findings(s, now), Findings(WindowReset(s), now))
  {
    hide JitterMs, LossPct, LossPctThisWindow, IsDead, SilentFor, ExpectsSdp;
    assert ReorderPct(WindowReset(s).count) == 0.0 || WindowReset(s).count.reordersThisWindow == 0;
    ResetKeepsLasting(s, now);
  }

  lemma ResetKeepsLasting(s: Stream, now: Time)
    ensures var r := WindowReset(s);
            && JitterMs(r.arrive) == JitterMs(s.arrive) && LossPct(r.count) == LossPct(s.count)
            && IsDead(r.arrive, now) == IsDead(s.arrive, now) && SilentFor(r.arrive, now) == SilentFor(s.arrive, now)
            && ExpectsSdp(r) == ExpectsSdp(s)
  {}

  lemma QuietMeansLasting(s: Stream, now: Time)
    ensures QuietWindow(s) <==> forall d :: d in Diagnose(s, now) ==> Lasting(d)
  {
    hide JitterMs, LossPct, LossPctThisWindow, IsDead, SilentFor, ExpectsSdp, ReorderPct, Raised;
    var fs := Findings(s, now);
    if QuietWindow(s) {
      forall d | d in Diagnose(s, now) ensures Lasting(d) {
        RaisedHolds(fs, d);
      }
    } else {
      var i := if fs[0].holds then 0 else if fs[1].holds then 1 else if fs[2].holds then 2 else if fs[3].holds then 3
               else if fs[8].holds then 8 else if fs[9].holds then 9 else if fs[12].holds then 12 else 14;
      assert fs[i].holds && !Lasting(fs[i].d);
      HoldingIsRaised(fs, i);
    }
  }

  // The diagnostics of a stream after the reset are the lasting ones of those before it,
  // and all of them if and only if the window was quiet.
  lemma DiagnosticsAfterReset(s: Stream, now: Time)
    ensures Diagnose(WindowReset(s), now) == OnlyLasting(Diagnose(s, now))
    ensures Diagnose(WindowReset(s), now) == Diagnose(s, now) <==> QuietWindow(s)
  {
    hide Findings, QuietWindow, Lasting, WindowReset;
    FindingsAfterReset(s, now);
    RaisedAreLasting(Findings(s, now), Findings(WindowReset(s), now));
    AllLasting(Diagnose(s, now));
    QuietMeansLasting(s, now);
  }

  // ---- The reports of a replay ----------------------------------------------

  // What the score was taken from, and what the report goes through, stream by stream.
  function Scored(r: R.CloseRecord, k: Key): seq<Diagnostic> {
    if k in r.before.streams then Diagnose(r.before.streams[k], r.now) else []
  }

  function Shown(r: R.CloseRecord, k: Key): seq<Diagnostic> {
    if k in r.after.streams then Diagnose(r.after.streams[k], r.now) else []
  }

  lemma PrunedIsScoredDead(s: Stream, now: Time)
    requires !StreamLives(s, now)
    ensures Diagnose(s, now) != []
  {
    hide JitterMs, LossPct, LossPctThisWindow, ExpectsSdp, ReorderPct, Raised;
    HoldingIsRaised(Findings(s, now), 13);
  }

  // Every report of every replay shows, of the diagnostics scored for a stream, exactly
  // the lasting ones if the stream survives the close and none if it is pruned; so it
  // shows what was scored if and only if the stream survives and its window was quiet.
  lemma ReportShowsLasting(wall: Time, file: seq<R.PcapPacket>, i: nat, k: Key)
    requires R.ValidFile(file) && i < |R.Replayed(wall, file).closes|
    requires k in R.Replayed(wall, file).closes[i].before.streams
    ensures var r := R.Replayed(wall, file).closes[i];
            var s := r.before.streams[k];
            && Shown(r, k) == (if StreamLives(s, r.now) then OnlyLasting(Scored(r, k)) else [])
            && (Shown(r, k) == Scored(r, k) <==> StreamLives(s, r.now) && QuietWindow(s))
  {
    hide R.Replayed, Closed, Diagnose, StreamLives, QuietWindow, OnlyLasting, WindowReset;
    R.ReplayRecordsCloses(wall, file);
    var r := R.Replayed(wall, file).closes[i];
    R.CloseOfStreams(r.before, r.now);
    if StreamLives(r.before.streams[k], r.now) {
      DiagnosticsAfterReset(r.before.streams[k], r.now);
    } else {
      PrunedIsScoredDead(r.before.streams[k], r.now);
    }
  }

  // No report of any replay shows a lost, received or discontinuous packet of the window
  // it closes.
  lemma ShownWindowsAreEmpty(wall: Time, file: seq<R.PcapPacket>, i: nat, k: Key)
    requires R.ValidFile(file) && i < |R.Replayed(wall, file).closes|
    requires k in R.Replayed(wall, file).closes[i].after.streams
    ensures Window(R.Replayed(wall, file).closes[i].after.streams[k]) == NoTotals
  {
    hide R.Replayed, Closed, StreamLives;
    R.ReplayRecordsCloses(wall, file);
    var r := R.Replayed(wall, file).closes[i];
    R.CloseOfStreams(r.before, r.now);
  }

  // How many packets had been read when a close came about.
  ghost function ReadAt(wall: Time, file: seq<R.PcapPacket>, i: nat): (n: nat)
    requires R.ValidFile(file)
    ensures n <= |file|
  {
    if file == [] || i >= |R.Run(wall, Front(file)).closes| then |file| else ReadAt(wall, Front(file), i)
  }

  lemma {:induction false} CloseIsOfPrefix(wall: Time, file: seq<R.PcapPacket>, i: nat)
    requires R.ValidFile(file) && i < |R.Run(wall, file).closes|
    ensures R.Run(wall, file).closes[i].after == R.Run(wall, file[..ReadAt(wall, file, i)]).capture
  {
    hide R.Step, WellFormed, ValidFrame, Closed, Processed;
    if file != [] {
      var l := R.Run(wall, Front(file));
      R.StepInParts(l, Last(file), wall);
      if i < |l.closes| {
        CloseIsOfPrefix(wall, Front(file), i);
        assert file[..ReadAt(wall, file, i)] == Front(file)[..ReadAt(wall, file, i)];
      } else {
        assert file[..|file|] == file;
      }
    }
  }

  // The loss a report prints: the share of the lifetime losses.
  ghost predicate ShowsLoss(s: Stream, truth: seq<int>)
    requires truth != []
  {
    var lost := SequenceLoss.ForwardGaps(truth);
    && s.count.lost == lost && LossPct(s.count) == Percent(lost, s.count.packets + lost)
    && (s.count.lost == |SequenceLoss.Missing(truth)| <==> SequenceLoss.Regular(truth))
  }

  lemma CaptureShowsLoss(wall: Time, file: seq<R.PcapPacket>, k: Key, truth: seq<int>)
    requires R.ValidFile(file) && k in R.Run(wall, file).capture.streams
    requires L.Carries(wall, file, k, truth) && truth != [] && SequenceLoss.Faithful(truth, M16)
    ensures ShowsLoss(R.Run(wall, file).capture.streams[k], truth)
    ensures ShowsLoss(WindowReset(R.Run(wall, file).capture.streams[k]), truth)
  {
    hide R.Run, L.Tracked, L.Carries;
    L.RunFollows(wall, file, k);
    L.TrackedIsObserved(wall, file, k, truth);
    SequenceLoss.LossIsSumOfForwardGaps(truth, M16);
    SequenceLoss.LossCoversMissing(truth, M16);
  }

  // What every report of every replay does show for a stream is the loss of its lifetime:
  // the share of the forward gaps among the true positions the file had carried for it
  // since it appeared, and exactly that of the missing packets on regular runs only.
  lemma ShownLossIsTrueLoss(wall: Time, file: seq<R.PcapPacket>, i: nat, k: Key, truth: seq<int>)
    requires R.ValidFile(file) && i < |R.Replayed(wall, file).closes|
    requires k in R.Replayed(wall, file).closes[i].after.streams
    requires L.Carries(wall, file[..ReadAt(wall, file, i)], k, truth)
    requires truth != [] && SequenceLoss.Faithful(truth, M16)
    ensures ShowsLoss(R.Replayed(wall, file).closes[i].after.streams[k], truth)
  {
    hide R.Run, L.Carries, Closed, StreamLives, ShowsLoss, ReadAt;
    var l, n := R.Run(wall, file), ReadAt(wall, file, i);
    if i < |l.closes| {
      CloseIsOfPrefix(wall, file, i);
    } else {
      ReadAtEnd(wall, file, i);
      assert file[..n] == file;
      R.CloseOfStreams(l.capture, l.lastNow);
    }
    CaptureShowsLoss(wall, file[..n], k, truth);
  }

  lemma ReadAtEnd(wall: Time, file: seq<R.PcapPacket>, i: nat)
    requires R.ValidFile(file) && i >= |R.Run(wall, file).closes|
    ensures ReadAt(wall, file, i) == |file|
  {
    hide R.Step, WellFormed, ValidFrame, Closed, Processed;
    if file != [] {
      R.StepInParts(R.Run(wall, Front(file)), Last(file), wall);
    }
  }
}
