// The Dante sources in a replay: the runs the laws of `Dante` are about, with every close
// given the addresses of the streams that survive it.
module ReplaySources {
  import opened Basics
  import opened Capture
  import opened FrameLaws
  import opened Frames
  import opened Scoring
  import opened Streams
  import Dante
  import L = RunLaws
  import R = Replay
  import Tcp

  ghost function FrameStep(l: R.Loop, p: R.PcapPacket, wall: Time): seq<Dante.Step>
    requires WellFormed(l.capture) && (p.eth.Some? ==> ValidFrame(p.eth.value.frame))
  {
    if p.eth.Some? && p.eth.value.frame.DanteFrame?
    then [Dante.Frame(p.eth.value.frame.e, p.eth.value.frame.victim, R.Step(l, p, wall).lastNow)] else []
  }

  ghost function CloseStep(l: R.Loop, p: R.PcapPacket, wall: Time): seq<Dante.Step>
    requires WellFormed(l.capture) && (p.eth.Some? ==> ValidFrame(p.eth.value.frame))
  {
    var next := R.Step(l, p, wall);
    if p.eth.Some? && R.Reports(l.report, p.sec)
    then [Dante.Close(SourceIps(next.capture.streams), next.lastNow)] else []
  }

  // All that happened to the sources: the Dante frames of the file and the closes.
  ghost function Steps(wall: Time, file: seq<R.PcapPacket>): seq<Dante.Step>
    requires R.ValidFile(file)
  {
    if file == [] then []
    else
      var l := R.Run(wall, Front(file));
      Steps(wall, Front(file)) + FrameStep(l, Last(file), wall) + CloseStep(l, Last(file), wall)
  }

  lemma DanteAlone(c: Capture, f: Frame, now: Time)
    requires WellFormed(c) && ValidFrame(f)
    ensures Handled(c, f, now).dante == if f.DanteFrame? then Dante.Handled(c.dante, f.e, f.victim, now) else c.dante
  {
    hide MediaSeen, DanteAudioSeen, EnrichedAll, SdpCached, EcnMarked, NdiHeard, AvtpHandled, PtpHandled, Declared;
    hide Dante.Handled, Tcp.Seen, Tcp.HealthMarks, WellFormed, ValidFrame, NdiRecorded, IsNdi;
  }

  lemma ClosedDante(c: Capture, now: Time)
    ensures Closed(c, now).dante == Dante.WindowClosed(c.dante, SourceIps(Closed(c, now).streams), now)
  {
    hide Score, Dante.WindowClosed, SourceIps;
  }

  lemma OneMore(steps: seq<Dante.Step>, more: seq<Dante.Step>)
    requires |more| <= 1
    ensures var d := Dante.Run(Dante.NoDante, steps);
            Dante.Run(Dante.NoDante, steps + more) == if more == [] then d else Dante.Next(d, more[0])
  {
    if more == [] {
      assert steps + more == steps;
    } else {
      assert Front(steps + more) == steps && Last(steps + more) == more[0];
    }
  }

  // One packet of a replay, as steps of the sources.
  lemma StepOfSources(l: R.Loop, p: R.PcapPacket, wall: Time)
    requires WellFormed(l.capture) && (p.eth.Some? ==> ValidFrame(p.eth.value.frame))
    ensures var frame, closed := FrameStep(l, p, wall), CloseStep(l, p, wall);
            var heard := if frame == [] then l.capture.dante else Dante.Next(l.capture.dante, frame[0]);
            R.Step(l, p, wall).capture.dante == if closed == [] then heard else Dante.Next(heard, closed[0])
  {
    hide R.Step, Handled, Closed, WellFormed, ValidFrame, Dante.Handled, Dante.WindowClosed, SourceIps;
    R.StepInParts(l, p, wall);
    if p.eth.Some? {
      var now := R.Step(l, p, wall).lastNow;
      var counted := l.capture.(traffic := l.capture.traffic.(dispatched := l.capture.traffic.dispatched + 1));
      SameStreamsWellFormed(l.capture, counted);
      DanteAlone(counted, p.eth.value.frame, now);
      ClosedDante(Processed(l.capture, p.eth.value, now), now);
    }
  }

  lemma {:induction false} SourcesOfRun(wall: Time, file: seq<R.PcapPacket>)
    requires R.ValidFile(file)
    ensures R.Run(wall, file).capture.dante == Dante.Run(Dante.NoDante, Steps(wall, file))
  {
    hide R.Step, WellFormed, ValidFrame, Dante.Run, Dante.Next, FrameStep, CloseStep;
    if file == [] {
      NoSteps();
    } else {
      SourcesOfRun(wall, Front(file));
      var l, p, steps := R.Run(wall, Front(file)), Last(file), Steps(wall, Front(file));
      AtMostOne(l, p, wall);
      StepOfSources(l, p, wall);
      OneMore(steps, FrameStep(l, p, wall));
      OneMore(steps + FrameStep(l, p, wall), CloseStep(l, p, wall));
    }
  }

  lemma AtMostOne(l: R.Loop, p: R.PcapPacket, wall: Time)
    requires WellFormed(l.capture) && (p.eth.Some? ==> ValidFrame(p.eth.value.frame))
    ensures |FrameStep(l, p, wall)| <= 1 && |CloseStep(l, p, wall)| <= 1
  {}

  lemma NoSteps()
    ensures Dante.Run(Dante.NoDante, []) == Dante.NoDante
  {}

  // The addresses a close takes for streaming are the sources of the streams it keeps.
  lemma StreamingExactly(streams: map<Key, Stream>, ip: Ip)
    ensures ip in SourceIps(streams) <==> exists k :: k in streams && streams[k].id.srcIp == Some(ip)
  {
    if k :| k in streams && streams[k].id.srcIp == Some(ip) {
      assert streams[k].id.srcIp.value in SourceIps(streams);
    }
  }

  // At every point of every replay a source is called unverified exactly when it is
  // tracked and the last three closes or more found neither a surviving stream of it nor
  // a fresh ConMon entry.
  lemma ReplayUnverified(wall: Time, file: seq<R.PcapPacket>, ip: Ip)
    requires R.ValidFile(file)
    ensures var d, silent := R.Run(wall, file).capture.dante, Dante.SilentCloses(Dante.NoDante, Steps(wall, file), ip);
            && Dante.Windows(d, ip) == silent
            && (ip in Dante.Unverified(d) <==> ip in d.sources && silent >= 3)
  {
    hide R.Run, Steps, Dante.Run, Dante.SilentCloses, Dante.Unverified, Dante.Windows;
    SourcesOfRun(wall, file);
    Dante.UnverifiedCountsSilentCloses(Steps(wall, file), ip);
  }

  // ---- Classes --------------------------------------------------------------

  lemma StepKeepsClass(l: R.Loop, p: R.PcapPacket, wall: Time, ip: Ip)
    requires WellFormed(l.capture) && (p.eth.Some? ==> ValidFrame(p.eth.value.frame))
    requires Dante.Bounded(l.capture.dante) && Dante.SoftwareClass(l.capture.dante, ip)
    requires p.eth.Some? ==> LegalFrame(l.capture, p.eth.value.frame)
    ensures var d := R.Step(l, p, wall).capture.dante;
            ip in d.sources ==> Dante.SoftwareClass(d, ip)
  {
    hide R.Step, Dante.Handled, WellFormed, ValidFrame, Dante.Bounded;
    StepOfSources(l, p, wall);
    if FrameStep(l, p, wall) != [] {
      Dante.ClassSurvivesStep(l.capture.dante, FrameStep(l, p, wall)[0], ip);
    }
  }

  // In every replay a source once identified as DVS or Via never reverts to Hardware for
  // as long as it is tracked, whichever sources are evicted meanwhile.
  lemma {:induction false} ReplayKeepsClass(wall: Time, file: seq<R.PcapPacket>, n: nat, ip: Ip)
    requires R.ValidFile(file) && L.LegalFile(wall, file) && n <= |file|
    requires Dante.SoftwareClass(R.Run(wall, file[..n]).capture.dante, ip)
    requires forall m :: n <= m <= |file| ==> ip in R.Run(wall, file[..m]).capture.dante.sources
    ensures Dante.SoftwareClass(R.Run(wall, file).capture.dante, ip)
  {
    hide R.Step, WellFormed, ValidFrame, Dante.SoftwareClass, LegalFrame, L.ClosesSound;
    assert file[..|file|] == file;
    if n < |file| {
      var front := Front(file);
      assert forall m :: n <= m <= |front| ==> front[..m] == file[..m];
      ReplayKeepsClass(wall, front, n, ip);
      L.ReplayKeepsInvariant(wall, front);
      StepKeepsClass(R.Run(wall, front), Last(file), wall, ip);
    }
  }
}
