// Offline replay: the clocks driven by capture timestamps, the loop that processes and
// closes, and what it guarantees about streams that fall silent.
module Replay {
  import opened Basics
  import opened Capture
  import opened Diagnostics
  import opened Frames
  import opened FrameLaws
  import opened Scoring
  import opened Streams

  const REPORT_SECS: int := 5

  // ---- The two clocks -------------------------------------------------------

  datatype ReportClock = ReportClock(lastReport: int, initialized: bool)

  predicate Reports(k: ReportClock, ts: int) {
    k.initialized && ts - k.lastReport >= REPORT_SECS
  }

  function Ticked(k: ReportClock, ts: int): ReportClock {
    if !k.initialized || Reports(k, ts) then ReportClock(ts, true) else k
  }

  class OfflineReportClock {
    var lastReport: int
    var initialized: bool

    function View(): ReportClock
      reads this
    {
      ReportClock(lastReport, initialized)
    }

    constructor ()
      ensures View() == ReportClock(0, false)
    {
      lastReport, initialized := 0, false;
    }

    method ShouldReport(ts: int) returns (report: bool)
      modifies this
      ensures report == Reports(old(View()), ts)
      ensures View() == Ticked(old(View()), ts)
    {
      if !initialized {
        lastReport := ts;
        initialized := true;
        return false;
      }
      if ts - lastReport >= REPORT_SECS {
        lastReport := ts;
        return true;
      }
      report := false;
    }
  }

  // The real instant and the capture timestamp of the first packet.
  datatype Anchor = Anchor(instant: Time, sec: int, usec: int)

  function Micros(sec: int, usec: int): int {
    sec * SECOND + usec
  }

  function VirtualNow(a: Anchor, sec: int, usec: int): Time {
    a.instant + Max(Micros(sec, usec) - Micros(a.sec, a.usec), 0)
  }

  class CaptureClock {
    var anchor: Option<Anchor>

    constructor ()
      ensures anchor == None
    {
      anchor := None;
    }

    // `wall` is what `Instant::now()` would return.
    method Now(offline: bool, sec: int, usec: int, wall: Time) returns (now: Time)
      modifies this
      ensures !offline ==> now == wall && anchor == old(anchor)
      ensures offline ==> anchor == Some(if old(anchor).Some? then old(anchor).value else Anchor(wall, sec, usec))
      ensures offline ==> now == VirtualNow(anchor.value, sec, usec)
    {
      if !offline {
        return wall;
      }
      if anchor == None {
        anchor := Some(Anchor(wall, sec, usec));
      }
      var a := anchor.value;
      var delta := (sec - a.sec) * SECOND + (usec - a.usec);
      now := if delta >= 0 then a.instant + delta else a.instant;
    }
  }

  // ---- The replay loop ------------------------------------------------------

  // One packet of the file; `eth` is absent when the frame does not decode.
  datatype PcapPacket = PcapPacket(sec: int, usec: int, eth: Option<Packet>)

  // A close: the checks and the score read the state before it, with the timeouts checked,
  // and the report is rendered from the state after it.
  datatype CloseRecord = CloseRecord(now: Time, before: Capture, after: Capture)

  datatype Loop = Loop(
    capture: Capture, report: ReportClock, anchor: Option<Anchor>, lastNow: Time, closes: seq<CloseRecord>)

  function Start(wall: Time): Loop {
    Loop(NewCapture, ReportClock(0, false), None, wall, [])
  }

  ghost function CloseAt(l: Loop, now: Time): Loop {
    var after := Closed(l.capture, now);
    l.(capture := after, closes := l.closes + [CloseRecord(now, l.capture, after)])
  }

  ghost function Step(l: Loop, p: PcapPacket, wall: Time): Loop
    requires WellFormed(l.capture) && (p.eth.Some? ==> ValidFrame(p.eth.value.frame))
  {
    var anchor := if l.anchor.Some? then l.anchor.value else Anchor(wall, p.sec, p.usec);
    var now := VirtualNow(anchor, p.sec, p.usec);
    var timed := l.(anchor := Some(anchor), lastNow := now);
    if p.eth == None then timed
    else
      var processed := timed.(capture := Processed(l.capture, p.eth.value, now), report := Ticked(l.report, p.sec));
      if Reports(l.report, p.sec) then CloseAt(processed, now) else processed
  }

  // One step in parts: the handlers, then the close if the report is due.
  lemma StepInParts(l: Loop, p: PcapPacket, wall: Time)
    requires WellFormed(l.capture) && (p.eth.Some? ==> ValidFrame(p.eth.value.frame))
    ensures var next := Step(l, p, wall);
            if p.eth == None then next.capture == l.capture && next.closes == l.closes
            else
              var processed := Processed(l.capture, p.eth.value, next.lastNow);
              if Reports(l.report, p.sec)
              then next.capture == Closed(processed, next.lastNow)
                   && next.closes == l.closes + [CloseRecord(next.lastNow, processed, next.capture)]
              else next.capture == processed && next.closes == l.closes
  {
    hide Processed, Closed, WellFormed, VirtualNow;
  }

  lemma ClosedIsWellFormed(c: Capture, now: Time)
    requires WellFormed(c)
    ensures WellFormed(Closed(c, now))
  {
    hide Score;
  }

  lemma StepIsWellFormed(l: Loop, p: PcapPacket, wall: Time)
    requires WellFormed(l.capture) && (p.eth.Some? ==> ValidFrame(p.eth.value.frame))
    ensures WellFormed(Step(l, p, wall).capture)
  {
    hide Processed, Closed, WellFormed;
    if p.eth.Some? {
      var anchor := if l.anchor.Some? then l.anchor.value else Anchor(wall, p.sec, p.usec);
      var now := VirtualNow(anchor, p.sec, p.usec);
      PacketTouches(l.capture, p.eth.value, now);
      ClosedIsWellFormed(Processed(l.capture, p.eth.value, now), now);
    }
  }

  ghost predicate ValidFile(file: seq<PcapPacket>) {
    forall i :: 0 <= i < |file| && file[i].eth.Some? ==> ValidFrame(file[i].eth.value.frame)
  }

  ghost function Run(wall: Time, file: seq<PcapPacket>): (l: Loop)
    requires ValidFile(file)
    ensures WellFormed(l.capture)
  {
    if file == [] then Start(wall)
    else
      var l := Run(wall, Front(file));
      StepIsWellFormed(l, Last(file), wall);
      Step(l, Last(file), wall)
  }

  // The whole replay: every packet, then the close at end of file.
  ghost function Replayed(wall: Time, file: seq<PcapPacket>): Loop
    requires ValidFile(file)
  {
    var l := Run(wall, file);
    CloseAt(l, l.lastNow)
  }

  // ---- Timestamps of a capture ----------------------------------------------

  // Timestamps never go backwards.
  ghost predicate Ordered(file: seq<PcapPacket>) {
    && (forall i :: 0 <= i < |file| ==> 0 <= file[i].usec < SECOND)
    && (forall i, j :: 0 <= i <= j < |file| ==> Micros(file[i].sec, file[i].usec) <= Micros(file[j].sec, file[j].usec))
  }

  // Whole seconds of the last frame that decoded.
  ghost function LastDecoded(file: seq<PcapPacket>): Option<int> {
    if file == [] then None
    else if Last(file).eth.Some? then Some(Last(file).sec)
    else LastDecoded(Front(file))
  }

  // A packet follows the last decoded one by at most five whole seconds.
  ghost predicate FollowsClosely(file: seq<PcapPacket>)
    requires file != []
  {
    LastDecoded(Front(file)).Some? ==> Last(file).sec - LastDecoded(Front(file)).value <= 5
  }

  ghost predicate Dense(file: seq<PcapPacket>) {
    file == [] || (Dense(Front(file)) && (Last(file).eth.Some? ==> FollowsClosely(file)))
  }

  // ---- Streams across closes ------------------------------------------------

  // The report of this close shows the stream dead, silent since t.
  ghost predicate ShownDead(r: CloseRecord, k: Key, t: Time) {
    k in r.after.streams && Heard(r.after.streams[k]) == Some(t) && IsDead(r.after.streams[k].arrive, r.now)
  }

  // The close removes a stream last heard at t.
  ghost predicate Prunes(r: CloseRecord, k: Key, t: Time) {
    k in r.before.streams && Heard(r.before.streams[k]) == Some(t) && k !in r.after.streams
  }

  // A stream heard at t has been carried, unheard, by every close since t.
  ghost predicate CarriedSince(closes: seq<CloseRecord>, k: Key, t: Time) {
    forall j :: 0 <= j < |closes| && closes[j].now > t ==>
      k in closes[j].after.streams && Heard(closes[j].after.streams[k]) == Some(t)
  }

  ghost predicate AllCarried(streams: map<Key, Stream>, closes: seq<CloseRecord>) {
    forall k :: k in streams && Heard(streams[k]).Some? ==> CarriedSince(closes, k, Heard(streams[k]).value)
  }

  ghost predicate ClosesBy(closes: seq<CloseRecord>, now: Time) {
    forall j :: 0 <= j < |closes| ==> closes[j].now <= now
  }

  // What is pruned at a close was carried by all the closes of its silence before.
  ghost predicate PrunedWereCarried(closes: seq<CloseRecord>) {
    forall i, k, t :: 0 <= i < |closes| && Prunes(closes[i], k, t) ==> CarriedSince(closes[..i], k, t)
  }

  lemma CloseOfStreams(c: Capture, now: Time)
    ensures Closed(c, now).streams == LiveStreams(c.streams, now)
  {
    hide Score;
  }

  lemma TouchedStayCarried(before: map<Key, Stream>, after: map<Key, Stream>, closes: seq<CloseRecord>, now: Time)
    requires Touches(before, after, now) && AllCarried(before, closes) && ClosesBy(closes, now)
    ensures AllCarried(after, closes)
  {
    forall k | k in after && Heard(after[k]).Some? ensures CarriedSince(closes, k, Heard(after[k]).value) {
      if Heard(after[k]) != Some(now) {
        assert k in before && Heard(after[k]) == Heard(before[k]);
      }
    }
  }

  lemma CloseKeepsCarried(l: Loop, now: Time)
    requires AllCarried(l.capture.streams, l.closes) && ClosesBy(l.closes, now) && PrunedWereCarried(l.closes)
    ensures var r := CloseAt(l, now);
            AllCarried(r.capture.streams, r.closes) && ClosesBy(r.closes, now) && PrunedWereCarried(r.closes)
  {
    hide Closed;
    var r := CloseAt(l, now);
    CloseOfStreams(l.capture, now);
    forall k | k in r.capture.streams && Heard(r.capture.streams[k]).Some?
      ensures CarriedSince(r.closes, k, Heard(r.capture.streams[k]).value)
    {
      assert Heard(r.capture.streams[k]) == Heard(l.capture.streams[k]);
    }
    forall i, k, t | 0 <= i < |r.closes| && Prunes(r.closes[i], k, t) ensures CarriedSince(r.closes[..i], k, t) {
      if i < |l.closes| {
        assert r.closes[..i] == l.closes[..i];
      } else {
        assert r.closes[..i] == l.closes;
      }
    }
  }

  // ---- Runs over an ordered file --------------------------------------------

  ghost predicate Anchored(l: Loop, wall: Time, file: seq<PcapPacket>) {
    && (file == [] ==> l == Start(wall))
    && (file != [] ==>
          && l.anchor == Some(Anchor(wall, file[0].sec, file[0].usec))
          && l.lastNow == VirtualNow(l.anchor.value, Last(file).sec, Last(file).usec))
  }

  lemma FrontOfOrdered(file: seq<PcapPacket>)
    requires file != [] && ValidFile(file) && Ordered(file)
    ensures ValidFile(Front(file)) && Ordered(Front(file))
    ensures |file| > 1 ==>
              Micros(Last(Front(file)).sec, Last(Front(file)).usec) <= Micros(Last(file).sec, Last(file).usec)
    ensures Micros(file[0].sec, file[0].usec) <= Micros(Last(file).sec, Last(file).usec)
  {}

  lemma {:induction false} RunIsAnchored(wall: Time, file: seq<PcapPacket>)
    requires ValidFile(file) && Ordered(file)
    ensures Anchored(Run(wall, file), wall, file)
    ensures |file| > 1 ==> Run(wall, Front(file)).lastNow <= Run(wall, file).lastNow
  {
    hide Processed, Closed, WellFormed, ValidFrame;
    if file != [] {
      FrontOfOrdered(file);
      RunIsAnchored(wall, Front(file));
    }
  }

  // Over any ordered file, a stream is carried unheard by every close of its silence
  // until one prunes it.
  lemma {:induction false} RunCarries(wall: Time, file: seq<PcapPacket>)
    requires ValidFile(file) && Ordered(file)
    ensures var l := Run(wall, file);
            AllCarried(l.capture.streams, l.closes) && ClosesBy(l.closes, l.lastNow) && PrunedWereCarried(l.closes)
  {
    hide Processed, Closed, WellFormed, ValidFrame, AllCarried, PrunedWereCarried;
    if file == [] {
      NothingCarried();
    } else {
      FrontOfOrdered(file);
      RunCarries(wall, Front(file));
      RunIsAnchored(wall, file);
      var before := Run(wall, Front(file));
      StepCarries(before, Last(file), wall);
    }
  }

  lemma NothingCarried()
    ensures AllCarried(map[], []) && PrunedWereCarried([])
  {}

  lemma StepCarries(l: Loop, p: PcapPacket, wall: Time)
    requires WellFormed(l.capture) && (p.eth.Some? ==> ValidFrame(p.eth.value.frame))
    requires AllCarried(l.capture.streams, l.closes) && ClosesBy(l.closes, l.lastNow) && PrunedWereCarried(l.closes)
    requires l.closes != [] ==> l.lastNow <= Step(l, p, wall).lastNow
    ensures var r := Step(l, p, wall);
            AllCarried(r.capture.streams, r.closes) && ClosesBy(r.closes, r.lastNow) && PrunedWereCarried(r.closes)
  {
    hide Processed, Closed, WellFormed, ValidFrame, AllCarried, PrunedWereCarried;
    if p.eth.Some? {
      var anchor := if l.anchor.Some? then l.anchor.value else Anchor(wall, p.sec, p.usec);
      var now := VirtualNow(anchor, p.sec, p.usec);
      var processed := l.(anchor := Some(anchor), lastNow := now,
                          capture := Processed(l.capture, p.eth.value, now), report := Ticked(l.report, p.sec));
      PacketTouches(l.capture, p.eth.value, now);
      TouchedStayCarried(l.capture.streams, processed.capture.streams, l.closes, now);
      CloseKeepsCarried(processed, now);
    }
  }

  lemma ReplayCarries(wall: Time, file: seq<PcapPacket>)
    requires ValidFile(file) && Ordered(file)
    ensures PrunedWereCarried(Replayed(wall, file).closes)
  {
    hide Closed, AllCarried, PrunedWereCarried, Run;
    RunCarries(wall, file);
    var l := Run(wall, file);
    CloseKeepsCarried(l, l.lastNow);
  }

  // The time of a replay is that of the timestamps since the first packet of the file, to
  // the microsecond, and never before its start.
  lemma {:induction false} NowOfReplay(wall: Time, file: seq<PcapPacket>)
    requires ValidFile(file) && file != []
    ensures var elapsed := (Last(file).sec - file[0].sec) * 1_000_000 + Last(file).usec - file[0].usec;
            Run(wall, file).lastNow == if elapsed >= 0 then wall + elapsed else wall
    ensures Run(wall, file).anchor == Some(Anchor(wall, file[0].sec, file[0].usec))
  {
    hide Processed, Closed, WellFormed, ValidFrame;
    if |file| > 1 {
      NowOfReplay(wall, Front(file));
    } else {
      assert Front(file) == [];
    }
  }

  // A close prunes exactly the streams heard 20 seconds ago or earlier.
  lemma StreamPrunedExactly(c: Capture, now: Time, k: Key)
    requires k in c.streams
    ensures k !in Closed(c, now).streams <==>
              Heard(c.streams[k]).Some? && now >= Heard(c.streams[k]).value + 20 * SECOND
  {
    hide Closed;
    CloseOfStreams(c, now);
  }

  // For every ordered replay: a pruned stream was shown dead, silent since the same
  // packet, exactly when some earlier close fell more than 10 seconds after it.
  lemma PrunedWasShownDeadExactly(wall: Time, file: seq<PcapPacket>, i: nat, k: Key, t: Time)
    requires ValidFile(file) && Ordered(file)
    requires i < |Replayed(wall, file).closes| && Prunes(Replayed(wall, file).closes[i], k, t)
    ensures var closes := Replayed(wall, file).closes;
            (exists j :: 0 <= j < i && ShownDead(closes[j], k, t)) <==>
            (exists j :: 0 <= j < i && closes[j].now > t + 10 * SECOND)
  {
    hide Replayed;
    ReplayCarries(wall, file);
    var closes := Replayed(wall, file).closes;
    assert CarriedSince(closes[..i], k, t);
    forall j | 0 <= j < i ensures ShownDead(closes[j], k, t) <==> closes[j].now > t + 10 * SECOND {
      assert closes[..i][j] == closes[j];
    }
  }

  // ---- Dense files ----------------------------------------------------------

  // The packet that opened the current window: the first decoded one, or the one that
  // triggered the last close.
  ghost function Clocked(file: seq<PcapPacket>): ReportClock {
    if file == [] then ReportClock(0, false)
    else if Last(file).eth == None then Clocked(Front(file))
    else Ticked(Clocked(Front(file)), Last(file).sec)
  }

  ghost predicate Opens(file: seq<PcapPacket>)
    requires file != []
  {
    Last(file).eth.Some? &&
    (!Clocked(Front(file)).initialized || Reports(Clocked(Front(file)), Last(file).sec))
  }

  ghost function Opener(file: seq<PcapPacket>): Option<PcapPacket> {
    if file == [] then None
    else if Opens(file) then Some(Last(file))
    else Opener(Front(file))
  }

  // In a dense file the last decoded packet lies within four whole seconds of the
  // packet that opened the window.
  lemma {:induction false} WindowIsShort(file: seq<PcapPacket>)
    requires Ordered(file) && Dense(file)
    ensures Opener(file).Some? <==> Clocked(file).initialized
    ensures LastDecoded(file).Some? <==> Clocked(file).initialized
    ensures Opener(file).Some? ==>
              var q := Opener(file).value;
              && 0 <= q.usec < SECOND && q.sec == Clocked(file).lastReport
              && Micros(file[0].sec, file[0].usec) <= Micros(q.sec, q.usec) <= Micros(Last(file).sec, Last(file).usec)
              && q.sec <= LastDecoded(file).value <= q.sec + 4
  {
    if file != [] {
      assert Ordered(Front(file));
      WindowIsShort(Front(file));
    }
  }

  const TEN_SECONDS: nat := 10 * SECOND

  // Consecutive closes are less than ten seconds of capture time apart.
  ghost predicate ClosesAreNear(closes: seq<CloseRecord>) {
    forall i :: 0 < i < |closes| ==> closes[i].now < closes[i - 1].now + TEN_SECONDS
  }

  // At the first close nothing has been silent for ten seconds.
  ghost predicate FirstCloseIsNear(closes: seq<CloseRecord>) {
    closes != [] ==> HeardAfter(closes[0].before.streams, closes[0].now)
  }

  ghost predicate HeardAfter(streams: map<Key, Stream>, now: Time) {
    forall k :: k in streams && Heard(streams[k]).Some? ==> now < Heard(streams[k]).value + TEN_SECONDS
  }

  ghost predicate HeardSince(streams: map<Key, Stream>, start: Time) {
    forall k :: k in streams && Heard(streams[k]).Some? ==> Heard(streams[k]).value >= start
  }

  ghost function OpenedAt(l: Loop, file: seq<PcapPacket>): Time
    requires Opener(file).Some? && l.anchor.Some?
  {
    VirtualNow(l.anchor.value, Opener(file).value.sec, Opener(file).value.usec)
  }

  ghost predicate Near(l: Loop, file: seq<PcapPacket>) {
    && l.report == Clocked(file)
    && ClosesAreNear(l.closes) && FirstCloseIsNear(l.closes)
    && (Opener(file) == None ==> l.closes == [] && l.capture.streams == map[])
    && (Opener(file).Some? ==>
          && l.anchor.Some?
          && (l.closes != [] ==> Last(l.closes).now == OpenedAt(l, file))
          && (l.closes == [] ==> HeardSince(l.capture.streams, OpenedAt(l, file))))
  }

  // Less than ten seconds from the packet that opened the window to a packet that
  // follows the last decoded one closely.
  lemma WindowSpan(wall: Time, file: seq<PcapPacket>, q: PcapPacket)
    requires file != [] && Ordered(file) && Dense(Front(file)) && FollowsClosely(file)
    requires Opener(Front(file)) == Some(q)
    ensures var a := Anchor(wall, file[0].sec, file[0].usec);
            && VirtualNow(a, q.sec, q.usec) <= VirtualNow(a, Last(file).sec, Last(file).usec)
            && VirtualNow(a, Last(file).sec, Last(file).usec) < VirtualNow(a, q.sec, q.usec) + TEN_SECONDS
  {
    WindowIsShort(Front(file));
    assert Front(file) != [] && Front(file)[0] == file[0];
    FrontOfOrderedTimes(file);
  }

  lemma FrontOfOrderedTimes(file: seq<PcapPacket>)
    requires |file| > 1 && Ordered(file)
    ensures Micros(Last(Front(file)).sec, Last(Front(file)).usec) <= Micros(Last(file).sec, Last(file).usec)
    ensures 0 <= Last(file).usec < SECOND
  {}

  lemma TouchedSince(before: map<Key, Stream>, after: map<Key, Stream>, start: Time, now: Time)
    requires Touches(before, after, now) && HeardSince(before, start) && start <= now
    ensures HeardSince(after, start)
  {}

  lemma CloseIsNear(l: Loop, start: Time, now: Time)
    requires ClosesAreNear(l.closes) && FirstCloseIsNear(l.closes) && start <= now < start + TEN_SECONDS
    requires l.closes != [] ==> Last(l.closes).now == start
    requires l.closes == [] ==> HeardSince(l.capture.streams, start)
    ensures var r := CloseAt(l, now);
            ClosesAreNear(r.closes) && FirstCloseIsNear(r.closes) && r.closes != [] && Last(r.closes).now == now
  {
    hide Closed;
    if l.closes == [] {
      assert HeardAfter(l.capture.streams, now);
    }
  }

  lemma {:induction false} DenseRunIsNear(wall: Time, file: seq<PcapPacket>)
    requires ValidFile(file) && Ordered(file) && Dense(file)
    ensures Near(Run(wall, file), file)
  {
    hide Processed, Closed, WellFormed, ValidFrame, ClosesAreNear, FirstCloseIsNear, HeardSince;
    if file == [] {
      EmptyIsNear();
    } else {
      FrontOfOrdered(file);
      DenseRunIsNear(wall, Front(file));
      RunIsAnchored(wall, Front(file));
      RunIsAnchored(wall, file);
      if Last(file).eth.Some? {
        DenseStepIsNear(wall, file);
      }
    }
  }

  lemma EmptyIsNear()
    ensures ClosesAreNear([]) && FirstCloseIsNear([])
  {}

  lemma NothingHeard(streams: map<Key, Stream>, start: Time)
    requires streams == map[]
    ensures HeardSince(streams, start)
  {}

  lemma DenseStepIsNear(wall: Time, file: seq<PcapPacket>)
    requires file != [] && ValidFile(file) && Ordered(file) && Dense(file) && Last(file).eth.Some?
    requires Near(Run(wall, Front(file)), Front(file))
    requires Anchored(Run(wall, Front(file)), wall, Front(file)) && Anchored(Run(wall, file), wall, file)
    ensures Near(Run(wall, file), file)
  {
    hide Processed, Closed, WellFormed, ValidFrame, ClosesAreNear, FirstCloseIsNear, HeardSince, Touches, VirtualNow;
    var l, p := Run(wall, Front(file)), Last(file);
    var anchor := Anchor(wall, file[0].sec, file[0].usec);
    var now := VirtualNow(anchor, p.sec, p.usec);
    var processed := l.(anchor := Some(anchor), lastNow := now,
                        capture := Processed(l.capture, p.eth.value, now), report := Ticked(l.report, p.sec));
    assert Run(wall, file) == if Reports(l.report, p.sec) then CloseAt(processed, now) else processed;
    PacketTouches(l.capture, p.eth.value, now);
    WindowIsShort(Front(file));
    if Opener(Front(file)).Some? {
      var q := Opener(Front(file)).value;
      WindowSpan(wall, file, q);
      var start := VirtualNow(anchor, q.sec, q.usec);
      assert l.closes == [] ==> HeardSince(processed.capture.streams, start) by {
        if l.closes == [] {
          TouchedSince(l.capture.streams, processed.capture.streams, start, now);
        }
      }
      if Reports(l.report, p.sec) {
        CloseIsNear(processed, start, now);
      }
    } else {
      NothingHeard(l.capture.streams, now);
      TouchedSince(l.capture.streams, processed.capture.streams, now, now);
    }
  }

  // The file ends close to its last decoded packet.
  ghost predicate EndsClosely(file: seq<PcapPacket>) {
    LastDecoded(file).Some? ==> Last(file).sec - LastDecoded(file).value <= 5
  }

  // In a dense replay consecutive closes are less than ten seconds apart, so every
  // stream that is pruned was present and shown dead at the close just before.
  lemma DenseReplayShowsDeadFirst(wall: Time, file: seq<PcapPacket>)
    requires ValidFile(file) && Ordered(file) && Dense(file) && EndsClosely(file)
    ensures var closes := Replayed(wall, file).closes;
            && ClosesAreNear(closes)
            && forall i, k, t :: 0 <= i < |closes| && Prunes(closes[i], k, t) ==>
                 i > 0 && ShownDead(closes[i - 1], k, t)
  {
    hide Run, Closed, ShownDead, Prunes;
    DenseReplayIsNear(wall, file);
    ReplayCarries(wall, file);
    var closes := Replayed(wall, file).closes;
    forall i, k, t | 0 <= i < |closes| && Prunes(closes[i], k, t) ensures i > 0 && ShownDead(closes[i - 1], k, t) {
      ReplayRecordsCloses(wall, file);
      PrunedAtNearClose(closes, i, k, t);
    }
  }

  // Every record holds the state its close started from and left.
  ghost predicate RecordsCloses(closes: seq<CloseRecord>) {
    forall i :: 0 <= i < |closes| ==> closes[i].after == Closed(closes[i].before, closes[i].now)
  }

  lemma {:induction false} RunRecordsCloses(wall: Time, file: seq<PcapPacket>)
    requires ValidFile(file)
    ensures RecordsCloses(Run(wall, file).closes)
  {
    hide Processed, Closed, WellFormed, ValidFrame;
    if file != [] {
      RunRecordsCloses(wall, Front(file));
    }
  }

  lemma ReplayRecordsCloses(wall: Time, file: seq<PcapPacket>)
    requires ValidFile(file)
    ensures RecordsCloses(Replayed(wall, file).closes)
  {
    hide Closed, Run;
    RunRecordsCloses(wall, file);
  }

  lemma PrunedAtNearClose(closes: seq<CloseRecord>, i: nat, k: Key, t: Time)
    requires RecordsCloses(closes) && ClosesAreNear(closes) && FirstCloseIsNear(closes) && PrunedWereCarried(closes)
    requires i < |closes| && Prunes(closes[i], k, t)
    ensures i > 0 && ShownDead(closes[i - 1], k, t)
  {
    hide Closed;
    StreamPrunedExactly(closes[i].before, closes[i].now, k);
    assert closes[i].now >= t + 20 * SECOND;
    if i > 0 {
      assert closes[i - 1].now > t + 10 * SECOND;
      assert CarriedSince(closes[..i], k, t);
      assert closes[..i][i - 1] == closes[i - 1];
    }
  }

  lemma DenseReplayIsNear(wall: Time, file: seq<PcapPacket>)
    requires ValidFile(file) && Ordered(file) && Dense(file) && EndsClosely(file)
    ensures ClosesAreNear(Replayed(wall, file).closes) && FirstCloseIsNear(Replayed(wall, file).closes)
  {
    hide Closed, Run, HeardSince, ClosesAreNear, FirstCloseIsNear, VirtualNow;
    DenseRunIsNear(wall, file);
    RunIsAnchored(wall, file);
    var l := Run(wall, file);
    WindowIsShort(file);
    if Opener(file).Some? {
      EndSpan(wall, file, Opener(file).value);
      CloseIsNear(l, OpenedAt(l, file), l.lastNow);
    } else {
      NothingHeard(l.capture.streams, l.lastNow);
      LoneClose(l);
    }
  }

  lemma LoneClose(l: Loop)
    requires l.closes == [] && l.capture.streams == map[]
    ensures var r := CloseAt(l, l.lastNow); ClosesAreNear(r.closes) && FirstCloseIsNear(r.closes)
  {
    hide Closed;
  }

  lemma EndSpan(wall: Time, file: seq<PcapPacket>, q: PcapPacket)
    requires file != [] && Ordered(file) && Dense(file) && EndsClosely(file) && Opener(file) == Some(q)
    ensures var a := Anchor(wall, file[0].sec, file[0].usec);
            && VirtualNow(a, q.sec, q.usec) <= VirtualNow(a, Last(file).sec, Last(file).usec)
            && VirtualNow(a, Last(file).sec, Last(file).usec) < VirtualNow(a, q.sec, q.usec) + TEN_SECONDS
  {
    WindowIsShort(file);
    assert 0 <= Last(file).usec < SECOND;
  }

  function GapFile(media: Frame, gap: nat): seq<PcapPacket> {
    [PcapPacket(0, 0, Some(Packet(media, 100, true))), PcapPacket(gap, 0, Some(Packet(Unmonitored, 60, false)))]
  }

  lemma FirstMediaFrame(wall: Time, media: Frame)
    requires media.MediaFrame? && ValidFrame(media) && media.rtp.Some?
    ensures var first := [PcapPacket(0, 0, Some(Packet(media, 100, true)))];
            && ValidFile(first)
            && var l := Run(wall, first);
               && l.capture.streams == map[media.key := MediaSeen(media.created, media, wall)]
               && l.report == ReportClock(0, true) && l.anchor == Some(Anchor(wall, 0, 0)) && l.closes == []
  {
    hide MediaSeen, Closed, Handled;
    var p := PcapPacket(0, 0, Some(Packet(media, 100, true)));
    assert Front([p]) == [];
    assert Run(wall, [p]) == Step(Start(wall), p, wall);
    var c := NewCapture.(traffic := NewCapture.traffic.(dispatched := 1));
    assert StreamOr(c, media.key, media.created) == media.created;
    MediaEntry(c, media, wall);
  }

  lemma MediaEntry(c: Capture, f: Frame, now: Time)
    requires WellFormed(c) && ValidFrame(f) && f.MediaFrame?
    ensures Handled(c, f, now).streams == c.streams[f.key := MediaSeen(StreamOr(c, f.key, f.created), f, now)]
  {
    hide MediaSeen;
  }

  // Without density the promise fails: a gap of twenty seconds or more lets the first
  // close prune a stream that no report has shown dead.
  lemma SparseReplayPrunesUnseen(wall: Time, media: Frame, gap: nat)
    requires media.MediaFrame? && ValidFrame(media) && media.rtp.Some? && gap >= 20
    ensures var file := GapFile(media, gap);
            && ValidFile(file) && Ordered(file)
            && Replayed(wall, file).closes != []
            && Prunes(Replayed(wall, file).closes[0], media.key, wall)
  {
    hide Closed, MediaSeen, Handled, StreamLives;
    var file := GapFile(media, gap);
    assert Front(file) == [PcapPacket(0, 0, Some(Packet(media, 100, true)))];
    FirstMediaFrame(wall, media);
    MediaTouches(media.created, media, wall);
    var one, now := Run(wall, Front(file)), wall + gap * SECOND;
    assert VirtualNow(Anchor(wall, 0, 0), gap, 0) == now;
    var before := Processed(one.capture, Packet(Unmonitored, 60, false), now);
    StreamsUntouched(one.capture.(traffic := one.capture.traffic.(dispatched := one.capture.traffic.dispatched + 1)),
                     Unmonitored, now);
    CloseOfStreams(before, now);
    assert Replayed(wall, file).closes[0] == CloseRecord(now, before, Closed(before, now));
    LongSilenceIsPruned(before.streams[media.key], wall, now);
  }

  lemma LongSilenceIsPruned(s: Stream, t: Time, now: Time)
    requires Heard(s) == Some(t) && now >= t + 20 * SECOND
    ensures !StreamLives(s, now)
  {}

  // ---- The bound is sharp ---------------------------------------------------

  const Quiet := Packet(Unmonitored, 60, false)

  lemma QuietStep(l: Loop, sec: nat, wall: Time)
    requires WellFormed(l.capture) && l.anchor == Some(Anchor(wall, 0, 0))
    ensures var now := wall + sec * SECOND;
            var next := Step(l, PcapPacket(sec, 0, Some(Quiet)), wall);
            && next.anchor == l.anchor && next.lastNow == now && next.report == Ticked(l.report, sec)
            && WellFormed(next.capture)
            && if Reports(l.report, sec)
               then && |next.closes| == |l.closes| + 1 && Front(next.closes) == l.closes
                    && Last(next.closes).now == now && Last(next.closes).after == next.capture
                    && Last(next.closes).before.streams == l.capture.streams
                    && next.capture.streams == LiveStreams(l.capture.streams, now)
               else next.closes == l.closes && next.capture.streams == l.capture.streams
  {
    hide Handled, Closed, WellFormed, StreamLives;
    var now := wall + sec * SECOND;
    assert VirtualNow(Anchor(wall, 0, 0), sec, 0) == now;
    var counted := l.capture.(traffic := l.capture.traffic.(dispatched := l.capture.traffic.dispatched + 1));
    assert WellFormed(counted) by { SameStreamsWellFormed(l.capture, counted); }
    StreamsUntouched(counted, Unmonitored, now);
    CloseOfStreams(Processed(l.capture, Quiet, now), now);
    StepIsWellFormed(l, PcapPacket(sec, 0, Some(Quiet)), wall);
  }

  function SixSecondFile(media: Frame): seq<PcapPacket> {
    [PcapPacket(0, 0, Some(Packet(media, 100, true))), PcapPacket(4, 0, Some(Quiet)), PcapPacket(10, 0, Some(Quiet)),
     PcapPacket(14, 0, Some(Quiet)), PcapPacket(20, 0, Some(Quiet))]
  }

  lemma SixSecondRun(wall: Time, media: Frame)
    requires media.MediaFrame? && ValidFrame(media) && media.rtp.Some?
    ensures var file := SixSecondFile(media);
            && ValidFile(file)
            && var closes := Run(wall, file).closes;
               && |closes| == 2 && closes[0].now == wall + 10 * SECOND && closes[1].now == wall + 20 * SECOND
               && var s := MediaSeen(media.created, media, wall);
                  && closes[0].after.streams == LiveStreams(map[media.key := s], wall + 10 * SECOND)
                  && closes[1].before.streams == closes[0].after.streams
                  && closes[1].after.streams == LiveStreams(closes[1].before.streams, wall + 20 * SECOND)
  {
    hide Step, MediaSeen, LiveStreams, WellFormed;
    var file := SixSecondFile(media);
    FirstMediaFrame(wall, media);
    assert forall i :: 1 <= i <= 5 ==> file[..i] == if i == 5 then file else Front(file[..i + 1]);
    assert file[..1] == [PcapPacket(0, 0, Some(Packet(media, 100, true)))];
    assert ValidFrame(Unmonitored);
    assert ValidFile(file) && ValidFile(file[..2]) && ValidFile(file[..3]) && ValidFile(file[..4]);
    QuietStep(Run(wall, file[..1]), 4, wall);
    assert Run(wall, file[..2]) == Step(Run(wall, file[..1]), file[1], wall);
    QuietStep(Run(wall, file[..2]), 10, wall);
    assert Run(wall, file[..3]) == Step(Run(wall, file[..2]), file[2], wall);
    QuietStep(Run(wall, file[..3]), 14, wall);
    assert Run(wall, file[..4]) == Step(Run(wall, file[..3]), file[3], wall);
    QuietStep(Run(wall, file[..4]), 20, wall);
    assert Run(wall, file) == Step(Run(wall, file[..4]), file[4], wall);
  }

  // Five seconds is the most that density may allow: with decoded packets at most six
  // whole seconds apart a stream can be pruned that no report has shown dead.
  lemma SixSecondsAreTooMany(wall: Time, media: Frame)
    requires media.MediaFrame? && ValidFrame(media) && media.rtp.Some?
    ensures var file := SixSecondFile(media);
            && ValidFile(file) && Ordered(file)
            && (forall i :: 0 < i < |file| ==> file[i].eth.Some? && file[i].sec - file[i - 1].sec <= 6)
            && var closes := Replayed(wall, file).closes;
               |closes| >= 2 && Prunes(closes[1], media.key, wall) && !ShownDead(closes[0], media.key, wall)
  {
    hide Run, Closed, MediaSeen, StreamLives;
    SixSecondRun(wall, media);
    MediaTouches(media.created, media, wall);
    var s := MediaSeen(media.created, media, wall);
    ShortSilenceLives(s, wall, wall + 10 * SECOND);
    LongSilenceIsPruned(WindowReset(s), wall, wall + 20 * SECOND);
  }

  lemma ShortSilenceLives(s: Stream, t: Time, now: Time)
    requires Heard(s) == Some(t) && t <= now <= t + 10 * SECOND
    ensures StreamLives(s, now) && !IsDead(WindowReset(s).arrive, now)
  {}
}
