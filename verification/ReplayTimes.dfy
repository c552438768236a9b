// Whether a replay shows every stream dead before it prunes it, decided by the timestamps
// of the file alone.
module ReplayTimes {
  import opened Basics
  import opened Capture
  import opened FrameLaws
  import opened Frames
  import opened Replay
  import opened Scoring
  import opened Streams

  // ---- The closes of a file -------------------------------------------------

  function At(p: PcapPacket): int {
    Micros(p.sec, p.usec)
  }

  function End(file: seq<PcapPacket>): int {
    if file == [] then 0 else At(Last(file))
  }

  // The packets that find a report due.
  ghost function PacketCloses(file: seq<PcapPacket>): seq<int> {
    if file == [] then []
    else
      PacketCloses(Front(file)) +
      if Last(file).eth.Some? && Reports(Clocked(Front(file)), Last(file).sec) then [At(Last(file))] else []
  }

  // And the end of the file.
  ghost function CloseTimes(file: seq<PcapPacket>): seq<int> {
    PacketCloses(file) + [End(file)]
  }

  // However long a decoded packet lies back when a window closes, once it is twenty
  // seconds some earlier close found it more than ten seconds back.
  ghost predicate ShownInTime(file: seq<PcapPacket>) {
    forall p, j :: 0 <= p < |file| && file[p].eth.Some? && 0 <= j < |CloseTimes(file)| &&
                   CloseTimes(file)[j] >= At(file[p]) + 20 * SECOND ==>
      exists i :: 0 <= i < j && CloseTimes(file)[i] > At(file[p]) + 10 * SECOND
  }

  // The promise: every stream that is pruned was shown dead, silent since the same packet.
  ghost predicate ShowsDeadFirst(closes: seq<CloseRecord>) {
    forall i, k, t :: 0 <= i < |closes| && Prunes(closes[i], k, t) ==>
      exists j :: 0 <= j < i && ShownDead(closes[j], k, t)
  }

  ghost predicate SameTimes(f: seq<PcapPacket>, g: seq<PcapPacket>) {
    && |f| == |g|
    && forall i :: 0 <= i < |f| ==>
         f[i].sec == g[i].sec && f[i].usec == g[i].usec && (f[i].eth.Some? <==> g[i].eth.Some?)
  }

  lemma {:induction false} SameCloses(f: seq<PcapPacket>, g: seq<PcapPacket>)
    requires SameTimes(f, g)
    ensures Clocked(f) == Clocked(g) && PacketCloses(f) == PacketCloses(g) && End(f) == End(g)
  {
    if f != [] {
      SameCloses(Front(f), Front(g));
    }
  }

  // ---- From capture time to the instants of the replay ----------------------

  function Origin(wall: Time, file: seq<PcapPacket>): int {
    wall - if file == [] then 0 else At(file[0])
  }

  ghost predicate ClosesAt(closes: seq<CloseRecord>, origin: int, times: seq<int>) {
    |closes| == |times| && forall i :: 0 <= i < |closes| ==> closes[i].now == origin + times[i]
  }

  lemma NowOf(wall: Time, file: seq<PcapPacket>)
    requires ValidFile(file) && Ordered(file)
    ensures Run(wall, file).lastNow == Origin(wall, file) + End(file)
    ensures |file| > 1 ==> Origin(wall, Front(file)) == Origin(wall, file)
  {
    hide Run;
    RunIsAnchored(wall, file);
    if file != [] {
      FrontOfOrdered(file);
    }
  }

  lemma {:induction false} RunClosesAt(wall: Time, file: seq<PcapPacket>)
    requires ValidFile(file) && Ordered(file)
    ensures Run(wall, file).report == Clocked(file)
    ensures ClosesAt(Run(wall, file).closes, Origin(wall, file), PacketCloses(file))
  {
    hide WellFormed, ValidFrame, Processed, Closed, VirtualNow, Origin, At;
    if file != [] {
      FrontOfOrdered(file);
      RunClosesAt(wall, Front(file));
      NowOf(wall, file);
    }
  }

  lemma ReplayClosesAt(wall: Time, file: seq<PcapPacket>)
    requires ValidFile(file) && Ordered(file)
    ensures ClosesAt(Replayed(wall, file).closes, Origin(wall, file), CloseTimes(file))
  {
    hide Run, Closed, Origin, PacketCloses, End;
    RunClosesAt(wall, file);
    NowOf(wall, file);
  }

  // ---- Streams are heard when a decoded packet is read ----------------------

  ghost predicate ReadIn(wall: Time, file: seq<PcapPacket>, t: Time) {
    exists p :: 0 <= p < |file| && file[p].eth.Some? && t == Origin(wall, file) + At(file[p])
  }

  ghost predicate AllReadIn(wall: Time, file: seq<PcapPacket>, streams: map<Key, Stream>) {
    forall k :: k in streams && Heard(streams[k]).Some? ==> ReadIn(wall, file, Heard(streams[k]).value)
  }

  ghost predicate ClosesReadIn(wall: Time, file: seq<PcapPacket>, closes: seq<CloseRecord>) {
    forall i :: 0 <= i < |closes| ==> AllReadIn(wall, file, closes[i].before.streams)
  }

  lemma StillReadIn(wall: Time, file: seq<PcapPacket>, streams: map<Key, Stream>)
    requires file != [] && AllReadIn(wall, Front(file), streams)
    ensures AllReadIn(wall, file, streams)
  {
    hide At;
    forall k | k in streams && Heard(streams[k]).Some? ensures ReadIn(wall, file, Heard(streams[k]).value) {
      var p :| 0 <= p < |Front(file)| && Front(file)[p].eth.Some? &&
               Heard(streams[k]).value == Origin(wall, Front(file)) + At(Front(file)[p]);
      assert file[p] == Front(file)[p];
    }
  }

  lemma TouchedReadIn(wall: Time, file: seq<PcapPacket>, before: map<Key, Stream>, after: map<Key, Stream>, now: Time)
    requires file != [] && Last(file).eth.Some? && now == Origin(wall, file) + At(Last(file))
    requires AllReadIn(wall, file, before) && Touches(before, after, now)
    ensures AllReadIn(wall, file, after)
  {
    hide At, Origin;
    assert file[|file| - 1].eth.Some?;
    assert ReadIn(wall, file, now);
  }

  lemma LiveReadIn(wall: Time, file: seq<PcapPacket>, c: Capture, now: Time)
    requires AllReadIn(wall, file, c.streams)
    ensures AllReadIn(wall, file, Closed(c, now).streams)
  {
    hide ReadIn, Closed, StreamLives;
    CloseOfStreams(c, now);
  }

  lemma {:induction false} RunReadsIn(wall: Time, file: seq<PcapPacket>)
    requires ValidFile(file) && Ordered(file)
    ensures AllReadIn(wall, file, Run(wall, file).capture.streams)
    ensures ClosesReadIn(wall, file, Run(wall, file).closes)
  {
    hide Step, WellFormed, ValidFrame, Processed, Closed, AllReadIn, At, Origin;
    if file == [] {
      NothingReadIn(wall);
    } else {
      FrontOfOrdered(file);
      RunReadsIn(wall, Front(file));
      var l, p := Run(wall, Front(file)), Last(file);
      StillReadIn(wall, file, l.capture.streams);
      forall i | 0 <= i < |l.closes| ensures AllReadIn(wall, file, l.closes[i].before.streams) {
        StillReadIn(wall, file, l.closes[i].before.streams);
      }
      StepInParts(l, p, wall);
      if p.eth.Some? {
        var now := Run(wall, file).lastNow;
        NowOf(wall, file);
        PacketTouches(l.capture, p.eth.value, now);
        var processed := Processed(l.capture, p.eth.value, now);
        TouchedReadIn(wall, file, l.capture.streams, processed.streams, now);
        LiveReadIn(wall, file, processed, now);
      }
    }
  }

  lemma NothingReadIn(wall: Time)
    ensures AllReadIn(wall, [], map[]) && ClosesReadIn(wall, [], [])
  {}

  // ---- Enough ---------------------------------------------------------------

  lemma PrunedIsReadIn(wall: Time, file: seq<PcapPacket>, i: nat, k: Key, t: Time)
    requires ValidFile(file) && Ordered(file)
    requires i < |Replayed(wall, file).closes| && Prunes(Replayed(wall, file).closes[i], k, t)
    ensures ReadIn(wall, file, t) && Replayed(wall, file).closes[i].now >= t + 20 * SECOND
  {
    hide Run, Closed, ReadIn;
    RunReadsIn(wall, file);
    ReplayRecordsCloses(wall, file);
    var r := Replayed(wall, file).closes[i];
    assert AllReadIn(wall, file, r.before.streams);
    StreamPrunedExactly(r.before, r.now, k);
  }

  // On a file with such timestamps every replay keeps the promise, whatever the packets.
  lemma ShownInTimeSuffices(wall: Time, file: seq<PcapPacket>)
    requires ValidFile(file) && Ordered(file) && ShownInTime(file)
    ensures ShowsDeadFirst(Replayed(wall, file).closes)
  {
    hide Replayed, Prunes, ShownDead, CloseTimes, Origin, At, ReadIn, Ordered, ValidFile;
    var closes := Replayed(wall, file).closes;
    ReplayClosesAt(wall, file);
    forall i, k, t | 0 <= i < |closes| && Prunes(closes[i], k, t)
      ensures exists j :: 0 <= j < i && ShownDead(closes[j], k, t)
    {
      PrunedIsReadIn(wall, file, i, k, t);
      EarlierClose(wall, file, i, t);
      PrunedWasShownDeadExactly(wall, file, i, k, t);
    }
  }

  lemma EarlierClose(wall: Time, file: seq<PcapPacket>, i: nat, t: Time)
    requires ValidFile(file) && ShownInTime(file) && ReadIn(wall, file, t)
    requires ClosesAt(Replayed(wall, file).closes, Origin(wall, file), CloseTimes(file))
    requires i < |Replayed(wall, file).closes| && Replayed(wall, file).closes[i].now >= t + 20 * SECOND
    ensures exists j :: 0 <= j < i && Replayed(wall, file).closes[j].now > t + 10 * SECOND
  {
    hide Replayed, CloseTimes, Origin, At;
    var p :| 0 <= p < |file| && file[p].eth.Some? && t == Origin(wall, file) + At(file[p]);
    assert CloseTimes(file)[i] >= At(file[p]) + 20 * SECOND;
    var j :| 0 <= j < i && CloseTimes(file)[j] > At(file[p]) + 10 * SECOND;
    assert Replayed(wall, file).closes[j].now > t + 10 * SECOND;
  }

  // ---- Not less than enough -------------------------------------------------

  // One packet of one flow, on the timestamps of any file; everything else that decodes
  // is traffic no handler takes.
  const Flow: Key := Media("flow")

  const OnePacket: Packet := Packet(
    MediaFrame(Flow, NewStream(Aes67, 48_000.0, true, 0, 5004), true, 0, None, 0, Some(RtpPacket(0, 0, 0))), 100, true)

  function Lone(file: seq<PcapPacket>, p: nat): (f: seq<PcapPacket>)
    ensures |f| == |file|
  {
    seq(|file|, (i: nat) requires i < |file| =>
      PcapPacket(file[i].sec, file[i].usec,
                 if file[i].eth == None then None else Some(if i == p then OnePacket else Quiet)))
  }

  // Nothing but that packet, at index p.
  ghost predicate OnlyPacketAt(file: seq<PcapPacket>, p: nat) {
    && (forall i :: 0 <= i < |file| && file[i].eth.Some? ==> file[i].eth.value == if i == p then OnePacket else Quiet)
    && (p < |file| ==> file[p].eth.Some?)
  }

  lemma OnePacketIsValid()
    ensures ValidFrame(OnePacket.frame) && ValidFrame(Quiet.frame)
  {}

  lemma LoneFile(file: seq<PcapPacket>, p: nat)
    requires Ordered(file) && p < |file| && file[p].eth.Some?
    ensures var f := Lone(file, p);
            SameTimes(f, file) && ValidFile(f) && Ordered(f) && OnlyPacketAt(f, p)
  {
    OnePacketIsValid();
    hide ValidFrame;
  }

  ghost predicate Early(closes: seq<CloseRecord>, n: nat, t: Time) {
    forall i :: 0 <= i < n <= |closes| ==> closes[i].now < t + 20 * SECOND
  }

  ghost predicate SilentAt(streams: map<Key, Stream>, t: Time) {
    Flow in streams && Heard(streams[Flow]) == Some(t)
  }

  // Until the first close twenty seconds after t the flow is there, silent since t.
  ghost predicate CarriesFlow(streams: map<Key, Stream>, closes: seq<CloseRecord>, t: Time) {
    && (Early(closes, |closes|, t) ==> SilentAt(streams, t))
    && (forall j :: 0 <= j < |closes| && closes[j].now > t && Early(closes, j, t) ==>
          SilentAt(closes[j].before.streams, t))
  }

  lemma QuietKeepsStreams(c: Capture, now: Time)
    requires WellFormed(c)
    ensures Processed(c, Quiet, now).streams == c.streams
  {
    hide Handled, WellFormed;
    OnePacketIsValid();
    var counted := c.(traffic := c.traffic.(dispatched := c.traffic.dispatched + 1));
    SameStreamsWellFormed(c, counted);
    StreamsUntouched(counted, Quiet.frame, now);
  }

  lemma FlowAppears(c: Capture, now: Time)
    requires WellFormed(c) && c.streams == map[]
    ensures SilentAt(Processed(c, OnePacket, now).streams, now)
  {
    hide Handled, MediaSeen, WellFormed;
    OnePacketIsValid();
    var counted := c.(traffic := c.traffic.(dispatched := c.traffic.dispatched + 1));
    SameStreamsWellFormed(c, counted);
    MediaEntry(counted, OnePacket.frame, now);
    MediaTouches(OnePacket.frame.created, OnePacket.frame, now);
  }

  lemma LiveFlow(c: Capture, now: Time, t: Time)
    requires SilentAt(c.streams, t)
    ensures now < t + 20 * SECOND ==> SilentAt(Closed(c, now).streams, t)
    ensures now >= t + 20 * SECOND ==> Flow !in Closed(c, now).streams
  {
    hide Closed;
    CloseOfStreams(c, now);
  }

  // One more close, if there is one.
  lemma CloseCarriesFlow(before: Capture, closes: seq<CloseRecord>, now: Time, t: Time)
    requires CarriesFlow(before.streams, closes, t)
    ensures CarriesFlow(Closed(before, now).streams, closes + [CloseRecord(now, before, Closed(before, now))], t)
  {
    hide Closed, SilentAt;
    var more := closes + [CloseRecord(now, before, Closed(before, now))];
    assert forall i :: 0 <= i < |closes| ==> more[i] == closes[i];
    forall j | 0 <= j <= |closes| && Early(more, j, t) ensures Early(closes, j, t) {
      assert forall i :: 0 <= i < j ==> closes[i].now == more[i].now;
    }
    if Early(more, |more|, t) {
      assert more[|closes|].now < t + 20 * SECOND;
      assert Early(more, |closes|, t);
      LiveFlow(before, now, t);
    }
  }

  lemma EmptyStaysEmpty(c: Capture, now: Time)
    requires c.streams == map[]
    ensures Closed(c, now).streams == map[]
  {
    hide Closed, StreamLives;
    CloseOfStreams(c, now);
  }

  // Before that packet there is no stream, and from then on the flow is carried.
  ghost predicate FlowFollows(wall: Time, file: seq<PcapPacket>, p: nat)
    requires ValidFile(file)
  {
    var l := Run(wall, file);
    if |file| <= p then l.capture.streams == map[]
    else
      var t := Origin(wall, file) + At(file[p]);
      t >= 0 && CarriesFlow(l.capture.streams, l.closes, t)
  }

  lemma {:induction false} FlowIsCarried(wall: Time, file: seq<PcapPacket>, p: nat)
    requires ValidFile(file) && Ordered(file) && OnlyPacketAt(file, p)
    ensures FlowFollows(wall, file, p)
  {
    hide Step, WellFormed, ValidFrame, Processed, Closed, CarriesFlow, At, Origin, SilentAt, Early;
    if file != [] {
      FrontOfOrdered(file);
      FlowIsCarried(wall, Front(file), p);
      StepCarriesFlow(wall, file, p);
    }
  }

  lemma StepCarriesFlow(wall: Time, file: seq<PcapPacket>, p: nat)
    requires file != [] && ValidFile(file) && Ordered(file) && OnlyPacketAt(file, p)
    requires OnlyPacketAt(Front(file), p) && FlowFollows(wall, Front(file), p)
    ensures FlowFollows(wall, file, p)
  {
    hide Step, WellFormed, ValidFrame, Processed, Closed, CarriesFlow, At, Origin, SilentAt, Early;
    var l, q := Run(wall, Front(file)), Last(file);
    StepInParts(l, q, wall);
    NowOf(wall, file);
    var now := Run(wall, file).lastNow;
    if q.eth.Some? {
      var processed := Processed(l.capture, q.eth.value, now);
      if |file| - 1 == p {
        FlowAppears(l.capture, now);
        RunCarries(wall, Front(file));
        RunIsAnchored(wall, file);
        FirstCarried(l.closes, processed.streams, now, l.lastNow);
        CloseCarriesFlow(processed, l.closes, now, now);
      } else {
        QuietKeepsStreams(l.capture, now);
        if |file| - 1 < p {
          EmptyStaysEmpty(processed, now);
        } else {
          CloseCarriesFlow(processed, l.closes, now, Origin(wall, file) + At(file[p]));
        }
      }
    }
  }

  lemma FirstCarried(closes: seq<CloseRecord>, streams: map<Key, Stream>, now: Time, last: Time)
    requires ClosesBy(closes, last) && (closes != [] ==> last <= now) && SilentAt(streams, now)
    ensures CarriesFlow(streams, closes, now)
  {}

  // If a file's timestamps fail the test at packet p, the file with that one packet on
  // them breaks the promise.
  lemma ShownInTimeIsNeeded(wall: Time, file: seq<PcapPacket>, p: nat, j: nat)
    requires Ordered(file) && p < |file| && file[p].eth.Some?
    requires j < |CloseTimes(file)| && CloseTimes(file)[j] >= At(file[p]) + 20 * SECOND
    requires forall i :: 0 <= i < j ==> CloseTimes(file)[i] <= At(file[p]) + 10 * SECOND
    ensures var f := Lone(file, p);
            && SameTimes(f, file) && ValidFile(f) && Ordered(f)
            && !ShowsDeadFirst(Replayed(wall, f).closes)
  {
    hide Run, Closed, CloseTimes, Origin, At, Ordered, CarriesFlow, SilentAt;
    var f := Lone(file, p);
    LoneFile(file, p);
    SameCloseTimes(f, file, p);
    ReplayClosesAt(wall, f);
    FlowIsCarried(wall, f, p);
    var l, closes, t := Run(wall, f), Replayed(wall, f).closes, Origin(wall, f) + At(f[p]);
    CloseCarriesFlow(l.capture, l.closes, l.lastNow, t);
    ReplayRecordsCloses(wall, f);
    PrunedUnseen(closes, j, t);
  }

  lemma SameCloseTimes(f: seq<PcapPacket>, g: seq<PcapPacket>, p: nat)
    requires SameTimes(f, g) && p < |f|
    ensures CloseTimes(f) == CloseTimes(g) && At(f[p]) == At(g[p])
  {
    SameCloses(f, g);
  }

  lemma PrunedUnseen(closes: seq<CloseRecord>, j: nat, t: Time)
    requires RecordsCloses(closes) && j < |closes| && closes[j].now >= t + 20 * SECOND
    requires forall i :: 0 <= i < j ==> closes[i].now <= t + 10 * SECOND
    requires exists streams :: CarriesFlow(streams, closes, t)
    ensures Prunes(closes[j], Flow, t) && forall i :: 0 <= i < j ==> !ShownDead(closes[i], Flow, t)
    ensures !ShowsDeadFirst(closes)
  {
    hide Closed, RecordsCloses;
    var streams :| CarriesFlow(streams, closes, t);
    assert Early(closes, j, t);
    assert closes[j].after == Closed(closes[j].before, closes[j].now) by { CloseRecorded(closes, j); }
    LiveFlow(closes[j].before, closes[j].now, t);
  }

  lemma CloseRecorded(closes: seq<CloseRecord>, j: nat)
    requires RecordsCloses(closes) && j < |closes|
    ensures closes[j].after == Closed(closes[j].before, closes[j].now)
  {}

  // Timestamps decide: all files on them keep the promise if and only if they pass.
  lemma TimestampsDecide(wall: Time, file: seq<PcapPacket>)
    requires Ordered(file)
    ensures (forall f :: SameTimes(f, file) && ValidFile(f) ==> ShowsDeadFirst(Replayed(wall, f).closes)) <==>
              ShownInTime(file)
  {
    hide Replayed, CloseTimes, ShowsDeadFirst, At, Lone, ValidFile;
    if ShownInTime(file) {
      forall f | SameTimes(f, file) && ValidFile(f) ensures ShowsDeadFirst(Replayed(wall, f).closes) {
        SameTimesPass(f, file);
        ShownInTimeSuffices(wall, f);
      }
    } else {
      var p, j :| 0 <= p < |file| && file[p].eth.Some? && 0 <= j < |CloseTimes(file)| &&
                  CloseTimes(file)[j] >= At(file[p]) + 20 * SECOND &&
                  !(exists i :: 0 <= i < j && CloseTimes(file)[i] > At(file[p]) + 10 * SECOND);
      ShownInTimeIsNeeded(wall, file, p, j);
      assert SameTimes(Lone(file, p), file) && ValidFile(Lone(file, p));
    }
  }

  lemma SameTimesPass(f: seq<PcapPacket>, g: seq<PcapPacket>)
    requires SameTimes(f, g) && Ordered(g) && ShownInTime(g)
    ensures Ordered(f) && ShownInTime(f)
  {
    hide CloseTimes;
    forall p | 0 <= p < |f| ensures CloseTimes(f) == CloseTimes(g) && At(f[p]) == At(g[p]) {
      SameCloseTimes(f, g, p);
    }
  }

  lemma {:induction false} SameDensity(f: seq<PcapPacket>, g: seq<PcapPacket>)
    requires SameTimes(f, g) && Dense(g)
    ensures Dense(f) && LastDecoded(f) == LastDecoded(g)
  {
    if f != [] {
      SameDensity(Front(f), Front(g));
    }
  }

  // Dense files pass.
  lemma DenseIsShownInTime(file: seq<PcapPacket>)
    requires Ordered(file) && Dense(file) && EndsClosely(file)
    ensures ShownInTime(file)
  {
    hide Replayed, ShownInTime, ShownDead, Prunes, Dense;
    forall f | SameTimes(f, file) && ValidFile(f) ensures ShowsDeadFirst(Replayed(0, f).closes) {
      SameDensity(f, file);
      DenseReplayShowsDeadFirst(0, f);
    }
    TimestampsDecide(0, file);
  }
}
