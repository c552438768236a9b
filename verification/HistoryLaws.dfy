// What the checks remember from one close to the next, and what a report therefore means:
// the stream counts of the last closes, the run of suspected closes, and the queries.
module HistoryLaws {
  import opened Alerts
  import opened Basics
  import opened Capture
  import opened FrameLaws
  import opened Frames
  import opened Scoring
  import opened Substates
  import CheckLaws
  import Dante
  import R = Replay

  // ---- Counts and suspicion -------------------------------------------------

  // Streams, connections and AVTP streams in view.
  ghost function Watched(c: Capture): nat {
    |c.streams.Keys| + |c.tcp.Keys| + |c.avb.streams.Keys|
  }

  // Dante devices are heard on ConMon, and nothing else of Dante: no name, no clock
  // message, no stream.
  ghost predicate Suspicious(c: Capture) {
    && (exists ip :: ip in c.dante.conmon) && !CheckLaws.PtpSpoken(c)
    && !(exists ip :: ip in c.dante.names) && !(exists k :: k in c.streams) && !(exists k :: k in c.avb.streams)
  }

  lemma WatchedIsCount(c: Capture)
    ensures StreamCount(c) == Watched(c)
  {}

  lemma SuspiciousIsSuspected(c: Capture)
    ensures FilterSuspected(c) <==> Suspicious(c)
  {
    assert c.dante.conmon != map[] <==> exists ip :: ip in c.dante.conmon;
    assert c.dante.names != map[] <==> exists ip :: ip in c.dante.names;
    assert c.streams != map[] <==> exists k :: k in c.streams;
    assert c.avb.streams != map[] <==> exists k :: k in c.avb.streams;
  }

  ghost function Counts(closes: seq<R.CloseRecord>): (counts: seq<nat>)
    ensures |counts| == |closes|
    ensures forall i :: 0 <= i < |closes| ==> counts[i] == Watched(closes[i].before)
  {
    if closes == [] then [] else Counts(Front(closes)) + [Watched(Last(closes).before)]
  }

  function LastThree(s: seq<nat>): seq<nat> {
    if |s| <= 3 then s else s[|s| - 3..]
  }

  lemma PushedIsLastThree(s: seq<nat>, n: nat)
    ensures PushedCount(LastThree(s), n) == LastThree(s + [n])
  {}

  // How many closes in a row, back from the last, found a filter suspected.
  ghost function SuspectedRun(closes: seq<R.CloseRecord>): nat {
    if closes == [] || !Suspicious(Last(closes).before) then 0 else 1 + SuspectedRun(Front(closes))
  }

  ghost predicate Remembers(c: Capture, closes: seq<R.CloseRecord>) {
    c.countHistory == LastThree(Counts(closes)) && c.suspectCycles == SuspectedRun(closes)
  }

  ghost predicate AllRemember(closes: seq<R.CloseRecord>) {
    forall i :: 0 <= i < |closes| ==> Remembers(closes[i].before, closes[..i])
  }

  lemma ClosedHistory(c: Capture, now: Time)
    ensures Closed(c, now).countHistory == PushedCount(c.countHistory, Watched(c))
    ensures Closed(c, now).suspectCycles == if Suspicious(c) then c.suspectCycles + 1 else 0
  {
    hide Score, PushedCount, StreamCount, FilterSuspected, Watched, Suspicious;
    WatchedIsCount(c);
    SuspiciousIsSuspected(c);
  }

  lemma CloseRemembers(c: Capture, closes: seq<R.CloseRecord>, now: Time)
    requires Remembers(c, closes) && AllRemember(closes)
    ensures var more := closes + [R.CloseRecord(now, c, Closed(c, now))];
            Remembers(Closed(c, now), more) && AllRemember(more)
  {
    hide Closed, Suspicious, Watched, PushedCount, LastThree, StreamCount, FilterSuspected;
    ClosedHistory(c, now);
    var more := closes + [R.CloseRecord(now, c, Closed(c, now))];
    assert Front(more) == closes;
    PushedIsLastThree(Counts(closes), Watched(c));
    forall i | 0 <= i < |more| ensures Remembers(more[i].before, more[..i]) {
      assert more[..i] == closes[..i];
      if i == |closes| { assert closes[..i] == closes; }
    }
  }

  lemma StepRemembers(l: R.Loop, p: R.PcapPacket, wall: Time)
    requires WellFormed(l.capture) && (p.eth.Some? ==> ValidFrame(p.eth.value.frame))
    requires Remembers(l.capture, l.closes) && AllRemember(l.closes)
    ensures Remembers(R.Step(l, p, wall).capture, R.Step(l, p, wall).closes)
    ensures AllRemember(R.Step(l, p, wall).closes)
  {
    hide R.Step, Handled, Closed, WellFormed, ValidFrame, AllRemember;
    R.StepInParts(l, p, wall);
    if p.eth.Some? {
      var now := R.Step(l, p, wall).lastNow;
      var counted := l.capture.(traffic := l.capture.traffic.(dispatched := l.capture.traffic.dispatched + 1));
      SameStreamsWellFormed(l.capture, counted);
      HistoryUntouched(counted, p.eth.value.frame, now);
      CloseRemembers(Processed(l.capture, p.eth.value, now), l.closes, now);
    }
  }

  lemma NothingRemembered()
    ensures Remembers(NewCapture, []) && AllRemember([])
  {}

  // At every point of every replay the history holds the stream counts of the last three
  // closes, and the suspicion counter the length of the trailing run of suspected closes.
  lemma {:induction false} HistoryIsOfCloses(wall: Time, file: seq<R.PcapPacket>)
    requires R.ValidFile(file)
    ensures Remembers(R.Run(wall, file).capture, R.Run(wall, file).closes)
    ensures AllRemember(R.Replayed(wall, file).closes)
  {
    RunRemembers(wall, file);
    hide R.Run, Closed, Remembers, AllRemember;
    var l := R.Run(wall, file);
    CloseRemembers(l.capture, l.closes, l.lastNow);
  }

  lemma {:induction false} RunRemembers(wall: Time, file: seq<R.PcapPacket>)
    requires R.ValidFile(file)
    ensures Remembers(R.Run(wall, file).capture, R.Run(wall, file).closes) && AllRemember(R.Run(wall, file).closes)
  {
    hide R.Step, WellFormed, ValidFrame, Remembers, AllRemember;
    if file == [] {
      NothingRemembered();
    } else {
      RunRemembers(wall, Front(file));
      StepRemembers(R.Run(wall, Front(file)), Last(file), wall);
    }
  }

  // ---- What the reports show ------------------------------------------------

  // The stream counts of the three closes before the i-th.
  ghost function ThreeBefore(closes: seq<R.CloseRecord>, i: nat): (counts: seq<nat>)
    requires 3 <= i <= |closes|
    ensures |counts| == 3
  {
    [Watched(closes[i - 3].before), Watched(closes[i - 2].before), Watched(closes[i - 1].before)]
  }

  lemma LastThreeListed(s: seq<nat>)
    ensures |LastThree(s)| == 3 <==> |s| >= 3
    ensures |s| >= 3 ==> LastThree(s) == [s[|s| - 3], s[|s| - 2], s[|s| - 1]]
  {}

  lemma CountAt(closes: seq<R.CloseRecord>, i: nat, j: nat)
    requires j < i <= |closes|
    ensures Counts(closes[..i])[j] == Watched(closes[j].before)
  {
    hide Watched;
    assert closes[..i][j] == closes[j];
  }

  lemma ThreeRemembered(closes: seq<R.CloseRecord>, i: nat)
    requires i <= |closes|
    ensures |LastThree(Counts(closes[..i]))| == 3 <==> i >= 3
    ensures i >= 3 ==> LastThree(Counts(closes[..i])) == ThreeBefore(closes, i)
  {
    hide Watched, Counts, LastThree;
    LastThreeListed(Counts(closes[..i]));
    if i >= 3 {
      CountAt(closes, i, i - 3);
      CountAt(closes, i, i - 2);
      CountAt(closes, i, i - 1);
    }
  }

  // A report warns of a flood of streams exactly when there are more than twice the mean
  // of the three reports before it, rounded down and not zero.
  lemma SpikeIsReportedExactly(wall: Time, file: seq<R.PcapPacket>, i: nat, offline: bool, order: seq<DomainKey>,
                               current: nat, average: nat)
    requires R.ValidFile(file) && i < |R.Replayed(wall, file).closes|
    requires forall k :: k in order ==> k in R.Replayed(wall, file).closes[i].before.ptp.domains
    ensures var closes := R.Replayed(wall, file).closes;
            StreamCountSpike(current, average) in Emission(closes[i].before, offline, closes[i].now, order) <==>
              && current == Watched(closes[i].before)
              && i >= 3 && IsMean(average, ThreeBefore(closes, i))
              && average > 0 && current > 2 * average
  {
    hide R.Replayed, Watched, Emission, IsMean, FilterAlerts, SpikeAlerts, Average, Counts, LastThree, R.ValidFile;
    hide ThreeBefore;
    HistoryIsOfCloses(wall, file);
    var closes := R.Replayed(wall, file).closes;
    CheckLaws.EmissionShows(closes[i].before, offline, closes[i].now, order, StreamCountSpike(current, average));
    assert Remembers(closes[i].before, closes[..i]);
    ThreeRemembered(closes, i);
    SpikeOfHistory(closes[i].before, current, average);
  }

  lemma SpikeOfHistory(c: Capture, current: nat, average: nat)
    ensures StreamCountSpike(current, average) in SpikeAlerts(c) <==>
              && current == Watched(c)
              && |c.countHistory| == 3 && IsMean(average, c.countHistory)
              && average > 0 && current > 2 * average
  {
    hide StreamCount, Watched;
    WatchedIsCount(c);
    if |c.countHistory| == 3 { AverageIsMean(average, c.countHistory); }
    hide Average, IsMean;
  }

  // The mean of three numbers, rounded down.
  ghost predicate IsMean(average: nat, h: seq<nat>)
    requires |h| == 3
  {
    3 * average <= h[0] + h[1] + h[2] < 3 * average + 3
  }

  lemma AverageIsMean(average: nat, h: seq<nat>)
    requires |h| == 3
    ensures IsMean(average, h) <==> average == Average(h)
  {}

  // A report blames a multicast filter exactly when this close and the one before it both
  // saw ConMon devices and nothing else of Dante.
  lemma FilterIsReportedExactly(wall: Time, file: seq<R.PcapPacket>, i: nat, offline: bool, order: seq<DomainKey>)
    requires R.ValidFile(file) && i < |R.Replayed(wall, file).closes|
    requires forall k :: k in order ==> k in R.Replayed(wall, file).closes[i].before.ptp.domains
    ensures var closes := R.Replayed(wall, file).closes;
            FilterUnregistered in Emission(closes[i].before, offline, closes[i].now, order) <==>
              i > 0 && Suspicious(closes[i].before) && Suspicious(closes[i - 1].before)
  {
    hide ClockAlerts, IntervalAlerts, VersionAlerts, BandwidthAlerts, SnoopingAlerts, QuerierConflict, LastThree;
    hide R.Replayed, Suspicious, FilterSuspected, Emission, SpikeAlerts, Counts;
    HistoryIsOfCloses(wall, file);
    var closes := R.Replayed(wall, file).closes;
    SuspiciousIsSuspected(closes[i].before);
    CheckLaws.EmissionShows(closes[i].before, offline, closes[i].now, order, FilterUnregistered);
    assert Remembers(closes[i].before, closes[..i]);
    if i > 0 {
      assert Last(closes[..i]) == closes[i - 1];
    }
  }

  // ---- Queries --------------------------------------------------------------

  datatype Query = Query(src: Ip, version: nat, at: Time)

  function QueryOf(p: R.PcapPacket, now: Time): seq<Query> {
    if p.eth.Some? && p.eth.value.frame.GeneralQuery?
    then [Query(p.eth.value.frame.src, p.eth.value.frame.version, now)] else []
  }

  // The general queries of the file, and those since the last close.
  ghost function Queries(wall: Time, file: seq<R.PcapPacket>): seq<Query>
    requires R.ValidFile(file)
  {
    if file == [] then [] else Queries(wall, Front(file)) + QueryOf(Last(file), R.Run(wall, file).lastNow)
  }

  ghost function WindowQueries(wall: Time, file: seq<R.PcapPacket>): seq<Query>
    requires R.ValidFile(file)
  {
    if file == [] || (Last(file).eth.Some? && R.Reports(R.Run(wall, Front(file)).report, Last(file).sec)) then []
    else WindowQueries(wall, Front(file)) + QueryOf(Last(file), R.Run(wall, file).lastNow)
  }

  ghost function SourcesOf(qs: seq<Query>): set<Ip> {
    set i | 0 <= i < |qs| :: qs[i].src
  }

  ghost predicate RecordsQueries(c: Capture, all: seq<Query>, window: seq<Query>) {
    && c.health.lastQuery == (if all == [] then None else Some(Last(all).at))
    && c.health.queryInterval == (if |all| < 2 then None
                                  else Some(WholeSecs(Since(Last(all).at, Last(Front(all)).at))))
    && c.igmp.querierVersion == (if all == [] then None else Some(Last(all).version))
    && c.igmp.queriers == SourcesOf(window)
  }

  lemma FrameRecordsQueries(c: Capture, p: R.PcapPacket, all: seq<Query>, window: seq<Query>, now: Time)
    requires WellFormed(c) && p.eth.Some? && ValidFrame(p.eth.value.frame) && RecordsQueries(c, all, window)
    ensures RecordsQueries(Processed(c, p.eth.value, now), all + QueryOf(p, now), window + QueryOf(p, now))
  {
    hide Handled, WellFormed, ValidFrame, WholeSecs;
    var counted := c.(traffic := c.traffic.(dispatched := c.traffic.dispatched + 1));
    SameStreamsWellFormed(c, counted);
    HistoryUntouched(counted, p.eth.value.frame, now);
    var more := QueryOf(p, now);
    if more == [] {
      assert all + more == all && window + more == window;
    } else {
      QueryHandled(counted, p.eth.value.frame, now);
      assert Front(all + more) == all;
      assert SourcesOf(window + more) == SourcesOf(window) + {more[0].src} by {
        assert (window + more)[|window|] == more[0];
        forall ip ensures ip in SourcesOf(window + more) <==> ip in SourcesOf(window) || ip == more[0].src {
          assert forall i :: 0 <= i < |window| ==> (window + more)[i] == window[i];
        }
      }
    }
  }

  lemma QueryHandled(c: Capture, f: Frame, now: Time)
    requires WellFormed(c) && ValidFrame(f) && f.GeneralQuery?
    ensures Handled(c, f, now) == QueryHeard(c, f, now)
  {
    hide QueryHeard, WellFormed, ValidFrame;
  }

  lemma CloseRecordsQueries(c: Capture, all: seq<Query>, window: seq<Query>, now: Time)
    requires RecordsQueries(c, all, window)
    ensures RecordsQueries(Closed(c, now), all, [])
  {
    hide Score, WholeSecs, Dante.WindowClosed;
    assert SourcesOf([]) == {};
  }

  lemma NoQueries()
    ensures RecordsQueries(NewCapture, [], [])
  {
    assert SourcesOf([]) == {};
  }

  // At every point of every replay the query record holds the time and version of the last
  // general query, the whole seconds between the last two, whatever closes lie between
  // them, and the queriers are the sources heard since the last close.
  lemma {:induction false} QueriesAreRemembered(wall: Time, file: seq<R.PcapPacket>)
    requires R.ValidFile(file)
    ensures RecordsQueries(R.Run(wall, file).capture, Queries(wall, file), WindowQueries(wall, file))
  {
    hide R.Step, Processed, Closed, WellFormed, ValidFrame, RecordsQueries, QueryOf;
    if file == [] {
      NoQueries();
    } else {
      QueriesAreRemembered(wall, Front(file));
      var l, p := R.Run(wall, Front(file)), Last(file);
      R.StepInParts(l, p, wall);
      var now := R.Step(l, p, wall).lastNow;
      var all, window := Queries(wall, Front(file)), WindowQueries(wall, Front(file));
      if p.eth.Some? {
        FrameRecordsQueries(l.capture, p, all, window, now);
        CloseRecordsQueries(Processed(l.capture, p.eth.value, now), all + QueryOf(p, now), window + QueryOf(p, now),
                            now);
      } else {
        NoQueryIn(p, now, all, window);
      }
    }
  }

  lemma NoQueryIn(p: R.PcapPacket, now: Time, all: seq<Query>, window: seq<Query>)
    requires p.eth == None
    ensures all + QueryOf(p, now) == all && window + QueryOf(p, now) == window
  {}
}
