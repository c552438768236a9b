// `DanteState`: the bounded map of discovered sources, the transmitter class learned for
// each, and the count of windows a source has gone without any sign of life.
module Dante {
  import opened Basics

  const MAX_SOURCES: nat := 4096
  const CONMON_PRUNE_SECS: nat := 60
  const UNVERIFIED_THRESHOLD: nat := 3

  datatype TxClass = Hardware | Dvs | Via
  datatype ConmonDevice = ConmonDevice(mac: nat, channels: Option<nat>, packets: nat, lastSeen: Time)

  datatype Dante = Dante(
    sources: set<Ip>, names: map<Ip, string>, conmon: map<Ip, ConmonDevice>,
    unverifiedWindows: map<Ip, nat>, txClass: map<Ip, TxClass>)

  const NoDante := Dante({}, map[], map[], map[], map[])

  // The source-recording arms of `handle_dante`; frames from the capture host itself
  // never get this far.
  datatype Event =
    | Discovery(src: Ip, name: Option<string>)
    | ConMon(src: Ip, mac: nat, channels: Option<nat>)
    | ControlPlane(src: Ip, class_: TxClass)

  predicate Evicts(d: Dante, ip: Ip) {
    ip !in d.sources && |d.sources| >= MAX_SOURCES
  }

  // The victim is whichever other source the set happens to yield first.
  predicate MayEvict(d: Dante, ip: Ip, victim: Ip) {
    Evicts(d, ip) ==> victim in d.sources
  }

  function Recorded(d: Dante, ip: Ip, name: Option<string>, victim: Ip): Dante {
    var e := if Evicts(d, ip)
      then d.(sources := d.sources - {victim}, names := d.names - {victim}, txClass := d.txClass - {victim})
      else d;
    e.(sources := e.sources + {ip}, names := if name.Some? then e.names[ip := name.value] else e.names)
  }

  // DVS and Via overwrite; Hardware only fills a gap.
  function Classified(d: Dante, ip: Ip, c: TxClass): Dante {
    if c == Hardware && ip in d.txClass then d else d.(txClass := d.txClass[ip := c])
  }

  function ConmonSeen(d: Dante, e: Event, now: Time): Dante
    requires e.ConMon?
  {
    var was := if e.src in d.conmon then d.conmon[e.src] else ConmonDevice(e.mac, None, 0, now);
    d.(conmon := d.conmon[e.src := ConmonDevice(e.mac, if e.channels.Some? then e.channels else was.channels,
                                                was.packets + 1, now)])
  }

  function Handled(d: Dante, e: Event, victim: Ip, now: Time): Dante {
    match e
    case Discovery(src, name) => Recorded(d, src, name, victim)
    case ConMon(src, _, _) => Classified(Recorded(ConmonSeen(d, e, now), src, None, victim), src, Hardware)
    case ControlPlane(src, c) => Classified(Recorded(d, src, None, victim), src, c)
  }

  // ---- Window close ---------------------------------------------------------

  function LiveConmon(conmon: map<Ip, ConmonDevice>, now: Time): map<Ip, ConmonDevice> {
    map ip | ip in conmon && WholeSecs(Since(now, conmon[ip].lastSeen)) < CONMON_PRUNE_SECS :: conmon[ip]
  }

  function CountOf(counts: map<Ip, nat>, ip: Ip): nat {
    if ip in counts then counts[ip] else 0
  }

  function Windows(d: Dante, ip: Ip): nat {
    CountOf(d.unverifiedWindows, ip)
  }

  // Sources with a surviving stream or a surviving ConMon entry are verified; every
  // other tracked source has gone one more window without.
  function WindowClosed(d: Dante, streaming: set<Ip>, now: Time): Dante {
    var conmon := LiveConmon(d.conmon, now);
    d.(conmon := conmon,
       unverifiedWindows := map ip | ip in d.sources - streaming - conmon.Keys :: Windows(d, ip) + 1)
  }

  function Unverified(d: Dante): set<Ip> {
    set ip | ip in d.sources && Windows(d, ip) >= UNVERIFIED_THRESHOLD
  }

  // ---- The state as the source keeps it -------------------------------------

  class DanteState {
    var sources: set<Ip>
    var names: map<Ip, string>
    var conmon: map<Ip, ConmonDevice>
    var unverifiedWindows: map<Ip, nat>
    var txClass: map<Ip, TxClass>

    function View(): Dante
      reads this
    {
      Dante(sources, names, conmon, unverifiedWindows, txClass)
    }

    constructor ()
      ensures View() == NoDante
    {
      sources, names, conmon, unverifiedWindows, txClass := {}, map[], map[], map[], map[];
    }

    method RecordSource(ip: Ip, name: Option<string>) returns (isNew: bool, ghost victim: Ip)
      modifies this
      ensures MayEvict(old(View()), ip, victim)
      ensures View() == Recorded(old(View()), ip, name, victim)
      ensures isNew == (ip !in old(sources))
    {
      isNew := ip !in sources;
      victim := 0;
      if isNew && |sources| >= MAX_SOURCES {
        var v :| v in sources && v != ip;
        victim := v;
        sources := sources - {v};
        names := names - {v};
        txClass := txClass - {v};
      }
      sources := sources + {ip};
      if name.Some? { names := names[ip := name.value]; }
    }

    method RecordTxClass(src: Ip, c: TxClass)
      modifies this`txClass
      ensures View() == Classified(old(View()), src, c)
    {
      if c == Hardware {
        if src !in txClass { txClass := txClass[src := c]; }
      } else {
        txClass := txClass[src := c];
      }
    }

    method Handle(e: Event, now: Time) returns (ghost victim: Ip)
      modifies this
      ensures MayEvict(old(View()), e.src, victim)
      ensures View() == Handled(old(View()), e, victim, now)
    {
      match e {
        case Discovery(src, name) =>
          var _, v := RecordSource(src, name);
          victim := v;
        case ConMon(src, mac, channels) =>
          var entry := if src in conmon then conmon[src] else ConmonDevice(mac, None, 0, now);
          entry := entry.(packets := entry.packets + 1);
          entry := entry.(lastSeen := now);
          entry := entry.(mac := mac);
          if channels.Some? { entry := entry.(channels := channels); }
          conmon := conmon[src := entry];
          assert View() == ConmonSeen(old(View()), e, now);
          var _, v := RecordSource(src, None);
          victim := v;
          RecordTxClass(src, Hardware);
        case ControlPlane(src, c) =>
          var _, v := RecordSource(src, None);
          victim := v;
          RecordTxClass(src, c);
      }
    }

    // One more window for every source without a sign of life, in any order.
    method CountSilentWindows(streaming: set<Ip>)
      modifies this`unverifiedWindows
      ensures var silent := sources - streaming - conmon.Keys;
              && (forall ip :: ip in unverifiedWindows && ip in sources <==> ip in silent)
              && (forall ip :: ip in silent ==>
                    CountOf(unverifiedWindows, ip) == CountOf(old(unverifiedWindows), ip) + 1)
    {
      ghost var silent := sources - streaming - conmon.Keys;
      var todo := sources;
      while todo != {}
        invariant todo <= sources
        invariant forall ip :: ip in sources - todo ==> (ip in unverifiedWindows <==> ip in silent)
        invariant forall ip :: ip in todo ==> CountOf(unverifiedWindows, ip) == CountOf(old(unverifiedWindows), ip)
        invariant forall ip :: ip in silent - todo ==>
                    CountOf(unverifiedWindows, ip) == CountOf(old(unverifiedWindows), ip) + 1
        decreases todo
      {
        var ip :| ip in todo;
        if ip in streaming || ip in conmon {
          unverifiedWindows := unverifiedWindows - {ip};
        } else {
          var n := CountOf(unverifiedWindows, ip);
          unverifiedWindows := unverifiedWindows[ip := n + 1];
        }
        todo := todo - {ip};
      }
    }

    method ResetWindow(streaming: set<Ip>, now: Time)
      modifies this
      ensures View() == WindowClosed(old(View()), streaming, now)
    {
      conmon := LiveConmon(conmon, now);
      CountSilentWindows(streaming);
      unverifiedWindows := map ip | ip in unverifiedWindows && ip in sources :: unverifiedWindows[ip];
      assert unverifiedWindows == WindowClosed(old(View()), streaming, now).unverifiedWindows;
    }
  }

  // ---- Bounds over every run ------------------------------------------------

  // At most 4096 sources, and names and classes only for tracked ones.
  ghost predicate Bounded(d: Dante) {
    && |d.sources| <= 4096
    && d.names.Keys <= d.sources
    && d.txClass.Keys <= d.sources
  }

  datatype Step = Frame(e: Event, victim: Ip, now: Time) | Close(streaming: set<Ip>, now: Time)

  ghost predicate Legal(d: Dante, s: Step) {
    s.Frame? ==> MayEvict(d, s.e.src, s.victim)
  }

  function Next(d: Dante, s: Step): Dante {
    match s
    case Frame(e, victim, now) => Handled(d, e, victim, now)
    case Close(streaming, now) => WindowClosed(d, streaming, now)
  }

  function Run(d: Dante, steps: seq<Step>): Dante {
    if steps == [] then d else Next(Run(d, Front(steps)), Last(steps))
  }

  ghost predicate LegalRun(d: Dante, steps: seq<Step>) {
    steps == [] || (LegalRun(d, Front(steps)) && Legal(Run(d, Front(steps)), Last(steps)))
  }

  lemma RecordedIsBounded(d: Dante, ip: Ip, name: Option<string>, victim: Ip)
    requires Bounded(d) && MayEvict(d, ip, victim)
    ensures Bounded(Recorded(d, ip, name, victim))
    ensures ip in Recorded(d, ip, name, victim).sources
  {
    if Evicts(d, ip) {
      assert |d.sources - {victim}| == |d.sources| - 1;
    }
  }

  // Whatever the frames and whichever victims are picked, the maps stay bounded and
  // coupled, and the newest source is always kept.
  lemma {:induction false} SourcesStayBounded(steps: seq<Step>)
    requires LegalRun(NoDante, steps)
    ensures Bounded(Run(NoDante, steps))
    ensures steps != [] && Last(steps).Frame? ==> Last(steps).e.src in Run(NoDante, steps).sources
  {
    if steps != [] {
      SourcesStayBounded(Front(steps));
      var before := Run(NoDante, Front(steps));
      match Last(steps) {
        case Frame(e, victim, now) =>
          var named := if e.ConMon? then ConmonSeen(before, e, now) else before;
          RecordedIsBounded(named, e.src, if e.Discovery? then e.name else None, victim);
        case Close(_, _) =>
      }
    }
  }

  ghost predicate SoftwareClass(d: Dante, ip: Ip) {
    ip in d.txClass && d.txClass[ip] != Hardware
  }

  lemma RecordedKeepsClass(d: Dante, src: Ip, name: Option<string>, victim: Ip, ip: Ip)
    requires Bounded(d) && MayEvict(d, src, victim) && SoftwareClass(d, ip)
    ensures var r := Recorded(d, src, name, victim);
            (SoftwareClass(r, ip) <==> ip in r.sources) && (ip !in r.sources ==> src != ip)
  {
    assert ip in d.sources;
  }

  lemma ClassifiedKeepsClass(d: Dante, src: Ip, c: TxClass, ip: Ip)
    requires SoftwareClass(d, ip) || src != ip
    ensures SoftwareClass(Classified(d, src, c), ip) <==> SoftwareClass(d, ip)
    ensures Classified(d, src, c).sources == d.sources
  {}

  // One step takes a software class away only by evicting the source.
  lemma ClassSurvivesStep(d: Dante, s: Step, ip: Ip)
    requires Bounded(d) && Legal(d, s) && SoftwareClass(d, ip)
    ensures SoftwareClass(Next(d, s), ip) <==> ip in Next(d, s).sources
  {
    hide Recorded, Classified;
    match s {
      case Frame(e, victim, now) =>
        var seen := if e.ConMon? then ConmonSeen(d, e, now) else d;
        var name := if e.Discovery? then e.name else None;
        RecordedKeepsClass(seen, e.src, name, victim, ip);
        ClassifiedKeepsClass(Recorded(seen, e.src, name, victim), e.src,
                             if e.ControlPlane? then e.class_ else Hardware, ip);
      case Close(_, _) => assert ip in d.sources;
    }
  }

  // A source once identified as DVS or Via never reverts to Hardware while it is tracked.
  lemma {:induction false} ClassSurvivesRun(start: seq<Step>, more: seq<Step>, ip: Ip)
    requires LegalRun(NoDante, start) && LegalRun(Run(NoDante, start), more)
    requires SoftwareClass(Run(NoDante, start), ip)
    requires forall i :: 0 <= i <= |more| ==> ip in Run(Run(NoDante, start), more[..i]).sources
    ensures Bounded(Run(Run(NoDante, start), more))
    ensures SoftwareClass(Run(Run(NoDante, start), more), ip)
  {
    SourcesStayBounded(start);
    if more != [] {
      assert more[..|more|] == more;
      assert forall i :: 0 <= i <= |more| - 1 ==> Front(more)[..i] == more[..i];
      ClassSurvivesRun(start, Front(more), ip);
      BoundedStep(Run(Run(NoDante, start), Front(more)), Last(more));
      ClassSurvivesStep(Run(Run(NoDante, start), Front(more)), Last(more), ip);
    }
  }

  lemma BoundedStep(d: Dante, s: Step)
    requires Bounded(d) && Legal(d, s)
    ensures Bounded(Next(d, s))
  {
    match s {
      case Frame(e, victim, now) =>
        var named := if e.ConMon? then ConmonSeen(d, e, now) else d;
        RecordedIsBounded(named, e.src, if e.Discovery? then e.name else None, victim);
      case Close(_, _) =>
    }
  }

  // ---- Unverified sources ---------------------------------------------------

  // At the last close of the run the source was tracked with no sign of life; count how
  // many closes in a row, back from the end.
  ghost function SilentCloses(d: Dante, steps: seq<Step>, ip: Ip): nat {
    if steps == [] then Windows(d, ip)
    else if Last(steps).Frame? then SilentCloses(d, Front(steps), ip)
    else if TrackedSilent(Run(d, Front(steps)), Last(steps), ip) then SilentCloses(d, Front(steps), ip) + 1
    else 0
  }

  ghost predicate TrackedSilent(d: Dante, close: Step, ip: Ip)
    requires close.Close?
  {
    ip in d.sources && ip !in close.streaming && ip !in LiveConmon(d.conmon, close.now)
  }

  // The stored count of every source is the length of that trailing run, so exactly the
  // tracked sources silent for three closes or more are called unverified.
  lemma {:induction false} UnverifiedCountsSilentCloses(steps: seq<Step>, ip: Ip)
    ensures Windows(Run(NoDante, steps), ip) == SilentCloses(NoDante, steps, ip)
    ensures ip in Unverified(Run(NoDante, steps)) <==>
              ip in Run(NoDante, steps).sources && SilentCloses(NoDante, steps, ip) >= 3
  {
    if steps != [] {
      UnverifiedCountsSilentCloses(Front(steps), ip);
    }
  }
}
