// Canonical SDP sessions: printing one and parsing it again gives it back.
module SdpPrint {
  import opened Basics
  import opened Text
  import opened Sdp

  // ---- What is announced ----------------------------------------------------

  datatype Rate = Rate(payloadType: nat, encoding: string, clock: nat, channels: Option<nat>)
  datatype Pace = Unpaced | Ptime(ms: nat) | Framecount(frames: nat)

  datatype Section = Section(
    kind: string, port: nat, proto: string, payloadTypes: seq<nat>, connection: Option<string>,
    rate: Option<Rate>, pace: Pace, tsRefclk: Option<string>, mediaclk: Option<string>)

  datatype Description = Description(
    user: string, id: string, origin: string, name: string, info: Option<string>, sections: seq<Section>)

  // One line of text without its end, not cut short by trimming.
  ghost predicate Clean(value: string) {
    '\n' !in value && (value != "" ==> !Space(Last(value)))
  }

  ghost predicate CleanIf(o: Option<string>) {
    o.Some? ==> Clean(o.value)
  }

  ghost predicate ValidRate(r: Rate) {
    && '\n' !in r.encoding && '/' !in r.encoding
    && (r.channels.Some? ==> r.channels.value <= 255)
  }

  ghost predicate ValidSection(s: Section) {
    && Word(s.kind) && Word(s.proto) && s.port <= 65535
    && s.payloadTypes != [] && (forall i :: 0 <= i < |s.payloadTypes| ==> s.payloadTypes[i] <= 255)
    && CleanIf(s.connection) && CleanIf(s.tsRefclk) && CleanIf(s.mediaclk)
    && (s.rate.Some? ==> ValidRate(s.rate.value))
    && (s.pace.Framecount? ==> s.pace.frames <= 0xFFFF_FFFF)
  }

  ghost predicate ValidSections(ss: seq<Section>) {
    forall i :: 0 <= i < |ss| ==> ValidSection(ss[i])
  }

  ghost predicate ValidDescription(d: Description) {
    && '\n' !in d.user && ' ' !in d.user && '\n' !in d.id && ' ' !in d.id
    && Clean(d.origin) && d.origin != "" && Clean(d.name) && CleanIf(d.info)
    && ValidSections(d.sections)
  }

  // The reader of reals reads decimal integers.
  ghost predicate ReadsIntegers(reals: RealReader) {
    forall n: nat :: reals(Decimal(n)) == Some(n as real)
  }

  // ---- The session it stands for --------------------------------------------

  function RateText(r: Rate): string {
    r.encoding + ['/'] + (Decimal(r.clock) + if r.channels.Some? then ['/'] + Decimal(r.channels.value) else [])
  }

  function PaceOf(s: Section): real {
    match s.pace
    case Unpaced => 0.0
    case Ptime(ms) => ms as real
    case Framecount(frames) =>
      if s.rate.Some? && s.rate.value.clock > 0 then frames as real / s.rate.value.clock as real * 1000.0 else 0.0
  }

  function MediaOf(s: Section): Media {
    Media(s.kind, s.port, s.payloadTypes, UnwrapOr(s.connection, ""),
          if s.rate.Some? then RateText(s.rate.value) else "",
          if s.rate.Some? then s.rate.value.clock as real else 0.0,
          if s.rate.Some? then UnwrapOr(s.rate.value.channels, 0) else 0,
          PaceOf(s), UnwrapOr(s.tsRefclk, ""), UnwrapOr(s.mediaclk, ""))
  }

  function MediasOf(ss: seq<Section>): seq<Media> {
    if ss == [] then [] else [MediaOf(ss[0])] + MediasOf(ss[1..])
  }

  function SessionOf(d: Description): Session {
    Session(d.id, d.name, UnwrapOr(d.info, ""), MediasOf(d.sections))
  }

  // ---- Printing -------------------------------------------------------------

  datatype Row = Row(key: char, value: string)

  function RowIf(key: char, prefix: string, o: Option<string>): seq<Row> {
    if o.Some? then [Row(key, prefix + o.value)] else []
  }

  function Decimals(ns: seq<nat>): seq<string> {
    if ns == [] then [] else [Decimal(ns[0])] + Decimals(ns[1..])
  }

  function MediaValue(s: Section): string {
    s.kind + Spaced([Decimal(s.port), s.proto] + Decimals(s.payloadTypes))
  }

  function RateValue(r: Rate): string {
    "rtpmap:" + (Decimal(r.payloadType) + [' '] + RateText(r))
  }

  function PaceRows(p: Pace): seq<Row> {
    match p
    case Unpaced => []
    case Ptime(ms) => [Row('a', "ptime:" + Decimal(ms))]
    case Framecount(frames) => [Row('a', "framecount:" + Decimal(frames))]
  }

  function SectionRows(s: Section): seq<Row> {
    [Row('m', MediaValue(s))] + (RowIf('c', "", s.connection) +
    ((if s.rate.Some? then [Row('a', RateValue(s.rate.value))] else []) + (PaceRows(s.pace) +
    (RowIf('a', "ts-refclk:", s.tsRefclk) + RowIf('a', "mediaclk:", s.mediaclk)))))
  }

  function SectionsRows(ss: seq<Section>): seq<Row> {
    if ss == [] then [] else SectionRows(ss[0]) + SectionsRows(ss[1..])
  }

  function Rows(d: Description): seq<Row> {
    [Row('v', "0")] + ([Row('o', d.user + [' '] + (d.id + [' '] + d.origin))] + ([Row('s', d.name)] +
    (RowIf('i', "", d.info) + SectionsRows(d.sections))))
  }

  function TextOf(rows: seq<Row>): string {
    if rows == [] then "" else [rows[0].key, '='] + rows[0].value + ['\r'] + ['\n'] + TextOf(rows[1..])
  }

  function Printed(d: Description): string {
    TextOf(Rows(d))
  }

  // ---- From text to rows ----------------------------------------------------

  ghost predicate CleanRow(r: Row) {
    Clean(r.value) && !Space(r.key)
  }

  ghost predicate CleanRows(rows: seq<Row>) {
    forall i :: 0 <= i < |rows| ==> CleanRow(rows[i])
  }

  function FoldRows(st: State, rows: seq<Row>, reals: RealReader): State
    decreases rows
  {
    if rows == [] then st else FoldRows(Field(st, rows[0].key, rows[0].value, reals), rows[1..], reals)
  }

  lemma StepOfRow(st: State, r: Row, reals: RealReader)
    requires CleanRow(r)
    ensures Step(st, [r.key, '='] + r.value + ['\r'], reals) == Field(st, r.key, r.value, reals)
  {
    hide Field;
    var line := [r.key, '='] + r.value;
    assert Last(line) == if r.value == "" then '=' else Last(r.value);
    TrimReturn(line);
    assert line[2..] == r.value;
  }

  lemma FirstLine(r: Row, rest: string)
    requires CleanRow(r)
    ensures Lines([r.key, '='] + r.value + ['\r'] + ['\n'] + rest) == [[r.key, '='] + r.value + ['\r']] + Lines(rest)
  {
    CutFinds([r.key, '='] + r.value + ['\r'], '\n', rest);
  }

  lemma {:induction false} TextFolds(st: State, rows: seq<Row>, reals: RealReader)
    requires CleanRows(rows)
    ensures Fold(st, Lines(TextOf(rows)), reals) == FoldRows(st, rows, reals)
    decreases |rows|
  {
    hide Field, Step, Lines;
    if rows == [] {
      NoLines();
    } else {
      var line := [rows[0].key, '='] + rows[0].value + ['\r'];
      FirstLine(rows[0], TextOf(rows[1..]));
      FoldConcat(st, [line], Lines(TextOf(rows[1..])), reals);
      OneLine(st, line, reals);
      StepOfRow(st, rows[0], reals);
      TextFolds(Step(st, line, reals), rows[1..], reals);
    }
  }

  lemma NoLines()
    ensures Lines("") == []
  {}

  lemma OneLine(st: State, line: string, reals: RealReader)
    ensures Fold(st, [line], reals) == Step(st, line, reals)
  {
    hide Step;
    assert Front([line]) == [];
  }

  // ---- Row by row -----------------------------------------------------------

  lemma {:induction false} RowsConcat(st: State, a: seq<Row>, b: seq<Row>, reals: RealReader)
    ensures FoldRows(st, a + b, reals) == FoldRows(FoldRows(st, a, reals), b, reals)
    decreases |a|
  {
    hide Field;
    if a == [] {
      assert [] + b == b;
    } else {
      assert (a + b)[1..] == a[1..] + b;
      RowsConcat(Field(st, a[0].key, a[0].value, reals), a[1..], b, reals);
    }
  }

  lemma OneRow(st: State, r: Row, reals: RealReader)
    ensures FoldRows(st, [r], reals) == Field(st, r.key, r.value, reals)
  {
    hide Field;
    assert [r][1..] == [];
  }

  lemma {:induction false} DecimalsAreWords(ns: seq<nat>)
    ensures |Decimals(ns)| == |ns|
    ensures forall i :: 0 <= i < |ns| ==> Decimals(ns)[i] == Decimal(ns[i]) && Word(Decimals(ns)[i])
  {
    hide Word;
    if ns != [] {
      DecimalsAreWords(ns[1..]);
      DecimalIsWord(ns[0]);
    }
  }

  lemma {:induction false} PayloadTypesReadBack(words: seq<string>, ns: seq<nat>)
    requires |words| == |ns|
    requires forall i :: 0 <= i < |ns| ==> ns[i] <= 255 && words[i] == Decimal(ns[i])
    ensures PayloadTypes(words) == ns
  {
    hide ParseUnsigned;
    if ns != [] {
      PayloadTypesReadBack(Front(words), Front(ns));
      ParseUndoesDecimal(Last(ns), 255);
      assert ns == Front(ns) + [Last(ns)];
    }
  }

  lemma MediaLineReadsBack(s: Section)
    requires ValidSection(s)
    ensures Opened(MediaValue(s))
         == Some(Media(s.kind, s.port, s.payloadTypes, "", "", 0.0, 0, 0.0, "", ""))
  {
    hide ParseUnsigned, Word, Words, PayloadTypes, Decimal;
    var tail := [Decimal(s.port), s.proto] + Decimals(s.payloadTypes);
    DecimalIsWord(s.port);
    DecimalsAreWords(s.payloadTypes);
    WordsOfSpaced(tail);
    FirstWordOf(s.kind, tail);
    var parts := Words(MediaValue(s));
    assert parts == [s.kind] + tail;
    assert parts[3..] == Decimals(s.payloadTypes);
    ParseUndoesDecimal(s.port, 65535);
    PayloadTypesReadBack(parts[3..], s.payloadTypes);
  }

  lemma FirstWordOf(w: string, ws: seq<string>)
    requires Word(w)
    ensures Words(w + Spaced(ws)) == [w] + Words(Spaced(ws))
  {
    FirstWord(w, Spaced(ws));
  }

  lemma SplitOne(a: string, c: char)
    requires c !in a
    ensures Split(a, c) == [a]
  {
    CutMisses(a, c);
  }

  lemma SplitMore(a: string, c: char, b: string)
    requires c !in a
    ensures Split(a + [c] + b, c) == [a] + Split(b, c)
  {
    CutFinds(a, c, b);
  }

  lemma RateSplits(r: Rate)
    requires ValidRate(r)
    ensures Split(RateText(r), '/')
         == [r.encoding, Decimal(r.clock)] + if r.channels.Some? then [Decimal(r.channels.value)] else []
  {
    hide Decimal;
    DecimalIsWord(r.clock);
    var tail := Decimal(r.clock) + if r.channels.Some? then ['/'] + Decimal(r.channels.value) else [];
    SplitMore(r.encoding, '/', tail);
    if r.channels.Some? {
      DecimalIsWord(r.channels.value);
      assert tail == Decimal(r.clock) + ['/'] + Decimal(r.channels.value);
      SplitMore(Decimal(r.clock), '/', Decimal(r.channels.value));
      SplitOne(Decimal(r.channels.value), '/');
    } else {
      assert tail == Decimal(r.clock);
      SplitOne(Decimal(r.clock), '/');
    }
  }

  lemma RateReadsBack(m: Media, r: Rate, reals: RealReader)
    requires ValidRate(r) && ReadsIntegers(reals) && m.channels == 0
    ensures Attributed(m, RateValue(r), reals)
         == m.(rtpmap := RateText(r), clockHz := r.clock as real, channels := UnwrapOr(r.channels, 0))
  {
    hide Decimal, RateText, Split, ParseUnsigned, Cut;
    var rest := Decimal(r.payloadType) + [' '] + RateText(r);
    assert RateValue(r)[7..] == rest;
    NoSpaceInDecimal(r.payloadType);
    CutFinds(Decimal(r.payloadType), ' ', RateText(r));
    RateSplits(r);
    if r.channels.Some? {
      ParseUndoesDecimal(r.channels.value, 255);
    }
  }

  lemma NoSpaceInDecimal(n: nat)
    ensures ' ' !in Decimal(n)
  {
    DecimalIsWord(n);
  }

  lemma PaceReadsBack(m: Media, p: Pace, reals: RealReader)
    requires ReadsIntegers(reals) && (p.Framecount? ==> p.frames <= 0xFFFF_FFFF)
    ensures p.Ptime? ==> Attributed(m, "ptime:" + Decimal(p.ms), reals) == m.(ptimeMs := p.ms as real)
    ensures p.Framecount? ==>
              Attributed(m, "framecount:" + Decimal(p.frames), reals)
              == if m.clockHz > 0.0 then m.(ptimeMs := p.frames as real / m.clockHz * 1000.0) else m
  {
    hide Decimal, ParseUnsigned, Trim, RtpMapped;
    if p.Ptime? {
      var value := "ptime:" + Decimal(p.ms);
      assert value[0] == 'p' && "ptime:" <= value;
      assert value[6..] == Decimal(p.ms);
      DecimalIsWord(p.ms);
      TrimTight(Decimal(p.ms));
    } else if p.Framecount? {
      var value := "framecount:" + Decimal(p.frames);
      assert value[0] == 'f' && "framecount:" <= value;
      assert value[11..] == Decimal(p.frames);
      DecimalIsWord(p.frames);
      TrimTight(Decimal(p.frames));
      ParseUndoesDecimal(p.frames, 0xFFFF_FFFF);
    }
  }

  lemma ClocksReadBack(m: Media, value: string, reals: RealReader)
    ensures Attributed(m, "ts-refclk:" + value, reals) == m.(tsRefclk := value)
    ensures Attributed(m, "mediaclk:" + value, reals) == m.(mediaclk := value)
  {
    hide RtpMapped, Counted, Trim;
    var refclk, mediaclk := "ts-refclk:" + value, "mediaclk:" + value;
    assert refclk[0] == 't' && "ts-refclk:" <= refclk && refclk[10..] == value;
    assert mediaclk[0] == 'm' && "mediaclk:" <= mediaclk && mediaclk[9..] == value;
  }

  // The rows after the media line, on the section they fill.
  lemma SectionRowsReadBack(st: State, s: Section, rest: seq<Row>, reals: RealReader)
    requires ValidSection(s) && ReadsIntegers(reals)
    ensures FoldRows(st, SectionRows(s) + rest, reals)
         == FoldRows(State(st.session.(media := Pushed(st)), Some(MediaOf(s))), rest, reals)
  {
    hide Field, FoldRows, MediaValue, RateValue, PaceOf;
    var session := st.session.(media := Pushed(st));
    var m0 := Media(s.kind, s.port, s.payloadTypes, "", "", 0.0, 0, 0.0, "", "");
    var m1 := m0.(connection := UnwrapOr(s.connection, ""));
    var m2 := if s.rate.Some? then m1.(rtpmap := RateText(s.rate.value), clockHz := s.rate.value.clock as real,
                                       channels := UnwrapOr(s.rate.value.channels, 0)) else m1;
    var m3 := m2.(ptimeMs := PaceOf(s));
    var m4 := m3.(tsRefclk := UnwrapOr(s.tsRefclk, ""));
    var rateRows := if s.rate.Some? then [Row('a', RateValue(s.rate.value))] else [];
    RowsConcat(st, SectionRows(s), rest, reals);
    var tail4 := RowIf('a', "ts-refclk:", s.tsRefclk) + RowIf('a', "mediaclk:", s.mediaclk);
    var tail3 := PaceRows(s.pace) + tail4;
    var tail2 := rateRows + tail3;
    var tail1 := RowIf('c', "", s.connection) + tail2;
    RowsConcat(st, [Row('m', MediaValue(s))], tail1, reals);
    OpenRow(st, s, reals);
    RowsConcat(State(session, Some(m0)), RowIf('c', "", s.connection), tail2, reals);
    ConnectionRow(session, m0, s.connection, reals);
    RowsConcat(State(session, Some(m1)), rateRows, tail3, reals);
    RateRow(session, m1, s, reals);
    RowsConcat(State(session, Some(m2)), PaceRows(s.pace), tail4, reals);
    PaceRow(session, m2, s, reals);
    RowsConcat(State(session, Some(m3)), RowIf('a', "ts-refclk:", s.tsRefclk),
               RowIf('a', "mediaclk:", s.mediaclk), reals);
    ClockRows(session, m3, m4, s, reals);
  }

  lemma OpenRow(st: State, s: Section, reals: RealReader)
    requires ValidSection(s)
    ensures FoldRows(st, [Row('m', MediaValue(s))], reals)
         == State(st.session.(media := Pushed(st)),
                  Some(Media(s.kind, s.port, s.payloadTypes, "", "", 0.0, 0, 0.0, "", "")))
  {
    hide Opened, MediaValue;
    OneRow(st, Row('m', MediaValue(s)), reals);
    MediaLineReadsBack(s);
  }

  lemma ConnectionRow(session: Session, m: Media, o: Option<string>, reals: RealReader)
    requires m.connection == ""
    ensures FoldRows(State(session, Some(m)), RowIf('c', "", o), reals)
         == State(session, Some(m.(connection := UnwrapOr(o, ""))))
  {
    if o.Some? {
      assert "" + o.value == o.value;
      OneRow(State(session, Some(m)), Row('c', o.value), reals);
    }
  }

  lemma RateRow(session: Session, m: Media, s: Section, reals: RealReader)
    requires ValidSection(s) && ReadsIntegers(reals) && m.channels == 0
    ensures FoldRows(State(session, Some(m)), if s.rate.Some? then [Row('a', RateValue(s.rate.value))] else [], reals)
         == State(session, Some(if s.rate.Some?
                                then m.(rtpmap := RateText(s.rate.value), clockHz := s.rate.value.clock as real,
                                        channels := UnwrapOr(s.rate.value.channels, 0))
                                else m))
  {
    hide Attributed, RateValue, RateText, ReadsIntegers;
    if s.rate.Some? {
      OneRow(State(session, Some(m)), Row('a', RateValue(s.rate.value)), reals);
      RateReadsBack(m, s.rate.value, reals);
    }
  }

  lemma PaceRow(session: Session, m: Media, s: Section, reals: RealReader)
    requires ValidSection(s) && ReadsIntegers(reals) && m.ptimeMs == 0.0
    requires m.clockHz == if s.rate.Some? then s.rate.value.clock as real else 0.0
    ensures FoldRows(State(session, Some(m)), PaceRows(s.pace), reals)
         == State(session, Some(m.(ptimeMs := PaceOf(s))))
  {
    hide Attributed, ReadsIntegers, Decimal;
    PaceReadsBack(m, s.pace, reals);
    if s.pace.Ptime? {
      OneRow(State(session, Some(m)), Row('a', "ptime:" + Decimal(s.pace.ms)), reals);
    } else if s.pace.Framecount? {
      OneRow(State(session, Some(m)), Row('a', "framecount:" + Decimal(s.pace.frames)), reals);
    }
  }

  lemma ClockRows(session: Session, m3: Media, m4: Media, s: Section, reals: RealReader)
    requires m3.tsRefclk == "" && m3.mediaclk == "" && m4 == m3.(tsRefclk := UnwrapOr(s.tsRefclk, ""))
    ensures FoldRows(State(session, Some(m3)), RowIf('a', "ts-refclk:", s.tsRefclk), reals) == State(session, Some(m4))
    ensures FoldRows(State(session, Some(m4)), RowIf('a', "mediaclk:", s.mediaclk), reals)
         == State(session, Some(m4.(mediaclk := UnwrapOr(s.mediaclk, ""))))
  {
    hide Attributed;
    if s.tsRefclk.Some? {
      OneRow(State(session, Some(m3)), Row('a', "ts-refclk:" + s.tsRefclk.value), reals);
      ClocksReadBack(m3, s.tsRefclk.value, reals);
    }
    if s.mediaclk.Some? {
      OneRow(State(session, Some(m4)), Row('a', "mediaclk:" + s.mediaclk.value), reals);
      ClocksReadBack(m4, s.mediaclk.value, reals);
    }
  }

  lemma {:induction false} SectionsReadBack(st: State, ss: seq<Section>, reals: RealReader)
    requires ValidSections(ss) && ReadsIntegers(reals)
    ensures Finished(FoldRows(st, SectionsRows(ss), reals)) == st.session.(media := Pushed(st) + MediasOf(ss))
    decreases |ss|
  {
    hide SectionRows, MediaOf, Field, ReadsIntegers, ValidSection;
    if ss != [] {
      SectionRowsReadBack(st, ss[0], SectionsRows(ss[1..]), reals);
      SectionsReadBack(State(st.session.(media := Pushed(st)), Some(MediaOf(ss[0]))), ss[1..], reals);
    }
  }

  // ---- Clean rows -----------------------------------------------------------

  lemma CleanAfter(a: string, b: string)
    requires '\n' !in a && Clean(b) && (b == "" ==> Clean(a))
    ensures Clean(a + b)
  {}

  lemma DecimalIsClean(n: nat)
    ensures Clean(Decimal(n))
  {
    DecimalIsWord(n);
  }

  lemma WordIsClean(w: string)
    requires Word(w)
    ensures Clean(w) && w != ""
  {
    assert Space('\n');
  }

  lemma {:induction false} SpacedIsClean(ws: seq<string>)
    requires forall i :: 0 <= i < |ws| ==> Word(ws[i])
    ensures Clean(Spaced(ws))
  {
    hide Word, Clean;
    if ws == [] {
      EmptyIsClean();
    } else {
      SpacedIsClean(ws[1..]);
      WordIsClean(ws[0]);
      JoinClean(" ", ws[0], Spaced(ws[1..]));
    }
  }

  lemma EmptyIsClean()
    ensures Clean("")
  {}

  lemma JoinClean(a: string, b: string, c: string)
    requires '\n' !in a && Clean(b) && b != "" && Clean(c)
    ensures Clean(a + (b + c))
  {}

  lemma RateIsClean(r: Rate)
    requires ValidRate(r)
    ensures Clean(RateValue(r))
  {
    hide Decimal;
    DecimalIsClean(r.payloadType);
    DecimalIsClean(r.clock);
    DecimalIsWord(r.clock);
    if r.channels.Some? {
      DecimalIsClean(r.channels.value);
      DecimalIsWord(r.channels.value);
    }
  }

  lemma MediaIsClean(s: Section)
    requires ValidSection(s)
    ensures Clean(MediaValue(s))
  {
    hide Word, Clean, Decimal;
    WordIsClean(s.kind);
    DecimalIsWord(s.port);
    DecimalsAreWords(s.payloadTypes);
    var tail := [Decimal(s.port), s.proto] + Decimals(s.payloadTypes);
    SpacedIsClean(tail);
    JoinClean("", s.kind, Spaced(tail));
    assert "" + (s.kind + Spaced(tail)) == MediaValue(s);
  }

  lemma RowIfIsClean(key: char, prefix: string, o: Option<string>)
    requires !Space(key) && '\n' !in prefix && (prefix != "" ==> !Space(Last(prefix))) && CleanIf(o)
    ensures CleanRows(RowIf(key, prefix, o))
  {
    if o.Some? {
      CleanAfter(prefix, o.value);
    }
  }

  lemma PaceIsClean(p: Pace)
    ensures CleanRows(PaceRows(p))
  {
    hide Decimal;
    match p {
      case Unpaced =>
      case Ptime(ms) =>
        DecimalIsClean(ms);
        CleanAfter("ptime:", Decimal(ms));
      case Framecount(frames) =>
        DecimalIsClean(frames);
        CleanAfter("framecount:", Decimal(frames));
    }
  }

  lemma CleanTogether(a: seq<Row>, b: seq<Row>)
    requires CleanRows(a) && CleanRows(b)
    ensures CleanRows(a + b)
  {}

  lemma SectionIsClean(s: Section)
    requires ValidSection(s)
    ensures CleanRows(SectionRows(s))
  {
    hide Clean, MediaValue, RateValue, RowIf, PaceRows, CleanIf;
    var rateRows := if s.rate.Some? then [Row('a', RateValue(s.rate.value))] else [];
    MediaIsClean(s);
    RowIfIsClean('c', "", s.connection);
    if s.rate.Some? { RateIsClean(s.rate.value); }
    PaceIsClean(s.pace);
    RowIfIsClean('a', "ts-refclk:", s.tsRefclk);
    RowIfIsClean('a', "mediaclk:", s.mediaclk);
    var tail4 := RowIf('a', "ts-refclk:", s.tsRefclk) + RowIf('a', "mediaclk:", s.mediaclk);
    CleanTogether(RowIf('a', "ts-refclk:", s.tsRefclk), RowIf('a', "mediaclk:", s.mediaclk));
    CleanTogether(PaceRows(s.pace), tail4);
    CleanTogether(rateRows, PaceRows(s.pace) + tail4);
    CleanTogether(RowIf('c', "", s.connection), rateRows + (PaceRows(s.pace) + tail4));
    CleanTogether([Row('m', MediaValue(s))], RowIf('c', "", s.connection) + (rateRows + (PaceRows(s.pace) + tail4)));
  }

  lemma {:induction false} SectionsAreClean(ss: seq<Section>)
    requires ValidSections(ss)
    ensures CleanRows(SectionsRows(ss))
  {
    hide ValidSection, SectionRows, CleanRow;
    if ss != [] {
      SectionIsClean(ss[0]);
      SectionsAreClean(ss[1..]);
    }
  }

  // ---- The round trip -------------------------------------------------------

  lemma OriginReadsBack(d: Description)
    requires ValidDescription(d)
    ensures var value := d.user + [' '] + (d.id + [' '] + d.origin);
            SecondPart(value) == Some(d.id) && Clean(value)
  {
    hide Cut;
    CutFinds(d.user, ' ', d.id + [' '] + d.origin);
    CutFinds(d.id, ' ', d.origin);
  }

  lemma HeaderReadsBack(d: Description, rows: seq<Row>, reals: RealReader)
    requires ValidDescription(d)
    ensures FoldRows(Start, [Row('v', "0")] + ([Row('o', d.user + [' '] + (d.id + [' '] + d.origin))] +
                            ([Row('s', d.name)] + (RowIf('i', "", d.info) + rows))), reals)
         == FoldRows(State(Session(d.id, d.name, UnwrapOr(d.info, ""), []), None), rows, reals)
  {
    hide SecondPart, FoldRows;
    var origin := Row('o', d.user + [' '] + (d.id + [' '] + d.origin));
    OriginReadsBack(d);
    var st1 := State(Session(d.id, "", "", []), None);
    var st2 := State(Session(d.id, d.name, "", []), None);
    RowsConcat(Start, [Row('v', "0")], [origin] + ([Row('s', d.name)] + (RowIf('i', "", d.info) + rows)), reals);
    OneRow(Start, Row('v', "0"), reals);
    RowsConcat(Start, [origin], [Row('s', d.name)] + (RowIf('i', "", d.info) + rows), reals);
    OneRow(Start, origin, reals);
    RowsConcat(st1, [Row('s', d.name)], RowIf('i', "", d.info) + rows, reals);
    OneRow(st1, Row('s', d.name), reals);
    RowsConcat(st2, RowIf('i', "", d.info), rows, reals);
    InfoRow(st2, d.info, reals);
  }

  lemma InfoRow(st: State, o: Option<string>, reals: RealReader)
    requires st.cur == None && st.session.info == ""
    ensures FoldRows(st, RowIf('i', "", o), reals) == st.(session := st.session.(info := UnwrapOr(o, "")))
  {
    if o.Some? {
      assert "" + o.value == o.value;
      OneRow(st, Row('i', o.value), reals);
    }
  }

  lemma RowsAreClean(d: Description)
    requires ValidDescription(d)
    ensures CleanRows(Rows(d))
  {
    hide Clean, CleanIf, RowIf, SectionsRows;
    OriginReadsBack(d);
    ZeroIsClean();
    RowIfIsClean('i', "", d.info);
    SectionsAreClean(d.sections);
    var origin := Row('o', d.user + [' '] + (d.id + [' '] + d.origin));
    CleanTogether(RowIf('i', "", d.info), SectionsRows(d.sections));
    CleanTogether([Row('s', d.name)], RowIf('i', "", d.info) + SectionsRows(d.sections));
    CleanTogether([origin], [Row('s', d.name)] + (RowIf('i', "", d.info) + SectionsRows(d.sections)));
    CleanTogether([Row('v', "0")],
                  [origin] + ([Row('s', d.name)] + (RowIf('i', "", d.info) + SectionsRows(d.sections))));
  }

  lemma ZeroIsClean()
    ensures Clean("0")
  {}

  // Printing any canonical session and parsing the text gives back the session, with its
  // sections in order, every attribute on its own section, and the last one kept.
  lemma ParseUndoesPrint(d: Description, reals: RealReader)
    requires ValidDescription(d) && ReadsIntegers(reals)
    ensures Parsed(Printed(d), reals) == SessionOf(d)
  {
    hide Field, Fold, FoldRows, Lines, ReadsIntegers, SectionsRows, TextOf, Clean;
    RowsAreClean(d);
    TextFolds(Start, Rows(d), reals);
    HeaderReadsBack(d, SectionsRows(d.sections), reals);
    SectionsReadBack(State(Session(d.id, d.name, UnwrapOr(d.info, ""), []), None), d.sections, reals);
  }
}
