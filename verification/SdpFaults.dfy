// What a parse makes of lines that are out of place, repeated or malformed.
module SdpFaults {
  import opened Basics
  import opened Text
  import opened Sdp
  import opened SdpPrint

  // ---- Numbers --------------------------------------------------------------

  lemma {:induction false} LeadingZero(s: string)
    requires forall i :: 0 <= i < |s| ==> Digit(s[i])
    ensures ValueOf(['0'] + s) == ValueOf(s)
  {
    if s == [] {
      assert Front(['0']) == [];
    } else {
      assert Front(['0'] + s) == ['0'] + Front(s);
      LeadingZero(Front(s));
    }
  }

  // A number is read with or without a plus sign and a leading zero, if it is in range.
  lemma UnsignedReads(n: nat, max: nat)
    ensures var r := if n <= max then Some(n) else None;
            && ParseUnsigned(Decimal(n), max) == r
            && ParseUnsigned(['+'] + Decimal(n), max) == r
            && ParseUnsigned(['0'] + Decimal(n), max) == r
  {
    hide ValueOf, Decimal;
    DecimalReadsBack(n);
    DecimalIsWord(n);
    LeadingZero(Decimal(n));
    assert (['+'] + Decimal(n))[1..] == Decimal(n);
    assert !Digit('+');
  }

  // Anything else is none.
  lemma UnsignedRefuses(s: string, max: nat)
    requires s == "" || s == "+" || (!Digit(s[0]) && s[0] != '+') || exists i :: 0 < i < |s| && !Digit(s[i])
    ensures ParseUnsigned(s, max) == None
  {
    if s != "" && exists i :: 0 < i < |s| && !Digit(s[i]) {
      var i :| 0 < i < |s| && !Digit(s[i]);
      assert s[1..][i - 1] == s[i];
    }
  }

  // ---- Lines ----------------------------------------------------------------

  lemma LineIsField(st: State, key: char, value: string, reals: RealReader)
    requires !Space(key) && Clean(value)
    ensures Step(st, [key, '='] + value, reals) == Field(st, key, value, reals)
  {
    hide Field;
    var line := [key, '='] + value;
    assert Last(line) == if value == "" then '=' else Last(value);
    TrimTight(line);
    assert line[2..] == value;
  }

  // A later name, description or connection replaces an earlier one; a description inside
  // a media section, and a connection or an attribute outside one, are ignored.
  lemma LinesInPlace(st: State, value: string, reals: RealReader)
    requires Clean(value)
    ensures Step(st, ['s', '='] + value, reals) == st.(session := st.session.(name := value))
    ensures Step(st, ['i', '='] + value, reals) ==
            if st.cur == None then st.(session := st.session.(info := value)) else st
    ensures Step(st, ['c', '='] + value, reals) ==
            match st.cur case Some(m) => st.(cur := Some(m.(connection := value))) case None => st
    ensures st.cur == None ==> Step(st, ['a', '='] + value, reals) == st
  {
    hide Step;
    LineIsField(st, 's', value, reals);
    LineIsField(st, 'i', value, reals);
    LineIsField(st, 'c', value, reals);
    LineIsField(st, 'a', value, reals);
  }

  // The session is identified by the second part of the last origin that has one.
  lemma OriginReads(st: State, user: string, id: string, rest: string, reals: RealReader)
    requires ' ' !in user && ' ' !in id && Clean(user) && Clean(id) && id != "" && Clean(rest) && rest != ""
    ensures var named := st.(session := st.session.(id := id));
            && Step(st, ['o', '='] + (user + [' '] + (id + [' '] + rest)), reals) == named
            && Step(st, ['o', '='] + (user + [' '] + id), reals) == named
            && Step(st, ['o', '='] + user, reals) == st
  {
    hide Step, Cut;
    LineIsField(st, 'o', user + [' '] + (id + [' '] + rest), reals);
    LineIsField(st, 'o', user + [' '] + id, reals);
    LineIsField(st, 'o', user, reals);
    CutFinds(user, ' ', id + [' '] + rest);
    CutFinds(id, ' ', rest);
    CutFinds(user, ' ', id);
    CutMisses(id, ' ');
    CutMisses(user, ' ');
  }

  // Lines of any other form are skipped.
  lemma OtherLinesSkipped(st: State, line: string, reals: RealReader)
    requires var l := Trim(line); |l| < 2 || l[1] != '=' || l[0] !in {'o', 's', 'i', 'm', 'c', 'a'}
    ensures Step(st, line, reals) == st
  {}

  // ---- Media lines ----------------------------------------------------------

  // A media line with fewer than four words opens no section, though it ends the one
  // before it; one whose port does not read opens one on port 0.
  lemma MediaLineReads(st: State, kind: string, port: string, more: seq<string>, reals: RealReader)
    requires Word(kind) && Word(port) && forall i :: 0 <= i < |more| ==> Word(more[i])
    ensures var next := Step(st, ['m', '='] + (kind + Spaced([port] + more)), reals);
            && next.session == st.session.(media := Finished(st).media)
            && (|more| < 2 ==> next.cur == None)
            && (|more| >= 2 ==>
                  next.cur == Some(Media(kind, UnwrapOr(ParseUnsigned(port, 65535), 0), PayloadTypes(more[1..]),
                                         "", "", 0.0, 0, 0.0, "", "")))
  {
    hide Step, Words, ParseUnsigned, PayloadTypes, Word, Clean;
    var fields := [port] + more;
    var value := kind + Spaced(fields);
    WordIsClean(kind);
    SpacedIsClean(fields);
    JoinClean("", kind, Spaced(fields));
    assert "" + value == value;
    LineIsField(st, 'm', value, reals);
    WordsOfSpaced(fields);
    FirstWordOf(kind, fields);
    assert Words(value) == [kind] + fields;
    if |more| >= 2 {
      assert Words(value)[3..] == more[1..];
    }
  }

  // Of the payload types those that read as an octet are kept, in order.
  lemma {:induction false} TypesRead(a: seq<string>, w: string, b: seq<string>)
    ensures PayloadTypes(a + [w] + b) == PayloadTypes(a) + Octet(w) + PayloadTypes(b)
  {
    hide PayloadTypes, Octet;
    if b == [] {
      assert a + [w] + b == a + [w];
      TypesPushed(a, w);
      NoTypes();
    } else {
      assert a + [w] + b == a + [w] + Front(b) + [Last(b)] && b == Front(b) + [Last(b)];
      TypesRead(a, w, Front(b));
      TypesPushed(a + [w] + Front(b), Last(b));
      TypesPushed(Front(b), Last(b));
    }
  }

  function Octet(w: string): seq<nat> {
    match ParseUnsigned(w, 255) case Some(n) => [n] case None => []
  }

  lemma TypesPushed(a: seq<string>, w: string)
    ensures PayloadTypes(a + [w]) == PayloadTypes(a) + Octet(w)
  {
    hide ParseUnsigned;
    assert Front(a + [w]) == a;
  }

  lemma NoTypes()
    ensures PayloadTypes([]) == []
  {}

  // ---- Attributes -----------------------------------------------------------

  // A clock rate that does not read is 48 kHz, a channel count that does not read is one;
  // without a rate or a count the section keeps what it has.
  lemma RateReads(m: Media, payloadType: string, encoding: string, clock: string, channels: string, reals: RealReader)
    requires ' ' !in payloadType && '/' !in encoding && '/' !in clock && '/' !in channels
    ensures Attributed(m, "rtpmap:" + (payloadType + [' '] + encoding), reals) == m.(rtpmap := encoding)
    ensures Attributed(m, "rtpmap:" + (payloadType + [' '] + (encoding + ['/'] + clock)), reals)
         == m.(rtpmap := encoding + ['/'] + clock, clockHz := UnwrapOr(reals(clock), 48000.0))
    ensures Attributed(m, "rtpmap:" + (payloadType + [' '] + (encoding + ['/'] + (clock + ['/'] + channels))), reals)
         == m.(rtpmap := encoding + ['/'] + (clock + ['/'] + channels), clockHz := UnwrapOr(reals(clock), 48000.0),
               channels := UnwrapOr(ParseUnsigned(channels, 255), 1))
  {
    hide Split, ParseUnsigned, Cut;
    SplitOne(encoding, '/');
    SplitOne(clock, '/');
    SplitOne(channels, '/');
    SplitMore(encoding, '/', clock);
    SplitMore(clock, '/', channels);
    SplitMore(encoding, '/', clock + ['/'] + channels);
    MappingReads(m, payloadType, encoding, reals);
    MappingReads(m, payloadType, encoding + ['/'] + clock, reals);
    MappingReads(m, payloadType, encoding + ['/'] + (clock + ['/'] + channels), reals);
    hide Attributed;
  }

  function Mapped(m: Media, mapping: string, reals: RealReader): Media {
    var enc := Split(mapping, '/');
    m.(rtpmap := mapping,
       clockHz := if |enc| >= 2 then UnwrapOr(reals(enc[1]), 48000.0) else m.clockHz,
       channels := if |enc| >= 3 then UnwrapOr(ParseUnsigned(enc[2], 255), 1) else m.channels)
  }

  lemma MappingReads(m: Media, payloadType: string, mapping: string, reals: RealReader)
    requires ' ' !in payloadType
    ensures Attributed(m, "rtpmap:" + (payloadType + [' '] + mapping), reals) == Mapped(m, mapping, reals)
  {
    hide Split, ParseUnsigned, Cut;
    assert ("rtpmap:" + (payloadType + [' '] + mapping))[7..] == payloadType + [' '] + mapping;
    CutFinds(payloadType, ' ', mapping);
  }

  // A packet time that does not read is 1 ms; a frame count needs to read and a clock rate.
  lemma PaceReads(m: Media, text: string, reals: RealReader)
    ensures Attributed(m, "ptime:" + text, reals) == m.(ptimeMs := UnwrapOr(reals(Trim(text)), 1.0))
    ensures ParseUnsigned(Trim(text), 0xFFFF_FFFF) == None || m.clockHz <= 0.0 ==>
              Attributed(m, "framecount:" + text, reals) == m
  {
    hide Trim, ParseUnsigned, RtpMapped;
    var ptime, frames := "ptime:" + text, "framecount:" + text;
    assert ptime[0] == 'p' && "ptime:" <= ptime && ptime[6..] == text;
    assert frames[0] == 'f' && "framecount:" <= frames && frames[11..] == text;
  }

  // A mapping without a space, and any other attribute, change nothing.
  lemma OtherAttributesSkipped(m: Media, value: string, reals: RealReader)
    requires var v := value;
             if "rtpmap:" <= v then ' ' !in v
             else !("ptime:" <= v) && !("framecount:" <= v) && !("ts-refclk:" <= v) && !("mediaclk:" <= v)
    ensures Attributed(m, value, reals) == m
  {
    hide Cut;
    if "rtpmap:" <= value {
      CutMisses(value[7..], ' ');
    }
  }
}
