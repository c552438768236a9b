// SDP (RFC 4566): `parse_sdp`, a fold over the lines that fills one media section at a
// time, a printer of canonical sessions, and the laws between them.
module Sdp {
  import opened Basics
  import opened Text

  const DEFAULT_CLOCK_HZ: real := 48_000.0

  datatype Media = Media(
    kind: string, port: nat, payloadTypes: seq<nat>, connection: string, rtpmap: string,
    clockHz: real, channels: nat, ptimeMs: real, tsRefclk: string, mediaclk: string)

  datatype Session = Session(id: string, name: string, info: string, media: seq<Media>)

  // The session read so far and the media section being filled.
  datatype State = State(session: Session, cur: Option<Media>)

  const Start := State(Session("", "", "", []), None)

  // What `str::parse::<f64>` makes of a text, as an exact real.
  type RealReader = string -> Option<real>

  // ---- One line -------------------------------------------------------------

  // The second of at most six space-separated parts.
  function SecondPart(value: string): Option<string> {
    match Cut(value, ' ')
    case None => None
    case Some((_, rest)) =>
      match Cut(rest, ' ')
      case None => Some(rest)
      case Some((part, _)) => Some(part)
  }

  function PayloadTypes(words: seq<string>): seq<nat> {
    if words == [] then []
    else
      PayloadTypes(Front(words)) +
      match ParseUnsigned(Last(words), 255) case Some(n) => [n] case None => []
  }

  // A new section; with fewer than four parts, none.
  function Opened(value: string): Option<Media> {
    var parts := Words(value);
    if |parts| >= 4 then
      Some(Media(parts[0], UnwrapOr(ParseUnsigned(parts[1], 65535), 0), PayloadTypes(parts[3..]),
                 "", "", 0.0, 0, 0.0, "", ""))
    else None
  }

  function Pushed(st: State): seq<Media> {
    if st.cur.Some? then st.session.media + [st.cur.value] else st.session.media
  }

  function RtpMapped(m: Media, rest: string, reals: RealReader): Media {
    match Cut(rest, ' ')
    case None => m
    case Some((_, mapping)) =>
      var enc := Split(mapping, '/');
      var named := m.(rtpmap := mapping);
      var rated := if |enc| >= 2 then named.(clockHz := UnwrapOr(reals(enc[1]), DEFAULT_CLOCK_HZ)) else named;
      if |enc| >= 3 then rated.(channels := UnwrapOr(ParseUnsigned(enc[2], 255), 1)) else rated
  }

  function Counted(m: Media, rest: string): Media {
    match ParseUnsigned(Trim(rest), 0xFFFF_FFFF)
    case Some(frames) =>
      if m.clockHz > 0.0 then m.(ptimeMs := frames as real / m.clockHz * 1000.0) else m
    case None => m
  }

  function Attributed(m: Media, value: string, reals: RealReader): Media {
    if "rtpmap:" <= value then RtpMapped(m, value[7..], reals)
    else if "ptime:" <= value then m.(ptimeMs := UnwrapOr(reals(Trim(value[6..])), 1.0))
    else if "framecount:" <= value then Counted(m, value[11..])
    else if "ts-refclk:" <= value then m.(tsRefclk := value[10..])
    else if "mediaclk:" <= value then m.(mediaclk := value[9..])
    else m
  }

  function Field(st: State, key: char, value: string, reals: RealReader): State {
    match key
    case 'o' => st.(session := st.session.(id := UnwrapOr(SecondPart(value), st.session.id)))
    case 's' => st.(session := st.session.(name := value))
    case 'i' => if st.cur == None then st.(session := st.session.(info := value)) else st
    case 'm' => State(st.session.(media := Pushed(st)), Opened(value))
    case 'c' => if st.cur.Some? then st.(cur := Some(st.cur.value.(connection := value))) else st
    case 'a' => if st.cur.Some? then st.(cur := Some(Attributed(st.cur.value, value, reals))) else st
    case _ => st
  }

  function Step(st: State, line: string, reals: RealReader): State {
    var l := Trim(line);
    if |l| < 2 || l[1] != '=' then st else Field(st, l[0], l[2..], reals)
  }

  function Fold(st: State, lines: seq<string>, reals: RealReader): State {
    if lines == [] then st else Step(Fold(st, Front(lines), reals), Last(lines), reals)
  }

  function Finished(st: State): Session {
    st.session.(media := Pushed(st))
  }

  function Parsed(text: string, reals: RealReader): Session {
    Finished(Fold(Start, Lines(text), reals))
  }

  // `parse_sdp`.
  method ParseSdp(text: string, reals: RealReader) returns (session: Session)
    ensures session == Parsed(text, reals)
  {
    hide SecondPart, Opened, Attributed, Trim, Lines;
    session := Session("", "", "", []);
    var cur: Option<Media> := None;
    var lines := Lines(text);
    for i := 0 to |lines|
      invariant State(session, cur) == Fold(Start, lines[..i], reals)
    {
      assert Front(lines[..i + 1]) == lines[..i];
      var line := Trim(lines[i]);
      if |line| < 2 || line[1] != '=' { continue; }
      var value := line[2..];
      if line[0] == 'o' {
        var part := SecondPart(value);
        if part.Some? { session := session.(id := part.value); }
      } else if line[0] == 's' {
        session := session.(name := value);
      } else if line[0] == 'i' && cur == None {
        session := session.(info := value);
      } else if line[0] == 'm' {
        if cur.Some? { session := session.(media := session.media + [cur.value]); }
        cur := Opened(value);
      } else if line[0] == 'c' {
        if cur.Some? { cur := Some(cur.value.(connection := value)); }
      } else if line[0] == 'a' {
        if cur == None { continue; }
        cur := Some(Attributed(cur.value, value, reals));
      }
    }
    assert lines[..|lines|] == lines;
    if cur.Some? {
      session := session.(media := session.media + [cur.value]);
    }
  }

  // ---- Sections -------------------------------------------------------------

  lemma {:induction false} FoldConcat(st: State, a: seq<string>, b: seq<string>, reals: RealReader)
    ensures Fold(st, a + b, reals) == Fold(Fold(st, a, reals), b, reals)
  {
    hide Step;
    if b == [] {
      assert a + b == a;
    } else {
      assert Front(a + b) == a + Front(b);
      FoldConcat(st, a, Front(b), reals);
    }
  }

  predicate OpensMedia(line: string) {
    |Trim(line)| >= 2 && Trim(line)[0] == 'm' && Trim(line)[1] == '='
  }

  // From a media line on, the lines act alike whatever sections came before.
  ghost predicate Alike(st: State, alone: State, before: seq<Media>) {
    st.cur == alone.cur && st.session.media == before + alone.session.media
  }

  lemma StepAlike(st: State, alone: State, before: seq<Media>, line: string, reals: RealReader)
    requires Alike(st, alone, before)
    ensures Alike(Step(st, line, reals), Step(alone, line, reals), before)
  {
    hide SecondPart, Opened, Attributed, Trim;
  }

  lemma {:induction false} FoldAlike(st: State, alone: State, before: seq<Media>, lines: seq<string>, reals: RealReader)
    requires Alike(st, alone, before)
    ensures Alike(Fold(st, lines, reals), Fold(alone, lines, reals), before)
  {
    hide Step, Alike;
    if lines != [] {
      FoldAlike(st, alone, before, Front(lines), reals);
      StepAlike(Fold(st, Front(lines), reals), Fold(alone, Front(lines), reals), before, Last(lines), reals);
    }
  }

  // Whatever the lines, a media line starts afresh: the sections before it are kept as
  // they stood, and the lines from it on yield the sections they yield on their own.
  lemma SectionsCompose(a: seq<string>, line: string, b: seq<string>, reals: RealReader)
    requires OpensMedia(line)
    ensures Finished(Fold(Start, a + [line] + b, reals)).media
         == Finished(Fold(Start, a, reals)).media + Finished(Fold(Start, [line] + b, reals)).media
  {
    hide Fold, Step;
    FoldConcat(Start, a + [line], b, reals);
    FoldConcat(Start, a, [line], reals);
    FoldConcat(Start, [line], b, reals);
    var before := Fold(Start, a, reals);
    MediaLineAlike(before, line, reals);
    FoldAlike(Fold(before, [line], reals), Fold(Start, [line], reals), Pushed(before), b, reals);
  }

  lemma MediaLineAlike(st: State, line: string, reals: RealReader)
    requires OpensMedia(line)
    ensures Alike(Fold(st, [line], reals), Fold(Start, [line], reals), Pushed(st))
  {
    hide Opened, Trim;
    assert Fold(st, [line], reals) == Step(st, line, reals);
    assert Fold(Start, [line], reals) == Step(Start, line, reals);
  }
}
