// DNS messages (sections 4.1.1 to 4.1.4 of RFC 1035): skipping names, and the instance
// name announced by the first usable PTR record of a response.
module Dns {
  import opened Basics
  import Text

  const PTR: nat := 12
  const HEADER: nat := 12

  // ---- Names ----------------------------------------------------------------

  // Past the name at off: a root label or a compression pointer ends it; the two other
  // label types are refused.
  function SkipName(p: seq<byte>, off: nat): Option<nat>
    decreases |p| - off
  {
    if off >= |p| then None
    else if p[off] == 0 then Some(off + 1)
    else if p[off] >= 0xC0 then Some(off + 2)
    else if p[off] >= 0x40 then None
    else SkipName(p, off + 1 + p[off] as nat)
  }

  // `skip_dns_name`.
  method SkipDnsName(p: seq<byte>, start: nat) returns (end: Option<nat>)
    ensures end == SkipName(p, start)
  {
    var off := start;
    while true
      invariant SkipName(p, off) == SkipName(p, start)
      decreases |p| - off
    {
      if off >= |p| { return None; }
      var b := p[off];
      if b == 0 { return Some(off + 1); }
      if b as nat / 0x40 == 3 { return Some(off + 2); }
      if b as nat / 0x40 != 0 { return None; }
      off := off + 1 + b as nat;
    }
  }

  // ---- Text of a label ------------------------------------------------------

  predicate WideSpace(a: byte, b: byte, c: byte) {
    || (a == 0xE1 && b == 0x9A && c == 0x80)
    || (a == 0xE2 && b == 0x80 && (0x80 <= c <= 0x8A || c == 0xA8 || c == 0xA9 || c == 0xAF))
    || (a == 0xE2 && b == 0x81 && c == 0x9F)
    || (a == 0xE3 && b == 0x80 && c == 0x80)
  }

  // Octets of the white-space character, in UTF-8, that s starts or ends with; 0 if none.
  function SpaceBefore(s: seq<byte>): (n: nat)
    ensures n <= |s|
  {
    if |s| >= 1 && (9 <= s[0] <= 13 || s[0] == 32) then 1
    else if |s| >= 2 && s[0] == 0xC2 && (s[1] == 0x85 || s[1] == 0xA0) then 2
    else if |s| >= 3 && WideSpace(s[0], s[1], s[2]) then 3
    else 0
  }

  function SpaceAfter(s: seq<byte>): (n: nat)
    ensures n <= |s|
  {
    var k := |s|;
    if k >= 1 && (9 <= s[k - 1] <= 13 || s[k - 1] == 32) then 1
    else if k >= 2 && s[k - 2] == 0xC2 && (s[k - 1] == 0x85 || s[k - 1] == 0xA0) then 2
    else if k >= 3 && WideSpace(s[k - 3], s[k - 2], s[k - 1]) then 3
    else 0
  }

  function TrimmedFront(s: seq<byte>): seq<byte> {
    if SpaceBefore(s) == 0 then s else TrimmedFront(s[SpaceBefore(s)..])
  }

  function TrimmedBack(s: seq<byte>): seq<byte> {
    if SpaceAfter(s) == 0 then s else TrimmedBack(s[..|s| - SpaceAfter(s)])
  }

  predicate Printable(s: seq<byte>) {
    s != [] && forall i :: 0 <= i < |s| ==> 32 <= s[i] <= 126
  }

  // A label is used when, white space aside, it is non-empty printable ASCII; white
  // space around printable text is valid UTF-8, so nothing else need be checked.
  function LabelText(octets: seq<byte>): Option<seq<byte>> {
    var s := TrimmedBack(TrimmedFront(octets));
    if Printable(s) then Some(s) else None
  }

  // `first_dns_label`.
  function FirstLabel(p: seq<byte>, off: nat): Option<seq<byte>> {
    if off >= |p| || p[off] == 0 || p[off] >= 0x40 || off + 1 + p[off] as nat > |p| then None
    else LabelText(p[off + 1..off + 1 + p[off] as nat])
  }

  // ---- The response ---------------------------------------------------------

  function SkipQuestions(p: seq<byte>, off: nat, n: nat): Option<nat>
    decreases n
  {
    if n == 0 then Some(off)
    else
      match SkipName(p, off)
      case None => None
      case Some(end) => SkipQuestions(p, end + 4, n - 1)
  }

  // One answer record: an early return, a usable name, or the offset past it.
  datatype Turn = Malformed | Found(name: seq<byte>) | Next(off: nat)

  function ReadAnswer(p: seq<byte>, off: nat): Turn {
    match SkipName(p, off)
    case None => Malformed
    case Some(end) =>
      if end + 10 > |p| then Malformed
      else
        var name := if U16(p[end], p[end + 1]) == PTR then FirstLabel(p, end + 10) else None;
        var next := end + 10 + U16(p[end + 8], p[end + 9]);
        if name.Some? then Found(name.value)
        else if next > |p| then Malformed
        else Next(next)
  }

  function WalkAnswers(p: seq<byte>, off: nat, n: nat): Option<seq<byte>>
    decreases n
  {
    if n == 0 then None
    else
      match ReadAnswer(p, off)
      case Malformed => None
      case Found(name) => Some(name)
      case Next(next) => WalkAnswers(p, next, n - 1)
  }

  function Extracted(p: seq<byte>): Option<seq<byte>> {
    if |p| < HEADER then None
    else
      match SkipQuestions(p, HEADER, U16(p[4], p[5]))
      case None => None
      case Some(off) => WalkAnswers(p, off, U16(p[6], p[7]))
  }

  // `extract_instance_from_ptr_response`: both loops, with every early return.
  method ExtractInstance(p: seq<byte>) returns (name: Option<seq<byte>>)
    ensures name == Extracted(p)
  {
    hide U16, FirstLabel, SkipName;
    if |p| < 12 {
      return None;
    }
    var questions, answers := U16(p[4], p[5]), U16(p[6], p[7]);
    var off: nat := 12;
    for i := 0 to questions
      invariant SkipQuestions(p, off, questions - i) == SkipQuestions(p, HEADER, questions)
    {
      var end := SkipDnsName(p, off);
      if end == None { return None; }
      off := end.value + 4;
    }
    for i := 0 to answers
      invariant WalkAnswers(p, off, answers - i) == Extracted(p)
    {
      var end := SkipDnsName(p, off);
      if end == None { return None; }
      off := end.value;
      if off + 10 > |p| { return None; }
      var kind := U16(p[off], p[off + 1]);
      off := off + 8;
      var length := U16(p[off], p[off + 1]);
      off := off + 2;
      if kind == 12 {
        var text := FirstLabel(p, off);
        if text.Some? { return text; }
      }
      off := off + length;
      if off > |p| { return None; }
    }
    name := None;
  }

  // ---- Encoding -------------------------------------------------------------

  // Labels, then the root label or a compression pointer.
  datatype Ending = Root | Pointer(hi: byte, lo: byte)
  datatype Name = Name(labels: seq<seq<byte>>, ending: Ending)
  datatype Question = Question(name: Name, kindAndClass: seq<byte>)
  datatype Rdata = Target(name: Name) | Opaque(octets: seq<byte>)
  datatype Answer = Answer(name: Name, kind: nat, classAndTtl: seq<byte>, rdata: Rdata)

  ghost predicate ValidName(n: Name) {
    && (forall i :: 0 <= i < |n.labels| ==> 0 < |n.labels[i]| < 0x40)
    && (n.ending.Pointer? ==> n.ending.hi >= 0xC0)
  }

  ghost predicate ValidQuestions(qs: seq<Question>) {
    forall i :: 0 <= i < |qs| ==> ValidName(qs[i].name) && |qs[i].kindAndClass| == 4
  }

  // A PTR record holds a name; what other records hold does not matter.
  ghost predicate ValidAnswer(a: Answer) {
    && ValidName(a.name) && a.kind < 0x1_0000 && |a.classAndTtl| == 6
    && (a.kind == 12 ==> a.rdata.Target?)
    && (a.rdata.Target? ==> ValidName(a.rdata.name))
    && |EncodeRdata(a.rdata)| < 0x1_0000
  }

  ghost predicate ValidAnswers(answers: seq<Answer>) {
    forall i :: 0 <= i < |answers| ==> ValidAnswer(answers[i])
  }

  function EncodeEnding(e: Ending): seq<byte> {
    match e
    case Root => [0]
    case Pointer(hi, lo) => [hi, lo]
  }

  ghost function EncodeLabels(labels: seq<seq<byte>>, rest: seq<byte>): seq<byte> {
    if labels == [] then rest
    else [if |labels[0]| < 0x40 then |labels[0]| as byte else 0] + labels[0] + EncodeLabels(labels[1..], rest)
  }

  ghost function EncodeName(n: Name, rest: seq<byte>): seq<byte> {
    EncodeLabels(n.labels, EncodeEnding(n.ending) + rest)
  }

  ghost function EncodeRdata(r: Rdata): seq<byte> {
    match r
    case Target(name) => EncodeName(name, [])
    case Opaque(octets) => octets
  }

  ghost function EncodeQuestions(qs: seq<Question>, rest: seq<byte>): seq<byte> {
    if qs == [] then rest else EncodeName(qs[0].name, qs[0].kindAndClass + EncodeQuestions(qs[1..], rest))
  }

  ghost function RecordBody(a: Answer, rest: seq<byte>): seq<byte>
    requires ValidAnswer(a)
  {
    Octets(a.kind) + (a.classAndTtl + (Octets(|EncodeRdata(a.rdata)|) + (EncodeRdata(a.rdata) + rest)))
  }

  ghost function EncodeAnswers(answers: seq<Answer>, rest: seq<byte>): seq<byte>
    requires ValidAnswers(answers)
  {
    if answers == [] then rest
    else EncodeName(answers[0].name, RecordBody(answers[0], EncodeAnswers(answers[1..], rest)))
  }

  // A response: identifier and flags, the two counts read, the two that are not, the
  // questions, the answers, and whatever follows.
  ghost function Encode(head: seq<byte>, unread: seq<byte>, qs: seq<Question>, answers: seq<Answer>,
                        rest: seq<byte>): seq<byte>
    requires |head| == 4 && |unread| == 4
    requires ValidQuestions(qs) && |qs| < 0x1_0000 && ValidAnswers(answers) && |answers| < 0x1_0000
  {
    head + Octets(|qs|) + Octets(|answers|) + unread + EncodeQuestions(qs, EncodeAnswers(answers, rest))
  }

  // ---- Round trip -----------------------------------------------------------

  // Skipping lands exactly at the end of an encoded name.
  lemma {:induction false} SkipLandsAtEnd(p: seq<byte>, off: nat, n: Name, rest: seq<byte>)
    requires ValidName(n) && Reads(p, off, EncodeName(n, rest))
    ensures |rest| <= |p| && SkipName(p, off) == Some(|p| - |rest|)
    ensures Reads(p, |p| - |rest|, rest)
    decreases |n.labels|
  {
    hide Reads;
    if n.labels == [] {
      var code := EncodeEnding(n.ending);
      Peel(p, off, code, rest);
      assert p[off + 0] == code[0];
    } else {
      var first, tail := n.labels[0], n.(labels := n.labels[1..]);
      var code, others := [|first| as byte] + first, EncodeName(tail, rest);
      Peel(p, off, code, others);
      assert p[off + 0] == code[0];
      SkipLandsAtEnd(p, off + 1 + |first|, tail, rest);
    }
  }

  ghost function NameText(n: Name): Option<seq<byte>> {
    if n.labels == [] then None else LabelText(n.labels[0])
  }

  lemma FirstLabelReadsBack(p: seq<byte>, off: nat, n: Name, rest: seq<byte>)
    requires ValidName(n) && Reads(p, off, EncodeName(n, rest))
    ensures FirstLabel(p, off) == NameText(n)
  {
    hide Reads, LabelText;
    if n.labels == [] {
      var code := EncodeEnding(n.ending);
      Peel(p, off, code, rest);
      assert p[off + 0] == code[0];
    } else {
      var first := n.labels[0];
      var code, others := [|first| as byte] + first, EncodeName(n.(labels := n.labels[1..]), rest);
      Peel(p, off, code, others);
      assert p[off + 0] == code[0];
      forall i | 0 <= i < |first| ensures p[off + 1..off + 1 + |first|][i] == first[i] {
        assert p[off + (1 + i)] == code[1 + i];
      }
      assert p[off + 1..off + 1 + |first|] == first;
    }
  }

  lemma {:induction false} QuestionsReadBack(p: seq<byte>, off: nat, qs: seq<Question>, rest: seq<byte>)
    requires ValidQuestions(qs) && Reads(p, off, EncodeQuestions(qs, rest))
    ensures |rest| <= |p| && SkipQuestions(p, off, |qs|) == Some(|p| - |rest|)
    ensures Reads(p, |p| - |rest|, rest)
    decreases |qs|
  {
    hide SkipName, EncodeName;
    if qs == [] {
      assert off == |p| - |rest|;
    } else {
      var others := EncodeQuestions(qs[1..], rest);
      SkipLandsAtEnd(p, off, qs[0].name, qs[0].kindAndClass + others);
      Peel(p, |p| - |qs[0].kindAndClass + others|, qs[0].kindAndClass, others);
      QuestionsReadBack(p, |p| - |others|, qs[1..], rest);
    }
  }

  ghost function TextOf(a: Answer): Option<seq<byte>>
    requires ValidAnswer(a)
  {
    if a.kind == 12 then NameText(a.rdata.name) else None
  }

  // The instance name a response announces: the first PTR record with a usable label.
  ghost function FirstPtr(answers: seq<Answer>): Option<seq<byte>>
    requires ValidAnswers(answers)
  {
    if answers == [] then None
    else if TextOf(answers[0]).Some? then TextOf(answers[0])
    else FirstPtr(answers[1..])
  }

  lemma {:induction false} LabelsThen(labels: seq<seq<byte>>, a: seq<byte>, b: seq<byte>)
    ensures EncodeLabels(labels, a) + b == EncodeLabels(labels, a + b)
  {
    if labels != [] {
      LabelsThen(labels[1..], a, b);
      var head := [if |labels[0]| < 0x40 then |labels[0]| as byte else 0] + labels[0];
      assert head + EncodeLabels(labels[1..], a) + b == head + (EncodeLabels(labels[1..], a) + b);
    }
  }

  lemma RecordReadsBack(p: seq<byte>, end: nat, a: Answer, rest: seq<byte>)
    requires ValidAnswer(a) && Reads(p, end, RecordBody(a, rest))
    ensures end + 10 <= |p| && U16(p[end], p[end + 1]) == a.kind
    ensures |rest| <= |p| && end + 10 + U16(p[end + 8], p[end + 9]) == |p| - |rest|
    ensures Reads(p, |p| - |rest|, rest)
    ensures a.kind == 12 ==> FirstLabel(p, end + 10) == NameText(a.rdata.name)
  {
    hide Reads, Octets, U16, EncodeRdata, FirstLabel, NameText, ValidName;
    var data := EncodeRdata(a.rdata);
    PeelOctets(p, end, a.kind, a.classAndTtl + (Octets(|data|) + (data + rest)));
    Peel(p, end + 2, a.classAndTtl, Octets(|data|) + (data + rest));
    PeelOctets(p, end + 8, |data|, data + rest);
    Peel(p, end + 10, data, rest);
    if a.kind == PTR {
      TargetThen(a.rdata, rest);
      FirstLabelReadsBack(p, end + 10, a.rdata.name, rest);
    }
  }

  lemma TargetThen(r: Rdata, rest: seq<byte>)
    requires r.Target?
    ensures EncodeRdata(r) + rest == EncodeName(r.name, rest)
  {
    LabelsThen(r.name.labels, EncodeEnding(r.name.ending) + [], rest);
    assert EncodeEnding(r.name.ending) + [] + rest == EncodeEnding(r.name.ending) + rest;
  }

  lemma AnswerReadsBack(p: seq<byte>, off: nat, a: Answer, rest: seq<byte>)
    requires ValidAnswer(a) && Reads(p, off, EncodeName(a.name, RecordBody(a, rest)))
    ensures |rest| <= |p| && Reads(p, |p| - |rest|, rest)
    ensures ReadAnswer(p, off) == if TextOf(a).Some? then Found(TextOf(a).value) else Next(|p| - |rest|)
  {
    hide Reads, SkipName, EncodeName, RecordBody, NameText, FirstLabel, U16;
    SkipLandsAtEnd(p, off, a.name, RecordBody(a, rest));
    RecordReadsBack(p, |p| - |RecordBody(a, rest)|, a, rest);
  }

  lemma {:induction false} AnswersReadBack(p: seq<byte>, off: nat, answers: seq<Answer>, rest: seq<byte>)
    requires ValidAnswers(answers) && Reads(p, off, EncodeAnswers(answers, rest))
    ensures WalkAnswers(p, off, |answers|) == FirstPtr(answers)
    decreases |answers|
  {
    if answers != [] {
      hide Reads, ReadAnswer, EncodeName, RecordBody, NameText, ValidAnswer;
      var others := EncodeAnswers(answers[1..], rest);
      AnswerReadsBack(p, off, answers[0], others);
      AnswersReadBack(p, |p| - |others|, answers[1..], rest);
    }
  }

  // For any questions and answers the walker finds exactly that name, or none.
  lemma ExtractUndoesEncode(head: seq<byte>, unread: seq<byte>, qs: seq<Question>, answers: seq<Answer>,
                            rest: seq<byte>)
    requires |head| == 4 && |unread| == 4
    requires ValidQuestions(qs) && |qs| < 0x1_0000 && ValidAnswers(answers) && |answers| < 0x1_0000
    ensures Extracted(Encode(head, unread, qs, answers, rest)) == FirstPtr(answers)
  {
    hide EncodeQuestions, EncodeAnswers, SkipQuestions, WalkAnswers, FirstPtr, U16, Octets;
    hide ValidQuestions, ValidAnswers;
    var p := Encode(head, unread, qs, answers, rest);
    var body := EncodeAnswers(answers, rest);
    OctetPair(|qs|);
    OctetPair(|answers|);
    assert p[4] == Octets(|qs|)[0] && p[5] == Octets(|qs|)[1];
    assert p[6] == Octets(|answers|)[0] && p[7] == Octets(|answers|)[1];
    assert p[HEADER..] == EncodeQuestions(qs, body);
    QuestionsReadBack(p, HEADER, qs, body);
    AnswersReadBack(p, |p| - |body|, answers, rest);
  }

  // ---- Every payload --------------------------------------------------------

  lemma {:induction false} TrimmedFrontIsBare(s: seq<byte>)
    ensures SpaceBefore(TrimmedFront(s)) == 0
  {
    if SpaceBefore(s) > 0 {
      TrimmedFrontIsBare(s[SpaceBefore(s)..]);
    }
  }

  lemma {:induction false} TrimmedBackIsBare(s: seq<byte>)
    ensures SpaceAfter(TrimmedBack(s)) == 0
    ensures TrimmedBack(s) <= s
  {
    if SpaceAfter(s) > 0 {
      TrimmedBackIsBare(s[..|s| - SpaceAfter(s)]);
    }
  }

  lemma LabelTextIsBare(octets: seq<byte>)
    ensures var text := LabelText(octets);
            text.Some? ==> Printable(text.value) && SpaceBefore(text.value) == 0 && SpaceAfter(text.value) == 0
  {
    var s := TrimmedFront(octets);
    TrimmedFrontIsBare(octets);
    TrimmedBackIsBare(s);
    PrefixIsBare(s, TrimmedBack(s));
  }

  lemma PrefixIsBare(s: seq<byte>, t: seq<byte>)
    requires t <= s && SpaceBefore(s) == 0
    ensures SpaceBefore(t) == 0
  {}

  lemma {:induction false} AnswersAreBare(p: seq<byte>, off: nat, n: nat)
    ensures var name := WalkAnswers(p, off, n);
            name.Some? ==> Printable(name.value) && SpaceBefore(name.value) == 0 && SpaceAfter(name.value) == 0
    decreases n
  {
    hide LabelText, Printable, SpaceBefore, SpaceAfter, SkipName, U16;
    if n > 0 {
      var end := SkipName(p, off);
      if end.Some? && end.value + 10 < |p| && end.value + 11 + p[end.value + 10] as nat <= |p| {
        LabelTextIsBare(p[end.value + 11..end.value + 11 + p[end.value + 10] as nat]);
      }
      var t := ReadAnswer(p, off);
      if t.Next? {
        AnswersAreBare(p, t.off, n - 1);
      }
    }
  }

  // Whatever the payload, a name is printable ASCII without white space at its ends.
  lemma ExtractedIsBare(p: seq<byte>)
    ensures var name := Extracted(p);
            name.Some? ==> Printable(name.value) && SpaceBefore(name.value) == 0 && SpaceAfter(name.value) == 0
  {
    hide WalkAnswers, Printable, SpaceBefore, SpaceAfter;
    if |p| >= HEADER && SkipQuestions(p, HEADER, U16(p[4], p[5])).Some? {
      AnswersAreBare(p, SkipQuestions(p, HEADER, U16(p[4], p[5])).value, U16(p[6], p[7]));
    }
  }

  // ---- Labels ---------------------------------------------------------------

  // The character with this code point, in UTF-8 (section 3 of RFC 3629).
  ghost predicate Encodes(w: seq<byte>, n: int) {
    || (0 <= n < 0x80 && |w| == 1 && w[0] as int == n)
    || (0x80 <= n < 0x800 && |w| == 2 && w[0] as int == 0xC0 + n / 0x40 && w[1] as int == 0x80 + n % 0x40)
    || (0x800 <= n < 0x1_0000 && |w| == 3 && w[0] as int == 0xE0 + n / 0x1000
        && w[1] as int == 0x80 + n / 0x40 % 0x40 && w[2] as int == 0x80 + n % 0x40)
  }

  // One white-space character.
  ghost predicate White(w: seq<byte>) {
    exists n :: n in Text.WHITE_SPACE && Encodes(w, n)
  }

  ghost predicate AllWhite(ws: seq<seq<byte>>) {
    forall i :: 0 <= i < |ws| ==> White(ws[i])
  }

  ghost function Joined(ws: seq<seq<byte>>): seq<byte> {
    if ws == [] then [] else Joined(Front(ws)) + Last(ws)
  }

  lemma WhiteIsListed(w: seq<byte>)
    requires White(w)
    ensures || (|w| == 1 && (9 <= w[0] <= 13 || w[0] == 32))
            || (|w| == 2 && w[0] == 0xC2 && (w[1] == 0x85 || w[1] == 0xA0))
            || (|w| == 3 && WideSpace(w[0], w[1], w[2]))
  {}

  lemma WhiteIsFound(w: seq<byte>, s: seq<byte>)
    requires White(w)
    ensures SpaceBefore(w + s) == |w| && SpaceAfter(s + w) == |w| > 0
  {
    WhiteIsListed(w);
    hide White;
    assert forall i :: 0 <= i < |w| ==> (w + s)[i] == w[i] && (s + w)[|s| + i] == w[i];
  }

  lemma {:induction false} FrontTrims(ws: seq<seq<byte>>, s: seq<byte>)
    requires AllWhite(ws)
    ensures TrimmedFront(Joined(ws) + s) == TrimmedFront(s)
    decreases |ws|
  {
    hide White, SpaceBefore;
    if ws == [] {
      assert [] + s == s;
    } else {
      assert Joined(ws) + s == Joined(Front(ws)) + (Last(ws) + s);
      FrontTrims(Front(ws), Last(ws) + s);
      WhiteIsFound(Last(ws), s);
      assert (Last(ws) + s)[|Last(ws)|..] == s;
    }
  }

  lemma {:induction false} BackTrims(s: seq<byte>, ws: seq<seq<byte>>)
    requires AllWhite(ws)
    ensures TrimmedBack(s + Joined(ws)) == TrimmedBack(s)
    decreases |ws|
  {
    hide White, SpaceAfter;
    if ws == [] {
      assert s + [] == s;
    } else {
      var t := s + Joined(Front(ws));
      assert s + Joined(ws) == t + Last(ws);
      WhiteIsFound(Last(ws), t);
      assert (t + Last(ws))[..|t|] == t;
      BackTrims(s, Front(ws));
    }
  }

  // Visible ASCII at both ends.
  ghost predicate Bare(s: seq<byte>) {
    s != [] && 33 <= s[0] <= 126 && 33 <= Last(s) <= 126
  }

  lemma BareStays(s: seq<byte>, more: seq<byte>)
    requires Bare(s)
    ensures TrimmedFront(s + more) == s + more && TrimmedBack(s) == s
  {
    assert (s + more)[0] == s[0];
  }

  // With any white space around it, a text of printable ASCII is used as it stands, and a
  // text with any other octet in it is not.
  lemma LabelReads(before: seq<seq<byte>>, s: seq<byte>, after: seq<seq<byte>>)
    requires AllWhite(before) && AllWhite(after) && Bare(s)
    ensures LabelText(Joined(before) + s + Joined(after)) ==
            if forall i :: 0 <= i < |s| ==> 0x20 <= s[i] <= 0x7E then Some(s) else None
  {
    hide AllWhite, TrimmedFront, TrimmedBack;
    assert Joined(before) + s + Joined(after) == Joined(before) + (s + Joined(after));
    FrontTrims(before, s + Joined(after));
    BareStays(s, Joined(after));
    BackTrims(s, after);
    BareStays(s, []);
    hide Bare, Joined;
  }

  // White space alone is no name.
  lemma BlankIsNoLabel(ws: seq<seq<byte>>)
    requires AllWhite(ws)
    ensures LabelText(Joined(ws)) == None
  {
    assert Joined(ws) + [] == Joined(ws);
    FrontTrims(ws, []);
  }

  // ---- Truncation -----------------------------------------------------------

  ghost predicate NoZeroFrom(s: seq<byte>, start: nat) {
    forall i :: start <= i < |s| ==> s[i] != 0
  }

  lemma {:induction false} TrimmedFrontZeros(s: seq<byte>)
    requires NoZeroFrom(TrimmedFront(s), 0)
    ensures NoZeroFrom(s, 0)
  {
    var n := SpaceBefore(s);
    if n > 0 {
      TrimmedFrontZeros(s[n..]);
      assert forall i :: n <= i < |s| ==> s[i] == s[n..][i - n];
    }
  }

  lemma {:induction false} TrimmedBackZeros(s: seq<byte>)
    requires NoZeroFrom(TrimmedBack(s), 0)
    ensures NoZeroFrom(s, 0)
  {
    var n := SpaceAfter(s);
    if n > 0 {
      TrimmedBackZeros(s[..|s| - n]);
      assert forall i :: 0 <= i < |s| - n ==> s[i] == s[..|s| - n][i];
    }
  }

  // No octet of a usable label is zero, the white space around its text included.
  lemma LabelHasNoZero(octets: seq<byte>)
    requires LabelText(octets).Some?
    ensures NoZeroFrom(octets, 0)
  {
    TrimmedBackZeros(TrimmedFront(octets));
    TrimmedFrontZeros(octets);
  }

  lemma {:induction false} SkipOfCut(p: seq<byte>, k: nat, off: nat)
    requires k <= |p|
    ensures SkipName(p[..k], off).Some? ==> SkipName(p, off) == SkipName(p[..k], off)
    ensures SkipName(p, off).Some? ==> SkipName(p, off).value > off
    decreases |p| - off
  {
    if off < |p| && 0 < p[off] < 0x40 {
      SkipOfCut(p, k, off + 1 + p[off] as nat);
    }
  }

  lemma {:induction false} QuestionsOfCut(p: seq<byte>, k: nat, off: nat, n: nat)
    requires k <= |p|
    ensures SkipQuestions(p[..k], off, n).Some? ==> SkipQuestions(p, off, n) == SkipQuestions(p[..k], off, n)
    decreases n
  {
    hide SkipName;
    if n > 0 {
      SkipOfCut(p, k, off);
      if SkipName(p[..k], off).Some? {
        QuestionsOfCut(p, k, SkipName(p, off).value + 4, n - 1);
      }
    }
  }

  // Where no octet is zero no PTR type can be read, so nothing is found.
  lemma {:induction false} NothingWithoutZeros(p: seq<byte>, start: nat, off: nat, n: nat)
    requires NoZeroFrom(p, start) && start <= off
    ensures WalkAnswers(p, off, n) == None
    decreases n
  {
    hide SkipName, FirstLabel;
    if n > 0 {
      SkipOfCut(p, |p|, off);
      assert p[..|p|] == p;
      var t := ReadAnswer(p, off);
      if t.Next? {
        NothingWithoutZeros(p, start, t.off, n - 1);
      }
    }
  }

  // A label read off the cut payload is read off the whole; one that only the whole
  // holds leaves the cut payload without a zero octet from its length octet on.
  lemma LabelOfCut(p: seq<byte>, k: nat, off: nat)
    requires k <= |p|
    ensures FirstLabel(p[..k], off).Some? ==> FirstLabel(p, off) == FirstLabel(p[..k], off)
    ensures FirstLabel(p[..k], off) == None && FirstLabel(p, off).Some? ==> NoZeroFrom(p[..k], off)
  {
    hide LabelText;
    if off < k && 0 < p[off] < 0x40 && off + 1 + p[off] as nat <= |p| {
      var end := off + 1 + p[off] as nat;
      if end <= k {
        assert p[..k][off + 1..end] == p[off + 1..end];
      } else if LabelText(p[off + 1..end]).Some? {
        LabelHasNoZero(p[off + 1..end]);
        assert forall i :: off + 1 <= i < k ==> p[i] == p[off + 1..end][i - off - 1];
      }
    }
  }

  lemma {:induction false} AnswersOfCut(p: seq<byte>, k: nat, off: nat, n: nat)
    requires k <= |p| && WalkAnswers(p[..k], off, n).Some?
    ensures WalkAnswers(p, off, n) == WalkAnswers(p[..k], off, n)
    decreases n
  {
    hide SkipName, FirstLabel, U16, NoZeroFrom;
    SkipOfCut(p, k, off);
    var end := SkipName(p[..k], off).value;
    LabelOfCut(p, k, end + 10);
    assert p[..k][end] == p[end] && p[..k][end + 1] == p[end + 1];
    assert p[..k][end + 8] == p[end + 8] && p[..k][end + 9] == p[end + 9];
    var t := ReadAnswer(p[..k], off);
    if t.Next? {
      if ReadAnswer(p, off).Found? {
        NothingWithoutZeros(p[..k], end + 10, t.off, n - 1);
        assert false;
      }
      AnswersOfCut(p, k, t.off, n - 1);
    }
  }

  // Cutting any payload anywhere yields the name of the whole or none, never another.
  lemma TruncationFindsSameOrNone(p: seq<byte>, k: nat)
    requires k <= |p| && Extracted(p[..k]).Some?
    ensures Extracted(p) == Extracted(p[..k])
  {
    hide SkipQuestions, WalkAnswers, U16;
    assert forall i :: 0 <= i < k ==> p[..k][i] == p[i];
    QuestionsOfCut(p, k, HEADER, U16(p[4], p[5]));
    AnswersOfCut(p, k, SkipQuestions(p[..k], HEADER, U16(p[4], p[5])).value, U16(p[6], p[7]));
  }

  // The label of a PTR record is read without regard to RDLENGTH, which may even be zero.
  lemma LabelIgnoresLength(p: seq<byte>, off: nat, name: Name, fixed: seq<byte>, length: nat, target: Name,
                           rest: seq<byte>)
    requires ValidName(name) && ValidName(target) && |fixed| == 6 && length < 0x1_0000 && NameText(target).Some?
    requires Reads(p, off, EncodeName(name, Octets(12) + (fixed + (Octets(length) + EncodeName(target, rest)))))
    ensures ReadAnswer(p, off) == Found(NameText(target).value)
  {
    hide Reads, Octets, U16, EncodeName, SkipName, FirstLabel, NameText;
    var data := EncodeName(target, rest);
    var body := Octets(12) + (fixed + (Octets(length) + data));
    SkipLandsAtEnd(p, off, name, body);
    var end := |p| - |body|;
    PeelOctets(p, end, 12, fixed + (Octets(length) + data));
    Peel(p, end + 2, fixed, Octets(length) + data);
    PeelOctets(p, end + 8, length, data);
    FirstLabelReadsBack(p, end + 10, target, rest);
  }
}
