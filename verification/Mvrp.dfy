// MVRP (clause 10.8 of IEEE 802.1Q): the walker over messages and vectors, an encoder for
// the frames it reads, and the round trip between the two.
module Mvrp {
  import opened Basics

  const EVENTS_MASK: nat := 0x2000

  function CeilThird(n: nat): nat {
    (n + 2) / 3
  }

  // ---- What the walker collects ---------------------------------------------

  function Push(vlans: seq<nat>, vid: nat): seq<nat> {
    if vid > 0 && vid !in vlans then vlans + [vid] else vlans
  }

  // The n consecutive values from base on, modulo 4096.
  function PushRange(vlans: seq<nat>, base: nat, n: nat): seq<nat> {
    if n == 0 then vlans else Push(PushRange(vlans, base, n - 1), (base + n - 1) % 0x1000)
  }

  // One turn of the inner loop: the end mark, a cut, or the vector read.
  datatype Turn = Mark(pos: nat) | Cut(vlans: seq<nat>) | Read(pos: nat, vlans: seq<nat>)

  function ValuesRead(p: seq<byte>, pos: nat, kind: byte, len: nat, n: nat, vlans: seq<nat>): seq<nat>
    requires pos + len <= |p|
  {
    if kind == 1 && len == 2 then PushRange(vlans, U16(p[pos], p[pos + 1]) % 0x1000, n) else vlans
  }

  function ReadVector(p: seq<byte>, pos: nat, kind: byte, len: nat, vlans: seq<nat>): (t: Turn)
    ensures !t.Cut? ==> pos + 2 <= t.pos <= |p|
  {
    if pos + 2 > |p| then Cut(vlans)
    else
      var header := U16(p[pos], p[pos + 1]);
      var n := header % EVENTS_MASK;
      if header == 0 then Mark(pos + 2)
      else if n == 0 then Read(pos + 2, vlans)
      else if pos + 2 + len > |p| then Cut(vlans)
      else
        var more := ValuesRead(p, pos + 2, kind, len, n, vlans);
        if pos + 2 + len + CeilThird(n) > |p| then Cut(more) else Read(pos + 2 + len + CeilThird(n), more)
  }

  // The vectors of one message up to its end mark, or as far as the payload reaches.
  datatype Walked = EndMark(pos: nat, vlans: seq<nat>) | Truncated(vlans: seq<nat>)

  function WalkVectors(p: seq<byte>, pos: nat, kind: byte, len: nat, vlans: seq<nat>): (w: Walked)
    ensures w.EndMark? ==> pos + 2 <= w.pos <= |p|
    decreases |p| - pos
  {
    match ReadVector(p, pos, kind, len, vlans)
    case Mark(next) => EndMark(next, vlans)
    case Cut(more) => Truncated(more)
    case Read(next, more) => WalkVectors(p, next, kind, len, more)
  }

  function WalkMessages(p: seq<byte>, pos: nat, vlans: seq<nat>): seq<nat>
    decreases |p| - pos
  {
    if pos >= |p| || p[pos] == 0 || pos + 1 >= |p| || p[pos + 1] == 0 then vlans
    else
      match WalkVectors(p, pos + 2, p[pos], p[pos + 1] as nat, vlans)
      case EndMark(next, more) => WalkMessages(p, next, more)
      case Truncated(more) => more
  }

  function Parsed(p: seq<byte>): seq<nat> {
    if p == [] || p[0] != 0 then [] else WalkMessages(p, 1, [])
  }

  // The consecutive values of one vector.
  method PushValues(known: seq<nat>, base: nat, n: nat) returns (vlans: seq<nat>)
    ensures vlans == PushRange(known, base, n)
  {
    vlans := known;
    for i := 0 to n
      invariant vlans == PushRange(known, base, i)
    {
      var vid := (base + i) % 0x1000;
      if vid > 0 && vid !in vlans {
        vlans := vlans + [vid];
      }
    }
  }

  // `parse_mvrp`: both loops, with every early return.
  method ParseMvrp(p: seq<byte>) returns (vlans: seq<nat>)
    ensures vlans == Parsed(p)
  {
    hide U16, CeilThird, PushRange;
    vlans := [];
    if |p| == 0 || p[0] != 0 {
      return;
    }
    var pos := 1;
    while pos < |p|
      invariant WalkMessages(p, pos, vlans) == Parsed(p)
      decreases |p| - pos
    {
      var kind := p[pos];
      if kind == 0 { break; }
      pos := pos + 1;
      if pos >= |p| { break; }
      var len := p[pos] as nat;
      pos := pos + 1;
      if len == 0 { break; }
      ghost var start, before := pos, vlans;
      while true
        invariant start <= pos <= |p|
        invariant WalkVectors(p, pos, kind, len, vlans) == WalkVectors(p, start, kind, len, before)
        decreases |p| - pos
      {
        if pos + 2 > |p| { return; }
        var header := U16(p[pos], p[pos + 1]);
        pos := pos + 2;
        if header == 0 { break; }
        var n := header % EVENTS_MASK;
        if n == 0 { continue; }
        if pos + len > |p| { return; }
        if kind == 1 && len == 2 {
          vlans := PushValues(vlans, U16(p[pos], p[pos + 1]) % 0x1000, n);
        }
        pos := pos + len;
        var packed := CeilThird(n);
        if pos + packed > |p| { return; }
        pos := pos + packed;
      }
    }
  }

  // ---- Truncation -----------------------------------------------------------

  lemma {:induction false} PushRangeExtends(vlans: seq<nat>, base: nat, n: nat)
    ensures vlans <= PushRange(vlans, base, n)
  {
    if n > 0 {
      PushRangeExtends(vlans, base, n - 1);
    }
  }

  lemma ReadVectorExtends(p: seq<byte>, pos: nat, kind: byte, len: nat, vlans: seq<nat>)
    ensures var t := ReadVector(p, pos, kind, len, vlans); !t.Mark? ==> vlans <= t.vlans
  {
    hide CeilThird;
    if pos + 2 + len <= |p| && kind == 1 && len == 2 {
      var n := U16(p[pos], p[pos + 1]) % EVENTS_MASK;
      PushRangeExtends(vlans, U16(p[pos + 2], p[pos + 3]) % 0x1000, n);
    }
  }

  // Cutting the payload leaves a turn as it was, or cuts the turn.
  lemma CutVector(p: seq<byte>, k: nat, pos: nat, kind: byte, len: nat, vlans: seq<nat>)
    requires pos <= k <= |p|
    ensures var cut, full := ReadVector(p[..k], pos, kind, len, vlans), ReadVector(p, pos, kind, len, vlans);
            || cut == full
            || (cut.Cut? && if full.Mark? then cut.vlans == vlans else cut.vlans <= full.vlans)
  {
    hide CeilThird, U16, PushRange;
    ReadVectorExtends(p, pos, kind, len, vlans);
  }

  // The walker only ever appends.
  lemma {:induction false} WalkVectorsExtends(p: seq<byte>, pos: nat, kind: byte, len: nat, vlans: seq<nat>)
    ensures vlans <= WalkVectors(p, pos, kind, len, vlans).vlans
    decreases |p| - pos
  {
    hide ReadVector;
    ReadVectorExtends(p, pos, kind, len, vlans);
    var t := ReadVector(p, pos, kind, len, vlans);
    if t.Read? {
      WalkVectorsExtends(p, t.pos, kind, len, t.vlans);
    }
  }

  lemma {:induction false} WalkMessagesExtends(p: seq<byte>, pos: nat, vlans: seq<nat>)
    ensures vlans <= WalkMessages(p, pos, vlans)
    decreases |p| - pos
  {
    hide WalkVectors;
    if pos + 1 < |p| && p[pos] != 0 && p[pos + 1] != 0 {
      var w := WalkVectors(p, pos + 2, p[pos], p[pos + 1] as nat, vlans);
      WalkVectorsExtends(p, pos + 2, p[pos], p[pos + 1] as nat, vlans);
      if w.EndMark? {
        WalkMessagesExtends(p, w.pos, w.vlans);
      }
    }
  }

  lemma {:induction false} CutVectors(p: seq<byte>, k: nat, pos: nat, kind: byte, len: nat, vlans: seq<nat>)
    requires pos <= k <= |p|
    ensures var cut, full := WalkVectors(p[..k], pos, kind, len, vlans), WalkVectors(p, pos, kind, len, vlans);
            && cut.vlans <= full.vlans
            && (cut.EndMark? ==> cut == full)
    decreases k - pos
  {
    hide ReadVector;
    CutVector(p, k, pos, kind, len, vlans);
    var cut, full := ReadVector(p[..k], pos, kind, len, vlans), ReadVector(p, pos, kind, len, vlans);
    if cut.Read? {
      CutVectors(p, k, cut.pos, kind, len, cut.vlans);
    } else if full.Read? {
      WalkVectorsExtends(p, full.pos, kind, len, full.vlans);
    }
  }

  lemma {:induction false} CutMessages(p: seq<byte>, k: nat, pos: nat, vlans: seq<nat>)
    requires pos <= k <= |p|
    ensures WalkMessages(p[..k], pos, vlans) <= WalkMessages(p, pos, vlans)
    decreases k - pos
  {
    hide WalkVectors;
    if pos + 1 >= k {
      WalkMessagesExtends(p, pos, vlans);
    } else if p[pos] != 0 && p[pos + 1] != 0 {
      CutVectors(p, k, pos + 2, p[pos], p[pos + 1] as nat, vlans);
      var cut := WalkVectors(p[..k], pos + 2, p[pos], p[pos + 1] as nat, vlans);
      var full := WalkVectors(p, pos + 2, p[pos], p[pos + 1] as nat, vlans);
      if cut.EndMark? {
        CutMessages(p, k, cut.pos, cut.vlans);
      } else if full.EndMark? {
        WalkMessagesExtends(p, full.pos, full.vlans);
      }
    }
  }

  // However a payload is cut short, what is read is a prefix of what the whole reads.
  lemma TruncationReadsPrefix(p: seq<byte>, k: nat)
    requires k <= |p|
    ensures Parsed(p[..k]) <= Parsed(p)
  {
    hide WalkMessages;
    if k > 0 && p[0] == 0 {
      CutMessages(p, k, 1, []);
    }
  }

  // ---- Encoding -------------------------------------------------------------

  // A vector of n consecutive values from `first`, with its packed events; without
  // values it is the bare LeaveAll header.
  datatype Vector = Vector(leaveAll: nat, n: nat, first: seq<byte>, events: seq<byte>)
  datatype Message = Message(kind: byte, len: byte, vectors: seq<Vector>)

  ghost predicate ValidVector(v: Vector, len: byte) {
    && v.leaveAll < 8 && v.n < 0x2000 && v.leaveAll + v.n > 0
    && (v.n > 0 ==> |v.first| == len as nat && ThreeToAnOctet(v.n, |v.events|))
  }

  ghost predicate ThreeToAnOctet(events: nat, octets: nat) {
    3 * octets - 3 < events <= 3 * octets
  }

  lemma ThirdsFit(events: nat, octets: nat)
    requires ThreeToAnOctet(events, octets)
    ensures CeilThird(events) == octets
  {}

  ghost predicate ValidMessage(m: Message) {
    m.kind != 0 && m.len != 0 && ValidVectors(m.vectors, m.len)
  }

  ghost predicate ValidMessages(ms: seq<Message>) {
    forall i :: 0 <= i < |ms| ==> ValidMessage(ms[i])
  }

  function Header(v: Vector): nat {
    v.leaveAll * 0x2000 + v.n
  }

  function EncodeVector(v: Vector): seq<byte>
    requires v.leaveAll < 8 && v.n < 0x2000
  {
    Octets(Header(v)) + if v.n > 0 then v.first + v.events else []
  }

  ghost predicate ValidVectors(vs: seq<Vector>, len: byte) {
    forall i :: 0 <= i < |vs| ==> ValidVector(vs[i], len)
  }

  // The vectors, and what follows them.
  ghost function EncodeVectors(vs: seq<Vector>, len: byte, rest: seq<byte>): (code: seq<byte>)
    requires ValidVectors(vs, len)
    ensures |code| >= |rest|
  {
    if vs == [] then rest else EncodeVector(vs[0]) + EncodeVectors(vs[1..], len, rest)
  }

  // The messages with the end marks of their vectors, and the end mark of the frame.
  ghost function EncodeMessages(ms: seq<Message>): seq<byte>
    requires ValidMessages(ms)
  {
    if ms == [] then [0, 0]
    else [ms[0].kind, ms[0].len] + EncodeVectors(ms[0].vectors, ms[0].len, [0, 0] + EncodeMessages(ms[1..]))
  }

  ghost function Encode(ms: seq<Message>): seq<byte>
    requires ValidMessages(ms)
  {
    [0] + EncodeMessages(ms)
  }

  // ---- What a frame declares ------------------------------------------------

  function Values(base: nat, n: nat): seq<nat> {
    seq(n, i requires 0 <= i < n => (base + i) % 0x1000)
  }

  // VLAN attributes are of type 1 and two octets long; the code reads no others.
  ghost function VectorVids(v: Vector, kind: byte, len: byte): seq<nat>
    requires ValidVector(v, len)
  {
    if v.n > 0 && kind == 1 && len == 2 then Values(U16(v.first[0], v.first[1]), v.n) else []
  }

  ghost function VectorsVids(vs: seq<Vector>, kind: byte, len: byte): seq<nat>
    requires ValidVectors(vs, len)
  {
    if vs == [] then [] else VectorVids(vs[0], kind, len) + VectorsVids(vs[1..], kind, len)
  }

  ghost function DeclaredVids(ms: seq<Message>): seq<nat>
    requires ValidMessages(ms)
  {
    if ms == [] then [] else VectorsVids(ms[0].vectors, ms[0].kind, ms[0].len) + DeclaredVids(ms[1..])
  }

  function PushAll(vlans: seq<nat>, vids: seq<nat>): seq<nat> {
    if vids == [] then vlans else Push(PushAll(vlans, Front(vids)), Last(vids))
  }

  lemma {:induction false} PushAllConcat(vlans: seq<nat>, a: seq<nat>, b: seq<nat>)
    ensures PushAll(vlans, a + b) == PushAll(PushAll(vlans, a), b)
  {
    if b == [] {
      assert a + b == a;
    } else {
      assert Front(a + b) == a + Front(b);
      PushAllConcat(vlans, a, Front(b));
    }
  }

  lemma ModOfSum(base: nat, i: nat)
    ensures (base % 0x1000 + i) % 0x1000 == (base + i) % 0x1000
  {
    assert base + i == 0x1000 * (base / 0x1000) + (base % 0x1000 + i);
  }

  lemma {:induction false} RangeIsAll(vlans: seq<nat>, base: nat, n: nat)
    ensures PushRange(vlans, base % 0x1000, n) == PushAll(vlans, Values(base, n))
  {
    if n > 0 {
      RangeIsAll(vlans, base, n - 1);
      assert Front(Values(base, n)) == Values(base, n - 1);
      ModOfSum(base, n - 1);
    }
  }

  // The values other than zero, each once, in the order of their first occurrence.
  ghost predicate FirstOccurrences(r: seq<nat>, s: seq<nat>) {
    && (forall v :: v in r <==> v in s && v != 0)
    && (forall i, j :: 0 <= i < j < |r| ==> r[i] != r[j] && FirstIndex(s, r[i]) < FirstIndex(s, r[j]))
  }

  ghost function FirstIndex(s: seq<nat>, v: nat): nat {
    if s == [] || s[0] == v then 0 else 1 + FirstIndex(s[1..], v)
  }

  lemma {:induction false} FirstIndexInPrefix(s: seq<nat>, x: nat, v: nat)
    ensures v in s ==> FirstIndex(s + [x], v) == FirstIndex(s, v) < |s|
    ensures v !in s ==> FirstIndex(s, v) == |s| && FirstIndex(s + [x], v) == if v == x then |s| else |s| + 1
  {
    if s == [] {
      assert s + [x] == [x];
    } else {
      assert (s + [x])[1..] == s[1..] + [x];
      assert v in s <==> v == s[0] || v in s[1..];
      FirstIndexInPrefix(s[1..], x, v);
    }
  }

  lemma {:induction false} PushAllIsFirstOccurrences(s: seq<nat>)
    ensures FirstOccurrences(PushAll([], s), s)
  {
    if s != [] {
      PushAllIsFirstOccurrences(Front(s));
      assert s == Front(s) + [Last(s)];
      var r := PushAll([], Front(s));
      forall v: nat
        ensures v in Front(s) ==> FirstIndex(s, v) == FirstIndex(Front(s), v) < |s| - 1
        ensures v !in Front(s) && v == Last(s) ==> FirstIndex(s, v) == |s| - 1
      {
        FirstIndexInPrefix(Front(s), Last(s), v);
      }
      forall i | 0 <= i < |r| ensures r[i] in Front(s) {
        assert r[i] in r;
      }
    }
  }

  // ---- Round trip -----------------------------------------------------------

  lemma HeaderReadsBack(v: Vector)
    requires v.leaveAll < 8 && v.n < 0x2000
    ensures Header(v) < 0x1_0000 && U16(Octets(Header(v))[0], Octets(Header(v))[1]) == Header(v)
    ensures Header(v) % EVENTS_MASK == v.n
    ensures v.leaveAll + v.n > 0 ==> Header(v) > 0
  {}

  lemma VectorReadsBack(p: seq<byte>, pos: nat, m: Message, v: Vector, rest: seq<byte>, vlans: seq<nat>)
    requires ValidVector(v, m.len) && Reads(p, pos, EncodeVector(v) + rest)
    ensures ReadVector(p, pos, m.kind, m.len as nat, vlans)
         == Read(|p| - |rest|, PushAll(vlans, VectorVids(v, m.kind, m.len)))
  {
    hide U16, Header, PushRange, PushAll, Values, CeilThird, ThreeToAnOctet;
    if v.n > 0 { ThirdsFit(v.n, |v.events|); }
    HeaderReadsBack(v);
    var code := EncodeVector(v);
    Peel(p, pos, code, rest);
    assert p[pos + 0] == code[0] && p[pos + 1] == code[1];
    if v.n > 0 {
      forall i | 0 <= i < |v.first| ensures p[pos + 2 + i] == v.first[i] {
        assert code[2 + i] == v.first[i];
      }
      if m.kind == 1 && m.len == 2 {
        assert p[pos + 2 + 0] == v.first[0] && p[pos + 2 + 1] == v.first[1];
        RangeIsAll(vlans, U16(v.first[0], v.first[1]), v.n);
      } else {
        PushNothing(vlans);
      }
    } else {
      PushNothing(vlans);
    }
  }

  lemma PushNothing(vlans: seq<nat>)
    ensures PushAll(vlans, []) == vlans
  {}

  lemma {:induction false} VectorsReadBack(p: seq<byte>, pos: nat, m: Message, vs: seq<Vector>, rest: seq<byte>,
                                           vlans: seq<nat>)
    requires ValidVectors(vs, m.len) && Reads(p, pos, EncodeVectors(vs, m.len, [0, 0] + rest))
    ensures |rest| <= |p| && Reads(p, |p| - |rest|, rest)
    ensures WalkVectors(p, pos, m.kind, m.len as nat, vlans)
         == EndMark(|p| - |rest|, PushAll(vlans, VectorsVids(vs, m.kind, m.len)))
    decreases |vs|
  {
    hide Reads, PushAll;
    if vs == [] {
      Peel2(p, pos, 0, 0, rest);
      PushNothing(vlans);
    } else {
      hide ReadVector, EncodeVector, VectorVids;
      var others := EncodeVectors(vs[1..], m.len, [0, 0] + rest);
      VectorReadsBack(p, pos, m, vs[0], others, vlans);
      Peel(p, pos, EncodeVector(vs[0]), others);
      VectorsReadBack(p, |p| - |others|, m, vs[1..], rest, PushAll(vlans, VectorVids(vs[0], m.kind, m.len)));
      PushAllConcat(vlans, VectorVids(vs[0], m.kind, m.len), VectorsVids(vs[1..], m.kind, m.len));
    }
  }

  lemma {:induction false} MessagesReadBack(p: seq<byte>, pos: nat, ms: seq<Message>, vlans: seq<nat>)
    requires ValidMessages(ms) && Reads(p, pos, EncodeMessages(ms))
    ensures WalkMessages(p, pos, vlans) == PushAll(vlans, DeclaredVids(ms))
    decreases |ms|
  {
    hide Reads, PushAll;
    if ms == [] {
      assert [0, 0] + [] == EncodeMessages(ms);
      Peel2(p, pos, 0, 0, []);
      PushNothing(vlans);
    } else {
      hide WalkVectors, EncodeVectors, VectorsVids;
      var m, rest := ms[0], EncodeMessages(ms[1..]);
      Peel2(p, pos, m.kind, m.len, EncodeVectors(m.vectors, m.len, [0, 0] + rest));
      VectorsReadBack(p, pos + 2, m, m.vectors, rest, vlans);
      MessagesReadBack(p, |p| - |rest|, ms[1..], PushAll(vlans, VectorsVids(m.vectors, m.kind, m.len)));
      PushAllConcat(vlans, VectorsVids(m.vectors, m.kind, m.len), DeclaredVids(ms[1..]));
    }
  }

  // Parsing the encoding of any messages and vectors gives exactly the VLANs they
  // declare, without zero, each once, in the order of first occurrence.
  lemma ParseUndoesEncode(ms: seq<Message>)
    requires ValidMessages(ms)
    ensures FirstOccurrences(Parsed(Encode(ms)), DeclaredVids(ms))
  {
    hide EncodeMessages, WalkMessages, PushAll, FirstOccurrences, DeclaredVids;
    MessagesReadBack(Encode(ms), 1, ms, []);
    PushAllIsFirstOccurrences(DeclaredVids(ms));
  }
}
