// The string operations the SDP reader is built on, and how each undoes its inverse.
module Text {
  import opened Basics

  // `char::is_whitespace`.
  predicate Space(c: char) {
    var n := c as int;
    || 9 <= n <= 13 || n == 32 || n == 0x85 || n == 0xA0 || n == 0x1680
    || 0x2000 <= n <= 0x200A || n == 0x2028 || n == 0x2029 || n == 0x202F || n == 0x205F || n == 0x3000
  }

  // The code points of Unicode with the property White_Space.
  const WHITE_SPACE: set<int> := {
    0x9, 0xA, 0xB, 0xC, 0xD, 0x20, 0x85, 0xA0, 0x1680, 0x2000, 0x2001, 0x2002, 0x2003, 0x2004, 0x2005, 0x2006,
    0x2007, 0x2008, 0x2009, 0x200A, 0x2028, 0x2029, 0x202F, 0x205F, 0x3000}

  lemma SpaceExactly(c: char)
    ensures Space(c) <==> c as int in WHITE_SPACE
  {}

  // ---- Trimming -------------------------------------------------------------

  function TrimStart(s: string): string {
    if s != [] && Space(s[0]) then TrimStart(s[1..]) else s
  }

  function TrimEnd(s: string): string {
    if s != [] && Space(Last(s)) then TrimEnd(Front(s)) else s
  }

  function Trim(s: string): string {
    TrimEnd(TrimStart(s))
  }

  // No white space at either end.
  ghost predicate Tight(s: string) {
    s != [] ==> !Space(s[0]) && !Space(Last(s))
  }

  lemma TrimTight(s: string)
    requires Tight(s)
    ensures Trim(s) == s
  {}

  lemma TrimReturn(s: string)
    requires Tight(s) && s != []
    ensures Trim(s + "\r") == s
  {
    assert (s + "\r")[0] == s[0] && Last(s + "\r") == '\r' && Space('\r');
    assert Front(s + "\r") == s;
    assert TrimEnd(s + "\r") == TrimEnd(s);
  }

  // ---- Splitting ------------------------------------------------------------

  // Before and after the first c.
  function Cut(s: string, c: char): (r: Option<(string, string)>)
    ensures r.Some? ==> |r.value.0| + 1 + |r.value.1| == |s|
  {
    if s == [] then None
    else if s[0] == c then Some(([], s[1..]))
    else
      match Cut(s[1..], c)
      case None => None
      case Some((a, b)) => Some(([s[0]] + a, b))
  }

  lemma {:induction false} CutFinds(a: string, c: char, b: string)
    requires c !in a
    ensures Cut(a + [c] + b, c) == Some((a, b))
  {
    if a == [] {
      assert [] + [c] + b == [c] + b;
    } else {
      assert (a + [c] + b)[1..] == a[1..] + [c] + b;
      assert a == [a[0]] + a[1..];
      CutFinds(a[1..], c, b);
    }
  }

  lemma {:induction false} CutMisses(s: string, c: char)
    requires c !in s
    ensures Cut(s, c) == None
  {
    if s != [] {
      CutMisses(s[1..], c);
    }
  }

  // `split(c)`: at least one piece.
  function Split(s: string, c: char): seq<string>
    decreases |s|
  {
    match Cut(s, c)
    case None => [s]
    case Some((a, b)) => [a] + Split(b, c)
  }

  // `lines()` without the carriage returns, which trimming removes anyway.
  function Lines(s: string): seq<string>
    decreases |s|
  {
    if s == [] then []
    else
      match Cut(s, '\n')
      case None => [s]
      case Some((a, b)) => [a] + Lines(b)
  }

  // `split_whitespace`: the maximal runs without white space.
  function WordEnd(s: string): (n: nat)
    ensures n <= |s|
  {
    if s == [] || Space(s[0]) then 0 else 1 + WordEnd(s[1..])
  }

  function Words(s: string): seq<string>
    decreases |s|
  {
    if s == [] then []
    else if Space(s[0]) then Words(s[1..])
    else [s[..WordEnd(s)]] + Words(s[WordEnd(s)..])
  }

  ghost predicate Word(s: string) {
    s != [] && forall i :: 0 <= i < |s| ==> !Space(s[i])
  }

  lemma {:induction false} WordEndsAtSpace(w: string, rest: string)
    requires forall i :: 0 <= i < |w| ==> !Space(w[i])
    requires rest == [] || Space(rest[0])
    ensures WordEnd(w + rest) == |w|
  {
    if w == [] {
      assert [] + rest == rest;
    } else {
      assert (w + rest)[1..] == w[1..] + rest;
      WordEndsAtSpace(w[1..], rest);
    }
  }

  lemma FirstWord(w: string, rest: string)
    requires Word(w) && (rest == [] || Space(rest[0]))
    ensures Words(w + rest) == [w] + Words(rest)
  {
    WordEndsAtSpace(w, rest);
    assert (w + rest)[..|w|] == w && (w + rest)[|w|..] == rest;
  }

  lemma SkipSpace(rest: string)
    ensures Words(" " + rest) == Words(rest)
  {
    assert (" " + rest)[1..] == rest;
  }

  // Each word preceded by a space.
  function Spaced(ws: seq<string>): string {
    if ws == [] then [] else " " + (ws[0] + Spaced(ws[1..]))
  }

  lemma {:induction false} WordsOfSpaced(ws: seq<string>)
    requires forall i :: 0 <= i < |ws| ==> Word(ws[i])
    ensures Words(Spaced(ws)) == ws
  {
    if ws != [] {
      WordsOfSpaced(ws[1..]);
      SkipSpace(ws[0] + Spaced(ws[1..]));
      FirstWord(ws[0], Spaced(ws[1..]));
      assert ws == [ws[0]] + ws[1..];
    }
  }

  // ---- Numbers --------------------------------------------------------------

  predicate Digit(c: char) {
    '0' <= c <= '9'
  }

  function DigitValue(c: char): nat
    requires Digit(c)
  {
    c as int - '0' as int
  }

  function DigitOf(n: nat): char
    requires n < 10
  {
    (n + '0' as int) as char
  }

  function Decimal(n: nat): string {
    if n < 10 then [DigitOf(n)] else Decimal(n / 10) + [DigitOf(n % 10)]
  }

  predicate Digits(s: string) {
    s != [] && forall i :: 0 <= i < |s| ==> Digit(s[i])
  }

  function ValueOf(s: string): nat
    requires forall i :: 0 <= i < |s| ==> Digit(s[i])
  {
    if s == [] then 0 else ValueOf(Front(s)) * 10 + DigitValue(Last(s))
  }

  // `parse` of an unsigned type: digits with an optional plus, within range.
  function ParseUnsigned(s: string, max: nat): Option<nat> {
    var digits := if |s| > 1 && s[0] == '+' then s[1..] else s;
    if Digits(digits) && ValueOf(digits) <= max then Some(ValueOf(digits)) else None
  }

  lemma {:induction false} DecimalReadsBack(n: nat)
    ensures Digits(Decimal(n)) && ValueOf(Decimal(n)) == n
  {
    if n >= 10 {
      DecimalReadsBack(n / 10);
      assert Front(Decimal(n)) == Decimal(n / 10);
    }
  }

  lemma ParseUndoesDecimal(n: nat, max: nat)
    requires n <= max
    ensures ParseUnsigned(Decimal(n), max) == Some(n)
  {
    DecimalReadsBack(n);
  }

  lemma DecimalIsWord(n: nat)
    ensures Word(Decimal(n)) && '/' !in Decimal(n) && '\n' !in Decimal(n)
    ensures Tight(Decimal(n)) && forall i :: 0 <= i < |Decimal(n)| ==> Digit(Decimal(n)[i])
  {
    DecimalReadsBack(n);
  }
}
