// Definitions shared by every module: optional values, octets and capture time.
module Basics {
  datatype Option<+T> = None | Some(value: T)

  function OrElse<T>(a: Option<T>, b: Option<T>): Option<T> {
    if a.Some? then a else b
  }

  function UnwrapOr<T>(o: Option<T>, fallback: T): T {
    if o.Some? then o.value else fallback
  }

  // An IPv4 address.
  type Ip = nat

  newtype byte = x: int | 0 <= x < 256

  // Big-endian octet pairs.
  function U16(hi: byte, lo: byte): nat {
    hi as nat * 256 + lo as nat
  }

  function Octets(n: nat): seq<byte>
    requires n < 0x1_0000
  {
    [(n / 256) as byte, (n % 256) as byte]
  }

  lemma OctetPair(n: nat)
    requires n < 0x1_0000
    ensures |Octets(n)| == 2 && U16(Octets(n)[0], Octets(n)[1]) == n
  {}

  // Capture time in microseconds. `Instant` subtraction saturates at zero.
  type Time = nat

  const SECOND: nat := 1_000_000

  function Since(now: Time, earlier: Time): nat {
    if now >= earlier then now - earlier else 0
  }

  // `Duration::as_secs`.
  function WholeSecs(elapsed: nat): nat {
    elapsed / SECOND
  }

  // `Duration::as_secs_f64` and its thousandfold, in exact reals.
  function Seconds(elapsed: nat): real {
    elapsed as real / 1_000_000.0
  }

  function Millis(elapsed: nat): real {
    elapsed as real / 1_000.0
  }

  function Max(a: int, b: int): int {
    if a >= b then a else b
  }

  function MinReal(a: real, b: real): real {
    if a <= b then a else b
  }

  function Abs(x: int): nat {
    if x >= 0 then x else -x
  }

  function AbsReal(x: real): real {
    if x >= 0.0 then x else -x
  }

  // All but the last element, and the last: runs are read and proved from the end.
  function Front<T>(s: seq<T>): seq<T>
    requires s != []
  {
    s[..|s| - 1]
  }

  function Last<T>(s: seq<T>): T
    requires s != []
  {
    s[|s| - 1]
  }

  // The payload from position pos on is this code.
  ghost predicate Reads<T>(p: seq<T>, pos: nat, code: seq<T>) {
    pos <= |p| && p[pos..] == code
  }

  lemma Peel<T>(p: seq<T>, pos: nat, a: seq<T>, b: seq<T>)
    requires Reads(p, pos, a + b)
    ensures pos + |a| == |p| - |b| >= 0
    ensures Reads(p, |p| - |b|, b)
    ensures forall i :: 0 <= i < |a| ==> p[pos + i] == a[i]
  {
    assert |p[pos..]| == |a| + |b|;
    forall i | 0 <= i < |a| ensures p[pos + i] == a[i] {
      assert p[pos..][i] == a[i];
    }
    forall i | 0 <= i < |b| ensures p[pos + |a|..][i] == b[i] {
      assert p[pos..][|a| + i] == b[i];
    }
  }

  lemma Peel2<T>(p: seq<T>, pos: nat, x: T, y: T, b: seq<T>)
    requires Reads(p, pos, [x, y] + b)
    ensures pos + 2 == |p| - |b| && p[pos] == x && p[pos + 1] == y
    ensures Reads(p, pos + 2, b)
  {
    Peel(p, pos, [x, y], b);
    assert p[pos + 0] == x;
  }

  lemma PeelOctets(p: seq<byte>, pos: nat, n: nat, rest: seq<byte>)
    requires n < 0x1_0000 && Reads(p, pos, Octets(n) + rest)
    ensures pos + 2 == |p| - |rest| && Reads(p, pos + 2, rest)
    ensures p[pos] == Octets(n)[0] && U16(p[pos], p[pos + 1]) == n
  {
    var code := Octets(n);
    Peel2(p, pos, code[0], code[1], rest);
    OctetPair(n);
  }
}
