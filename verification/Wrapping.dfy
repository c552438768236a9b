// Fixed-width counters that stand in for unbounded positions: a position is
// carried modulo m, and the distance between two of them is read back as the
// two's-complement value of their wrapped difference.
module Wrapping {
  const M8: nat := 0x100
  const M16: nat := 0x1_0000
  const M32: nat := 0x1_0000_0000

  // The widths used by the monitor: 8 (AVTP), 16 (RTP) and 32 bits (TCP, RTP timestamps).
  predicate Modulus(m: nat) {
    m == M8 || m == M16 || m == M32
  }

  function Wrap(x: int, m: nat): (r: nat)
    requires Modulus(m)
    ensures r < m
  {
    x % m
  }

  // `b.wrapping_sub(a) as iN`
  function SignedSub(b: int, a: int, m: nat): (d: int)
    requires Modulus(m)
    ensures -(m as int) / 2 <= d < m / 2
  {
    var u := (b - a) % m;
    if u < m / 2 then u else u - m
  }

  // The signed distance of two wrapped positions depends only on their true distance.
  lemma SignedSubOfWrapped(q: int, p: int, m: nat)
    requires Modulus(m)
    ensures SignedSub(Wrap(q, m), Wrap(p, m), m) == SignedSub(q, p, m)
  {}

  // ... and is that true distance exactly when it fits the signed range.
  lemma SignedSubExact(q: int, p: int, m: nat)
    requires Modulus(m)
    ensures SignedSub(Wrap(q, m), Wrap(p, m), m) == q - p
       <==> -(m as int) / 2 <= q - p < m / 2
  {
    SignedSubOfWrapped(q, p, m);
  }

  // The position one past a wrapped one.
  lemma WrapSuccessor(p: int, m: nat)
    requires Modulus(m)
    ensures (Wrap(p, m) + 1) % m == Wrap(p + 1, m)
  {}
}
