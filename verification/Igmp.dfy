// IGMPv3 membership reports (section 4.2 of RFC 3376): the walk over group records.
module IgmpReports {
  import opened Basics

  // ---- The walk -------------------------------------------------------------

  const HEADER: nat := 8

  predicate Multicast(group: seq<byte>) {
    |group| == 4 && 224 <= group[0] <= 239
  }

  function RecordLength(p: seq<byte>, off: nat): nat
    requires off + HEADER <= |p|
  {
    HEADER + 4 * U16(p[off + 2], p[off + 3]) + 4 * p[off + 1] as nat
  }

  function Kept(group: seq<byte>): seq<seq<byte>> {
    if Multicast(group) then [group] else []
  }

  // The multicast groups of up to n records from off on; a record counts as soon as its
  // fixed part is there.
  function Walk(p: seq<byte>, off: nat, n: nat): seq<seq<byte>>
    decreases n
  {
    if n == 0 || off + HEADER > |p| then []
    else Kept(p[off + 4..off + 8]) + Walk(p, off + RecordLength(p, off), n - 1)
  }

  function Parsed(p: seq<byte>): seq<seq<byte>> {
    if |p| < HEADER then [] else Walk(p, HEADER, U16(p[6], p[7]))
  }

  // `parse_igmpv3_report`.
  method ParseReport(p: seq<byte>) returns (groups: seq<seq<byte>>)
    ensures groups == Parsed(p)
  {
    hide RecordLength, Walk, U16;
    groups := [];
    if |p| < 8 {
      return;
    }
    var n := U16(p[6], p[7]);
    var off := 8;
    NothingBefore(Walk(p, off, n));
    for i := 0 to n
      invariant 0 <= off
      invariant groups + Walk(p, off, n - i) == Parsed(p)
    {
      WalkStep(p, off, n - i, groups);
      if off + 8 > |p| { return; }
      var group := p[off + 4..off + 8];
      if Multicast(group) {
        groups := groups + [group];
      }
      off := off + RecordLength(p, off);
    }
    WalkStep(p, off, 0, groups);
  }

  lemma NothingBefore(s: seq<seq<byte>>)
    ensures [] + s == s
  {}

  lemma WalkStep(p: seq<byte>, off: nat, n: nat, groups: seq<seq<byte>>)
    ensures n == 0 || off + HEADER > |p| ==> groups + Walk(p, off, n) == groups
    ensures n > 0 && off + HEADER <= |p| ==>
              var group := p[off + 4..off + 8];
              groups + Walk(p, off, n)
              == (if Multicast(group) then groups + [group] else groups) + Walk(p, off + RecordLength(p, off), n - 1)
  {}

  // ---- Truncation -----------------------------------------------------------

  lemma {:induction false} CutWalk(p: seq<byte>, k: nat, off: nat, n: nat)
    requires k <= |p|
    ensures Walk(p[..k], off, n) <= Walk(p, off, n)
    decreases n
  {
    hide RecordLength, Kept;
    if n > 0 && off + HEADER <= k {
      assert p[..k][off + 4..off + 8] == p[off + 4..off + 8];
      SameLength(p, k, off);
      CutWalk(p, k, off + RecordLength(p, off), n - 1);
      PrefixAfter(Kept(p[off + 4..off + 8]), Walk(p[..k], off + RecordLength(p, off), n - 1),
                  Walk(p, off + RecordLength(p, off), n - 1));
    }
  }

  lemma PrefixAfter(a: seq<seq<byte>>, b: seq<seq<byte>>, c: seq<seq<byte>>)
    requires b <= c
    ensures a + b <= a + c
  {}

  lemma SameLength(p: seq<byte>, k: nat, off: nat)
    requires off + HEADER <= k <= |p|
    ensures RecordLength(p[..k], off) == RecordLength(p, off)
  {}

  // However a report is cut short, the groups read are a prefix of all its groups.
  lemma TruncationReadsPrefix(p: seq<byte>, k: nat)
    requires k <= |p|
    ensures Parsed(p[..k]) <= Parsed(p)
  {
    if k >= HEADER {
      CutWalk(p, k, HEADER, U16(p[6], p[7]));
    }
  }

  // ---- Encoding and round trip ----------------------------------------------

  datatype Record = Record(kind: byte, group: seq<byte>, sources: seq<byte>, aux: seq<byte>)

  ghost predicate ValidRecord(r: Record) {
    && |r.group| == 4
    && |r.sources| % 4 == 0 && |r.sources| / 4 < 0x1_0000
    && |r.aux| % 4 == 0 && |r.aux| / 4 < 0x100
  }

  ghost predicate ValidRecords(rs: seq<Record>) {
    forall i :: 0 <= i < |rs| ==> ValidRecord(rs[i])
  }

  ghost function EncodeRecord(r: Record): seq<byte>
    requires ValidRecord(r)
  {
    [r.kind, (|r.aux| / 4) as byte] + Octets(|r.sources| / 4) + r.group + r.sources + r.aux
  }

  // The records, and whatever follows them.
  ghost function EncodeRecords(rs: seq<Record>, rest: seq<byte>): seq<byte>
    requires ValidRecords(rs)
  {
    if rs == [] then rest else EncodeRecord(rs[0]) + EncodeRecords(rs[1..], rest)
  }

  // A report: its first six octets are not read.
  ghost function Encode(head: seq<byte>, rs: seq<Record>, rest: seq<byte>): seq<byte>
    requires |head| == 6 && ValidRecords(rs) && |rs| < 0x1_0000
  {
    head + Octets(|rs|) + EncodeRecords(rs, rest)
  }

  // Class D addresses start with the bits 1110.
  ghost function MulticastGroups(rs: seq<Record>): seq<seq<byte>>
    requires ValidRecords(rs)
  {
    if rs == [] then []
    else (if rs[0].group[0] as nat / 16 == 14 then [rs[0].group] else []) + MulticastGroups(rs[1..])
  }

  lemma KeptIsClassD(group: seq<byte>)
    requires |group| == 4
    ensures Kept(group) == if group[0] as nat / 16 == 14 then [group] else []
  {}

  lemma RecordReadsBack(p: seq<byte>, off: nat, r: Record, rest: seq<byte>)
    requires ValidRecord(r) && Reads(p, off, EncodeRecord(r) + rest)
    ensures off + HEADER <= |p| && p[off + 4..off + 8] == r.group
    ensures off + RecordLength(p, off) == |p| - |rest| && Reads(p, |p| - |rest|, rest)
  {
    hide Reads, Octets, U16;
    var code := EncodeRecord(r);
    Peel(p, off, code, rest);
    OctetPair(|r.sources| / 4);
    var fixed := [r.kind, (|r.aux| / 4) as byte] + Octets(|r.sources| / 4);
    assert code == fixed + (r.group + r.sources + r.aux);
    assert p[off + 1] == code[1] == fixed[1];
    assert p[off + 2] == code[2] == fixed[2] && p[off + 3] == code[3] == fixed[3];
    forall i | 0 <= i < 4 ensures p[off + 4..off + 8][i] == r.group[i] {
      assert p[off + (4 + i)] == code[4 + i];
    }
  }

  lemma {:induction false} RecordsReadBack(p: seq<byte>, off: nat, rs: seq<Record>, rest: seq<byte>)
    requires ValidRecords(rs) && Reads(p, off, EncodeRecords(rs, rest))
    ensures Walk(p, off, |rs|) == MulticastGroups(rs)
    decreases |rs|
  {
    if rs != [] {
      hide Reads, EncodeRecord, RecordLength, Kept;
      KeptIsClassD(rs[0].group);
      var others := EncodeRecords(rs[1..], rest);
      RecordReadsBack(p, off, rs[0], others);
      RecordsReadBack(p, |p| - |others|, rs[1..], rest);
      assert Walk(p, off, |rs|) == Kept(rs[0].group) + Walk(p, |p| - |others|, |rs| - 1);
    }
  }

  // Whatever their source and auxiliary data, the multicast groups of all records come
  // back in order.
  lemma ParseUndoesEncode(head: seq<byte>, rs: seq<Record>, rest: seq<byte>)
    requires |head| == 6 && ValidRecords(rs) && |rs| < 0x1_0000
    ensures Parsed(Encode(head, rs, rest)) == MulticastGroups(rs)
  {
    hide EncodeRecords, Octets, U16, Walk;
    var p := Encode(head, rs, rest);
    OctetPair(|rs|);
    assert p[6] == Octets(|rs|)[0] && p[7] == Octets(|rs|)[1];
    assert p[HEADER..] == EncodeRecords(rs, rest);
    RecordsReadBack(p, HEADER, rs, rest);
  }
}
