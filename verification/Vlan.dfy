// VLAN tags: `unwrap_vlan` over any number of stacked tags.
module Vlan {
  import opened Basics

  predicate TagType(et: nat) {
    et == 0x8100 || et == 0x88A8 || et == 0x9100
  }

  datatype Inner = Inner(etherType: nat, pcp: Option<nat>, payload: seq<byte>)

  // The top three bits of the tag control information.
  function PriorityOf(tci: byte): nat {
    tci as nat / 32
  }

  function Walk(raw: seq<byte>, off: nat, et: nat, pcp: Option<nat>): Option<Inner>
    requires off <= |raw|
    decreases |raw| - off
  {
    if !TagType(et) then Some(Inner(et, pcp, raw[off..]))
    else if |raw| < off + 4 then None
    else Walk(raw, off + 4, U16(raw[off + 2], raw[off + 3]), if pcp.Some? then pcp else Some(PriorityOf(raw[off])))
  }

  function Unwrapped(raw: seq<byte>): Option<Inner> {
    if |raw| < 14 then None else Walk(raw, 14, U16(raw[12], raw[13]), None)
  }

  // `unwrap_vlan`.
  method UnwrapVlan(raw: seq<byte>) returns (inner: Option<Inner>)
    ensures inner == Unwrapped(raw)
  {
    if |raw| < 14 {
      return None;
    }
    var et := U16(raw[12], raw[13]);
    var off := 14;
    var pcp: Option<nat> := None;
    while et == 0x8100 || et == 0x88A8 || et == 0x9100
      invariant off <= |raw|
      invariant Walk(raw, off, et, pcp) == Unwrapped(raw)
      decreases |raw| - off
    {
      if |raw| < off + 4 {
        return None;
      }
      if pcp == None {
        pcp := Some(raw[off] as nat / 32);
      }
      et := U16(raw[off + 2], raw[off + 3]);
      off := off + 4;
    }
    inner := Some(Inner(et, pcp, raw[off..]));
  }

  // ---- Tagging and round trip -----------------------------------------------

  datatype Tag = Tag(tpid: nat, priority: nat, dei: bool, vid: nat)

  ghost predicate ValidTags(tags: seq<Tag>) {
    forall i :: 0 <= i < |tags| ==>
      tags[i].tpid in {0x8100, 0x88A8, 0x9100} && tags[i].priority < 8 && tags[i].vid < 4096
  }

  ghost function ControlInfo(t: Tag): nat
    requires t.priority < 8 && t.vid < 4096
  {
    t.priority * 8192 + (if t.dei then 4096 else 0) + t.vid
  }

  // The tag types and control words, then the inner EtherType and the payload.
  ghost function EncodeTags(tags: seq<Tag>, et: nat, payload: seq<byte>): seq<byte>
    requires ValidTags(tags) && et < 0x1_0000
  {
    if tags == [] then Octets(et) + payload
    else Octets(tags[0].tpid) + (Octets(ControlInfo(tags[0])) + EncodeTags(tags[1..], et, payload))
  }

  lemma PriorityReadsBack(t: Tag)
    requires t.priority < 8 && t.vid < 4096
    ensures ControlInfo(t) < 0x1_0000 && PriorityOf(Octets(ControlInfo(t))[0]) == t.priority
  {}

  // From the EtherType field at off - 2 on, reading undoes tagging.
  lemma {:induction false} TagsReadBack(raw: seq<byte>, off: nat, tags: seq<Tag>, et: nat, payload: seq<byte>,
                                        pcp: Option<nat>)
    requires ValidTags(tags) && et < 0x1_0000 && et !in {0x8100, 0x88A8, 0x9100}
    requires off >= 2 && Reads(raw, off - 2, EncodeTags(tags, et, payload))
    ensures off <= |raw|
    ensures Walk(raw, off, U16(raw[off - 2], raw[off - 1]), pcp)
         == Some(Inner(et, if pcp.Some? || tags == [] then pcp else Some(tags[0].priority), payload))
    decreases |tags|
  {
    hide Octets, ControlInfo, Reads, U16, PriorityOf;
    if tags == [] {
      PeelOctets(raw, off - 2, et, payload);
      PayloadAt(raw, off, payload);
    } else {
      var t := tags[0];
      PriorityReadsBack(t);
      var others := EncodeTags(tags[1..], et, payload);
      PeelOctets(raw, off - 2, t.tpid, Octets(ControlInfo(t)) + others);
      PeelOctets(raw, off, ControlInfo(t), others);
      TagsReadBack(raw, off + 4, tags[1..], et, payload, if pcp.Some? then pcp else Some(t.priority));
    }
  }

  lemma PayloadAt(raw: seq<byte>, off: nat, payload: seq<byte>)
    requires Reads(raw, off, payload)
    ensures raw[off..] == payload
  {}

  // Any number of stacked tags is peeled off, and the priority reported is that of the
  // outermost one, if any.
  lemma UnwrapUndoesTagging(macs: seq<byte>, tags: seq<Tag>, et: nat, payload: seq<byte>)
    requires |macs| == 12 && ValidTags(tags) && et < 0x1_0000 && et !in {0x8100, 0x88A8, 0x9100}
    ensures Unwrapped(macs + EncodeTags(tags, et, payload))
         == Some(Inner(et, if tags == [] then None else Some(tags[0].priority), payload))
  {
    hide EncodeTags;
    var raw := macs + EncodeTags(tags, et, payload);
    assert raw[12..] == EncodeTags(tags, et, payload);
    TagsReadBack(raw, 14, tags, et, payload, None);
  }

  // ---- Truncation -----------------------------------------------------------

  lemma {:induction false} CutWalk(raw: seq<byte>, k: nat, off: nat, et: nat, pcp: Option<nat>)
    requires off <= k <= |raw|
    ensures var full := Walk(raw, off, et, pcp);
            && (full.Some? ==> |full.value.payload| <= |raw| - off)
            && Walk(raw[..k], off, et, pcp) ==
               if full.Some? && |raw| - |full.value.payload| <= k
               then Some(full.value.(payload := raw[|raw| - |full.value.payload|..k])) else None
    decreases |raw| - off
  {
    if TagType(et) && off + 4 <= |raw| {
      var next := if pcp.Some? then pcp else Some(PriorityOf(raw[off]));
      if off + 4 <= k {
        CutWalk(raw, k, off + 4, U16(raw[off + 2], raw[off + 3]), next);
      } else {
        CutWalk(raw, |raw|, off + 4, U16(raw[off + 2], raw[off + 3]), next);
      }
    }
  }

  // A frame cut before its payload is refused; cut inside it, only the payload shrinks.
  lemma TruncationCutsPayloadOnly(raw: seq<byte>, k: nat)
    requires k <= |raw|
    ensures var full := Unwrapped(raw);
            && (full.Some? ==> |full.value.payload| <= |raw|)
            && Unwrapped(raw[..k]) ==
               if full.Some? && |raw| - |full.value.payload| <= k
               then Some(full.value.(payload := raw[|raw| - |full.value.payload|..k])) else None
  {
    if |raw| >= 14 {
      CutWalk(raw, if k >= 14 then k else |raw|, 14, U16(raw[12], raw[13]), None);
    }
  }
}
