/** Renaming inside a binary mod file whose strings carry a four-byte length prefix:
    find every occurrence of the old name, work out which string it belongs to, and
    splice in the renamed string with a corrected prefix. */
module Rebase {

  type Byte = b: int | 0 <= b < 256

  // "multiplayr" and "kenshi-online"
  const OLD: seq<Byte> := [109, 117, 108, 116, 105, 112, 108, 97, 121, 114]
  const NEW: seq<Byte> := [107, 101, 110, 115, 104, 105, 45, 111, 110, 108, 105, 110, 101]
  const OLD_LEN := 10
  const DELTA := 3

  /** Files below four gigabytes, so that every corrected prefix still fits. */
  const MAX_FILE := 0xFFFF_FF00

  predicate Printable(b: Byte) { 0x20 <= b < 0x7F }

  predicate OccursAt(data: seq<Byte>, p: int) {
    0 <= p && p + OLD_LEN <= |data| && data[p..p + OLD_LEN] == OLD
  }

  /** Little-endian 32-bit values. */
  function Pack(n: nat): (r: seq<Byte>)
    ensures |r| == 4
  {
    [n % 0x100, n / 0x100 % 0x100, n / 0x1_0000 % 0x100, n / 0x100_0000 % 0x100]
  }

  function Unpack(data: seq<Byte>, i: nat): (n: nat)
    requires i + 4 <= |data|
    ensures n < 0x1_0000_0000
  {
    var b0: int, b1: int, b2: int, b3: int := data[i], data[i + 1], data[i + 2], data[i + 3];
    b0 + 0x100 * b1 + 0x1_0000 * b2 + 0x100_0000 * b3
  }

  /** The prefix of a string reads back as its length. */
  lemma PackUnpack(data: seq<Byte>, i: nat, n: nat)
    requires n < 0x1_0000_0000 && i + 4 <= |data| && data[i..i + 4] == Pack(n)
    ensures Unpack(data, i) == n
  {
    forall k | 0 <= k < 4 ensures data[i + k] == Pack(n)[k] {
      assert data[i..i + 4][k] == data[i + k];
    }
    var q1 := n / 0x100;
    var q2 := q1 / 0x100;
    var q3 := q2 / 0x100;
    assert q2 == n / 0x1_0000 && q3 == n / 0x100_0000 && q3 < 0x100;
  }

  // ----- the pieces of the plan

  /** Where the printable run around a position starts and ends. */
  function RunStart(data: seq<Byte>, s: nat): (r: nat)
    requires s <= |data|
    ensures r <= s
  {
    if s > 0 && Printable(data[s - 1]) then RunStart(data, s - 1) else s
  }

  function RunEnd(data: seq<Byte>, e: nat): (r: nat)
    requires e <= |data|
    ensures e <= r <= |data|
    decreases |data| - e
  {
    if e < |data| && Printable(data[e]) then RunEnd(data, e + 1) else e
  }

  function PrefixOf(data: seq<Byte>, p: nat): (r: int)
    requires OccursAt(data, p)
    ensures r >= 0 ==> r + 4 <= p && r + 4 <= |data| && Unpack(data, r) > 0
  {
    var s := RunStart(data, p);
    if s < 4 then -1
    else
      var prefix := Unpack(data, s - 4);
      var length := RunEnd(data, p + OLD_LEN) - s;
      if -1 <= prefix - length <= 1 && prefix > 0 then s - 4 else -1
  }

  function Clamp(i: nat, data: seq<Byte>): (r: nat)
    ensures r <= |data|
  {
    if i <= |data| then i else |data|
  }

  /** The first occurrence at or after a position, or the length if there is none. */
  function FirstFrom(data: seq<Byte>, i: nat): (p: nat)
    requires i <= |data|
    ensures i <= p <= |data| && (p < |data| ==> OccursAt(data, p))
    ensures forall k :: i <= k < p ==> !OccursAt(data, k)
    decreases |data| - i
  {
    if i == |data| || OccursAt(data, i) then i else FirstFrom(data, i + 1)
  }

  function ReplaceFirst(text: seq<Byte>): seq<Byte> {
    var p := FirstFrom(text, 0);
    if p == |text| then text else text[..p] + NEW + text[p + OLD_LEN..]
  }

  datatype Region = Region(start: nat, end: nat, bytes: seq<Byte>)

  function Plan(data: seq<Byte>, p: nat): (r: Region)
    requires OccursAt(data, p)
    ensures r.start <= p && r.start < r.end
  {
    var off := PrefixOf(data, p);
    if off >= 0 then
      var length := Unpack(data, off);
      var end := off + 4 + length;
      Region(off, end, Pack(length + DELTA) + ReplaceFirst(data[Clamp(off + 4, data)..Clamp(end, data)]))
    else Region(p, p + OLD_LEN, NEW)
  }

  /** Every occurrence from a position on, left to right. */
  function Occurrences(data: seq<Byte>, i: nat): (r: seq<nat>)
    requires i <= |data|
    ensures forall k :: 0 <= k < |r| ==> i <= r[k] && OccursAt(data, r[k])
    decreases |data| - i
  {
    var p := FirstFrom(data, i);
    if p == |data| then [] else [p] + Occurrences(data, p + 1)
  }

  function Plans(data: seq<Byte>, ps: seq<nat>): (r: seq<Region>)
    requires forall k :: 0 <= k < |ps| ==> OccursAt(data, ps[k])
    ensures |r| == |ps|
  {
    seq(|ps|, k requires 0 <= k < |ps| => Plan(data, ps[k]))
  }

  /** Stable insertion by start offset. */
  function Inserted(rs: seq<Region>, r: Region): seq<Region> {
    if rs == [] || rs[|rs| - 1].start <= r.start then rs + [r]
    else Inserted(rs[..|rs| - 1], r) + [rs[|rs| - 1]]
  }

  function Sorted(rs: seq<Region>): seq<Region> {
    if rs == [] then [] else Inserted(Sorted(rs[..|rs| - 1]), rs[|rs| - 1])
  }

  /** Drops every region that starts before the last kept one ends. */
  function Merged(rs: seq<Region>): seq<Region> {
    if rs == [] then []
    else
      var m, r := Merged(rs[..|rs| - 1]), rs[|rs| - 1];
      if m != [] && r.start < m[|m| - 1].end then m else m + [r]
  }

  /** Copies the data from the cursor on, with each region replaced by its bytes. */
  function Spliced(data: seq<Byte>, rs: seq<Region>, cursor: nat): seq<Byte> {
    if rs == [] then data[Clamp(cursor, data)..]
    else
      var r := rs[0];
      (if cursor <= r.start <= |data| then data[cursor..r.start] else []) + r.bytes + Spliced(data, rs[1..], r.end)
  }

  function Rebased(data: seq<Byte>): seq<Byte> {
    Spliced(data, Merged(Sorted(Plans(data, Occurrences(data, 0)))), 0)
  }

  // ----- the program

  method FindLengthPrefix(data: seq<Byte>, p: nat) returns (off: int)
    requires OccursAt(data, p)
    ensures off == PrefixOf(data, p)
  {
    var s := p;
    while s > 0 && Printable(data[s - 1])
      invariant 0 <= s <= p && RunStart(data, s) == RunStart(data, p)
    {
      s := s - 1;
    }
    if s < 4 {
      return -1;
    }
    var prefix := Unpack(data, s - 4);
    var e := p + OLD_LEN;
    while e < |data| && Printable(data[e])
      invariant p + OLD_LEN <= e <= |data| && RunEnd(data, e) == RunEnd(data, p + OLD_LEN)
    {
      e := e + 1;
    }
    var length := e - s;
    if -1 <= prefix - length <= 1 && prefix > 0 {
      return s - 4;
    }
    return -1;
  }

  lemma OneMoreFound(ps: seq<nat>, p: nat, rest: seq<nat>)
    ensures ps + ([p] + rest) == (ps + [p]) + rest
  {}

  method FindAll(data: seq<Byte>) returns (ps: seq<nat>)
    ensures ps == Occurrences(data, 0)
  {
    hide OccursAt;
    ps := [];
    var start := 0;
    while true
      invariant 0 <= start <= |data|
      invariant ps + Occurrences(data, start) == Occurrences(data, 0)
      decreases |data| - start
    {
      var p := FirstFrom(data, start);
      if p == |data| {
        return;
      }
      OneMoreFound(ps, p, Occurrences(data, p + 1));
      ps := ps + [p];
      start := p + 1;
    }
  }

  method PlanOccurrence(data: seq<Byte>, p: nat) returns (r: Region)
    requires OccursAt(data, p)
    ensures r == Plan(data, p)
  {
    hide OccursAt, Pack, Unpack, PrefixOf, ReplaceFirst;
    var off := FindLengthPrefix(data, p);
    if off < 0 {
      return Region(p, p + OLD_LEN, NEW);
    }
    var length := Unpack(data, off);
    var end := off + 4 + length;
    var text := data[Clamp(off + 4, data)..Clamp(end, data)];
    return Region(off, end, Pack(length + DELTA) + ReplaceFirst(text));
  }

  method BuildPlan(data: seq<Byte>, ps: seq<nat>) returns (rs: seq<Region>)
    requires forall k :: 0 <= k < |ps| ==> OccursAt(data, ps[k])
    ensures rs == Plans(data, ps)
  {
    hide Plan, OccursAt;
    rs := [];
    for i := 0 to |ps|
      invariant |rs| == i && forall k :: 0 <= k < i ==> rs[k] == Plan(data, ps[k])
    {
      var r := PlanOccurrence(data, ps[i]);
      rs := rs + [r];
    }
  }

  method MergeOverlaps(rs: seq<Region>) returns (merged: seq<Region>)
    ensures merged == Merged(rs)
  {
    merged := [];
    for i := 0 to |rs|
      invariant merged == Merged(rs[..i])
    {
      assert rs[..i + 1][..i] == rs[..i];
      if merged != [] && rs[i].start < merged[|merged| - 1].end {
        continue;
      }
      merged := merged + [rs[i]];
    }
    assert rs[..|rs|] == rs;
  }

  method ApplyRegions(data: seq<Byte>, merged: seq<Region>) returns (out: seq<Byte>)
    ensures out == Spliced(data, merged, 0)
  {
    out := [];
    var cursor: nat := 0;
    for i := 0 to |merged|
      invariant out + Spliced(data, merged[i..], cursor) == Spliced(data, merged, 0)
    {
      var r := merged[i];
      assert merged[i..][0] == r && merged[i..][1..] == merged[i + 1..];
      var gap := if cursor <= r.start <= |data| then data[cursor..r.start] else [];
      assert out + (gap + r.bytes + Spliced(data, merged[i + 1..], r.end)) ==
             (out + gap + r.bytes) + Spliced(data, merged[i + 1..], r.end);
      out := out + gap + r.bytes;
      cursor := r.end;
    }
    out := out + data[Clamp(cursor, data)..];
  }

  method RebaseFile(data: seq<Byte>) returns (out: seq<Byte>)
    requires |data| < MAX_FILE
    ensures out == Rebased(data)
  {
    var ps := FindAll(data);
    var rs := BuildPlan(data, ps);
    var merged := MergeOverlaps(Sorted(rs));
    out := ApplyRegions(data, merged);
  }
}
