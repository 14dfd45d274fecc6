/** What the renaming does to any input: the plan comes out in file order, the kept regions
    are disjoint, and every byte outside them is copied, in order. */
module Splicing {
  import opened Rebase

  // ----- printable runs

  predicate AllPrintable(data: seq<Byte>, s: nat, e: nat)
    requires e <= |data|
  {
    forall i :: s <= i < e ==> Printable(data[i])
  }

  lemma {:induction false} RunStartIs(data: seq<Byte>, s: nat, p: nat)
    requires s <= p <= |data| && AllPrintable(data, s, p) && (s > 0 ==> !Printable(data[s - 1]))
    ensures RunStart(data, p) == s
  {
    if s < p {
      RunStartIs(data, s, p - 1);
    }
  }

  lemma {:induction false} RunStartMaximal(data: seq<Byte>, p: nat)
    requires p <= |data|
    ensures AllPrintable(data, RunStart(data, p), p)
    ensures RunStart(data, p) > 0 ==> !Printable(data[RunStart(data, p) - 1])
  {
    if p > 0 && Printable(data[p - 1]) {
      RunStartMaximal(data, p - 1);
    }
  }

  lemma {:induction false} RunEndExtends(data: seq<Byte>, e: nat, f: nat)
    requires e <= f <= |data| && AllPrintable(data, e, f)
    ensures RunEnd(data, e) == RunEnd(data, f)
    decreases f - e
  {
    if e < f {
      RunEndExtends(data, e + 1, f);
    }
  }

  lemma NamePrintable(data: seq<Byte>, p: nat)
    requires OccursAt(data, p)
    ensures AllPrintable(data, p, p + OLD_LEN)
  {
    forall i | p <= i < p + OLD_LEN ensures Printable(data[i]) {
      assert data[i] == data[p..p + OLD_LEN][i - p] == OLD[i - p];
    }
  }

  // ----- the plan is in file order, so the sort changes nothing

  lemma SameRun(data: seq<Byte>, p: nat, q: nat)
    requires OccursAt(data, p) && OccursAt(data, q) && RunStart(data, q) <= p < q
    ensures PrefixOf(data, p) == PrefixOf(data, q)
  {
    NamePrintable(data, q);
    RunStartMaximal(data, q);
    RunStartIs(data, RunStart(data, q), p);
    hide Printable;
    RunEndExtends(data, p + OLD_LEN, q + OLD_LEN);
  }

  lemma LaterRun(data: seq<Byte>, p: nat, q: nat)
    requires OccursAt(data, p) && OccursAt(data, q) && p < q && p < RunStart(data, q)
    ensures p + OLD_LEN < RunStart(data, q)
  {
    NamePrintable(data, p);
    RunStartMaximal(data, q);
  }

  lemma PlanAscends(data: seq<Byte>, p: nat, q: nat)
    requires OccursAt(data, p) && OccursAt(data, q) && p < q
    ensures Plan(data, p).start <= Plan(data, q).start
  {
    if RunStart(data, q) <= p {
      SameRun(data, p, q);
    } else {
      LaterRun(data, p, q);
    }
    hide OccursAt, Pack, Unpack, ReplaceFirst;
  }

  lemma {:induction false} OccurrencesAscend(data: seq<Byte>, i: nat)
    requires i <= |data|
    ensures forall j, k :: 0 <= j < k < |Occurrences(data, i)| ==> Occurrences(data, i)[j] < Occurrences(data, i)[k]
    decreases |data| - i
  {
    hide OccursAt;
    var p := FirstFrom(data, i);
    if p < |data| {
      OccurrencesAscend(data, p + 1);
    }
  }

  lemma {:induction false} OccurrencesComplete(data: seq<Byte>, i: nat, p: nat)
    requires i <= p < |data| && OccursAt(data, p)
    ensures p in Occurrences(data, i)
    decreases |data| - i
  {
    hide OccursAt;
    var q := FirstFrom(data, i);
    if q < p {
      OccurrencesComplete(data, q + 1, p);
    }
  }

  predicate Ascending(rs: seq<Region>) {
    forall i, j :: 0 <= i < j < |rs| ==> rs[i].start <= rs[j].start
  }

  predicate Proper(rs: seq<Region>) {
    forall i :: 0 <= i < |rs| ==> rs[i].start < rs[i].end
  }

  function PlanOf(data: seq<Byte>): seq<Region> {
    Plans(data, Occurrences(data, 0))
  }

  lemma PlanOfAscends(data: seq<Byte>)
    ensures Ascending(PlanOf(data)) && Proper(PlanOf(data))
  {
    var ps := Occurrences(data, 0);
    OccurrencesAscend(data, 0);
    hide OccursAt, Plan, Occurrences;
    forall i, j | 0 <= i < j < |ps| ensures PlanOf(data)[i].start <= PlanOf(data)[j].start {
      PlanAscends(data, ps[i], ps[j]);
    }
  }

  lemma {:induction false} SortedNoOp(rs: seq<Region>)
    requires Ascending(rs)
    ensures Sorted(rs) == rs
  {
    if rs != [] {
      var front := rs[..|rs| - 1];
      SortedNoOp(front);
      assert front != [] ==> front[|front| - 1] == rs[|rs| - 2];
      assert rs == front + [rs[|rs| - 1]];
    }
  }

  // ----- the kept regions

  predicate Tidy(rs: seq<Region>) {
    Proper(rs) && forall i, j :: 0 <= i < j < |rs| ==> rs[i].end <= rs[j].start
  }

  ghost predicate Covered(r: Region, kept: seq<Region>) {
    exists k :: 0 <= k < |kept| && kept[k].start <= r.start < kept[k].end
  }

  ghost predicate MergeOf(m: seq<Region>, rs: seq<Region>) {
    Tidy(m) && (forall r :: r in m ==> r in rs) && (forall r :: r in rs ==> Covered(r, m))
  }

  /** Merging keeps a disjoint, ordered selection, and what it drops starts inside a kept region. */
  lemma {:induction false} MergedTidy(rs: seq<Region>)
    requires Ascending(rs) && Proper(rs)
    ensures MergeOf(Merged(rs), rs)
  {
    hide MergeOf, Ascending, Proper;
    if rs == [] {
      MergeNothing();
    } else {
      var front, r := rs[..|rs| - 1], rs[|rs| - 1];
      InOrderFront(rs);
      MergedTidy(front);
      assert rs == front + [r];
      MergeStep(Merged(front), front, r);
    }
  }

  lemma MergeNothing()
    ensures MergeOf([], [])
  {}

  lemma InOrderFront(rs: seq<Region>)
    requires Ascending(rs) && Proper(rs) && rs != []
    ensures var front, r := rs[..|rs| - 1], rs[|rs| - 1];
            Ascending(front) && Proper(front) && r.start < r.end && forall x :: x in front ==> x.start <= r.start
  {
    var front, r := rs[..|rs| - 1], rs[|rs| - 1];
    forall x | x in front ensures x.start <= r.start {
      var k :| 0 <= k < |front| && front[k] == x;
      assert rs[k] == x;
    }
  }

  lemma MergeStep(m: seq<Region>, front: seq<Region>, r: Region)
    requires MergeOf(m, front) && r.start < r.end && forall x :: x in front ==> x.start <= r.start
    ensures MergeOf(if m != [] && r.start < m[|m| - 1].end then m else m + [r], front + [r])
  {
    hide Covered, Tidy;
    if m != [] && r.start < m[|m| - 1].end {
      assert m[|m| - 1] in m;
      CoveredByLast(r, m);
    } else {
      KeptEnds(m, r);
    }
  }

  lemma CoveredByLast(r: Region, m: seq<Region>)
    requires m != [] && m[|m| - 1].start <= r.start < m[|m| - 1].end
    ensures Covered(r, m)
  {}

  lemma KeptEnds(m: seq<Region>, r: Region)
    requires Tidy(m) && r.start < r.end && (m != [] ==> m[|m| - 1].end <= r.start)
    ensures Tidy(m + [r]) && Covered(r, m + [r])
    ensures forall x :: Covered(x, m) ==> Covered(x, m + [r])
  {
    assert (m + [r])[|m|] == r;
    forall x | Covered(x, m) ensures Covered(x, m + [r]) {
      var k :| 0 <= k < |m| && m[k].start <= x.start < m[k].end;
      assert (m + [r])[k] == m[k];
    }
    forall i | 0 <= i < |m| ensures m[i].end <= r.start {
      assert i < |m| - 1 ==> m[i].end <= m[|m| - 1].start;
    }
  }

  function KeptOf(data: seq<Byte>): seq<Region> {
    Merged(Sorted(PlanOf(data)))
  }

  lemma KeptIsMerge(data: seq<Byte>)
    ensures Sorted(PlanOf(data)) == PlanOf(data)
    ensures MergeOf(KeptOf(data), PlanOf(data))
  {
    PlanOfAscends(data);
    SortedNoOp(PlanOf(data));
    MergedTidy(PlanOf(data));
  }

  // ----- the output, position by position

  /** How far the regions that end at or before a position move the bytes after them. */
  function Shift(rs: seq<Region>, i: nat): int {
    if rs == [] || rs[0].end > i then 0
    else |rs[0].bytes| - (rs[0].end - rs[0].start) + Shift(rs[1..], i)
  }

  ghost predicate Within(data: seq<Byte>, rs: seq<Region>, cursor: nat) {
    Tidy(rs) && forall k :: 0 <= k < |rs| ==> cursor <= rs[k].start <= |data|
  }

  predicate Holds(out: seq<Byte>, at: int, bytes: seq<Byte>) {
    0 <= at && at + |bytes| <= |out| && out[at..at + |bytes|] == bytes
  }

  lemma HoldsAfter(head: seq<Byte>, out: seq<Byte>, at: int, bytes: seq<Byte>)
    requires Holds(out, at, bytes)
    ensures Holds(head + out, |head| + at, bytes)
  {
    assert (head + out)[|head| + at..|head| + at + |bytes|] == out[at..at + |bytes|];
  }

  /** One region: the gap, its bytes, and the rest. */
  lemma FirstRegion(data: seq<Byte>, rs: seq<Region>, cursor: nat)
    requires Within(data, rs, cursor) && rs != []
    ensures Within(data, rs[1..], rs[0].end)
    ensures Spliced(data, rs, cursor) == data[cursor..rs[0].start] + rs[0].bytes + Spliced(data, rs[1..], rs[0].end)
  {}

  /** A byte outside every region is copied, moved by the regions before it. */
  lemma {:induction false} CopiedOutside(data: seq<Byte>, rs: seq<Region>, cursor: nat, i: nat)
    requires Within(data, rs, cursor) && cursor <= i < |data|
    requires forall k :: 0 <= k < |rs| ==> i < rs[k].start || rs[k].end <= i
    ensures Holds(Spliced(data, rs, cursor), i - cursor + Shift(rs, i), [data[i]])
    decreases |rs|
  {
    if rs != [] {
      var r, rest := rs[0], Spliced(data, rs[1..], rs[0].end);
      var gap := data[cursor..r.start];
      FirstRegion(data, rs, cursor);
      if i < r.start {
        assert (gap + r.bytes + rest)[i - cursor] == data[i];
      } else {
        hide Spliced, Holds;
        CopiedOutside(data, rs[1..], r.end, i);
        HoldsAfter(gap + r.bytes, rest, i - r.end + Shift(rs[1..], i), [data[i]]);
      }
    }
  }

  lemma PlacedFirst(gap: seq<Byte>, bytes: seq<Byte>, rest: seq<Byte>)
    ensures Holds(gap + bytes + rest, |gap|, bytes)
  {
    assert (gap + bytes + rest)[|gap|..|gap| + |bytes|] == bytes;
  }

  lemma Bounds(data: seq<Byte>, rs: seq<Region>, cursor: nat, k: nat)
    requires Within(data, rs, cursor) && k < |rs|
    ensures rs[0].start < rs[0].end && cursor <= rs[0].start <= |data| && (k > 0 ==> rs[0].end <= rs[k].start)
  {}

  /** Each region's new bytes stand where the region was, moved by the regions before it. */
  lemma {:induction false} PlacedInside(data: seq<Byte>, rs: seq<Region>, cursor: nat, k: nat)
    requires Within(data, rs, cursor) && k < |rs|
    ensures Holds(Spliced(data, rs, cursor), rs[k].start - cursor + Shift(rs, rs[k].start), rs[k].bytes)
    decreases |rs|
  {
    hide Spliced, Holds, Within;
    FirstRegion(data, rs, cursor);
    Bounds(data, rs, cursor, k);
    var r, rest := rs[0], Spliced(data, rs[1..], rs[0].end);
    var gap := data[cursor..r.start];
    if k == 0 {
      PlacedFirst(gap, r.bytes, rest);
    } else {
      var later := rs[k];
      assert rs[1..][k - 1] == later;
      PlacedInside(data, rs[1..], r.end, k - 1);
      HoldsAfter(gap + r.bytes, rest, later.start - r.end + Shift(rs[1..], later.start), later.bytes);
    }
  }

  ghost predicate Planned(data: seq<Byte>, r: Region) {
    exists p: nat :: OccursAt(data, p) && r == Plan(data, p)
  }

  lemma KeptWithin(data: seq<Byte>)
    ensures Within(data, KeptOf(data), 0)
    ensures forall r :: r in KeptOf(data) ==> Planned(data, r)
  {
    hide Planned, KeptOf, PlanOf, Covered, Tidy;
    KeptIsMerge(data);
    forall r | r in KeptOf(data) ensures Planned(data, r) && r.start <= |data| {
      InPlan(data, r);
    }
  }

  lemma InPlan(data: seq<Byte>, r: Region)
    requires r in PlanOf(data)
    ensures Planned(data, r) && r.start <= |data|
  {
    hide Plan, Occurrences;
    var ps := Occurrences(data, 0);
    var k :| 0 <= k < |ps| && PlanOf(data)[k] == r;
    assert OccursAt(data, ps[k]) && r == Plan(data, ps[k]);
  }

  lemma OccurrencesCovered(data: seq<Byte>, p: nat)
    requires OccursAt(data, p)
    ensures Covered(Plan(data, p), KeptOf(data))
  {
    KeptIsMerge(data);
    OccurrencesComplete(data, 0, p);
    hide OccursAt, Plan, Merged, Sorted, Occurrences, Covered;
    var k :| 0 <= k < |Occurrences(data, 0)| && Occurrences(data, 0)[k] == p;
    assert PlanOf(data)[k] == Plan(data, p);
  }

  /** A position no region contains. */
  ghost predicate Outside(rs: seq<Region>, i: nat) {
    forall k :: 0 <= k < |rs| ==> i < rs[k].start || rs[k].end <= i
  }

  /** For any input: the kept regions are ordered, disjoint and planned for an occurrence;
      the region of every occurrence starts inside one of them; every byte outside is
      copied in order; and every kept region's bytes are written in its place. */
  lemma EveryByteAccounted(data: seq<Byte>)
    ensures Tidy(KeptOf(data))
    ensures forall r :: r in KeptOf(data) ==> Planned(data, r)
    ensures forall p: nat :: OccursAt(data, p) ==> Covered(Plan(data, p), KeptOf(data))
    ensures forall i :: 0 <= i < |data| && Outside(KeptOf(data), i)
                        ==> Holds(Rebased(data), i + Shift(KeptOf(data), i), [data[i]])
    ensures forall k :: 0 <= k < |KeptOf(data)| ==>
                          Holds(Rebased(data), KeptOf(data)[k].start + Shift(KeptOf(data), KeptOf(data)[k].start),
                                KeptOf(data)[k].bytes)
  {
    hide *;
    KeptIsMerge(data);
    KeptWithin(data);
    var kept := KeptOf(data);
    forall p: nat | OccursAt(data, p) ensures Covered(Plan(data, p), kept) {
      OccurrencesCovered(data, p);
    }
    forall i | 0 <= i < |data| && Outside(kept, i)
      ensures Holds(Rebased(data), i + Shift(kept, i), [data[i]])
    {
      OutputCopies(data, i);
    }
    forall k | 0 <= k < |kept|
      ensures Holds(Rebased(data), kept[k].start + Shift(kept, kept[k].start), kept[k].bytes)
    {
      OutputPlaces(data, k);
    }
  }

  lemma OutputCopies(data: seq<Byte>, i: nat)
    requires i < |data| && Outside(KeptOf(data), i)
    ensures Holds(Rebased(data), i + Shift(KeptOf(data), i), [data[i]])
  {
    hide OccursAt, Plan, Merged, Sorted, Occurrences, Plans, Spliced, Holds, Shift, Within;
    KeptWithin(data);
    CopiedOutside(data, KeptOf(data), 0, i);
  }

  lemma OutputPlaces(data: seq<Byte>, k: nat)
    requires k < |KeptOf(data)|
    ensures Holds(Rebased(data), KeptOf(data)[k].start + Shift(KeptOf(data), KeptOf(data)[k].start),
                  KeptOf(data)[k].bytes)
  {
    hide OccursAt, Plan, Merged, Sorted, Occurrences, Plans, Spliced, Holds, Shift, Within;
    KeptWithin(data);
    PlacedInside(data, KeptOf(data), 0, k);
  }
}
