/** The renaming on files made of length-prefixed strings and other bytes: exactly when the
    output is the file with each string renamed and its prefix corrected. */
module Framing {
  import opened Rebase
  import opened Splicing

  datatype Chunk = Raw(bytes: seq<Byte>) | Str(text: seq<Byte>)

  function Code(c: Chunk): seq<Byte> {
    match c
    case Raw(bytes) => bytes
    case Str(text) => Pack(|text|) + text
  }

  function Encode(cs: seq<Chunk>): seq<Byte> {
    if cs == [] then [] else Code(cs[0]) + Encode(cs[1..])
  }

  predicate HasName(text: seq<Byte>) {
    FirstFrom(text, 0) < |text|
  }

  predicate Named(c: Chunk) {
    c.Str? && HasName(c.text)
  }

  function Rename(c: Chunk): Chunk {
    if c.Str? then Str(ReplaceFirst(c.text)) else c
  }

  function Renamed(cs: seq<Chunk>): (r: seq<Chunk>)
    ensures |r| == |cs|
  {
    if cs == [] then [] else [Rename(cs[0])] + Renamed(cs[1..])
  }

  // ----- the format

  /** A string that holds the name is printable text, short enough that the last byte of its
      prefix is not printable; and every length fits a prefix. */
  predicate ChunkOk(c: Chunk) {
    c.Str? ==>
      |c.text| < 0x1_0000_0000 &&
      (HasName(c.text) ==> |c.text| < 0x2000_0000 && AllPrintable(c.text, 0, |c.text|))
  }

  predicate WellFormed(cs: seq<Chunk>) {
    forall k :: 0 <= k < |cs| ==> ChunkOk(cs[k])
  }

  /** The position lies, with the whole name, inside a string's text. */
  predicate Inside(cs: seq<Chunk>, o: nat, p: nat) {
    cs != [] &&
    ((cs[0].Str? && o + 4 <= p && p + OLD_LEN <= o + 4 + |cs[0].text|) ||
     Inside(cs[1..], o + |Code(cs[0])|, p))
  }

  ghost predicate NamesInStrings(cs: seq<Chunk>) {
    forall p: nat :: OccursAt(Encode(cs), p) ==> Inside(cs, 0, p)
  }

  /** At most one printable byte follows. */
  predicate TailOk(rest: seq<Byte>) {
    !(|rest| >= 2 && Printable(rest[0]) && Printable(rest[1]))
  }

  predicate Recognised(cs: seq<Chunk>) {
    cs != [] ==> (Named(cs[0]) ==> TailOk(Encode(cs[1..]))) && Recognised(cs[1..])
  }

  // ----- the plan of one string

  ghost predicate At(data: seq<Byte>, o: nat, cs: seq<Chunk>) {
    o <= |data| && data[o..] == Encode(cs)
  }

  lemma AtNext(data: seq<Byte>, o: nat, cs: seq<Chunk>)
    requires At(data, o, cs) && cs != []
    ensures o + |Code(cs[0])| <= |data| && data[o..o + |Code(cs[0])|] == Code(cs[0])
    ensures At(data, o + |Code(cs[0])|, cs[1..])
  {
    hide Code;
    var n := |Code(cs[0])|;
    assert |data[o..]| == n + |Encode(cs[1..])|;
    assert data[o..][..n] == data[o..o + n];
    assert data[o..][n..] == data[o + n..];
  }

  lemma AtString(data: seq<Byte>, o: nat, cs: seq<Chunk>)
    requires At(data, o, cs) && cs != [] && cs[0].Str?
    ensures o + 4 + |cs[0].text| <= |data|
    ensures data[o..o + 4] == Pack(|cs[0].text|)
    ensures data[o + 4..o + 4 + |cs[0].text|] == cs[0].text
    ensures At(data, o + 4 + |cs[0].text|, cs[1..])
  {
    AtNext(data, o, cs);
    hide At;
    var t := cs[0].text;
    assert Code(cs[0]) == Pack(|t|) + t;
    hide Pack, Code;
    assert Code(cs[0])[..4] == Pack(|t|) && Code(cs[0])[4..] == t;
    assert data[o..o + 4 + |t|][..4] == data[o..o + 4];
    assert data[o..o + 4 + |t|][4..] == data[o + 4..o + 4 + |t|];
  }

  function Whole(o: nat, t: seq<Byte>): Region {
    Region(o, o + 4 + |t|, Pack(|t| + DELTA) + ReplaceFirst(t))
  }

  lemma PrefixNotPrintable(data: seq<Byte>, o: nat, n: nat)
    requires o + 4 <= |data| && data[o..o + 4] == Pack(n) && n < 0x2000_0000
    ensures !Printable(data[o + 3])
  {
    assert data[o + 3] == data[o..o + 4][3] == Pack(n)[3];
    assert n / 0x100_0000 < 0x20;
  }

  lemma TailRun(data: seq<Byte>, e: nat)
    requires e <= |data|
    ensures RunEnd(data, e) <= e + 1 <==> TailOk(data[e..])
  {
    if e + 2 <= |data| {
      assert data[e..][0] == data[e] && data[e..][1] == data[e + 1];
    }
  }

  /** Where the search for the prefix of an occurrence inside a string ends up. */
  lemma PrefixInString(data: seq<Byte>, o: nat, t: seq<Byte>, p: nat)
    requires o + 4 + |t| <= |data| && data[o..o + 4] == Pack(|t|) && data[o + 4..o + 4 + |t|] == t
    requires |t| < 0x2000_0000 && AllPrintable(t, 0, |t|)
    requires OccursAt(data, p) && o + 4 <= p && p + OLD_LEN <= o + 4 + |t|
    ensures Unpack(data, o) == |t|
    ensures PrefixOf(data, p) == if TailOk(data[o + 4 + |t|..]) then o else -1
  {
    var e := o + 4 + |t|;
    PackUnpack(data, o, |t|);
    PrefixNotPrintable(data, o, |t|);
    forall i | o + 4 <= i < e ensures Printable(data[i]) {
      assert data[i] == data[o + 4..e][i - o - 4];
    }
    hide Pack, Unpack, Printable, OccursAt;
    RunStartIs(data, o + 4, p);
    RunEndExtends(data, p + OLD_LEN, e);
    TailRun(data, e);
  }

  lemma PlanWhole(data: seq<Byte>, o: nat, t: seq<Byte>, p: nat)
    requires OccursAt(data, p) && PrefixOf(data, p) == o
    requires o + 4 + |t| <= |data| && Unpack(data, o) == |t| && data[o + 4..o + 4 + |t|] == t
    ensures Plan(data, p) == Whole(o, t)
  {
    hide OccursAt, Pack, Unpack, PrefixOf, ReplaceFirst;
  }

  lemma PlanInString(data: seq<Byte>, o: nat, cs: seq<Chunk>, p: nat)
    requires At(data, o, cs) && cs != [] && cs[0].Str?
    requires |cs[0].text| < 0x2000_0000 && AllPrintable(cs[0].text, 0, |cs[0].text|)
    requires OccursAt(data, p) && o + 4 <= p && p + OLD_LEN <= o + 4 + |cs[0].text|
    ensures Plan(data, p) ==
            if TailOk(Encode(cs[1..])) then Whole(o, cs[0].text) else Region(p, p + OLD_LEN, NEW)
  {
    var t := cs[0].text;
    AtString(data, o, cs);
    assert data[o + 4 + |t|..] == Encode(cs[1..]);
    hide *;
    PrefixInString(data, o, t, p);
    if TailOk(Encode(cs[1..])) {
      PlanWhole(data, o, t, p);
    } else {
      PlanFallback(data, p);
    }
  }

  lemma PlanFallback(data: seq<Byte>, p: nat)
    requires OccursAt(data, p) && PrefixOf(data, p) == -1
    ensures Plan(data, p) == Region(p, p + OLD_LEN, NEW)
  {
    hide OccursAt, Pack, Unpack, PrefixOf, ReplaceFirst;
  }

  // ----- the wanted regions

  /** One region for each string that holds the name, from its prefix to its end. */
  function Wholes(cs: seq<Chunk>, o: nat): seq<Region> {
    if cs == [] then []
    else (if Named(cs[0]) then [Whole(o, cs[0].text)] else []) + Wholes(cs[1..], o + |Code(cs[0])|)
  }

  /** The position lies in a string that holds the name, its prefix included. */
  predicate InNamed(cs: seq<Chunk>, o: nat, x: nat) {
    cs != [] &&
    ((Named(cs[0]) && o <= x < o + 4 + |cs[0].text|) || InNamed(cs[1..], o + |Code(cs[0])|, x))
  }

  /** Wherever the name occurs in the file, the region planned for it starts in a string that
      holds the name. */
  ghost predicate Confined(cs: seq<Chunk>) {
    forall p: nat :: OccursAt(Encode(cs), p) ==> InNamed(cs, 0, Plan(Encode(cs), p).start)
  }

  lemma NameBytes(data: seq<Byte>, p: nat, i: nat)
    requires OccursAt(data, p) && i < OLD_LEN
    ensures data[p + i] == OLD[i]
  {
    assert data[p..p + OLD_LEN][i] == data[p + i];
  }

  /** The name cannot overlap itself: its first letter occurs nowhere else in it. */
  lemma NameApart(data: seq<Byte>, p: nat, q: nat)
    requires OccursAt(data, p) && OccursAt(data, q) && p < q
    ensures p + OLD_LEN <= q
  {
    NameBytes(data, q, 0);
    if q < p + OLD_LEN {
      NameBytes(data, p, q - p);
    }
  }

  predicate TidyIn(rs: seq<Region>, lo: nat, hi: nat) {
    Tidy(rs) && forall k :: 0 <= k < |rs| ==> lo <= rs[k].start && rs[k].end <= hi
  }

  lemma TidyConcat(a: seq<Region>, b: seq<Region>, lo: nat, mid: nat, hi: nat)
    requires lo <= mid <= hi && TidyIn(a, lo, mid) && TidyIn(b, mid, hi)
    ensures TidyIn(a + b, lo, hi)
  {
    var c := a + b;
    forall i, j | 0 <= i < j < |c| ensures c[i].end <= c[j].start {
      if i < |a| <= j {
        assert c[i] == a[i] && c[j] == b[j - |a|];
      }
    }
  }

  lemma WholeTidy(o: nat, t: seq<Byte>)
    ensures TidyIn([Whole(o, t)], o, o + 4 + |t|) && TidyIn([], o, o + 4 + |t|)
  {
    hide Pack, ReplaceFirst;
  }

  lemma {:induction false} WholesTidy(cs: seq<Chunk>, o: nat)
    ensures TidyIn(Wholes(cs, o), o, o + |Encode(cs)|)
  {
    hide TidyIn, Named, Whole, Pack;
    if cs == [] {
      NoneTidy(o, o);
    } else {
      var o' := o + |Code(cs[0])|;
      WholesTidy(cs[1..], o');
      NoneTidy(o, o');
      if cs[0].Str? {
        WholeTidy(o, cs[0].text);
      }
      NamedIsString(cs[0]);
      TidyConcat(if Named(cs[0]) then [Whole(o, cs[0].text)] else [], Wholes(cs[1..], o'), o, o', o + |Encode(cs)|);
    }
  }

  lemma NoneTidy(lo: nat, hi: nat)
    ensures TidyIn([], lo, hi)
  {}

  lemma NamedIsString(c: Chunk)
    ensures Named(c) ==> c.Str? && HasName(c.text)
  {}

  /** The wanted regions cover exactly the strings that hold the name. */
  lemma {:induction false} WholesCover(cs: seq<Chunk>, o: nat, r: Region)
    ensures Covered(r, Wholes(cs, o)) <==> InNamed(cs, o, r.start)
  {
    hide Code, HasName, Pack, ReplaceFirst, Covered;
    if cs == [] {
      NothingCovers(r);
    } else {
      WholesCover(cs[1..], o + |Code(cs[0])|, r);
      var head, rest := if Named(cs[0]) then [Whole(o, cs[0].text)] else [], Wholes(cs[1..], o + |Code(cs[0])|);
      CoveredConcat(r, head, rest);
      NothingCovers(r);
      if Named(cs[0]) {
        OneCovers(r, Whole(o, cs[0].text));
      }
    }
  }

  lemma NothingCovers(r: Region)
    ensures !Covered(r, [])
  {}

  lemma OneCovers(r: Region, w: Region)
    ensures Covered(r, [w]) <==> w.start <= r.start < w.end
  {
    assert [w][0] == w;
  }

  lemma CoveredConcat(r: Region, a: seq<Region>, b: seq<Region>)
    ensures Covered(r, a + b) <==> Covered(r, a) || Covered(r, b)
  {
    if k :| 0 <= k < |a| && a[k].start <= r.start < a[k].end {
      assert (a + b)[k] == a[k];
    }
    if k :| 0 <= k < |b| && b[k].start <= r.start < b[k].end {
      assert (a + b)[|a| + k] == b[k];
    }
  }

  // ----- one such string in the file

  /** A string that holds the name stands here. */
  predicate Holding(data: seq<Byte>, o: nat, t: seq<Byte>) {
    && o + 4 + |t| <= |data| && data[o..o + 4] == Pack(|t|) && data[o + 4..o + 4 + |t|] == t
    && |t| < 0x2000_0000 && AllPrintable(t, 0, |t|) && HasName(t)
  }

  lemma FirstHolds(data: seq<Byte>, o: nat, cs: seq<Chunk>)
    requires At(data, o, cs) && cs != [] && ChunkOk(cs[0]) && Named(cs[0])
    ensures Holding(data, o, cs[0].text)
  {
    hide At, HasName, Pack, AllPrintable;
    AtString(data, o, cs);
  }

  lemma {:induction false} WholesHold(data: seq<Byte>, o: nat, cs: seq<Chunk>, w: Region) returns (t: seq<Byte>)
    requires At(data, o, cs) && WellFormed(cs) && w in Wholes(cs, o)
    ensures Holding(data, w.start, t) && w == Whole(w.start, t)
    decreases |cs|
  {
    hide At, Holding, ChunkOk, Code, HasName, Pack, ReplaceFirst;
    if Named(cs[0]) && w == Whole(o, cs[0].text) {
      t := cs[0].text;
      FirstHolds(data, o, cs);
    } else {
      AtNext(data, o, cs);
      t := WholesHold(data, o + |Code(cs[0])|, cs[1..], w);
    }
  }

  lemma OccursInText(data: seq<Byte>, o: nat, t: seq<Byte>, p: nat)
    requires o + 4 + |t| <= |data| && data[o + 4..o + 4 + |t|] == t
    requires o + 4 <= p && p + OLD_LEN <= o + 4 + |t|
    ensures OccursAt(data, p) <==> OccursAt(t, p - o - 4)
  {
    var q := p - o - 4;
    var inText, inData := t[q..q + OLD_LEN], data[p..p + OLD_LEN];
    assert forall i :: 0 <= i < OLD_LEN ==> inText[i] == inData[i];
    assert inText == inData;
  }

  lemma OccursNamed(t: seq<Byte>, p: nat)
    requires OccursAt(t, p)
    ensures HasName(t) && p in Occurrences(t, 0)
  {
    OccurrencesComplete(t, 0, p);
  }

  lemma OccursFits(t: seq<Byte>, q: nat)
    requires OccursAt(t, q)
    ensures q + OLD_LEN <= |t|
  {}

  /** With at most one printable byte behind it, the string is planned whole. */
  lemma OwnPlan(data: seq<Byte>, o: nat, t: seq<Byte>) returns (p: nat)
    requires Holding(data, o, t) && TailOk(data[o + 4 + |t|..])
    ensures OccursAt(data, p) && Plan(data, p) == Whole(o, t)
  {
    var q := FirstFrom(t, 0);
    assert OccursAt(t, q);
    hide OccursAt, Plan, Whole, TailOk, FirstFrom, AllPrintable, Pack, Unpack, PrefixOf;
    OccursFits(t, q);
    p := q + o + 4;
    OccursInText(data, o, t, p);
    PrefixInString(data, o, t, p);
    PlanWhole(data, o, t, p);
  }

  lemma NotAtPrefix(data: seq<Byte>, o: nat)
    requires OccursAt(data, o)
    ensures Printable(data[o + 3])
  {
    NamePrintable(data, o);
  }

  /** Whatever occurrence is planned from this prefix, it is planned as the whole string. */
  lemma PlannedFromPrefix(data: seq<Byte>, o: nat, t: seq<Byte>, p: nat)
    requires Holding(data, o, t) && OccursAt(data, p) && Plan(data, p).start == o
    ensures PrefixOf(data, p) == o && Unpack(data, o) == |t| && Plan(data, p) == Whole(o, t)
  {
    PackUnpack(data, o, |t|);
    PrefixNotPrintable(data, o, |t|);
    if PrefixOf(data, p) < 0 {
      StartOfFallback(data, p);
      NotAtPrefix(data, o);
    } else {
      StartOfPrefixed(data, p);
      hide Plan, Whole, OccursAt, Printable, Pack, Unpack, PrefixOf, HasName, AllPrintable;
      PlanWhole(data, o, t, p);
    }
  }

  lemma StartOfFallback(data: seq<Byte>, p: nat)
    requires OccursAt(data, p) && PrefixOf(data, p) < 0
    ensures Plan(data, p).start == p
  {
    hide OccursAt, PrefixOf, Unpack, Pack, ReplaceFirst;
  }

  lemma StartOfPrefixed(data: seq<Byte>, p: nat)
    requires OccursAt(data, p) && PrefixOf(data, p) >= 0
    ensures Plan(data, p).start == PrefixOf(data, p)
  {
    hide OccursAt, PrefixOf, Unpack, Pack, ReplaceFirst;
  }

  /** The printable run of an occurrence that starts at this string's text ends where the run
      behind the text ends. */
  lemma RunBehind(data: seq<Byte>, o: nat, t: seq<Byte>, p: nat)
    requires Holding(data, o, t) && OccursAt(data, p) && RunStart(data, p) == o + 4
    ensures RunEnd(data, p + OLD_LEN) == RunEnd(data, o + 4 + |t|)
  {
    var e := o + 4 + |t|;
    NamePrintable(data, p);
    RunStartMaximal(data, p);
    hide Printable, Pack, HasName, OccursAt;
    if p + OLD_LEN <= e {
      TextPrintable(data, o, t);
      RunEndExtends(data, p + OLD_LEN, e);
    } else {
      RunEndExtends(data, e, p + OLD_LEN);
    }
  }

  lemma TextPrintable(data: seq<Byte>, o: nat, t: seq<Byte>)
    requires Holding(data, o, t)
    ensures AllPrintable(data, o + 4, o + 4 + |t|)
  {
    hide Printable, Pack, HasName;
    forall i | o + 4 <= i < o + 4 + |t| ensures Printable(data[i]) {
      assert data[i] == data[o + 4..o + 4 + |t|][i - o - 4];
    }
  }

  lemma PrefixFits(data: seq<Byte>, p: nat)
    requires OccursAt(data, p) && PrefixOf(data, p) >= 0
    ensures RunStart(data, p) == PrefixOf(data, p) + 4
    ensures RunEnd(data, p + OLD_LEN) <= PrefixOf(data, p) + 4 + Unpack(data, PrefixOf(data, p)) + 1
  {
    hide OccursAt, Unpack;
  }

  /** And then at most one printable byte is behind it. */
  lemma PlannedHasTail(data: seq<Byte>, o: nat, t: seq<Byte>, p: nat)
    requires Holding(data, o, t) && OccursAt(data, p) && Plan(data, p).start == o
    ensures TailOk(data[o + 4 + |t|..])
  {
    hide OccursAt, Plan, Whole, TailOk, Unpack, PrefixOf, Pack, HasName, AllPrintable;
    PlannedFromPrefix(data, o, t, p);
    PrefixFits(data, p);
    RunBehind(data, o, t, p);
    TailRun(data, o + 4 + |t|);
  }

  /** The file is recognised when every string that holds the name has such a tail. */
  predicate Tailed(data: seq<Byte>, w: Region) { w.end <= |data| && TailOk(data[w.end..]) }

  ghost predicate AllTailed(data: seq<Byte>, ws: seq<Region>) {
    forall w :: w in ws ==> Tailed(data, w)
  }

  lemma TailedHead(data: seq<Byte>, o: nat, cs: seq<Chunk>)
    requires At(data, o, cs) && cs != []
    ensures var rest := Wholes(cs[1..], o + |Code(cs[0])|);
            AllTailed(data, Wholes(cs, o)) <==>
              (Named(cs[0]) ==> TailOk(Encode(cs[1..]))) && AllTailed(data, rest)
  {
    hide HasName, TailOk, Pack, ReplaceFirst, At, Encode;
    AtNext(data, o, cs);
    TailIsRest(data, o + |Code(cs[0])|, cs[1..]);
    var head, rest := if Named(cs[0]) then [Whole(o, cs[0].text)] else [], Wholes(cs[1..], o + |Code(cs[0])|);
    assert Wholes(cs, o) == head + rest;
    TailedConcat(data, head, rest);
    if Named(cs[0]) {
      assert head[0] in head;
    }
  }

  lemma TailIsRest(data: seq<Byte>, o: nat, cs: seq<Chunk>)
    requires At(data, o, cs)
    ensures o <= |data| && data[o..] == Encode(cs)
  {}

  lemma TailedConcat(data: seq<Byte>, a: seq<Region>, b: seq<Region>)
    ensures AllTailed(data, a + b) <==> AllTailed(data, a) && AllTailed(data, b)
  {
    hide Tailed;
    assert forall w :: w in a + b <==> w in a || w in b;
  }

  lemma {:induction false} RecognisedTails(data: seq<Byte>, o: nat, cs: seq<Chunk>)
    requires At(data, o, cs)
    ensures Recognised(cs) <==> AllTailed(data, Wholes(cs, o))
    decreases |cs|
  {
    hide Tailed, TailOk, Named, Code, At;
    if cs != [] {
      AtNext(data, o, cs);
      RecognisedTails(data, o + |Code(cs[0])|, cs[1..]);
      TailedHead(data, o, cs);
    }
  }

  // ----- lists of regions

  lemma SameIndex(rs: seq<Region>, i: nat, j: nat)
    requires Tidy(rs) && i < |rs| && j < |rs| && rs[i].start <= rs[j].start < rs[i].end
    ensures i == j
  {}

  lemma TidyApart(rs: seq<Region>, a: Region, b: Region)
    requires Tidy(rs) && a in rs && b in rs && a.start <= b.start < a.end
    ensures a == b
  {
    var i :| 0 <= i < |rs| && rs[i] == a;
    var j :| 0 <= j < |rs| && rs[j] == b;
    SameIndex(rs, i, j);
  }

  lemma FirstOfTidy(rs: seq<Region>, x: Region)
    requires Tidy(rs) && x in rs
    ensures rs[0].start <= x.start && (x != rs[0] ==> x in rs[1..])
    ensures x in rs[1..] ==> rs[0].start < x.start
  {
    var i :| 0 <= i < |rs| && rs[i] == x;
    assert i > 0 ==> rs[0].end <= rs[i].start && rs[1..][i - 1] == x;
    if x in rs[1..] {
      var j :| 0 <= j < |rs[1..]| && rs[1..][j] == x;
      assert rs[0].end <= rs[j + 1].start;
    }
  }

  lemma EmptyTogether(a: seq<Region>, b: seq<Region>)
    requires forall r :: r in a <==> r in b
    ensures a == [] <==> b == []
  {
    if a != [] { assert a[0] in b; }
    if b != [] { assert b[0] in a; }
  }

  /** An ordered, disjoint list is determined by its elements. */
  lemma {:induction false} TidyUnique(a: seq<Region>, b: seq<Region>)
    requires Tidy(a) && Tidy(b)
    requires forall r :: r in a <==> r in b
    ensures a == b
  {
    EmptyTogether(a, b);
    if a != [] {
      assert a[0] in b;
      assert b[0] in a;
      FirstOfTidy(a, b[0]);
      FirstOfTidy(b, a[0]);
      forall r ensures r in a[1..] <==> r in b[1..] {
        if r in a[1..] { assert r in a; FirstOfTidy(a, r); FirstOfTidy(b, r); }
        if r in b[1..] { assert r in b; FirstOfTidy(b, r); FirstOfTidy(a, r); }
      }
      TidyUnique(a[1..], b[1..]);
      assert a == [a[0]] + a[1..] && b == [b[0]] + b[1..];
    }
  }

  /** Two ordered, disjoint lists that cover each other's starts, and in which a start
      determines the region, are the same. */
  lemma {:induction false} InBoth(kept: seq<Region>, ws: seq<Region>, k: nat)
    requires Tidy(kept) && Tidy(ws) && k < |ws|
    requires forall r :: r in kept ==> Covered(r, ws)
    requires forall w :: w in ws ==> Covered(w, kept)
    requires forall r, w :: r in kept && w in ws && r.start == w.start ==> r == w
    ensures ws[k] in kept
  {
    hide Tidy;
    assert ws[k] in ws;
    var i :| 0 <= i < |kept| && kept[i].start <= ws[k].start < kept[i].end;
    assert kept[i] in kept;
    var j :| 0 <= j < |ws| && ws[j].start <= kept[i].start < ws[j].end;
    assert ws[j] in ws;
    NotAfter(ws, j, k);
    if j < k {
      InBoth(kept, ws, j);
      EndsEarlier(kept, ws, i, j, k);
    }
  }

  lemma NotAfter(ws: seq<Region>, j: nat, k: nat)
    requires Tidy(ws) && j < |ws| && k < |ws| && ws[j].start <= ws[k].start
    ensures j <= k
  {}

  lemma EndsEarlier(kept: seq<Region>, ws: seq<Region>, i: nat, j: nat, k: nat)
    requires Tidy(kept) && Tidy(ws) && i < |kept| && j < k < |ws| && ws[j] in kept
    requires ws[j].start <= kept[i].start < ws[j].end
    ensures kept[i].end <= ws[k].start
  {
    TidyApart(kept, ws[j], kept[i]);
  }

  lemma CoverEachOther(kept: seq<Region>, ws: seq<Region>)
    requires Tidy(kept) && Tidy(ws)
    requires forall r :: r in kept ==> Covered(r, ws)
    requires forall w :: w in ws ==> Covered(w, kept)
    requires forall r, w :: r in kept && w in ws && r.start == w.start ==> r == w
    ensures kept == ws
  {
    forall w | w in ws ensures w in kept {
      var k :| 0 <= k < |ws| && ws[k] == w;
      InBoth(kept, ws, k);
    }
    forall r | r in kept ensures r in ws {
      var j :| 0 <= j < |ws| && ws[j].start <= r.start < ws[j].end;
      assert ws[j] in kept;
      TidyApart(kept, ws[j], r);
    }
    hide Covered, Tidy;
    TidyUnique(kept, ws);
  }

  lemma KeptTidy(data: seq<Byte>)
    ensures Tidy(KeptOf(data)) && forall r :: r in KeptOf(data) ==> Planned(data, r)
  {
    hide Planned, Tidy, KeptOf;
    KeptWithin(data);
  }

  lemma AtStart(cs: seq<Chunk>)
    ensures At(Encode(cs), 0, cs)
  {}

  lemma WholesOrdered(cs: seq<Chunk>)
    ensures Tidy(Wholes(cs, 0))
  {
    hide Wholes, Tidy, Encode;
    WholesTidy(cs, 0);
  }

  lemma SameStart(data: seq<Byte>, cs: seq<Chunk>, r: Region, w: Region)
    requires WellFormed(cs) && data == Encode(cs) && Planned(data, r) && w in Wholes(cs, 0) && r.start == w.start
    ensures r == w && Tailed(data, w)
  {
    hide Encode, Wholes, WellFormed, OccursAt, Plan, TailOk, At, Whole, Unpack, PrefixOf, Holding;
    AtStart(cs);
    var t := WholesHold(data, 0, cs, w);
    var p: nat :| OccursAt(data, p) && r == Plan(data, p);
    PlannedFromPrefix(data, w.start, t, p);
    PlannedHasTail(data, w.start, t, p);
    WholeEnds(data, w.start, t);
  }

  lemma WholeEnds(data: seq<Byte>, o: nat, t: seq<Byte>)
    requires Holding(data, o, t)
    ensures Whole(o, t).start == o && Whole(o, t).end == o + 4 + |t| <= |data|
  {
    hide Pack, ReplaceFirst, HasName, AllPrintable;
  }

  lemma WholeCovered(data: seq<Byte>, cs: seq<Chunk>, w: Region)
    requires WellFormed(cs) && data == Encode(cs) && w in Wholes(cs, 0) && Tailed(data, w)
    ensures Covered(w, KeptOf(data))
  {
    hide Encode, Wholes, WellFormed, OccursAt, Plan, TailOk, At, Whole, KeptOf, Covered, Holding;
    AtStart(cs);
    var t := WholesHold(data, 0, cs, w);
    WholeEnds(data, w.start, t);
    var p := OwnPlan(data, w.start, t);
    OccurrencesCovered(data, p);
  }

  /** The merged plan is one region per string that holds the name, if and only if the file
      is recognised and confined. */
  lemma KeptExactly(cs: seq<Chunk>)
    requires WellFormed(cs)
    ensures KeptOf(Encode(cs)) == Wholes(cs, 0) <==> Recognised(cs) && Confined(cs)
  {
    hide Encode, Wholes, WellFormed, KeptOf, Tidy, Recognised, Confined, Covered, At, Tailed, Planned;
    var data, ws := Encode(cs), Wholes(cs, 0);
    AtStart(cs);
    KeptTidy(data);
    WholesOrdered(cs);
    RecognisedTails(data, 0, cs);
    if KeptOf(data) == ws {
      forall w | w in ws ensures Tailed(data, w) {
        SameStart(data, cs, w, w);
      }
      KeptConfines(cs);
    }
    if Recognised(cs) && Confined(cs) {
      forall w | w in ws ensures Covered(w, KeptOf(data)) {
        WholeCovered(data, cs, w);
      }
      forall r | r in KeptOf(data) ensures Covered(r, ws) {
        ConfinedCovers(cs, r);
      }
      forall r, w | r in KeptOf(data) && w in ws && r.start == w.start ensures r == w {
        SameStart(data, cs, r, w);
      }
      CoverEachOther(KeptOf(data), ws);
    }
  }

  lemma KeptConfines(cs: seq<Chunk>)
    requires KeptOf(Encode(cs)) == Wholes(cs, 0)
    ensures Confined(cs)
  {
    hide Encode, Wholes, KeptOf, OccursAt, Plan, Covered, InNamed;
    forall p: nat | OccursAt(Encode(cs), p) ensures InNamed(cs, 0, Plan(Encode(cs), p).start) {
      OccurrencesCovered(Encode(cs), p);
      WholesCover(cs, 0, Plan(Encode(cs), p));
    }
  }

  lemma ConfinedCovers(cs: seq<Chunk>, r: Region)
    requires Confined(cs) && Planned(Encode(cs), r)
    ensures Covered(r, Wholes(cs, 0))
  {
    hide Encode, Wholes, OccursAt, Plan, Covered, InNamed;
    WholesCover(cs, 0, r);
  }

  // ----- the output

  lemma SpliceSkip(data: seq<Byte>, rs: seq<Region>, o: nat, o': nat)
    requires o <= o' <= |data| && (rs != [] ==> o' <= rs[0].start <= |data|)
    ensures Spliced(data, rs, o) == data[o..o'] + Spliced(data, rs, o')
  {
    if rs == [] {
      assert data[o..] == data[o..o'] + data[o'..];
    } else {
      assert data[o..rs[0].start] == data[o..o'] + data[o'..rs[0].start];
      var rest := Spliced(data, rs[1..], rs[0].end);
      assert Spliced(data, rs, o) == data[o..rs[0].start] + rs[0].bytes + rest;
      assert Spliced(data, rs, o') == data[o'..rs[0].start] + rs[0].bytes + rest;
      hide Spliced;
      GapSplits(data[o..o'], data[o'..rs[0].start], rs[0].bytes, rest);
    }
  }

  lemma GapSplits(a: seq<Byte>, b: seq<Byte>, c: seq<Byte>, d: seq<Byte>)
    ensures (a + b) + c + d == a + (b + c + d)
  {}

  lemma RenameGrows(t: seq<Byte>)
    ensures |ReplaceFirst(t)| == |t| + if HasName(t) then DELTA else 0
    ensures !HasName(t) ==> ReplaceFirst(t) == t
  {}
  lemma RenamedHead(cs: seq<Chunk>)
    requires cs != []
    ensures Encode(Renamed(cs)) == Code(Rename(cs[0])) + Encode(Renamed(cs[1..]))
  {
    hide Code, Rename;
    assert Renamed(cs)[0] == Rename(cs[0]) && Renamed(cs)[1..] == Renamed(cs[1..]);
  }

  ghost predicate LateRegions(data: seq<Byte>, rs: seq<Region>, o: nat) {
    rs != [] ==> o <= rs[0].start <= |data|
  }

  lemma WholesLate(data: seq<Byte>, o: nat, cs: seq<Chunk>)
    requires At(data, o, cs)
    ensures LateRegions(data, Wholes(cs, o), o)
  {
    WholesTidy(cs, o);
    hide Wholes, Encode;
  }

  lemma SpliceUnnamed(data: seq<Byte>, o: nat, cs: seq<Chunk>)
    requires At(data, o, cs) && cs != [] && !Named(cs[0])
    ensures Spliced(data, Wholes(cs, o), o) ==
            Code(Rename(cs[0])) + Spliced(data, Wholes(cs[1..], o + |Code(cs[0])|), o + |Code(cs[0])|)
  {
    hide At, Spliced, Code, HasName, ReplaceFirst;
    var o' := o + |Code(cs[0])|;
    if cs[0].Str? { RenameGrows(cs[0].text); }
    assert Rename(cs[0]) == cs[0];
    AtNext(data, o, cs);
    WholesLate(data, o', cs[1..]);
    assert Wholes(cs, o) == Wholes(cs[1..], o');
    SpliceSkip(data, Wholes(cs[1..], o'), o, o');
  }

  lemma SpliceWhole(data: seq<Byte>, o: nat, cs: seq<Chunk>)
    requires At(data, o, cs) && cs != [] && Named(cs[0])
    ensures Spliced(data, Wholes(cs, o), o) ==
            Code(Rename(cs[0])) + Spliced(data, Wholes(cs[1..], o + |Code(cs[0])|), o + |Code(cs[0])|)
  {
    hide Spliced, HasName, ReplaceFirst, Pack, Encode, At;
    var t := cs[0].text;
    RenameGrows(t);
    AtStringStarts(data, o, cs);
    assert Code(Rename(cs[0])) == Whole(o, t).bytes;
    assert Wholes(cs, o) == [Whole(o, t)] + Wholes(cs[1..], o + |Code(cs[0])|);
    SpliceAtCursor(data, Whole(o, t), Wholes(cs[1..], o + |Code(cs[0])|));
  }

  lemma AtStringStarts(data: seq<Byte>, o: nat, cs: seq<Chunk>)
    requires At(data, o, cs)
    ensures o <= |data|
  {}

  lemma SpliceAtCursor(data: seq<Byte>, r: Region, rs: seq<Region>)
    requires r.start <= |data|
    ensures Spliced(data, [r] + rs, r.start) == r.bytes + Spliced(data, rs, r.end)
  {
    var all := [r] + rs;
    assert all[1..] == rs;
    assert Spliced(data, all, r.start) == data[r.start..r.start] + r.bytes + Spliced(data, all[1..], r.end);
    hide Spliced;
    assert data[r.start..r.start] + r.bytes == r.bytes;
  }

  /** Replacing the wanted regions, and nothing else, gives the renamed file. */
  lemma {:induction false} WholesRename(data: seq<Byte>, o: nat, cs: seq<Chunk>)
    requires At(data, o, cs)
    ensures Spliced(data, Wholes(cs, o), o) == Encode(Renamed(cs))
    decreases |cs|
  {
    hide Code, Named, Rename, Spliced, HasName;
    if cs == [] {
      SpliceNothing(data, o);
    } else {
      AtNext(data, o, cs);
      WholesRename(data, o + |Code(cs[0])|, cs[1..]);
      RenamedHead(cs);
      hide At;
      if Named(cs[0]) {
        SpliceWhole(data, o, cs);
      } else {
        SpliceUnnamed(data, o, cs);
      }
    }
  }

  lemma SpliceNothing(data: seq<Byte>, o: nat)
    requires At(data, o, [])
    ensures Spliced(data, Wholes([], o), o) == []
  {}

  // ----- the output tells the regions apart

  /** The first byte of the replacement is not the byte it replaces. */
  predicate Telling(data: seq<Byte>, r: Region) {
    r.start < |data| && r.bytes != [] && r.bytes[0] != data[r.start]
  }

  lemma LowByte(n: nat)
    ensures (n + DELTA) % 0x100 != n % 0x100
  {}

  lemma PackLow(n: nat, rest: seq<Byte>)
    ensures Pack(n) + rest != [] && (Pack(n) + rest)[0] == n % 0x100
  {}

  lemma UnpackLow(data: seq<Byte>, i: nat)
    requires i + 4 <= |data|
    ensures data[i] == Unpack(data, i) % 0x100
  {
    var b1: int, b2: int, b3: int := data[i + 1], data[i + 2], data[i + 3];
    assert Unpack(data, i) == data[i] + 0x100 * (b1 + 0x100 * b2 + 0x1_0000 * b3);
  }

  lemma WholeTells(data: seq<Byte>, o: nat, t: seq<Byte>)
    requires Holding(data, o, t)
    ensures Telling(data, Whole(o, t))
  {
    PackUnpack(data, o, |t|);
    UnpackLow(data, o);
    hide Unpack, Pack, ReplaceFirst, HasName, AllPrintable;
    LowByte(|t|);
    PackLow(|t| + DELTA, ReplaceFirst(t));
  }

  lemma FallbackTells(data: seq<Byte>, p: nat)
    requires OccursAt(data, p)
    ensures Telling(data, Region(p, p + OLD_LEN, NEW))
  {
    OccursFits(data, p);
    NameBytes(data, p, 0);
    hide OccursAt;
  }

  lemma PrefixedTells(data: seq<Byte>, p: nat)
    requires OccursAt(data, p) && PrefixOf(data, p) >= 0
    ensures Telling(data, Plan(data, p))
  {
    hide OccursAt, Unpack, Pack, ReplaceFirst, PrefixOf;
    var off := PrefixOf(data, p);
    var n := Unpack(data, off);
    UnpackLow(data, off);
    LowByte(n);
    PackLow(n + DELTA, ReplaceFirst(data[Clamp(off + 4, data)..Clamp(off + 4 + n, data)]));
  }

  lemma PlanTells(data: seq<Byte>, p: nat)
    requires OccursAt(data, p)
    ensures Telling(data, Plan(data, p))
  {
    hide OccursAt, Plan, PrefixOf, Telling;
    if PrefixOf(data, p) >= 0 {
      PrefixedTells(data, p);
    } else {
      NoPrefix(data, p);
      PlanFallback(data, p);
      FallbackTells(data, p);
    }
  }

  lemma NoPrefix(data: seq<Byte>, p: nat)
    requires OccursAt(data, p) && PrefixOf(data, p) < 0
    ensures PrefixOf(data, p) == -1
  {
    hide OccursAt, Unpack;
  }

  lemma FirstChange(data: seq<Byte>, rs: seq<Region>, c: nat)
    requires Within(data, rs, c) && rs != [] && rs[0].bytes != []
    ensures rs[0].start - c < |Spliced(data, rs, c)| && Spliced(data, rs, c)[rs[0].start - c] == rs[0].bytes[0]
  {
    FirstRegion(data, rs, c);
    hide Spliced;
  }

  lemma BeforeChange(data: seq<Byte>, rs: seq<Region>, c: nat, x: nat)
    requires Within(data, rs, c) && c <= x < |data| && (rs != [] ==> x < rs[0].start)
    ensures x - c < |Spliced(data, rs, c)| && Spliced(data, rs, c)[x - c] == data[x]
  {
    if rs != [] {
      FirstRegion(data, rs, c);
      hide Spliced;
    }
  }

  predicate AllTelling(data: seq<Byte>, rs: seq<Region>) {
    forall k :: 0 <= k < |rs| ==> Telling(data, rs[k])
  }

  lemma SameFirst(data: seq<Byte>, a: seq<Region>, b: seq<Region>, c: nat)
    requires Within(data, a, c) && Within(data, b, c) && AllTelling(data, a) && AllTelling(data, b)
    requires Spliced(data, b, c) <= Spliced(data, a, c)
    ensures (a == [] <==> b == []) && (a != [] ==> a[0].start == b[0].start)
  {
    hide Spliced;
    if a != [] && (b == [] || a[0].start < b[0].start) {
      FirstChange(data, a, c);
      BeforeChange(data, b, c, a[0].start);
    }
    if b != [] && (a == [] || b[0].start < a[0].start) {
      FirstChange(data, b, c);
      BeforeChange(data, a, c, b[0].start);
    }
  }

  lemma PrefixCancels(h: seq<Byte>, x: seq<Byte>, y: seq<Byte>)
    requires h + x <= h + y
    ensures x <= y
  {
    assert x == (h + x)[|h|..] && y == (h + y)[|h|..];
    assert (h + y)[..|h + x|] == h + x;
    assert y[..|x|] == (h + y)[|h|..|h + x|];
    assert (h + x)[|h|..] == (h + y)[..|h + x|][|h|..];
  }

  /** A start determines the region, across the two lists. */
  ghost predicate StartDecides(a: seq<Region>, b: seq<Region>) {
    forall r, w :: r in a && w in b && r.start == w.start ==> r == w
  }

  lemma RestTells(data: seq<Byte>, a: seq<Region>, b: seq<Region>)
    requires a != [] && b != [] && AllTelling(data, a) && AllTelling(data, b) && StartDecides(a, b)
    ensures AllTelling(data, a[1..]) && AllTelling(data, b[1..]) && StartDecides(a[1..], b[1..])
    ensures a[0].start == b[0].start ==> a[0] == b[0]
  {
    hide Telling;
    assert a[0] in a && b[0] in b;
  }

  /** If the output of one list begins with the output of another, they are the same. */
  lemma {:induction false} OutputTells(data: seq<Byte>, a: seq<Region>, b: seq<Region>, c: nat)
    requires Within(data, a, c) && Within(data, b, c) && AllTelling(data, a) && AllTelling(data, b)
    requires StartDecides(a, b) && Spliced(data, b, c) <= Spliced(data, a, c)
    ensures a == b
  {
    hide Spliced, AllTelling, StartDecides;
    SameFirst(data, a, b, c);
    if a != [] {
      RestTells(data, a, b);
      FirstRegion(data, a, c);
      FirstRegion(data, b, c);
      assert c <= a[0].start <= |data|;
      hide Within;
      PrefixCancels(data[c..a[0].start] + a[0].bytes, Spliced(data, b[1..], b[0].end), Spliced(data, a[1..], a[0].end));
      OutputTells(data, a[1..], b[1..], a[0].end);
      assert a == [a[0]] + a[1..] && b == [b[0]] + b[1..];
    }
  }

  lemma KeptTells(data: seq<Byte>)
    ensures AllTelling(data, KeptOf(data))
  {
    hide KeptOf, OccursAt, Plan, Telling, Tidy;
    KeptTidy(data);
    forall k | 0 <= k < |KeptOf(data)| ensures Telling(data, KeptOf(data)[k]) {
      assert KeptOf(data)[k] in KeptOf(data);
      var p: nat :| OccursAt(data, p) && KeptOf(data)[k] == Plan(data, p);
      PlanTells(data, p);
    }
  }

  lemma WholesTell(data: seq<Byte>, cs: seq<Chunk>)
    requires WellFormed(cs) && data == Encode(cs)
    ensures AllTelling(data, Wholes(cs, 0)) && Within(data, Wholes(cs, 0), 0)
  {
    hide Encode, Wholes, WellFormed, At, Whole, Telling, Holding, Tidy;
    AtStart(cs);
    var ws := Wholes(cs, 0);
    WholesOrdered(cs);
    forall k | 0 <= k < |ws| ensures Telling(data, ws[k]) && ws[k].start <= |data| {
      assert ws[k] in ws;
      var t := WholesHold(data, 0, cs, ws[k]);
      WholeTells(data, ws[k].start, t);
      WholeEnds(data, ws[k].start, t);
    }
  }

  /** The output begins with the renamed file only if the wanted regions were kept. */
  lemma OutputNeedsWholes(cs: seq<Chunk>)
    requires WellFormed(cs) && Encode(Renamed(cs)) <= Rebased(Encode(cs))
    ensures KeptOf(Encode(cs)) == Wholes(cs, 0)
  {
    var data, ws := Encode(cs), Wholes(cs, 0);
    assert Rebased(data) == Spliced(data, KeptOf(data), 0);
    hide Encode, Wholes, WellFormed, At, KeptOf, Rebased, Spliced, AllTelling, Within, Planned, Renamed;
    AtStart(cs);
    WholesRename(data, 0, cs);
    KeptTells(data);
    KeptWithin(data);
    WholesTell(data, cs);
    forall r, w | r in KeptOf(data) && w in ws && r.start == w.start ensures r == w {
      SameStart(data, cs, r, w);
    }
    OutputTells(data, KeptOf(data), ws, 0);
  }

  /** For every file of strings and other bytes: the output is the file with every string
      renamed and every prefix right (or begins with it) if and only if at most one printable
      byte follows each string that holds the name, and every occurrence of the name, wherever
      it is, is planned from within such a string. */
  lemma FramingKept(cs: seq<Chunk>)
    requires WellFormed(cs)
    ensures Rebased(Encode(cs)) == Encode(Renamed(cs)) <==> Recognised(cs) && Confined(cs)
    ensures Encode(Renamed(cs)) <= Rebased(Encode(cs)) <==> Recognised(cs) && Confined(cs)
  {
    var data := Encode(cs);
    assert Rebased(data) == Spliced(data, KeptOf(data), 0);
    hide Encode, Wholes, WellFormed, At, KeptOf, Rebased, Spliced, Renamed, Recognised, Confined;
    AtStart(cs);
    KeptExactly(cs);
    WholesRename(data, 0, cs);
    if Encode(Renamed(cs)) <= Rebased(data) {
      OutputNeedsWholes(cs);
    }
  }

  // ----- names inside strings only

  lemma {:induction false} InsideNamed(data: seq<Byte>, o: nat, cs: seq<Chunk>, p: nat)
    requires At(data, o, cs) && WellFormed(cs) && OccursAt(data, p) && Inside(cs, o, p)
    ensures InNamed(cs, o, Plan(data, p).start)
    decreases |cs|
  {
    hide At, OccursAt, Plan, Code, HasName, AllPrintable;
    AtNext(data, o, cs);
    if cs[0].Str? && o + 4 <= p && p + OLD_LEN <= o + 4 + |cs[0].text| {
      AtString(data, o, cs);
      OccursInText(data, o, cs[0].text, p);
      OccursNamed(cs[0].text, p - o - 4);
      PlanInString(data, o, cs, p);
    } else {
      InsideNamed(data, o + |Code(cs[0])|, cs[1..], p);
    }
  }

  /** Where the name occurs only inside strings, as it is meant to, the tails decide alone. */
  lemma FramingOfStrings(cs: seq<Chunk>)
    requires WellFormed(cs) && NamesInStrings(cs)
    ensures Rebased(Encode(cs)) == Encode(Renamed(cs)) <==> Recognised(cs)
  {
    hide Encode, WellFormed, At, Rebased, Renamed, Recognised, Inside, InNamed, OccursAt, Plan;
    AtStart(cs);
    FramingKept(cs);
    forall p: nat | OccursAt(Encode(cs), p) ensures InNamed(cs, 0, Plan(Encode(cs), p).start) {
      InsideNamed(Encode(cs), 0, cs, p);
    }
  }

  // ----- reading the output back

  /** What a reader of the format knows beforehand: where the strings are. */
  datatype Shape = Bytes(size: nat) | Text

  function Layout(cs: seq<Chunk>): seq<Shape> {
    if cs == [] then [] else [if cs[0].Raw? then Bytes(|cs[0].bytes|) else Text] + Layout(cs[1..])
  }

  /** Reads the file by its layout; stops where the bytes run out. */
  function Decode(shapes: seq<Shape>, data: seq<Byte>): seq<Chunk> {
    if shapes == [] then []
    else if shapes[0].Bytes? then
      if shapes[0].size > |data| then []
      else [Raw(data[..shapes[0].size])] + Decode(shapes[1..], data[shapes[0].size..])
    else if |data| < 4 || |data| - 4 < Unpack(data, 0) then []
    else
      var end := 4 + Unpack(data, 0);
      [Str(data[4..end])] + Decode(shapes[1..], data[end..])
  }

  predicate Fits(cs: seq<Chunk>) {
    forall k :: 0 <= k < |cs| && cs[k].Str? ==> |cs[k].text| < 0x1_0000_0000
  }

  lemma DecodeHead(c: Chunk, cs: seq<Chunk>, shapes: seq<Shape>, data: seq<Byte>)
    requires Fits([c] + cs) && shapes != [] && shapes[0] == (if c.Raw? then Bytes(|c.bytes|) else Text)
    requires data == Code(c) + Encode(cs)
    ensures Decode(shapes, data) == [c] + Decode(shapes[1..], Encode(cs))
  {
    var all := [c] + cs;
    assert all[1..] == cs && all[0] == c && Encode(all) == data;
    AtStart(all);
    AtNext(data, 0, all);
    assert data[|Code(c)|..] == Encode(cs) && data[..|Code(c)|] == Code(c);
    if c.Str? {
      AtString(data, 0, all);
      PackUnpack(data, 0, |c.text|);
      assert |Code(c)| == 4 + |c.text|;
    }
    hide Encode, Code, At, Pack, Unpack;
  }

  lemma LayoutFront(cs: seq<Chunk>)
    requires cs != []
    ensures Layout(cs) != [] && Layout(cs)[0] == (if cs[0].Raw? then Bytes(|cs[0].bytes|) else Text)
    ensures Layout(cs)[1..] == Layout(cs[1..]) && cs == [cs[0]] + cs[1..]
  {}

  lemma {:induction false} DecodeEncode(cs: seq<Chunk>)
    requires Fits(cs)
    ensures Decode(Layout(cs), Encode(cs)) == cs
  {
    hide Code;
    if cs != [] {
      hide Decode;
      DecodeEncode(cs[1..]);
      LayoutFront(cs);
      DecodeHead(cs[0], cs[1..], Layout(cs), Encode(cs));
    }
  }

  lemma {:induction false} RenamedLayout(cs: seq<Chunk>)
    ensures Layout(Renamed(cs)) == Layout(cs)
  {
    if cs != [] {
      RenamedLayout(cs[1..]);
      assert Renamed(cs)[1..] == Renamed(cs[1..]);
    }
  }

  lemma {:induction false} RenamedFits(cs: seq<Chunk>)
    requires WellFormed(cs)
    ensures Fits(Renamed(cs))
  {
    if cs != [] {
      RenamedFits(cs[1..]);
      if cs[0].Str? { RenameGrows(cs[0].text); }
      hide HasName, ReplaceFirst, AllPrintable;
      assert Renamed(cs)[1..] == Renamed(cs[1..]);
    }
  }

  lemma ByteAndRest(b: int, m: nat)
    requires 0 <= b < 0x100
    ensures (b + 0x100 * m) % 0x100 == b && (b + 0x100 * m) / 0x100 == m
  {}

  lemma PackOfUnpack(data: seq<Byte>)
    requires |data| >= 4
    ensures Pack(Unpack(data, 0)) == data[..4]
  {
    var n := Unpack(data, 0);
    var b0: int, b1: int, b2: int, b3: int := data[0], data[1], data[2], data[3];
    var m2 := b2 + 0x100 * b3;
    var m1 := b1 + 0x100 * m2;
    assert n == b0 + 0x100 * m1;
    hide Unpack;
    ByteAndRest(b0, m1);
    ByteAndRest(b1, m2);
    ByteAndRest(b2, b3);
    Shifts(n);
    assert Pack(n) == [b0, b1, b2, b3];
    assert data[..4] == [data[0], data[1], data[2], data[3]];
  }

  lemma Shifts(n: nat)
    ensures n / 0x1_0000 == n / 0x100 / 0x100 && n / 0x100_0000 == n / 0x100 / 0x100 / 0x100
  {}

  /** The first chunk that was decoded stands at the front. */
  lemma DecodedHead(c: Chunk, shape: Shape, rest: seq<Shape>, data: seq<Byte>, tail: seq<Chunk>) returns (n: nat)
    requires Decode([shape] + rest, data) == [c] + tail
    ensures n <= |data| && Code(c) == data[..n] && Decode(rest, data[n..]) == tail
  {
    var all := [shape] + rest;
    assert all[1..] == rest && all[0] == shape;
    hide Pack, Unpack;
    if shape.Bytes? {
      n := shape.size;
      assert Decode(all, data)[1..] == Decode(rest, data[n..]) && ([c] + tail)[1..] == tail;
      assert Decode(all, data)[0] == c;
    } else {
      n := 4 + Unpack(data, 0);
      assert Decode(all, data)[1..] == Decode(rest, data[n..]) && ([c] + tail)[1..] == tail;
      assert Decode(all, data)[0] == c == Str(data[4..n]);
      PackOfUnpack(data);
      assert data[..n] == data[..4] + data[4..n];
    }
  }

  lemma PrefixJoins(a: seq<Byte>, b: seq<Byte>, data: seq<Byte>, n: nat)
    requires n <= |data| && a == data[..n] && b <= data[n..]
    ensures a + b <= data
  {
    assert data == data[..n] + data[n..];
  }

  lemma LayoutHead(cs: seq<Chunk>)
    requires cs != []
    ensures Layout(cs) != [] && Layout(cs) == [Layout(cs)[0]] + Layout(cs[1..]) && cs == [cs[0]] + cs[1..]
  {}

  /** What decodes to these chunks begins with their encoding. */
  lemma {:induction false} DecodedPrefix(cs: seq<Chunk>, data: seq<Byte>)
    requires Decode(Layout(cs), data) == cs
    ensures Encode(cs) <= data
  {
    hide Decode, Code, Layout;
    if cs != [] {
      LayoutHead(cs);
      var n := DecodedHead(cs[0], Layout(cs)[0], Layout(cs[1..]), data, cs[1..]);
      DecodedPrefix(cs[1..], data[n..]);
      PrefixJoins(Code(cs[0]), Encode(cs[1..]), data, n);
    }
  }

  /** Decoding the output gives each decoded string renamed, under exactly that condition. */
  lemma DecodeRebased(cs: seq<Chunk>)
    requires WellFormed(cs)
    ensures Decode(Layout(cs), Rebased(Encode(cs))) == Renamed(Decode(Layout(cs), Encode(cs)))
            <==> Recognised(cs) && Confined(cs)
  {
    hide Decode, Layout, Encode, Renamed, Confined, Recognised, Rebased, HasName, AllPrintable;
    FramingKept(cs);
    DecodeEncode(cs);
    RenamedLayout(cs);
    RenamedFits(cs);
    DecodeEncode(Renamed(cs));
    if Decode(Layout(cs), Rebased(Encode(cs))) == Renamed(cs) {
      DecodedPrefix(Renamed(cs), Rebased(Encode(cs)));
    }
  }

  // ----- what is left of the old name

  lemma RenamedAt(t: seq<Byte>, i: nat)
    requires HasName(t) && i < |t| + DELTA
    ensures |ReplaceFirst(t)| == |t| + DELTA
    ensures var p := FirstFrom(t, 0);
            ReplaceFirst(t)[i] == if i < p then t[i] else if i < p + |NEW| then NEW[i - p] else t[i - DELTA]
  {
    hide OccursAt;
    assert OccursAt(t, FirstFrom(t, 0));
    OccursFits(t, FirstFrom(t, 0));
  }

  lemma SamePrefixOccurs(a: seq<Byte>, b: seq<Byte>, n: nat, q: nat)
    requires n <= |a| && n <= |b| && a[..n] == b[..n] && q + OLD_LEN <= n
    ensures OccursAt(a, q) <==> OccursAt(b, q)
  {
    assert a[..n][q..q + OLD_LEN] == a[q..q + OLD_LEN];
    assert b[..n][q..q + OLD_LEN] == b[q..q + OLD_LEN];
  }

  lemma RenamedBefore(t: seq<Byte>, q: nat)
    requires HasName(t) && q + OLD_LEN <= FirstFrom(t, 0)
    ensures !OccursAt(ReplaceFirst(t), q)
  {
    hide OccursAt;
    var p, t' := FirstFrom(t, 0), ReplaceFirst(t);
    assert !OccursAt(t, q) && OccursAt(t, p);
    OccursFits(t, p);
    assert t'[..p] == t[..p];
    SamePrefixOccurs(t, t', p, q);
  }

  /** The letters that keep the two names from overlapping. */
  lemma Initials(i: nat, j: nat)
    ensures i < |OLD| ==> OLD[i] != NEW[0]
    ensures j < |NEW| ==> NEW[j] != OLD[0]
  {}

  lemma DifferentByte(a: seq<Byte>, q: nat, i: nat)
    requires i < OLD_LEN && q + i < |a| && a[q + i] != OLD[i]
    ensures !OccursAt(a, q)
  {
    if OccursAt(a, q) {
      NameBytes(a, q, i);
    }
  }

  lemma RenamedAcross(t: seq<Byte>, q: nat)
    requires HasName(t) && q < FirstFrom(t, 0) < q + OLD_LEN
    ensures !OccursAt(ReplaceFirst(t), q)
  {
    hide OccursAt, ReplaceFirst, FirstFrom;
    var p, t' := FirstFrom(t, 0), ReplaceFirst(t);
    RenamedAt(t, p);
    Initials(p - q, 0);
    DifferentByte(t', q, p - q);
  }

  lemma RenamedWithin(t: seq<Byte>, q: nat)
    requires HasName(t) && FirstFrom(t, 0) <= q < FirstFrom(t, 0) + |NEW|
    ensures !OccursAt(ReplaceFirst(t), q)
  {
    hide OccursAt, ReplaceFirst, FirstFrom;
    var p, t' := FirstFrom(t, 0), ReplaceFirst(t);
    OccursFits(t, p);
    RenamedAt(t, q);
    Initials(0, q - p);
    DifferentByte(t', q, 0);
  }

  /** Up to the end of the new name the renamed text does not hold the old one: it did not
      before the first occurrence, and the two names share no letter that would let it. */
  lemma RenamedEarly(t: seq<Byte>, q: nat)
    requires HasName(t) && q < FirstFrom(t, 0) + |NEW|
    ensures !OccursAt(ReplaceFirst(t), q)
  {
    hide OccursAt, ReplaceFirst, FirstFrom, HasName;
    var p := FirstFrom(t, 0);
    if q + OLD_LEN <= p {
      RenamedBefore(t, q);
    } else if q < p {
      RenamedAcross(t, q);
    } else {
      RenamedWithin(t, q);
    }
  }

  lemma SliceOfDrop(a: seq<Byte>, n: nat, x: nat, y: nat)
    requires x <= y && n + y <= |a|
    ensures a[n..][x..y] == a[n + x..n + y]
  {}

  lemma RenamedLate(t: seq<Byte>, q: nat)
    requires HasName(t) && FirstFrom(t, 0) + |NEW| <= q
    ensures OccursAt(ReplaceFirst(t), q) <==> OccursAt(t, q - DELTA)
  {
    RenameGrows(t);
    var t', p := ReplaceFirst(t), FirstFrom(t, 0);
    OccursFits(t, p);
    assert t'[p + |NEW|..] == t[p + OLD_LEN..];
    if q + OLD_LEN <= |t'| {
      var x := q - p - |NEW|;
      SliceOfDrop(t', p + |NEW|, x, x + OLD_LEN);
      SliceOfDrop(t, p + OLD_LEN, x, x + OLD_LEN);
    }
  }

  /** A renamed text still holds the old name exactly when it held it twice. */
  lemma NameRemains(t: seq<Byte>)
    requires HasName(t)
    ensures HasName(ReplaceFirst(t)) <==> exists p: nat :: FirstFrom(t, 0) < p && OccursAt(t, p)
  {
    hide OccursAt, ReplaceFirst;
    var p, t' := FirstFrom(t, 0), ReplaceFirst(t);
    assert OccursAt(t, p);
    if HasName(t') {
      var q := FirstFrom(t', 0);
      if q < p + |NEW| {
        RenamedEarly(t, q);
      }
      RenamedLate(t, q);
    }
    if q: nat :| p < q && OccursAt(t, q) {
      NameApart(t, p, q);
      RenamedLate(t, q + DELTA);
      OccursNamed(t', q + DELTA);
    }
  }

  // ----- a name that straddles two strings

  // "multiplay"
  const STEM: seq<Byte> := [109, 117, 108, 116, 105, 112, 108, 97, 121]

  lemma StraddleBytes(u: seq<Byte>)
    requires |u| == 114
    ensures var data := Encode([Str(STEM), Str(u)]);
            data == [9, 0, 0, 0] + STEM + [114, 0, 0, 0] + u && OccursAt(data, 4)
  {
    EncodePair(STEM, u);
    hide Encode;
    assert Pack(9) == [9, 0, 0, 0] && Pack(114) == [114, 0, 0, 0];
    hide Pack;
    var data := [9, 0, 0, 0] + STEM + [114, 0, 0, 0] + u;
    assert data[4..14] == OLD;
  }

  lemma NameNeedsInitial(t: seq<Byte>)
    requires |t| < OLD_LEN || 109 !in t
    ensures !HasName(t)
  {
    if HasName(t) {
      NameBytes(t, FirstFrom(t, 0), 0);
    }
  }

  lemma UnnamedPair(t: seq<Byte>, u: seq<Byte>)
    requires !HasName(t) && !HasName(u) && |t| < 0x2000_0000 && |u| < 0x2000_0000
    ensures var cs := [Str(t), Str(u)]; WellFormed(cs) && Recognised(cs) && Renamed(cs) == cs
  {
    RenameGrows(t);
    RenameGrows(u);
    hide HasName, ReplaceFirst, Encode, TailOk, AllPrintable;
    var cs := [Str(t), Str(u)];
    assert cs[1..] == [Str(u)] && cs[1..][1..] == [];
    assert Recognised(cs[1..]);
    assert Renamed(cs[1..]) == [Str(u)];
  }

  /** Confinement is needed. Take the string "multiplay" and after it any string of 114 bytes
      without an "m": the prefix of the second supplies the missing "r". No string holds the
      name, every string is well formed and nothing has to change, yet the file is changed. */
  lemma StraddleCorrupts(u: seq<Byte>)
    requires |u| == 114 && 109 !in u
    ensures var cs := [Str(STEM), Str(u)];
            WellFormed(cs) && Recognised(cs) && Renamed(cs) == cs &&
            !HasName(STEM) && !HasName(u) && Rebased(Encode(cs)) != Encode(cs)
  {
    hide HasName, WellFormed, Recognised, Renamed, Rebased, Encode, OccursAt, Plan;
    var cs := [Str(STEM), Str(u)];
    NameNeedsInitial(STEM);
    NameNeedsInitial(u);
    UnnamedPair(STEM, u);
    StraddleBytes(u);
    FramingKept(cs);
    assert OccursAt(Encode(cs), 4);
    NowhereNamed(STEM, u, Plan(Encode(cs), 4).start);
  }

  lemma NowhereNamed(t: seq<Byte>, u: seq<Byte>, x: nat)
    requires !HasName(t) && !HasName(u)
    ensures !InNamed([Str(t), Str(u)], 0, x)
  {
    hide HasName, Code;
    var cs := [Str(t), Str(u)];
    assert cs[1..] == [Str(u)] && cs[1..][1..] == [];
    var o := |Code(cs[0])|;
    assert !InNamed([], o + |Code(Str(u))|, x);
    assert !InNamed([Str(u)], o, x);
  }

  // "multiplayr-multiplay"
  const TWICE: seq<Byte> := OLD + [45] + STEM

  lemma EncodePair(t: seq<Byte>, u: seq<Byte>)
    ensures Encode([Str(u)]) == Pack(|u|) + u
    ensures Encode([Str(t), Str(u)]) == Pack(|t|) + t + Pack(|u|) + u
  {
    hide Pack;
    var cs := [Str(t), Str(u)];
    assert cs[1..] == [Str(u)] && [Str(u)][1..] == [];
    assert Encode(cs) == (Pack(|t|) + t) + Encode(cs[1..]);
  }

  lemma TwiceBytes(u: seq<Byte>)
    requires |u| == 114
    ensures Encode([Str(TWICE), Str(u)]) == [20, 0, 0, 0] + TWICE + [114, 0, 0, 0] + u
    ensures Encode([Str(u)]) == [114, 0, 0, 0] + u
  {
    TwiceNamed();
    EncodePair(TWICE, u);
    hide Encode, HasName, AllPrintable;
    assert Pack(20) == [20, 0, 0, 0] && Pack(114) == [114, 0, 0, 0];
  }

  lemma TwiceInitials(u: seq<Byte>, data: seq<Byte>, i: nat)
    requires |u| == 114 && 109 !in u && data == [20, 0, 0, 0] + TWICE + [114, 0, 0, 0] + u
    requires i < |data| && i != 4 && i != 15
    ensures data[i] != 109
  {
    if i >= 28 {
      assert data[i] == u[i - 28];
    }
  }

  lemma TwiceOccurs(u: seq<Byte>, data: seq<Byte>)
    requires |u| == 114 && data == [20, 0, 0, 0] + TWICE + [114, 0, 0, 0] + u
    ensures OccursAt(data, 4) && OccursAt(data, 15) && RunStart(data, 15) == 4
  {
    assert data[4..14] == OLD;
    assert data[15..25] == OLD;
    assert data[3] == 0;
    assert forall i :: 4 <= i < 15 ==> data[i] == TWICE[i - 4];
    RunStartIs(data, 4, 15);
  }

  lemma TwiceNamed()
    ensures HasName(TWICE) && AllPrintable(TWICE, 0, |TWICE|) && |TWICE| == 20
  {
    assert TWICE[0..10] == OLD;
    OccursNamed(TWICE, 0);
  }

  lemma TwicePlanned(u: seq<Byte>, data: seq<Byte>, p: nat)
    requires |u| == 114 && 109 !in u && data == Encode([Str(TWICE), Str(u)]) && OccursAt(data, p)
    ensures Plan(data, p).start == 0
  {
    var cs := [Str(TWICE), Str(u)];
    assert cs[1..] == [Str(u)];
    TwiceBytes(u);
    TwiceNamed();
    TwiceOccurs(u, data);
    NameBytes(data, p, 0);
    AtStart(cs);
    assert TailOk(Encode(cs[1..]));
    hide OccursAt, Plan, Encode, At, HasName, AllPrintable, TailOk, PrefixOf, RunStart;
    if p != 4 && p != 15 {
      TwiceInitials(u, data, p);
    }
    PlanInString(data, 0, cs, 4);
    FromSameRun(data, 4, 15);
  }

  lemma FromSameRun(data: seq<Byte>, p: nat, q: nat)
    requires OccursAt(data, p) && OccursAt(data, q) && RunStart(data, q) <= p < q && Plan(data, p).start < p
    ensures Plan(data, q).start == Plan(data, p).start
  {
    hide OccursAt, PrefixOf, Plan, RunStart;
    SameRun(data, p, q);
    if PrefixOf(data, p) < 0 {
      StartOfFallback(data, p);
    } else {
      StartOfPrefixed(data, p);
      StartOfPrefixed(data, q);
    }
  }

  /** Confinement is less than every occurrence lying inside a string: behind a string that
      holds the name already, such a straddling occurrence does no harm. */
  lemma StraddleHarmless(u: seq<Byte>)
    requires |u| == 114 && 109 !in u
    ensures var cs := [Str(TWICE), Str(u)];
            WellFormed(cs) && !NamesInStrings(cs) && Rebased(Encode(cs)) == Encode(Renamed(cs))
  {
    var cs := [Str(TWICE), Str(u)];
    TwiceNamed();
    NameNeedsInitial(u);
    TwiceBytes(u);
    TwiceOccurs(u, Encode(cs));
    TwiceFine(u);
    hide HasName, Encode, OccursAt, Plan, Rebased, Renamed, AllPrintable, RunStart;
    forall p: nat | OccursAt(Encode(cs), p) ensures InNamed(cs, 0, Plan(Encode(cs), p).start) {
      TwicePlanned(u, Encode(cs), p);
    }
    FramingKept(cs);
  }

  lemma TwiceFine(u: seq<Byte>)
    requires |u| == 114 && !HasName(u)
    ensures var cs := [Str(TWICE), Str(u)]; WellFormed(cs) && Recognised(cs) && !Inside(cs, 0, 15)
  {
    var cs := [Str(TWICE), Str(u)];
    assert cs[1..] == [Str(u)] && cs[1..][1..] == [];
    TwiceNamed();
    TwiceBytes(u);
    assert TailOk(Encode(cs[1..]));
    hide HasName, Encode, AllPrintable, TailOk;
    assert Recognised(cs[1..]);
    assert |Code(cs[0])| == 24;
    assert !Inside([], 24 + |Code(Str(u))|, 15);
    assert !Inside(cs[1..], 24, 15);
  }
}
