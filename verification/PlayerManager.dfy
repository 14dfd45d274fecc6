/** Player names and message rates: unique-name generation and the sliding-window limiter. */
module PlayerManager {
  import opened Types

  // ----- names

  function LowerChar(c: char): char { if 'A' <= c <= 'Z' then c - 'A' + 'a' else c }

  function Lower(s: string): (r: string)
    ensures |r| == |s| && forall i :: 0 <= i < |s| ==> r[i] == LowerChar(s[i])
  {
    seq(|s|, i requires 0 <= i < |s| => LowerChar(s[i]))
  }

  /** Some connected player has this name, up to case. */
  predicate Taken(players: Players, name: string) {
    exists p :: p in players && Lower(players[p].name) == Lower(name)
  }

  /** Linear search in iteration order; 0 if there is none. */
  method FindByExactName(players: Players, order: seq<PlayerID>, name: string) returns (id: PlayerID)
    requires Enumerates(order, players.Keys)
    ensures id != 0 ==> id in players && Lower(players[id].name) == Lower(name)
    ensures id == 0 && 0 !in players ==> !Taken(players, name)
  {
    var needle := Lower(name);
    for i := 0 to |order|
      invariant forall k :: 0 <= k < i ==> Lower(players[order[k]].name) != needle
    {
      if Lower(players[order[i]].name) == needle {
        return order[i];
      }
    }
    return 0;
  }

  method IsNameTaken(players: Players, order: seq<PlayerID>, name: string) returns (taken: bool)
    requires Enumerates(order, players.Keys) && 0 !in players
    ensures taken <==> Taken(players, name)
  {
    var id := FindByExactName(players, order, name);
    taken := id != 0;
  }

  function Digit(n: nat): char
    requires n < 10
  {
    ['0', '1', '2', '3', '4', '5', '6', '7', '8', '9'][n]
  }

  /** Decimal digits of a number, as `to_string` writes them. */
  function Decimal(n: nat): string {
    if n < 10 then [Digit(n)] else Decimal(n / 10) + [Digit(n % 10)]
  }

  const CANDIDATES := 99

  /** The base name, then the base name with suffixes 2 to 99. */
  function Candidate(base: string, k: nat): string
    requires 1 <= k <= CANDIDATES
  {
    if k == 1 then base else base + "_" + Decimal(k)
  }

  /** The first candidate nobody has: the base name itself, if it is free. */
  ghost predicate FirstFree(players: Players, base: string, name: string) {
    exists k :: 1 <= k <= CANDIDATES && name == Candidate(base, k) && forall j :: 1 <= j < k ==> Taken(players, Candidate(base, j))
  }

  /** The value of a number written in decimal. */
  function Value(s: string): int {
    if s == "" then 0 else 10 * Value(s[..|s| - 1]) + (s[|s| - 1] as int - '0' as int)
  }

  /** The suffix of a candidate is its number, written without leading zeros. */
  lemma {:induction false} DecimalReads(n: nat)
    ensures Value(Decimal(n)) == n && Decimal(n) != "" && (n > 0 ==> Decimal(n)[0] != '0')
    ensures forall i :: 0 <= i < |Decimal(n)| ==> '0' <= Decimal(n)[i] <= '9'
  {
    DigitReads(n % 10);
    if n >= 10 {
      DecimalReads(n / 10);
      assert Decimal(n)[..|Decimal(n)| - 1] == Decimal(n / 10);
    } else {
      assert Decimal(n)[..0] == "";
    }
  }

  /** From the second on a candidate is the base, an underscore and its number. */
  lemma CandidateForm(base: string, k: nat)
    requires 1 <= k <= CANDIDATES
    ensures k == 1 ==> Candidate(base, k) == base
    ensures k > 1 ==> base + "_" <= Candidate(base, k) && Value(Candidate(base, k)[|base| + 1..]) == k
  {
    if k > 1 {
      DecimalReads(k);
      assert Candidate(base, k)[|base| + 1..] == Decimal(k);
    }
  }

  lemma DigitReads(d: nat)
    requires d < 10
    ensures Digit(d) as int == '0' as int + d
  {}

  /** Two characters read the same up to case exactly when they are equal or the two cases of one
      letter. */
  lemma SameLetter(c: char, d: char)
    ensures LowerChar(c) == LowerChar(d) <==>
      c == d || ('A' <= c <= 'Z' && d as int == c as int + 32) || ('A' <= d <= 'Z' && c as int == d as int + 32)
  {}

  /** A name nobody has, up to case, whenever one of the candidates is free: the first of them. */
  method MakeUniqueName(players: Players, order: seq<PlayerID>, base: string, random: nat) returns (name: string, fellBack: bool)
    requires Enumerates(order, players.Keys) && 0 !in players
    ensures fellBack <==> forall k :: 1 <= k <= CANDIDATES ==> Taken(players, Candidate(base, k))
    ensures !fellBack ==> !Taken(players, name) && FirstFree(players, base, name)
    ensures fellBack ==> name == base + "_" + Decimal(random)
    ensures |players| < CANDIDATES ==> !fellBack
  {
    hide Decimal, Lower, Taken, Enumerates, Holders;
    var taken := IsNameTaken(players, order, base);
    if !taken {
      assert !Taken(players, Candidate(base, 1));
      assert FirstFree(players, base, base);
      return base, false;
    }
    for suffix := 2 to 100
      invariant forall k :: 1 <= k < suffix ==> Taken(players, Candidate(base, k))
    {
      var candidate := base + "_" + Decimal(suffix);
      assert candidate == Candidate(base, suffix);
      taken := IsNameTaken(players, order, candidate);
      if !taken {
        assert FirstFree(players, base, candidate);
        return candidate, false;
      }
    }
    Pigeonhole(players, base, CANDIDATES);
    return base + "_" + Decimal(random), true;
  }

  // ----- the pigeonhole

  lemma DecimalShort(n: nat)
    requires n <= CANDIDATES
    ensures Decimal(n) == if n < 10 then [Digit(n)] else [Digit(n / 10), Digit(n % 10)]
  {
    if n >= 10 {
      assert Decimal(n / 10) == [Digit(n / 10)];
    }
  }

  lemma DigitInjective(a: nat, b: nat)
    requires a < 10 && b < 10 && LowerChar(Digit(a)) == LowerChar(Digit(b))
    ensures a == b
  {}

  lemma DecimalDistinct(i: nat, j: nat)
    requires i < j <= CANDIDATES
    ensures Lower(Decimal(i)) != Lower(Decimal(j))
  {
    hide Decimal, Digit;
    DecimalShort(i);
    DecimalShort(j);
    var a, b := Lower(Decimal(i)), Lower(Decimal(j));
    if |a| == |b| && a[|a| - 1] == b[|a| - 1] {
      DigitInjective(i % 10, j % 10);
      if i >= 10 && a[0] == b[0] {
        DigitInjective(i / 10, j / 10);
      }
    }
  }

  /** Two candidates never read the same, even ignoring case. */
  lemma CandidatesDistinct(base: string, i: nat, j: nat)
    requires 1 <= i < j <= CANDIDATES
    ensures Lower(Candidate(base, i)) != Lower(Candidate(base, j))
  {
    hide Decimal;
    var a, b := Lower(Candidate(base, i)), Lower(Candidate(base, j));
    if i > 1 && a == b {
      var n := |base| + 1;
      assert Lower(Decimal(i)) == a[n..];
      assert Lower(Decimal(j)) == b[n..];
      DecimalDistinct(i, j);
      assert false;
    }
  }

  function Holders(players: Players, base: string, k: nat): set<PlayerID>
    requires k <= CANDIDATES
  {
    set p | p in players && exists i :: 1 <= i <= k && Lower(players[p].name) == Lower(Candidate(base, i))
  }

  /** If the first `k` candidates are taken, at least `k` players hold them. */
  lemma {:induction false} Pigeonhole(players: Players, base: string, k: nat)
    requires k <= CANDIDATES && forall i :: 1 <= i <= k ==> Taken(players, Candidate(base, i))
    ensures |players| >= |Holders(players, base, k)| >= k
  {
    hide Candidate, Lower, Holders, Taken;
    HoldersPlay(players, base, k);
    if k > 0 {
      Pigeonhole(players, base, k - 1);
      var p := NewHolder(players, base, k);
      OneMoreHolder(Holders(players, base, k - 1), p, Holders(players, base, k));
    }
  }

  lemma HoldersPlay(players: Players, base: string, k: nat)
    requires k <= CANDIDATES
    ensures |Holders(players, base, k)| <= |players|
  {
    hide Candidate, Lower;
    SubsetSize(Holders(players, base, k), players.Keys);
  }

  lemma OneMoreHolder(few: set<PlayerID>, p: PlayerID, many: set<PlayerID>)
    requires few <= many && p in many && p !in few
    ensures |many| >= |few| + 1
  {
    SubsetSize(few + {p}, many);
  }

  /** The holder of the last candidate holds none of the earlier ones. */
  lemma NewHolder(players: Players, base: string, k: nat) returns (p: PlayerID)
    requires 0 < k <= CANDIDATES && Taken(players, Candidate(base, k))
    ensures p in Holders(players, base, k) && p !in Holders(players, base, k - 1)
    ensures Holders(players, base, k - 1) <= Holders(players, base, k)
  {
    hide Candidate, Lower;
    p :| p in players && Lower(players[p].name) == Lower(Candidate(base, k));
    forall i | 1 <= i <= k - 1 ensures Lower(Candidate(base, i)) != Lower(players[p].name) {
      CandidatesDistinct(base, i, k);
    }
  }

  lemma {:induction false} SubsetSize(a: set<PlayerID>, b: set<PlayerID>)
    requires a <= b
    ensures |a| <= |b|
  {
    if a != {} {
      var x :| x in a;
      SubsetSize(a - {x}, b - {x});
    }
  }

  // ----- rate limiting

  /** How many timestamps lie within a window that ends now. */
  function InWindow(ts: seq<real>, now: real, window: real): (n: nat)
    ensures n <= |ts|
  {
    if ts == [] then 0
    else InWindow(ts[..|ts| - 1], now, window) + (if now - ts[|ts| - 1] <= window then 1 else 0)
  }

  predicate Limited(entry: map<PlayerID, seq<real>>, id: PlayerID, now: real, window: real, max: int) {
    id in entry && InWindow(entry[id], now, window) >= max
  }

  function Pruned(ts: seq<real>, now: real, window: real): seq<real> {
    if ts == [] then []
    else
      var rest := Pruned(ts[..|ts| - 1], now, window);
      if now - ts[|ts| - 1] > window then rest else rest + [ts[|ts| - 1]]
  }

  function AllPruned(limits: map<PlayerID, seq<real>>, now: real, window: real): map<PlayerID, seq<real>> {
    map id | id in limits :: Pruned(limits[id], now, window)
  }

  class RateLimiter {
    var limits: map<PlayerID, seq<real>>
    /** Every message offered and every cleanup, in order. */
    ghost var calls: seq<Call>

    /** What is stored for each player is what its own history leaves. */
    ghost predicate Valid(window: real, max: int)
      reads this
    {
      Agrees(limits, calls, window, max)
    }

    constructor ()
      ensures limits == map[] && calls == []
      ensures forall window, max :: Valid(window, max)
    {
      limits, calls := map[], [];
    }

    /** The check, and the record if it passes. Afterwards no window of this player holds more
        than the maximum. */
    method Admit(id: PlayerID, now: real, window: real, max: int) returns (limited: bool)
      requires Valid(window, max) && max >= 1
      requires InOrder(HistoryOf(calls + [Offered(id, now)], id), window)
      modifies this
      ensures Valid(window, max) && calls == old(calls) + [Offered(id, now)]
      ensures limited <==> Limited(old(limits), id, now, window, max)
      ensures WithinLimit(Metered(HistoryOf(calls, id), window, max).passed, window, max)
    {
      hide Agrees, InWindow, Metered, HistoryOf, WithinLimit, InOrder;
      OfferedAgrees(limits, calls, window, max, id, now);
      NoWindowOverfull(HistoryOf(calls + [Offered(id, now)], id), window, max);
      limited := CheckRateLimit(id, now, window, max);
      if !limited {
        RecordMessage(id, now);
      }
      calls := calls + [Offered(id, now)];
    }

    method Clean(now: real, span: real, ghost window: real, ghost max: int)
      requires Valid(window, max)
      modifies this
      ensures Valid(window, max) && calls == old(calls) + [Cleaned(now, span)]
    {
      hide Agrees;
      CleanedAgrees(limits, calls, window, max, now, span);
      CleanupRateLimits(now, span);
      calls := calls + [Cleaned(now, span)];
    }

    method CheckRateLimit(id: PlayerID, now: real, window: real, max: int) returns (limited: bool)
      ensures limited <==> Limited(limits, id, now, window, max)
    {
      if id !in limits {
        return false;
      }
      var ts, count := limits[id], 0;
      for i := 0 to |ts|
        invariant count == InWindow(ts[..i], now, window)
      {
        assert ts[..i + 1][..i] == ts[..i];
        if now - ts[i] <= window {
          count := count + 1;
        }
      }
      assert ts[..|ts|] == ts;
      return count >= max;
    }

    method RecordMessage(id: PlayerID, now: real)
      modifies this`limits
      ensures limits == old(limits)[id := (if id in old(limits) then old(limits)[id] else []) + [now]]
    {
      limits := limits[id := (if id in limits then limits[id] else []) + [now]];
    }

    method CleanupRateLimits(now: real, window: real)
      modifies this`limits
      ensures limits == AllPruned(old(limits), now, window)
    {
      var rest := limits.Keys;
      while rest != {}
        invariant rest <= limits.Keys && limits.Keys == old(limits).Keys
        invariant forall id :: id in limits ==>
          limits[id] == if id in rest then old(limits)[id] else Pruned(old(limits)[id], now, window)
      {
        var id :| id in rest;
        var kept := Prune(limits[id], now, window);
        limits := limits[id := kept];
        rest := rest - {id};
      }
    }
  }

  method Prune(ts: seq<real>, now: real, window: real) returns (kept: seq<real>)
    ensures kept == Pruned(ts, now, window)
  {
    kept := [];
    for i := 0 to |ts|
      invariant kept == Pruned(ts[..i], now, window)
    {
      assert ts[..i + 1][..i] == ts[..i];
      if !(now - ts[i] > window) {
        kept := kept + [ts[i]];
      }
    }
    assert ts[..|ts|] == ts;
  }

  // ----- runs of the limiter for one player

  datatype Event = Message(at: real) | Cleanup(at: real, span: real)

  /** What is stored, and every message ever let through. */
  datatype Meter = Meter(known: bool, stored: seq<real>, passed: seq<real>)

  predicate Blocks(m: Meter, now: real, window: real, max: int) {
    m.known && InWindow(m.stored, now, window) >= max
  }

  /** A message is recorded only after the check lets it through. */
  function Offer(m: Meter, e: Event, window: real, max: int): Meter {
    match e
    case Message(now) =>
      if Blocks(m, now, window, max) then m else Meter(true, m.stored + [now], m.passed + [now])
    case Cleanup(now, span) => m.(stored := Pruned(m.stored, now, span))
  }

  function Metered(h: seq<Event>, window: real, max: int): Meter {
    if h == [] then Meter(false, [], []) else Offer(Metered(h[..|h| - 1], window, max), h[|h| - 1], window, max)
  }

  predicate InOrder(h: seq<Event>, window: real) {
    && (forall i, j :: 0 <= i <= j < |h| ==> h[i].at <= h[j].at)
    && (forall i :: 0 <= i < |h| && h[i].Cleanup? ==> h[i].span >= window)
  }

  /** Pruning with a window at least as long changes no later count. */
  lemma {:induction false} PruningInvisible(ts: seq<real>, at: real, span: real, now: real, window: real)
    requires at <= now && window <= span
    ensures InWindow(Pruned(ts, at, span), now, window) == InWindow(ts, now, window)
  {
    if ts != [] {
      PruningInvisible(ts[..|ts| - 1], at, span, now, window);
      var rest, last := Pruned(ts[..|ts| - 1], at, span), ts[|ts| - 1];
      assert Pruned(ts, at, span) == if at - last > span then rest else rest + [last];
      hide Pruned;
      WindowAppend(rest, last, now, window);
      WindowAppend(ts[..|ts| - 1], last, now, window);
      assert ts == ts[..|ts| - 1] + [last];
    }
  }

  lemma WindowAppend(ts: seq<real>, t: real, now: real, window: real)
    ensures InWindow(ts + [t], now, window) == InWindow(ts, now, window) + if now - t <= window then 1 else 0
  {
    assert (ts + [t])[..|ts|] == ts;
  }

  /** Cleanup is invisible: over every history, every later check sees exactly what it
      would have seen had nothing ever been cleaned up. */
  lemma {:induction false} CleanupInvisible(h: seq<Event>, window: real, max: int, now: real)
    requires InOrder(h, window) && (h != [] ==> h[|h| - 1].at <= now)
    ensures InWindow(Metered(h, window, max).stored, now, window) == InWindow(Metered(h, window, max).passed, now, window)
    ensures Metered(h, window, max).passed != [] ==> Metered(h, window, max).known
  {
    hide InWindow, Pruned;
    if h != [] {
      var front, e := h[..|h| - 1], h[|h| - 1];
      CleanupInvisible(front, window, max, now);
      CleanupInvisible(front, window, max, e.at);
      var m := Metered(front, window, max);
      match e
      case Message(at) =>
        WindowAppend(m.stored, at, now, window);
        WindowAppend(m.passed, at, now, window);
      case Cleanup(at, span) => PruningInvisible(m.stored, at, span, now, window);
    }
  }

  /** Each message passed while fewer than the maximum lay in the window before it. */
  predicate Spaced(ts: seq<real>, window: real, max: int) {
    forall j :: 0 <= j < |ts| ==> InWindow(ts[..j], ts[j], window) < max
  }

  lemma {:induction false} PassedSpaced(h: seq<Event>, window: real, max: int)
    requires InOrder(h, window) && max >= 1
    ensures Spaced(Metered(h, window, max).passed, window, max)
  {
    hide InWindow, Pruned, Spaced;
    if h != [] {
      var front, e := h[..|h| - 1], h[|h| - 1];
      PassedSpaced(front, window, max);
      CleanupInvisible(front, window, max, e.at);
      var m := Metered(front, window, max);
      if e.Message? && !Blocks(m, e.at, window, max) {
        NothingInWindow(e.at, window);
        SpacedAppend(m.passed, e.at, window, max);
      }
    } else {
      SpacedNone(window, max);
    }
  }

  lemma NothingInWindow(now: real, window: real)
    ensures InWindow([], now, window) == 0
  {}

  lemma SpacedNone(window: real, max: int)
    ensures Spaced([], window, max)
  {}

  lemma SpacedAppend(ts: seq<real>, t: real, window: real, max: int)
    requires Spaced(ts, window, max) && InWindow(ts, t, window) < max
    ensures Spaced(ts + [t], window, max)
  {
    hide InWindow;
    var ts' := ts + [t];
    forall j | 0 <= j < |ts'| ensures InWindow(ts'[..j], ts'[j], window) < max {
      if j < |ts| {
        assert ts'[..j] == ts[..j];
      } else {
        assert ts'[..j] == ts;
      }
    }
  }

  /** The number of timestamps in a closed interval. */
  function Between(ts: seq<real>, from: real, to: real): nat {
    if ts == [] then 0
    else Between(ts[..|ts| - 1], from, to) + (if from <= ts[|ts| - 1] <= to then 1 else 0)
  }

  lemma {:induction false} BetweenWithin(ts: seq<real>, from: real, now: real, window: real)
    requires now <= from + window
    ensures Between(ts, from, from + window) <= InWindow(ts, now, window)
  {
    if ts != [] {
      BetweenWithin(ts[..|ts| - 1], from, now, window);
    }
  }

  lemma {:induction false} SpacedWindows(ts: seq<real>, from: real, window: real, max: int)
    requires Spaced(ts, window, max) && max >= 0
    ensures Between(ts, from, from + window) <= max
  {
    if ts != [] {
      var front, last := ts[..|ts| - 1], ts[|ts| - 1];
      forall j | 0 <= j < |front| ensures InWindow(front[..j], front[j], window) < max {
        assert front[..j] == ts[..j];
      }
      SpacedWindows(front, from, window, max);
      if from <= last <= from + window {
        BetweenWithin(front, from, last, window);
      }
    }
  }

  predicate AnyMessage(h: seq<Event>) { exists i :: 0 <= i < |h| && h[i].Message? }

  /** A maximum of zero or less does not block everything: exactly the first message passes. */
  lemma {:induction false} ZeroLimitLeaks(h: seq<Event>, window: real, max: int)
    requires max <= 0
    ensures |Metered(h, window, max).passed| == if AnyMessage(h) then 1 else 0
    ensures Metered(h, window, max).known <==> AnyMessage(h)
  {
    if h != [] {
      var front, last := h[..|h| - 1], h[|h| - 1];
      ZeroLimitLeaks(front, window, max);
      assert h == front + [last];
      if AnyMessage(front) {
        var i :| 0 <= i < |front| && front[i].Message?;
        assert h[i].Message?;
      } else if last.Message? {
        assert h[|h| - 1].Message?;
      }
    }
  }

  /** The number of timestamps in the window that starts here. */
  function InSpan(ts: seq<real>, from: real, window: real): nat { Between(ts, from, from + window) }

  ghost predicate WithinLimit(ts: seq<real>, window: real, max: int) {
    forall from :: InSpan(ts, from, window) <= max
  }

  lemma OneTimestamp(ts: seq<real>, window: real)
    requires |ts| == 1
    ensures window >= 0.0 ==> InSpan(ts, ts[0], window) == 1
    ensures window < 0.0 ==> forall from :: InSpan(ts, from, window) == 0
  {
    assert ts[..0] == [] && Between([], 0.0, 0.0) == 0;
    forall from ensures InSpan(ts, from, window) == if from <= ts[0] <= from + window then 1 else 0 {
      assert Between(ts[..0], from, from + window) == 0;
    }
  }

  /** Over every history of messages and cleanups, every window of the given length, wherever
      it starts, holds at most the maximum, if and only if the maximum is at least one, or it
      is zero and no message was offered (or the window is empty). */
  lemma NoWindowOverfull(h: seq<Event>, window: real, max: int)
    requires InOrder(h, window)
    ensures WithinLimit(Metered(h, window, max).passed, window, max) <==>
      max >= 1 || (max == 0 && (!AnyMessage(h) || window < 0.0))
  {
    var ts := Metered(h, window, max).passed;
    if max >= 1 {
      PassedSpaced(h, window, max);
      forall from ensures InSpan(ts, from, window) <= max {
        SpacedWindows(ts, from, window, max);
      }
    } else {
      ZeroLimitLeaks(h, window, max);
      if max < 0 {
        assert InSpan(ts, 0.0, window) > max;
      } else if AnyMessage(h) {
        OneTimestamp(ts, window);
      } else {
        assert forall from :: InSpan(ts, from, window) == 0;
      }
    }
  }

  /** A message passes exactly when none has passed before, or fewer than the maximum of those
      that passed lie in the window before it. */
  lemma PassesExactly(h: seq<Event>, at: real, window: real, max: int)
    requires InOrder(h + [Message(at)], window)
    ensures var passed := Metered(h, window, max).passed;
            Metered(h + [Message(at)], window, max).passed ==
            if passed == [] || Recent(passed, at, window) < max then passed + [at] else passed
  {
    var all := h + [Message(at)];
    assert all[..|h|] == h && forall i :: 0 <= i < |h| ==> all[i] == h[i];
    assert forall i, j :: 0 <= i <= j < |h| ==> h[i].at <= h[j].at;
    assert h != [] ==> all[|h| - 1].at <= all[|h|].at;
    CleanupInvisible(h, window, max, at);
    KnownMeansPassed(h, window, max);
    RecentIsInWindow(Metered(h, window, max).passed, at, window);
    hide InWindow, Recent, AnyMessage;
  }

  /** How many of these lie at most a window before this time. */
  function Recent(ts: seq<real>, now: real, window: real): nat { |set i | 0 <= i < |ts| && now - ts[i] <= window| }

  lemma {:induction false} RecentIsInWindow(ts: seq<real>, now: real, window: real)
    ensures Recent(ts, now, window) == InWindow(ts, now, window)
  {
    if ts != [] {
      var front, n := ts[..|ts| - 1], |ts| - 1;
      RecentIsInWindow(front, now, window);
      var few, all := set i | 0 <= i < |front| && now - front[i] <= window, set i | 0 <= i < |ts| && now - ts[i] <= window;
      assert all == if now - ts[n] <= window then few + {n} else few;
    }
  }

  lemma AnyMore(h: seq<Event>)
    requires h != []
    ensures AnyMessage(h) <==> AnyMessage(h[..|h| - 1]) || h[|h| - 1].Message?
  {
    var front := h[..|h| - 1];
    if i :| 0 <= i < |front| && front[i].Message? {
      assert h[i].Message?;
    }
  }

  lemma {:induction false} KnownMeansPassed(h: seq<Event>, window: real, max: int)
    ensures Metered(h, window, max).known <==> Metered(h, window, max).passed != []
    ensures Metered(h, window, max).known <==> AnyMessage(h)
  {
    hide InWindow, Pruned, AnyMessage;
    if h != [] {
      KnownMeansPassed(h[..|h| - 1], window, max);
      AnyMore(h);
    } else {
      NoMessageAtAll();
    }
  }

  lemma NoMessageAtAll()
    ensures !AnyMessage([])
  {}

  // ----- all players at once

  datatype Call = Offered(id: PlayerID, at: real) | Cleaned(at: real, span: real)

  /** What one player's meter goes through. */
  function HistoryOf(calls: seq<Call>, id: PlayerID): seq<Event> {
    if calls == [] then []
    else
      var rest, last := HistoryOf(calls[..|calls| - 1], id), calls[|calls| - 1];
      if last.Cleaned? then rest + [Cleanup(last.at, last.span)]
      else if last.id == id then rest + [Message(last.at)] else rest
  }

  ghost predicate Agrees(limits: map<PlayerID, seq<real>>, calls: seq<Call>, window: real, max: int) {
    forall id :: AgreesOn(limits, calls, window, max, id)
  }

  predicate AgreesOn(limits: map<PlayerID, seq<real>>, calls: seq<Call>, window: real, max: int, id: PlayerID) {
    var m := Metered(HistoryOf(calls, id), window, max);
    (m.known <==> id in limits) && m.stored == if id in limits then limits[id] else []
  }

  lemma MeteredNext(h: seq<Event>, e: Event, window: real, max: int)
    ensures Metered(h + [e], window, max) == Offer(Metered(h, window, max), e, window, max)
  {
    assert (h + [e])[..|h|] == h;
  }

  lemma HistoryNext(calls: seq<Call>, c: Call, id: PlayerID)
    ensures HistoryOf(calls + [c], id) ==
            if c.Cleaned? then HistoryOf(calls, id) + [Cleanup(c.at, c.span)]
            else if c.id == id then HistoryOf(calls, id) + [Message(c.at)] else HistoryOf(calls, id)
  {
    assert (calls + [c])[..|calls|] == calls;
  }

  lemma OfferedAgrees(limits: map<PlayerID, seq<real>>, calls: seq<Call>, window: real, max: int, id: PlayerID, now: real)
    requires Agrees(limits, calls, window, max)
    ensures var after := if Limited(limits, id, now, window, max) then limits
                         else limits[id := (if id in limits then limits[id] else []) + [now]];
            Agrees(after, calls + [Offered(id, now)], window, max)
  {
    hide Metered, HistoryOf, InWindow;
    var after := if Limited(limits, id, now, window, max) then limits
                 else limits[id := (if id in limits then limits[id] else []) + [now]];
    forall p ensures AgreesOn(after, calls + [Offered(id, now)], window, max, p) {
      assert AgreesOn(limits, calls, window, max, p);
      HistoryNext(calls, Offered(id, now), p);
      MeteredNext(HistoryOf(calls, p), Message(now), window, max);
    }
  }

  lemma CleanedAgrees(limits: map<PlayerID, seq<real>>, calls: seq<Call>, window: real, max: int, now: real, span: real)
    requires Agrees(limits, calls, window, max)
    ensures Agrees(AllPruned(limits, now, span), calls + [Cleaned(now, span)], window, max)
  {
    hide Metered, HistoryOf, InWindow;
    var after := AllPruned(limits, now, span);
    forall p ensures AgreesOn(after, calls + [Cleaned(now, span)], window, max, p) {
      assert AgreesOn(limits, calls, window, max, p);
      HistoryNext(calls, Cleaned(now, span), p);
      MeteredNext(HistoryOf(calls, p), Cleanup(now, span), window, max);
    }
  }
}
