/** What a player's name is, character by character, and what coming back under it means. */
module Names {
  import opened Types
  import opened ServerModel
  import opened Persistence
  import opened Runs
  import opened Ownership
  import opened Reclaim

  /** The first position that no longer belongs to the name: the length limit, the end of what
      was sent, or a NUL, whichever comes first. */
  predicate EndsAt(raw: string, n: nat) {
    && n <= |raw| && n <= MAX_NAME_LENGTH
    && (forall i :: 0 <= i < n ==> raw[i] != 0 as char)
    && (n == |raw| || n == MAX_NAME_LENGTH || raw[n] == 0 as char)
  }

  function PrintableAt(raw: string): nat -> bool { (i: nat) => i < |raw| && 32 <= raw[i] as int < 127 }

  lemma {:induction false} NameEndEnds(raw: string, i: nat)
    requires i <= |raw| && i <= MAX_NAME_LENGTH && forall k :: 0 <= k < i ==> raw[k] != 0 as char
    ensures EndsAt(raw, NameEnd(raw, i))
    decreases |raw| - i
  {
    if i < |raw| && i < MAX_NAME_LENGTH && raw[i] != 0 as char {
      NameEndEnds(raw, i + 1);
    }
  }

  lemma {:induction false} FilteredReads(raw: string, n: nat) returns (idx: seq<nat>)
    requires n <= |raw|
    ensures Lists(idx, n, PrintableAt(raw)) && Reads(Filtered(raw[..n]), raw, idx)
  {
    hide Lists, PrintableAt;
    idx := [];
    if n == 0 {
      NothingListed(PrintableAt(raw));
    } else {
      idx := FilteredReads(raw, n - 1);
      assert raw[..n][..n - 1] == raw[..n - 1];
      PrintableHere(raw, n - 1);
      if Printable(raw[n - 1]) {
        ListsMore(idx, n - 1, PrintableAt(raw));
        idx := idx + [n - 1];
      } else {
        ListsNoMore(idx, n - 1, PrintableAt(raw));
      }
    }
  }

  lemma NothingListed(test: nat -> bool)
    ensures Lists([], 0, test)
  {}

  lemma PrintableHere(raw: string, i: nat)
    requires i < |raw|
    ensures PrintableAt(raw)(i) <==> Printable(raw[i])
  {}

  /** The name a player gets is what it sent, up to a NUL or 31 characters, with exactly the
      unprintable characters left out and the rest in order; if nothing is left, "Player". */
  lemma NameIsWhatWasSent(raw: string) returns (n: nat, idx: seq<nat>)
    ensures EndsAt(raw, n) && Lists(idx, n, PrintableAt(raw))
    ensures idx != [] ==> Reads(Sanitized(raw), raw, idx)
    ensures idx == [] ==> Sanitized(raw) == "Player"
  {
    n := NameEnd(raw, 0);
    NameEndEnds(raw, 0);
    idx := FilteredReads(raw, n);
  }

  /** How a name comes from what was sent. */
  ghost predicate SentAs(raw: string, name: string) {
    exists n: nat, idx: seq<nat> ::
      && EndsAt(raw, n) && Lists(idx, n, PrintableAt(raw))
      && (if idx == [] then name == "Player" else Reads(name, raw, idx))
  }

  lemma SanitizedIsSent(raw: string)
    ensures SentAs(raw, Sanitized(raw))
  {
    hide EndsAt, Lists, Reads, Sanitized;
    var n, idx := NameIsWhatWasSent(raw);
  }

  lemma {:induction false} FilteredSame(s: string)
    requires forall i :: 0 <= i < |s| ==> Printable(s[i])
    ensures Filtered(s) == s
  {
    if s != "" {
      FilteredSame(s[..|s| - 1]);
    }
  }

  predicate Clean(s: string) { 0 < |s| <= MAX_NAME_LENGTH && forall i :: 0 <= i < |s| ==> Printable(s[i]) }

  /** A printable name of at most 31 characters is taken as it is. */
  lemma CleanNameKept(s: string)
    requires Clean(s)
    ensures Sanitized(s) == s
  {
    NameEndEnds(s, 0);
    var n := NameEnd(s, 0);
    assert forall i :: 0 <= i < |s| ==> s[i] != 0 as char;
    assert n == |s|;
    assert s[..n] == s;
    FilteredSame(s);
  }

  lemma {:induction false} FilteredClean(s: string)
    ensures |Filtered(s)| <= |s| && forall i :: 0 <= i < |Filtered(s)| ==> Printable(Filtered(s)[i])
  {
    if s != "" {
      FilteredClean(s[..|s| - 1]);
    }
  }

  lemma NamesAreClean(raw: string)
    ensures Clean(Sanitized(raw))
  {
    NameEndEnds(raw, 0);
    FilteredClean(raw[..NameEnd(raw, 0)]);
  }

  /** A player that sends the name it was given is given it again. */
  lemma NameStable(raw: string)
    ensures Sanitized(Sanitized(raw)) == Sanitized(raw)
  {
    hide Sanitized, Clean;
    NamesAreClean(raw);
    CleanNameKept(Sanitized(raw));
  }

  // ----- every name in every run

  predicate NamesClean(s: Server) { forall p :: p in s.players ==> Clean(s.players[p].name) }

  lemma StepKeepsNames(cfg: Config, s: Server, e: Event)
    requires Inv(s) && Enabled(s, e) && NamesClean(s)
    ensures NamesClean(Step(cfg, s, e).server)
  {
    hide Handshake, Disconnect, Act, Restart, Clean, Sanitized;
    match e
    case Joins(peer, version, raw, loopback, _, _) =>
      if Admits(cfg, s, peer, version) {
        JoinStep(cfg, s, e);
        NamesAreClean(raw);
      } else {
        RejectStep(cfg, s, e);
      }
    case Leaves(peer, es, heir) =>
      if peer in s.peers {
        LeaveStep(cfg, s, e);
      } else {
        IdleStep(cfg, s, e);
      }
    case Packets(peer, pkt) =>
      if peer in s.peers {
        ActFrame(cfg, s, s.peers[peer], pkt);
      }
    case Sweeps(es) => SweepRemovesNothing(s, es);
    case Restarts(es, ps) => NobodyAfterRestart(cfg, s, es, ps);
  }

  lemma NobodyAfterRestart(cfg: Config, s: Server, es: seq<EntityID>, ps: seq<PlayerID>)
    requires Enumerates(es, s.entities.Keys) && Enumerates(ps, s.players.Keys)
    ensures Restart(cfg, s, es, ps).players.Keys == {}
  {}

  lemma {:induction false} RunKeepsNames(cfg: Config, states: seq<Server>, events: seq<Event>, i: nat)
    requires IsRun(cfg, states, events) && i < |states| && Inv(states[0]) && NamesClean(states[0])
    ensures NamesClean(states[i])
  {
    hide Step, Inv, NamesClean;
    if i > 0 {
      RunKeepsInv(cfg, states, events, i - 1);
      RunKeepsNames(cfg, states, events, i - 1);
      var e := events[i - 1];
      StepKeepsNames(cfg, states[i - 1], e);
    }
  }

  /** Coming back by name, as a player sees it: whoever leaves owning something and later sends
      the very name it was known under owns exactly what it left behind that existed
      throughout, after any run that does not disturb the name. */
  lemma ReturnUnderOwnName(cfg: Config, states: seq<Server>, events: seq<Event>, a: nat, b: nat)
    requires IsRun(cfg, states, events) && a < b < |events| && Inv(states[0]) && NamesClean(states[0])
    requires events[a].Leaves? && events[a].peer in states[a].peers
    requires OwnedBy(states[a].entities, Leaver(cfg, states, events, a)) != {}
    requires Leaver(cfg, states, events, a) in states[a].players
    requires events[b].Joins? && Admits(cfg, states[b], events[b].peer, events[b].version)
    requires events[b].raw == states[a].players[Leaver(cfg, states, events, a)].name
    requires Undisturbed(cfg, states, events, a + 1, b, events[b].raw)
    ensures GivesBack(states, a, b, Leaver(cfg, states, events, a))
  {
    hide Step, Inv, Clean, Sanitized, Undisturbed, Admits, GivesBack;
    RunKeepsNames(cfg, states, events, a);
    CleanNameKept(events[b].raw);
    LeaveThenReturn(cfg, states, events, a, b);
  }
}
