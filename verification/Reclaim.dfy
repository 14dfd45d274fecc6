/** Leaving and coming back: what a player finds again under its name after any run
    of other events, restarts included, and what is lost for good. */
module Reclaim {
  import opened Types
  import opened ServerModel
  import opened Persistence
  import opened Runs
  import opened Ownership

  /** The entities a handshake under this name would take over. */
  function Claim(s: Server, n: string): set<EntityID> {
    set id | id in s.entities && n in s.saved && id in s.saved[n]
  }

  /** Whether some connected player of this name owns an entity. */
  predicate OwnsSomething(s: Server, n: string) {
    exists p, id :: p in s.players && s.players[p].name == n && id in s.entities && s.entities[id].owner == p
  }

  predicate LeavesOwning(s: Server, e: Event, n: string)
    requires PeersOk(s)
  {
    && e.Leaves? && e.peer in s.peers && s.players[s.peers[e.peer]].name == n
    && OwnedBy(s.entities, s.peers[e.peer]) != {}
  }

  /** The events that replace or use up the record of a name: a handshake under it, the
      departure of a same-named player that owns something, and a restart while such
      a player is connected. */
  predicate Disturbs(cfg: Config, s: Server, e: Event, n: string)
    requires PeersOk(s)
  {
    || (e.Joins? && Admits(cfg, s, e.peer, e.version) && Sanitized(e.raw) == n)
    || LeavesOwning(s, e, n)
    || (e.Restarts? && OwnsSomething(s, n))
  }

  // ----- one event

  /** A handshake gives the new player exactly the claim of its name. */
  lemma JoinTakesClaim(s: Server, peer: Peer, n: string, loopback: bool)
    requires Inv(s)
    ensures OwnedBy(Joined(s, peer, n, loopback).entities, s.nextPlayerId) == Claim(s, n)
    ensures n !in Joined(s, peer, n, loopback).saved
  {
    assert n in s.saved ==> Unowned(s, s.saved[n]);
  }

  /** A departure turns what the player owned into the claim of its name. */
  lemma LeaveMakesClaim(s: Server, pid: PlayerID, order: seq<EntityID>, heir: PlayerID)
    requires Inv(s) && pid in s.players && Enumerates(order, s.entities.Keys)
    requires OwnedBy(s.entities, pid) != {}
    ensures Claim(Left(s, pid, order, heir), s.players[pid].name) == OwnedBy(s.entities, pid)
  {
    var owned := OwnedIn(order, s.entities, pid);
    var id :| id in OwnedBy(s.entities, pid);
    assert id in owned;
  }

  lemma OwnsNothing(entities: Entities, pid: PlayerID, order: seq<EntityID>)
    requires forall id :: id in entities ==> entities[id].owner != pid
    ensures OwnedIn(order, entities, pid) == []
  {
    SelectNone(order, id => id in entities && entities[id].owner == pid);
  }

  lemma {:induction false} UndisturbedRecord(s: Server, playerOrder: seq<PlayerID>, entityOrder: seq<EntityID>, n: string)
    requires forall i :: 0 <= i < |playerOrder| ==> playerOrder[i] in s.players
    requires !OwnsSomething(s, n)
    ensures var w := RecordsToWrite(s, playerOrder, entityOrder);
            (n in w <==> n in s.saved) && (n in w ==> w[n] == s.saved[n])
  {
    if playerOrder != [] {
      var p := playerOrder[|playerOrder| - 1];
      UndisturbedRecord(s, playerOrder[..|playerOrder| - 1], entityOrder, n);
      if s.players[p].name == n {
        OwnsNothing(s.entities, p, entityOrder);
      }
    }
  }

  lemma RestartClaim(cfg: Config, s: Server, entityOrder: seq<EntityID>, playerOrder: seq<PlayerID>, n: string)
    requires Inv(s) && Enumerates(entityOrder, s.entities.Keys) && Enumerates(playerOrder, s.players.Keys)
    requires !OwnsSomething(s, n)
    ensures var s' := Restart(cfg, s, entityOrder, playerOrder);
            Claim(s', n) == Claim(s, n) * s'.entities.Keys
  {
    var s' := Restart(cfg, s, entityOrder, playerOrder);
    var rs := Records(entityOrder, s.entities);
    SavedRecordsLoad(cfg, rs);
    LoadedKeys(cfg, rs);
    UndisturbedRecord(s, playerOrder, entityOrder, n);
    forall id | id in Claim(s, n) * s'.entities.Keys ensures id in Claim(s', n) {
      assert id in Kept(s.saved[n], s'.entities);
    }
    forall id | id in Claim(s', n) ensures id in Claim(s, n) {
      assert id in Kept(s.saved[n], s'.entities);
      LoadedWereSaved(s, entityOrder, cfg, id);
    }
  }

  lemma {:induction false} LoadedKeys(cfg: Config, rs: seq<Record>)
    ensures forall id :: id in LoadRecords(cfg, rs).entities ==>
      exists i :: 0 <= i < |rs| && rs[i].Record? && rs[i].id == id
  {
    if rs != [] {
      var front := rs[..|rs| - 1];
      LoadedKeys(cfg, front);
      forall id | id in LoadRecords(cfg, rs).entities
        ensures exists i :: 0 <= i < |rs| && rs[i].Record? && rs[i].id == id
      {
        if id in LoadRecords(cfg, front).entities {
          var i :| 0 <= i < |front| && front[i].Record? && front[i].id == id;
          assert rs[i].id == id;
        } else {
          assert rs[|rs| - 1].id == id;
        }
      }
    }
  }

  lemma LoadedWereSaved(s: Server, entityOrder: seq<EntityID>, cfg: Config, id: EntityID)
    requires IdsOk(s) && Enumerates(entityOrder, s.entities.Keys)
    requires id in LoadRecords(cfg, Records(entityOrder, s.entities)).entities
    ensures id in s.entities
  {
    var rs := Records(entityOrder, s.entities);
    LoadedKeys(cfg, rs);
    var i :| 0 <= i < |rs| && rs[i].Record? && rs[i].id == id;
    assert rs[i] == RecordOf(s.entities[entityOrder[i]]);
  }

  lemma JoinLeavesClaim(s: Server, peer: Peer, name: string, loopback: bool, n: string)
    requires Inv(s) && n != name
    ensures Claim(Joined(s, peer, name, loopback), n) == Claim(s, n)
    ensures Joined(s, peer, name, loopback).entities.Keys == s.entities.Keys
  {}

  lemma LeaveLeavesClaim(s: Server, pid: PlayerID, order: seq<EntityID>, heir: PlayerID, n: string)
    requires Inv(s) && pid in s.players && Enumerates(order, s.entities.Keys)
    requires s.players[pid].name != n || OwnedBy(s.entities, pid) == {}
    ensures Claim(Left(s, pid, order, heir), n) == Claim(s, n)
    ensures Left(s, pid, order, heir).entities.Keys == s.entities.Keys
  {
    if s.players[pid].name == n {
      assert forall id :: id in s.entities ==> id !in OwnedBy(s.entities, pid);
      OwnsNothing(s.entities, pid, order);
    }
  }

  lemma PacketLeavesClaim(cfg: Config, s: Server, pid: PlayerID, pkt: Packet, n: string)
    requires Inv(s) && pid in s.players && WellOrdered(s, pkt)
    ensures var s' := Act(cfg, s, pid, pkt).server;
            Claim(s', n) == Claim(s, n) * s'.entities.Keys
  {
    ActFrame(cfg, s, pid, pkt);
    assert n in s.saved ==> Unowned(s, s.saved[n]);
  }

  lemma {:induction false} OverwrittenRecord(s: Server, playerOrder: seq<PlayerID>, entityOrder: seq<EntityID>, p: PlayerID)
    requires Inv(s) && (forall i :: 0 <= i < |playerOrder| ==> playerOrder[i] in s.players) && p in playerOrder
    requires OwnedIn(entityOrder, s.entities, p) != []
    ensures s.players[p].name in RecordsToWrite(s, playerOrder, entityOrder)
    ensures forall id :: id in RecordsToWrite(s, playerOrder, entityOrder)[s.players[p].name] ==>
      id in s.entities && s.entities[id].owner != 0
  {
    var front, last := playerOrder[..|playerOrder| - 1], playerOrder[|playerOrder| - 1];
    assert playerOrder == front + [last];
    if last != p {
      OverwrittenRecord(s, front, entityOrder, p);
    }
  }

  /** A restart while a player of this name owns something replaces the whole record. */
  lemma RestartReplaces(cfg: Config, s: Server, es: seq<EntityID>, ps: seq<PlayerID>, n: string)
    requires Inv(s) && Enumerates(es, s.entities.Keys) && Enumerates(ps, s.players.Keys) && OwnsSomething(s, n)
    ensures Claim(Restart(cfg, s, es, ps), n) * Claim(s, n) == {}
  {
    var p, x :| p in s.players && s.players[p].name == n && x in s.entities && s.entities[x].owner == p;
    assert x in OwnedIn(es, s.entities, p);
    OverwrittenRecord(s, ps, es, p);
    hide RecordsToWrite, LoadRecords, OwnedIn;
    SavedRecordsLoad(cfg, Records(es, s.entities));
    var s' := Restart(cfg, s, es, ps);
    forall id | id in Claim(s', n) ensures id !in Claim(s, n) {
      assert id in Kept(RecordsToWrite(s, ps, es)[n], s'.entities);
      assert n in s.saved ==> Unowned(s, s.saved[n]);
    }
  }

  /** A departure of a same-named owner replaces the whole record. */
  lemma LeaveReplaces(s: Server, pid: PlayerID, order: seq<EntityID>, heir: PlayerID)
    requires Inv(s) && pid in s.players && Enumerates(order, s.entities.Keys) && OwnedBy(s.entities, pid) != {}
    ensures Claim(Left(s, pid, order, heir), s.players[pid].name) * Claim(s, s.players[pid].name) == {}
  {
    var n := s.players[pid].name;
    LeaveMakesClaim(s, pid, order, heir);
    assert n in s.saved ==> Unowned(s, s.saved[n]);
  }

  lemma DisturbedClaim(cfg: Config, s: Server, e: Event, n: string)
    requires Inv(s) && Enabled(s, e) && Disturbs(cfg, s, e, n)
    ensures Claim(Step(cfg, s, e).server, n) * Claim(s, n) == {}
  {
    hide Handshake, Disconnect, Restart, Left, Joined, OwnsSomething, Act;
    match e
    case Joins(peer, _, raw, loopback, _, _) =>
      JoinStep(cfg, s, e);
      JoinTakesClaim(s, peer, Sanitized(raw), loopback);
    case Leaves(peer, es, heir) =>
      LeaveStep(cfg, s, e);
      LeaveReplaces(s, s.peers[peer], es, heir);
    case Restarts(es, ps) => RestartReplaces(cfg, s, es, ps, n);
    case _ => assert false;
  }

  lemma UndisturbedClaim(cfg: Config, s: Server, e: Event, n: string)
    requires Inv(s) && Enabled(s, e) && !Disturbs(cfg, s, e, n)
    ensures var s' := Step(cfg, s, e).server;
            Claim(s', n) == Claim(s, n) * s'.entities.Keys
  {
    hide Handshake, Disconnect, Restart, Act, Joined, Left, OwnsSomething;
    match e
    case Joins(peer, version, raw, loopback, _, _) =>
      if Admits(cfg, s, peer, version) {
        JoinStep(cfg, s, e);
        JoinLeavesClaim(s, peer, Sanitized(raw), loopback, n);
      } else {
        RejectStep(cfg, s, e);
      }
    case Leaves(peer, es, heir) =>
      if peer in s.peers {
        LeaveStep(cfg, s, e);
        LeaveLeavesClaim(s, s.peers[peer], es, heir, n);
      } else {
        IdleStep(cfg, s, e);
      }
    case Packets(peer, pkt) =>
      if peer in s.peers {
        PacketLeavesClaim(cfg, s, s.peers[peer], pkt, n);
      }
    case Sweeps(es) => SweepRemovesNothing(s, es);
    case Restarts(es, ps) => RestartClaim(cfg, s, es, ps, n);
  }

  /** An event that does not disturb a name leaves its claim as it was, less the entities the
      event removed; one that does leaves nothing of it. So what is left of a claim outlives
      the event if and only if the event does not disturb the name, or nothing is left. */
  lemma ClaimSurvives(cfg: Config, s: Server, e: Event, n: string)
    requires Inv(s) && Enabled(s, e)
    ensures var s' := Step(cfg, s, e).server;
            var rest := Claim(s, n) * s'.entities.Keys;
            && (!Disturbs(cfg, s, e, n) ==> Claim(s', n) == rest)
            && (Disturbs(cfg, s, e, n) ==> Claim(s', n) * Claim(s, n) == {})
            && (rest <= Claim(s', n) <==> !Disturbs(cfg, s, e, n) || rest == {})
  {
    hide Step, Claim, Disturbs;
    if Disturbs(cfg, s, e, n) {
      DisturbedClaim(cfg, s, e, n);
      Disjoint(Claim(Step(cfg, s, e).server, n), Claim(s, n), Step(cfg, s, e).server.entities.Keys);
    } else {
      UndisturbedClaim(cfg, s, e, n);
    }
  }

  lemma Disjoint(now: set<EntityID>, was: set<EntityID>, keys: set<EntityID>)
    requires now * was == {}
    ensures was * keys <= now <==> was * keys == {}
  {
    if was * keys != {} {
      var id :| id in was * keys;
      assert id in now ==> id in now * was;
    }
  }

  // ----- whole runs

  predicate Undisturbed(cfg: Config, states: seq<Server>, events: seq<Event>, a: nat, b: nat, n: string)
    requires IsRun(cfg, states, events) && b <= |events|
  {
    forall k {:trigger events[k]} :: a <= k < b ==> !Disturbs(cfg, states[k], events[k], n)
  }

  predicate Throughout(states: seq<Server>, a: nat, b: nat, id: EntityID)
    requires b < |states|
  {
    forall k :: a <= k <= b ==> id in states[k].entities
  }

  lemma {:induction false} ClaimChain(states: seq<Server>, a: nat, b: nat, n: string)
    requires a <= b < |states|
    requires forall k :: a < k <= b ==> Claim(states[k], n) == Claim(states[k - 1], n) * states[k].entities.Keys
    ensures forall id :: id in Claim(states[b], n) <==> id in Claim(states[a], n) && Throughout(states, a, b, id)
  {
    if a < b {
      ClaimChain(states, a, b - 1, n);
    }
  }

  lemma ClaimNext(cfg: Config, states: seq<Server>, events: seq<Event>, k: nat, n: string)
    requires IsRun(cfg, states, events) && k < |events| && Inv(states[k])
    requires !Disturbs(cfg, states[k], events[k], n)
    ensures Claim(states[k + 1], n) == Claim(states[k], n) * states[k + 1].entities.Keys
  {
    ClaimSurvives(cfg, states[k], events[k], n);
  }

  lemma UndisturbedNext(cfg: Config, states: seq<Server>, events: seq<Event>, a: nat, b: nat, k: nat, n: string)
    requires IsRun(cfg, states, events) && a <= k < b < |states| && Inv(states[0])
    requires Undisturbed(cfg, states, events, a, b, n)
    ensures Claim(states[k + 1], n) == Claim(states[k], n) * states[k + 1].entities.Keys
  {
    RunKeepsInv(cfg, states, events, k);
    ClaimNext(cfg, states, events, k, n);
  }

  /** Over any run that does not disturb a name, its claim is exactly the part of the
      earlier claim that existed throughout. */
  lemma ClaimOverRun(cfg: Config, states: seq<Server>, events: seq<Event>, a: nat, b: nat, n: string)
    requires IsRun(cfg, states, events) && a <= b < |states| && Inv(states[0])
    requires Undisturbed(cfg, states, events, a, b, n)
    ensures forall id :: id in Claim(states[b], n) <==> id in Claim(states[a], n) && Throughout(states, a, b, id)
  {
    forall k | a < k <= b ensures Claim(states[k], n) == Claim(states[k - 1], n) * states[k].entities.Keys {
      UndisturbedNext(cfg, states, events, a, b, k - 1, n);
    }
    ClaimChain(states, a, b, n);
  }

  /** The player behind the departure at step `a`. */
  function Leaver(cfg: Config, states: seq<Server>, events: seq<Event>, a: nat): PlayerID
    requires IsRun(cfg, states, events) && a < |events|
    requires events[a].Leaves? && events[a].peer in states[a].peers
  {
    states[a].peers[events[a].peer]
  }

  lemma LeaveNext(cfg: Config, states: seq<Server>, events: seq<Event>, a: nat)
    requires IsRun(cfg, states, events) && a < |events| && Inv(states[a])
    requires events[a].Leaves? && events[a].peer in states[a].peers
    requires OwnedBy(states[a].entities, Leaver(cfg, states, events, a)) != {}
    ensures var pid := Leaver(cfg, states, events, a);
            Claim(states[a + 1], states[a].players[pid].name) == OwnedBy(states[a].entities, pid)
  {
    var s, e, s' := states[a], events[a], states[a + 1];
    assert s' == Step(cfg, s, e).server;
    LeaveStep(cfg, s, e);
    LeaveMakesClaim(s, s.peers[e.peer], e.entityOrder, e.heir);
  }

  lemma ReturnNext(cfg: Config, states: seq<Server>, events: seq<Event>, b: nat)
    requires IsRun(cfg, states, events) && b < |events| && Inv(states[b])
    requires events[b].Joins? && Admits(cfg, states[b], events[b].peer, events[b].version)
    ensures OwnedBy(states[b + 1].entities, states[b].nextPlayerId) == Claim(states[b], Sanitized(events[b].raw))
  {
    var s, e, s' := states[b], events[b], states[b + 1];
    assert s' == Step(cfg, s, e).server;
    JoinStep(cfg, s, e);
    JoinTakesClaim(s, e.peer, Sanitized(e.raw), e.loopback);
  }

  /** The player that joins at step `b` owns exactly what the one that left at step `a` owned and
      that existed throughout. */
  ghost predicate GivesBack(states: seq<Server>, a: nat, b: nat, leaver: PlayerID)
    requires a <= b && b + 1 < |states|
  {
    forall id :: id in OwnedBy(states[b + 1].entities, states[b].nextPlayerId) <==>
      id in OwnedBy(states[a].entities, leaver) && Throughout(states, a + 1, b, id)
  }

  /** A player that leaves owning something and comes back under its name, after any
      undisturbed run of joins, departures, packets, sweeps and restarts, owns exactly
      the entities it left behind that existed throughout. */
  lemma LeaveThenReturn(cfg: Config, states: seq<Server>, events: seq<Event>, a: nat, b: nat)
    requires IsRun(cfg, states, events) && a < b < |events| && Inv(states[0])
    requires events[a].Leaves? && events[a].peer in states[a].peers
    requires OwnedBy(states[a].entities, Leaver(cfg, states, events, a)) != {}
    requires events[b].Joins? && Admits(cfg, states[b], events[b].peer, events[b].version)
    requires Sanitized(events[b].raw) == states[a].players[Leaver(cfg, states, events, a)].name
    requires Undisturbed(cfg, states, events, a + 1, b, Sanitized(events[b].raw))
    ensures GivesBack(states, a, b, Leaver(cfg, states, events, a))
  {
    hide Step, Inv, Follows, Claim, Undisturbed, Throughout, OwnedBy, Admits;
    var n := Sanitized(events[b].raw);
    RunKeepsInv(cfg, states, events, a);
    RunKeepsInv(cfg, states, events, b);
    LeaveNext(cfg, states, events, a);
    ClaimOverRun(cfg, states, events, a + 1, b, n);
    ReturnNext(cfg, states, events, b);
  }

  // ----- what is lost

  /** Unowned and in no record. */
  predicate Abandoned(s: Server, id: EntityID) {
    id in s.entities && s.entities[id].owner == 0 && forall n :: n in s.saved ==> id !in s.saved[n]
  }

  lemma WrittenWithout(s: Server, es: seq<EntityID>, ps: seq<PlayerID>, id: EntityID)
    requires Inv(s) && Enumerates(ps, s.players.Keys) && Abandoned(s, id)
    ensures forall n :: n in RecordsToWrite(s, ps, es) ==> id !in RecordsToWrite(s, ps, es)[n]
  {
    RecordSources(s, ps, es);
    var w := RecordsToWrite(s, ps, es);
    forall n | n in w ensures id !in w[n] {
      assert WrittenFor(s, es, n, w[n]);
    }
  }

  lemma RestartAbandons(cfg: Config, s: Server, es: seq<EntityID>, ps: seq<PlayerID>, id: EntityID)
    requires Inv(s) && Enumerates(es, s.entities.Keys) && Enumerates(ps, s.players.Keys)
    requires Abandoned(s, id) && id in Restart(cfg, s, es, ps).entities
    ensures Abandoned(Restart(cfg, s, es, ps), id)
  {
    hide RecordsToWrite, LoadRecords, LoadOne;
    var rs := Records(es, s.entities);
    LoadRecordsOk(cfg, rs);
    SavedRecordsLoad(cfg, rs);
    assert LoadedAs(cfg, LoadRecords(cfg, rs), id);
    WrittenWithout(s, es, ps, id);
  }

  lemma JoinAbandons(s: Server, peer: Peer, name: string, loopback: bool, id: EntityID)
    requires Abandoned(s, id)
    ensures Abandoned(Joined(s, peer, name, loopback), id)
  {}

  lemma LeaveAbandons(s: Server, pid: PlayerID, order: seq<EntityID>, heir: PlayerID, id: EntityID)
    requires Inv(s) && pid in s.players && Abandoned(s, id)
    ensures Abandoned(Left(s, pid, order, heir), id)
  {}

  lemma PacketAbandons(cfg: Config, s: Server, pid: PlayerID, pkt: Packet, id: EntityID)
    requires Inv(s) && pid in s.players && WellOrdered(s, pkt) && Abandoned(s, id)
    requires id in Act(cfg, s, pid, pkt).server.entities
    ensures Abandoned(Act(cfg, s, pid, pkt).server, id)
  {
    hide Act;
    ActFrame(cfg, s, pid, pkt);
  }

  lemma AbandonedStays(cfg: Config, s: Server, e: Event, id: EntityID)
    requires Inv(s) && Enabled(s, e) && Abandoned(s, id) && id in Step(cfg, s, e).server.entities
    ensures Abandoned(Step(cfg, s, e).server, id)
  {
    hide Act, Handshake, Disconnect, Restart, Left, Joined;
    match e
    case Joins(peer, version, raw, loopback, _, _) =>
      if Admits(cfg, s, peer, version) {
        JoinStep(cfg, s, e);
        JoinAbandons(s, peer, Sanitized(raw), loopback, id);
      } else {
        RejectStep(cfg, s, e);
      }
    case Leaves(peer, es, heir) =>
      if peer in s.peers {
        LeaveStep(cfg, s, e);
        LeaveAbandons(s, s.peers[peer], es, heir, id);
      } else {
        IdleStep(cfg, s, e);
      }
    case Packets(peer, pkt) =>
      if peer in s.peers {
        PacketAbandons(cfg, s, s.peers[peer], pkt, id);
      }
    case Sweeps(es) => SweepRemovesNothing(s, es);
    case Restarts(es, ps) => RestartAbandons(cfg, s, es, ps, id);
  }

  lemma AbandonedNext(cfg: Config, states: seq<Server>, events: seq<Event>, k: nat, id: EntityID)
    requires IsRun(cfg, states, events) && k < |events| && Inv(states[k])
    requires Abandoned(states[k], id) && id in states[k + 1].entities
    ensures Abandoned(states[k + 1], id)
  {
    AbandonedStays(cfg, states[k], events[k], id);
  }

  /** An unowned entity in no record is never owned again, in any run, for as long as
      it exists. */
  lemma {:induction false} AbandonedForever(cfg: Config, states: seq<Server>, events: seq<Event>, b: nat, id: EntityID)
    requires IsRun(cfg, states, events) && b < |states| && Inv(states[0])
    requires Abandoned(states[0], id) && Throughout(states, 0, b, id)
    ensures Abandoned(states[b], id)
  {
    if b > 0 {
      RunKeepsInv(cfg, states, events, b - 1);
      AbandonedForever(cfg, states, events, b - 1, id);
      AbandonedNext(cfg, states, events, b - 1, id);
    }
  }

  /** A departure of a player that owns something abandons the old claim of its name. */
  lemma OverwriteAbandons(s: Server, q: PlayerID, order: seq<EntityID>, heir: PlayerID, id: EntityID)
    requires Inv(s) && q in s.players && Enumerates(order, s.entities.Keys)
    requires OwnedBy(s.entities, q) != {} && id in Claim(s, s.players[q].name)
    ensures Abandoned(Left(s, q, order, heir), id)
  {
    var n := s.players[q].name;
    assert Unowned(s, s.saved[n]);
    var other :| other in OwnedBy(s.entities, q);
    assert other in OwnedIn(order, s.entities, q);
    assert id !in OwnedIn(order, s.entities, q);
  }

  /** Names are not forced to be distinct: when two connected players share one and both
      leave owning something, everything the first one owned is abandoned. */
  lemma SameNameAbandons(s: Server, p: PlayerID, q: PlayerID, order: seq<EntityID>, order': seq<EntityID>,
                         heir: PlayerID, heir': PlayerID, id: EntityID)
    requires Inv(s) && p in s.players && q in s.players && p != q && s.players[p].name == s.players[q].name
    requires s.players.Keys - {p} != {} ==> heir in s.players.Keys - {p}
    requires Enumerates(order, s.entities.Keys) && Enumerates(order', s.entities.Keys)
    requires OwnedBy(s.entities, q) != {} && id in OwnedBy(s.entities, p)
    ensures q in Left(s, p, order, heir).players
    ensures Abandoned(Left(Left(s, p, order, heir), q, order', heir'), id)
  {
    LeftKeepsInv(s, p, order, heir);
    LeaveMakesClaim(s, p, order, heir);
    var s1 := Left(s, p, order, heir);
    assert OwnedBy(s1.entities, q) == OwnedBy(s.entities, q);
    assert s1.entities.Keys == s.entities.Keys;
    OverwriteAbandons(s1, q, order', heir', id);
  }
}
