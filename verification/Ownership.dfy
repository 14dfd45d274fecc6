/** Ownership over whole runs: joins, departures, packets, sweeps and restarts. */
module Ownership {
  import opened Types
  import opened ServerModel
  import opened Persistence
  import opened Runs

  // ----- every event keeps the invariant

  lemma JoinedKeepsRecords(s: Server, peer: Peer, name: string, loopback: bool)
    requires Inv(s) && peer !in s.peers
    ensures RecordsUnowned(Joined(s, peer, name, loopback))
  {
    var s' := Joined(s, peer, name, loopback);
    forall n | n in s'.saved ensures Unowned(s', s'.saved[n]) {
      assert Unowned(s, s.saved[n]);
      assert forall id :: id in s.saved[n] ==> !Reclaimable(s, name, id);
    }
  }

  lemma JoinedKeepsInv(s: Server, peer: Peer, name: string, loopback: bool)
    requires Inv(s) && peer !in s.peers
    ensures Inv(Joined(s, peer, name, loopback))
  {
    var s' := Joined(s, peer, name, loopback);
    assert s.nextPlayerId in s'.players;
    JoinedKeepsRecords(s, peer, name, loopback);
  }

  lemma LeftKeepsRecords(s: Server, pid: PlayerID, order: seq<EntityID>, heir: PlayerID)
    requires Inv(s) && pid in s.players && Enumerates(order, s.entities.Keys)
    ensures RecordsUnowned(Left(s, pid, order, heir)) && RecordsDisjoint(Left(s, pid, order, heir).saved)
  {
    var s' := Left(s, pid, order, heir);
    var owned := OwnedIn(order, s.entities, pid);
    forall n | n in s'.saved ensures Unowned(s', s'.saved[n]) {
      if n in s.saved {
        assert Unowned(s, s.saved[n]);
      }
    }
    forall m, n, id | m in s'.saved && n in s'.saved && m != n ensures !(id in s'.saved[m] && id in s'.saved[n]) {
      var other := if m == s.players[pid].name then n else m;
      assert other in s.saved && Unowned(s, s.saved[other]);
    }
  }

  lemma LeftKeepsInv(s: Server, pid: PlayerID, order: seq<EntityID>, heir: PlayerID)
    requires Inv(s) && pid in s.players && Enumerates(order, s.entities.Keys)
    requires s.players.Keys - {pid} != {} ==> heir in s.players.Keys - {pid}
    ensures Inv(Left(s, pid, order, heir))
  {
    LeftKeepsRecords(s, pid, order, heir);
    var s' := Left(s, pid, order, heir);
    assert s'.players.Keys == s.players.Keys - {pid};
    assert s.host in s.players;
    assert s.host != pid ==> s.host in s'.players.Keys;
  }

  /** Under the invariant the orphan sweep finds nothing to remove. */
  lemma SweepRemovesNothing(s: Server, order: seq<EntityID>)
    requires OwnersOk(s) && Enumerates(order, s.entities.Keys)
    ensures Sweep(s, order) == Effect(s, [])
  {
    var orphans := Orphans(s, order);
    SelectNone(order, id => Orphan(s, id));
    assert s.entities - (set id | id in s.entities && Orphan(s, id)) == s.entities;
    assert DespawnSends(orphans, 2) == [];
  }

  // ----- restart

  /** Where a written record comes from: the offline records or a connected player. */
  predicate WrittenFor(s: Server, entityOrder: seq<EntityID>, n: string, ids: seq<EntityID>) {
    || (n in s.saved && ids == s.saved[n])
    || exists p :: p in s.players && s.players[p].name == n && ids == OwnedIn(entityOrder, s.entities, p)
  }

  predicate Sourced(s: Server, entityOrder: seq<EntityID>, w: map<string, seq<EntityID>>) {
    forall n :: n in w ==> WrittenFor(s, entityOrder, n, w[n])
  }

  lemma {:induction false} RecordSources(s: Server, playerOrder: seq<PlayerID>, entityOrder: seq<EntityID>)
    requires forall i :: 0 <= i < |playerOrder| ==> playerOrder[i] in s.players
    ensures Sourced(s, entityOrder, RecordsToWrite(s, playerOrder, entityOrder))
  {
    if playerOrder != [] {
      var front, p := playerOrder[..|playerOrder| - 1], playerOrder[|playerOrder| - 1];
      RecordSources(s, front, entityOrder);
      SourcedUpdate(s, entityOrder, RecordsToWrite(s, front, entityOrder), p);
    }
  }

  lemma SourcedUpdate(s: Server, entityOrder: seq<EntityID>, w: map<string, seq<EntityID>>, p: PlayerID)
    requires Sourced(s, entityOrder, w) && p in s.players
    ensures Sourced(s, entityOrder, w[s.players[p].name := OwnedIn(entityOrder, s.entities, p)])
  {
    assert WrittenFor(s, entityOrder, s.players[p].name, OwnedIn(entityOrder, s.entities, p));
  }

  /** Records of different names written by one save never share an entity. */
  lemma SourcesDisjoint(s: Server, entityOrder: seq<EntityID>, m: string, a: seq<EntityID>, n: string, b: seq<EntityID>, id: EntityID)
    requires Inv(s) && m != n && WrittenFor(s, entityOrder, m, a) && WrittenFor(s, entityOrder, n, b)
    ensures !(id in a && id in b)
  {
    assert m in s.saved ==> Unowned(s, s.saved[m]);
    assert n in s.saved ==> Unowned(s, s.saved[n]);
  }

  lemma WrittenDisjoint(s: Server, playerOrder: seq<PlayerID>, entityOrder: seq<EntityID>)
    requires Inv(s) && Enumerates(playerOrder, s.players.Keys)
    ensures RecordsDisjoint(RecordsToWrite(s, playerOrder, entityOrder))
  {
    RecordSources(s, playerOrder, entityOrder);
    var w := RecordsToWrite(s, playerOrder, entityOrder);
    forall m, n, id | m in w && n in w && id in w[m] && id in w[n] ensures m == n {
      if m != n {
        SourcesDisjoint(s, entityOrder, m, w[m], n, w[n], id);
      }
    }
  }

  predicate LoadedAs(cfg: Config, l: Loading, id: EntityID)
    requires id in l.entities
  {
    var e := l.entities[id];
    id <= l.maxId && e.id == id && e.owner == 0 && e.authority == cfg.authority
  }

  predicate LoadingOk(cfg: Config, l: Loading) {
    && (forall id :: id in l.entities ==> LoadedAs(cfg, l, id))
    && |l.entities| <= l.loaded <= MAX_SYNC_ENTITIES
  }

  /** Whatever the file holds, loaded entities are unowned, keep their own ids, stay
      within the cap and below the counter. */
  lemma {:induction false} LoadRecordsOk(cfg: Config, rs: seq<Record>)
    ensures LoadingOk(cfg, LoadRecords(cfg, rs))
  {
    if rs != [] {
      LoadRecordsOk(cfg, rs[..|rs| - 1]);
      var before, r := LoadRecords(cfg, rs[..|rs| - 1]), rs[|rs| - 1];
      if r.Record? {
        var after := before.entities[r.id := Restored(cfg, r)];
        assert after.Keys == before.entities.Keys + {r.id};
      }
    }
  }

  /** A save never writes a record the parser rejects, so a restart never throws. (Positions
      are reals here; a NaN, which the text format cannot hold, is outside the model.) */
  lemma {:induction false} SavedRecordsLoad(cfg: Config, rs: seq<Record>)
    requires forall i :: 0 <= i < |rs| ==> rs[i].Record? && rs[i].id > 0
    ensures LoadRecords(cfg, rs).status != Threw
    ensures forall id :: id in LoadRecords(cfg, rs).entities ==> id > 0
  {
    if rs != [] {
      SavedRecordsLoad(cfg, rs[..|rs| - 1]);
    }
  }

  lemma RestartKeepsInv(cfg: Config, s: Server, entityOrder: seq<EntityID>, playerOrder: seq<PlayerID>)
    requires Inv(s) && Enumerates(entityOrder, s.entities.Keys) && Enumerates(playerOrder, s.players.Keys)
    ensures Inv(Restart(cfg, s, entityOrder, playerOrder))
  {
    var rs := Records(entityOrder, s.entities);
    assert forall i :: 0 <= i < |rs| ==> rs[i].Record? && rs[i].id > 0;
    hide LoadRecords, RecordsToWrite, Inv, Records;
    LoadRecordsOk(cfg, rs);
    SavedRecordsLoad(cfg, rs);
    WrittenDisjoint(s, playerOrder, entityOrder);
    LoadedSound(cfg, LoadRecords(cfg, rs), RecordsToWrite(s, playerOrder, entityOrder));
  }

  /** Sound entities and disjoint records make a sound fresh server. */
  lemma LoadedSound(cfg: Config, l: Loading, w: map<string, seq<EntityID>>)
    requires LoadingOk(cfg, l) && RecordsDisjoint(w) && forall id :: id in l.entities ==> id > 0
    ensures Inv(FRESH.(entities := l.entities, saved := PlayersFrom(w, l.entities), nextEntityId := l.maxId + 1))
  {
    assert forall id :: id in l.entities ==> LoadedAs(cfg, l, id);
    var saved := PlayersFrom(w, l.entities);
    assert forall n :: n in saved ==> n in w && saved[n] == Kept(w[n], l.entities);
    assert RecordsDisjoint(saved);
  }

  /** Every event keeps the invariant. */
  lemma StepKeepsInv(cfg: Config, s: Server, e: Event)
    requires Inv(s) && Enabled(s, e)
    ensures Inv(Step(cfg, s, e).server)
  {
    match e
    case Joins(peer, version, raw, loopback, _, _) =>
      if Admits(cfg, s, peer, version) {
        JoinedKeepsInv(s, peer, Sanitized(raw), loopback);
      }
    case Leaves(peer, es, heir) =>
      if peer in s.peers {
        LeftKeepsInv(s, s.peers[peer], es, heir);
      }
    case Packets(peer, pkt) =>
      if peer in s.peers {
        ActFrame(cfg, s, s.peers[peer], pkt);
        FrameKeepsInv(cfg, s, Act(cfg, s, s.peers[peer], pkt).server, s.peers[peer]);
      }
    case Sweeps(es) => SweepRemovesNothing(s, es);
    case Restarts(es, ps) => RestartKeepsInv(cfg, s, es, ps);
  }

  // ----- runs

  /** One event leads from one state to the next. */
  predicate Follows(cfg: Config, s: Server, e: Event, s': Server) {
    PeersOk(s) && Enabled(s, e) && s' == Step(cfg, s, e).server
  }

  /** A run: the states before and after each of a sequence of events. */
  predicate IsRun(cfg: Config, states: seq<Server>, events: seq<Event>) {
    && |states| == |events| + 1
    && forall i {:trigger events[i]} :: 0 <= i < |events| ==> Follows(cfg, states[i], events[i], states[i + 1])
  }

  /** Over every run that starts well, of any length and with any number of restarts,
      owners are connected, the host is connected, and saved records stay disjoint
      and name only unowned or removed entities. */
  lemma {:induction false} RunKeepsInv(cfg: Config, states: seq<Server>, events: seq<Event>, i: nat)
    requires IsRun(cfg, states, events) && i < |states| && Inv(states[0])
    ensures Inv(states[i])
  {
    if i > 0 {
      RunKeepsInv(cfg, states, events, i - 1);
      StepKeepsInv(cfg, states[i - 1], events[i - 1]);
    }
  }
}
