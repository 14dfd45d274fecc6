/** Save, restart, reconnect: what a restart keeps, and what a returning player finds. */
module RoundTrip {
  import opened Types
  import opened ServerModel
  import opened Persistence
  import opened Runs
  import opened Ownership
  import opened Reclaim

  // ----- entities

  /** All that the document stores of an entity. */
  predicate SamePersisted(e: Entity, e': Entity) {
    && e'.id == e.id && e'.alive == e.alive && e'.position == e.position && e'.rotation == e.rotation
    && e'.zone == ZoneOf(e.position) && e'.health == e.health
    && e'.detail.kind == e.detail.kind && e'.detail.templateId == e.detail.templateId
    && e'.detail.factionId == e.detail.factionId && e'.detail.templateName == e.detail.templateName
    && e'.detail.equipment == e.detail.equipment
  }

  lemma RecordRestores(cfg: Config, e: Entity)
    ensures SamePersisted(e, Restored(cfg, RecordOf(e)))
  {
    var r := RecordOf(e);
    assert HealthFrom(r.health) == e.health;
    assert EquipmentFrom(r.equipment) == e.detail.equipment;
  }

  lemma {:induction false} DistinctLength(order: seq<EntityID>, keys: set<EntityID>)
    requires Enumerates(order, keys)
    ensures |order| == |keys|
  {
    if order == [] {
      assert keys == {};
    } else {
      var front, last := order[..|order| - 1], order[|order| - 1];
      assert order == front + [last];
      DistinctLength(front, keys - {last});
    }
  }

  /** What loading a prefix of the written records has produced so far. */
  ghost predicate LoadedSoFar(cfg: Config, order: seq<EntityID>, entities: Entities, l: Loading)
    requires forall i :: 0 <= i < |order| ==> order[i] in entities
  {
    && l.status == Running && l.loaded <= |order|
    && (forall id :: id in l.entities <==> id in order && InRange(entities[id].position))
    && (forall id :: id in l.entities ==> l.entities[id] == Restored(cfg, RecordOf(entities[id])))
    && (forall i :: 0 <= i < |order| ==> order[i] <= l.maxId)
    && (l.maxId == 0 || l.maxId in order)
  }

  lemma LoadedOneMore(cfg: Config, order: seq<EntityID>, entities: Entities, l: Loading)
    requires order != [] && |order| <= MAX_SYNC_ENTITIES && forall i :: 0 <= i < |order| ==> order[i] in entities
    requires forall id :: id in entities ==> entities[id].id == id
    requires LoadedSoFar(cfg, order[..|order| - 1], entities, l)
    ensures LoadedSoFar(cfg, order, entities, LoadOne(cfg, l, RecordOf(entities[order[|order| - 1]])))
  {
    hide InRange, Restored;
    var front, last := order[..|order| - 1], order[|order| - 1];
    assert order == front + [last];
    var l' := LoadOne(cfg, l, RecordOf(entities[last]));
    forall i | 0 <= i < |order| ensures order[i] <= l'.maxId {
      assert i < |front| ==> order[i] == front[i];
    }
  }

  lemma {:induction false} LoadsPrefix(cfg: Config, order: seq<EntityID>, entities: Entities)
    requires |order| <= MAX_SYNC_ENTITIES && forall i :: 0 <= i < |order| ==> order[i] in entities
    requires forall id :: id in entities ==> entities[id].id == id
    ensures LoadedSoFar(cfg, order, entities, LoadRecords(cfg, Records(order, entities)))
  {
    if order != [] {
      var front := order[..|order| - 1];
      LoadsPrefix(cfg, front, entities);
      var rs := Records(order, entities);
      assert rs[..|rs| - 1] == Records(front, entities);
      LoadedOneMore(cfg, order, entities, LoadRecords(cfg, Records(front, entities)));
    }
  }

  /** A restart within the cap keeps exactly the entities in range, each unowned and
      with every persisted field equal, and the new counter is one past the largest
      id that was saved. */
  lemma RestartKeeps(cfg: Config, s: Server, es: seq<EntityID>, ps: seq<PlayerID>)
    requires Inv(s) && Enumerates(es, s.entities.Keys) && Enumerates(ps, s.players.Keys)
    requires |s.entities| <= MAX_SYNC_ENTITIES
    ensures forall id :: id in Restart(cfg, s, es, ps).entities <==> id in s.entities && InRange(s.entities[id].position)
    ensures forall id :: id in Restart(cfg, s, es, ps).entities ==>
      && SamePersisted(s.entities[id], Restart(cfg, s, es, ps).entities[id])
      && Restart(cfg, s, es, ps).entities[id].owner == 0
    ensures forall id :: id in s.entities ==> id < Restart(cfg, s, es, ps).nextEntityId
    ensures Restart(cfg, s, es, ps).nextEntityId == 1 || Restart(cfg, s, es, ps).nextEntityId - 1 in s.entities
  {
    hide InRange, Restored, LoadRecords, LoadOne, SamePersisted, RecordsToWrite;
    DistinctLength(es, s.entities.Keys);
    LoadsPrefix(cfg, es, s.entities);
    var l, s' := LoadRecords(cfg, Records(es, s.entities)), Restart(cfg, s, es, ps);
    assert s'.entities == l.entities && s'.nextEntityId == l.maxId + 1;
    forall id | id in s'.entities
      ensures id in s.entities && SamePersisted(s.entities[id], s'.entities[id]) && s'.entities[id].owner == 0
    {
      RecordRestores(cfg, s.entities[id]);
      LoadRecordsOk(cfg, Records(es, s.entities));
      assert LoadedAs(cfg, l, id);
    }
  }

  /** A restart loses no entity if and only if all are in range and within the cap. */
  lemma RestartLosesNothing(cfg: Config, s: Server, es: seq<EntityID>, ps: seq<PlayerID>)
    requires Inv(s) && Enumerates(es, s.entities.Keys) && Enumerates(ps, s.players.Keys)
    ensures Restart(cfg, s, es, ps).entities.Keys == s.entities.Keys <==>
      |s.entities| <= MAX_SYNC_ENTITIES && forall id :: id in s.entities ==> InRange(s.entities[id].position)
  {
    hide InRange, RecordsToWrite;
    if |s.entities| <= MAX_SYNC_ENTITIES {
      RestartKeeps(cfg, s, es, ps);
    } else {
      LoadRecordsOk(cfg, Records(es, s.entities));
      SavedRecordsLoad(cfg, Records(es, s.entities));
      assert |Restart(cfg, s, es, ps).entities.Keys| < |s.entities.Keys|;
    }
  }

  function InRangeCount(order: seq<EntityID>, entities: Entities): nat
    requires forall i :: 0 <= i < |order| ==> order[i] in entities
  {
    if order == [] then 0
    else InRangeCount(order[..|order| - 1], entities) + (if InRange(entities[order[|order| - 1]].position) then 1 else 0)
  }

  /** The load gets as far as this record: the cap is not reached before it. */
  predicate ReadAt(order: seq<EntityID>, entities: Entities, k: nat)
    requires k < |order| && forall i :: 0 <= i < |order| ==> order[i] in entities
  {
    InRangeCount(order[..k], entities) < MAX_SYNC_ENTITIES
  }

  ghost predicate ReadId(order: seq<EntityID>, entities: Entities, id: EntityID)
    requires forall i :: 0 <= i < |order| ==> order[i] in entities
  {
    exists k :: 0 <= k < |order| && order[k] == id && ReadAt(order, entities, k)
  }

  lemma ReadOneMore(order: seq<EntityID>, entities: Entities, id: EntityID)
    requires order != [] && forall i :: 0 <= i < |order| ==> order[i] in entities
    ensures var front := order[..|order| - 1];
            ReadId(order, entities, id) <==>
              ReadId(front, entities, id) ||
              (order[|order| - 1] == id && InRangeCount(front, entities) < MAX_SYNC_ENTITIES)
  {
    hide InRangeCount;
    var n := |order| - 1;
    var front := order[..n];
    assert forall k :: 0 <= k < n ==> front[..k] == order[..k];
    if k :| 0 <= k < n && order[k] == id && ReadAt(order, entities, k) {
      assert front[k] == id && ReadAt(front, entities, k);
    }
    if k :| 0 <= k < n && front[k] == id && ReadAt(front, entities, k) {
      assert order[k] == id && ReadAt(order, entities, k);
    }
    assert ReadAt(order, entities, n) <==> InRangeCount(front, entities) < MAX_SYNC_ENTITIES;
  }

  /** The largest id the load has read, and how far it got. */
  ghost predicate MaxRead(order: seq<EntityID>, entities: Entities, l: Loading, top: EntityID)
    requires forall i :: 0 <= i < |order| ==> order[i] in entities
  {
    && l.maxId <= top && (l.maxId == top <==> top == 0 || ReadId(order, entities, top))
    && (l.status == Running ==> l.loaded == InRangeCount(order, entities))
    && (l.status == Full ==> InRangeCount(order, entities) >= MAX_SYNC_ENTITIES)
    && l.status != Threw
  }

  lemma MaxReadOneMore(cfg: Config, order: seq<EntityID>, entities: Entities, l: Loading, top: EntityID)
    requires order != [] && (forall i :: 0 <= i < |order| ==> order[i] in entities)
    requires forall id :: id in entities ==> entities[id].id == id && id <= top
    requires MaxRead(order[..|order| - 1], entities, l, top)
    ensures MaxRead(order, entities, LoadOne(cfg, l, RecordOf(entities[order[|order| - 1]])), top)
  {
    hide InRange, Restored, ReadId;
    ReadOneMore(order, entities, top);
  }

  lemma {:induction false} LoadsUpTo(cfg: Config, order: seq<EntityID>, entities: Entities, top: EntityID)
    requires forall i :: 0 <= i < |order| ==> order[i] in entities
    requires forall id :: id in entities ==> entities[id].id == id && id <= top
    ensures MaxRead(order, entities, LoadRecords(cfg, Records(order, entities)), top)
  {
    if order != [] {
      var front, rs := order[..|order| - 1], Records(order, entities);
      LoadsUpTo(cfg, front, entities, top);
      assert rs[..|rs| - 1] == Records(front, entities);
      hide MaxRead, LoadOne;
      MaxReadOneMore(cfg, order, entities, LoadRecords(cfg, Records(front, entities)), top);
    }
  }

  /** The id counter survives a restart if and only if nothing was ever created, or the newest
      entity still exists and the load gets to it before the cap; otherwise ids of removed
      or skipped entities are handed out again. */
  lemma CounterSurvives(cfg: Config, s: Server, es: seq<EntityID>, ps: seq<PlayerID>)
    requires Inv(s) && Enumerates(es, s.entities.Keys) && Enumerates(ps, s.players.Keys)
    ensures Restart(cfg, s, es, ps).nextEntityId <= s.nextEntityId
    ensures Restart(cfg, s, es, ps).nextEntityId == s.nextEntityId <==>
      s.nextEntityId == 1 || ReadId(es, s.entities, s.nextEntityId - 1)
  {
    hide LoadRecords, RecordsToWrite, ReadId, InRangeCount;
    LoadsUpTo(cfg, es, s.entities, s.nextEntityId - 1);
  }

  /** Within the cap the load gets to everything. */
  lemma {:induction false} AllRead(order: seq<EntityID>, entities: Entities, id: EntityID)
    requires Enumerates(order, entities.Keys) && |entities| <= MAX_SYNC_ENTITIES && id in entities
    ensures ReadId(order, entities, id)
  {
    hide InRange;
    DistinctLength(order, entities.Keys);
    var k :| 0 <= k < |order| && order[k] == id;
    AtMostAll(order[..k], entities);
    assert ReadAt(order, entities, k);
  }

  lemma {:induction false} AtMostAll(order: seq<EntityID>, entities: Entities)
    requires forall i :: 0 <= i < |order| ==> order[i] in entities
    ensures InRangeCount(order, entities) <= |order|
  {
    if order != [] {
      AtMostAll(order[..|order| - 1], entities);
    }
  }

  // ----- players

  /** Nobody else connected under this player's name owns anything. */
  predicate SoleOwnerOfName(s: Server, p: PlayerID)
    requires p in s.players
  {
    forall q :: q in s.players && q != p && s.players[q].name == s.players[p].name ==> OwnedBy(s.entities, q) == {}
  }

  lemma {:induction false} RecordWritten(s: Server, ps: seq<PlayerID>, es: seq<EntityID>, p: PlayerID)
    requires (forall i :: 0 <= i < |ps| ==> ps[i] in s.players) && p in ps && SoleOwnerOfName(s, p)
    requires Enumerates(es, s.entities.Keys) && OwnedBy(s.entities, p) != {}
    ensures s.players[p].name in RecordsToWrite(s, ps, es)
    ensures RecordsToWrite(s, ps, es)[s.players[p].name] == OwnedIn(es, s.entities, p)
  {
    var front, last := ps[..|ps| - 1], ps[|ps| - 1];
    assert ps == front + [last];
    if last == p {
      var id :| id in OwnedBy(s.entities, p);
      assert id in OwnedIn(es, s.entities, p);
    } else {
      RecordWritten(s, front, es, p);
      if s.players[last].name == s.players[p].name {
        assert forall id :: id in s.entities ==> id !in OwnedBy(s.entities, last);
        OwnsNothing(s.entities, last, es);
      }
    }
  }

  /** A restart turns what a connected player owned into the claim of its name. */
  lemma RestartMakesClaim(cfg: Config, s: Server, es: seq<EntityID>, ps: seq<PlayerID>, p: PlayerID)
    requires Inv(s) && Enumerates(es, s.entities.Keys) && Enumerates(ps, s.players.Keys)
    requires p in s.players && OwnedBy(s.entities, p) != {} && SoleOwnerOfName(s, p)
    requires |s.entities| <= MAX_SYNC_ENTITIES
    ensures forall id :: id in Claim(Restart(cfg, s, es, ps), s.players[p].name) <==>
      id in OwnedBy(s.entities, p) && InRange(s.entities[id].position)
  {
    hide InRange, LoadRecords, RecordsToWrite;
    RestartKeeps(cfg, s, es, ps);
    RecordWritten(s, ps, es, p);
    SavedRecordsLoad(cfg, Records(es, s.entities));
    var s', n, owned := Restart(cfg, s, es, ps), s.players[p].name, OwnedIn(es, s.entities, p);
    forall id | id in OwnedBy(s.entities, p) && InRange(s.entities[id].position) ensures id in Claim(s', n) {
      assert id in Kept(owned, s'.entities);
    }
    forall id | id in Claim(s', n) ensures id in OwnedBy(s.entities, p) && InRange(s.entities[id].position) {
      assert id in Kept(owned, s'.entities);
    }
  }

  function InRangeOwned(s: Server, p: PlayerID): set<EntityID> {
    set id | id in s.entities && s.entities[id].owner == p && InRange(s.entities[id].position)
  }

  /** An iteration order of a set that ends with a given element. */
  lemma {:induction false} OrderEndingWith(keys: set<PlayerID>, last: PlayerID) returns (order: seq<PlayerID>)
    requires last in keys
    ensures Enumerates(order, keys) && order != [] && order[|order| - 1] == last
  {
    var rest := OrderOf(keys - {last});
    order := rest + [last];
    assert forall k :: k in keys ==> k == last || k in rest;
    assert forall i :: 0 <= i < |rest| ==> rest[i] in keys - {last};
  }

  lemma {:induction false} OrderOf(keys: set<PlayerID>) returns (order: seq<PlayerID>)
    ensures Enumerates(order, keys)
  {
    order := [];
    if keys != {} {
      var k :| k in keys;
      var rest := OrderOf(keys - {k});
      order := rest + [k];
      assert forall x :: x in keys ==> x == k || x in rest;
      assert forall i :: 0 <= i < |rest| ==> rest[i] in keys - {k};
    }
  }

  /** Whoever of that name comes last in the iteration order and owns something gets the record. */
  lemma LastOwnerWins(cfg: Config, s: Server, es: seq<EntityID>, ps: seq<PlayerID>, q: PlayerID, a: EntityID)
    requires Inv(s) && Enumerates(es, s.entities.Keys) && Enumerates(ps, s.players.Keys)
    requires ps != [] && ps[|ps| - 1] == q && OwnedBy(s.entities, q) != {}
    requires a in s.entities && s.entities[a].owner != q
    ensures a !in Claim(Restart(cfg, s, es, ps), s.players[q].name)
  {
    hide LoadRecords;
    SavedRecordsLoad(cfg, Records(es, s.entities));
    var x :| x in OwnedBy(s.entities, q);
    var owned := OwnedIn(es, s.entities, q);
    assert x in owned;
    assert RecordsToWrite(s, ps, es)[s.players[q].name] == owned;
    hide RecordsToWrite;
    var s' := Restart(cfg, s, es, ps);
    assert forall id :: id in Claim(s', s.players[q].name) ==> id in Kept(owned, s'.entities);
  }

  lemma SharedNameFails(cfg: Config, s: Server, es: seq<EntityID>, p: PlayerID) returns (ps: seq<PlayerID>)
    requires Inv(s) && Enumerates(es, s.entities.Keys) && p in s.players && !SoleOwnerOfName(s, p)
    requires InRangeOwned(s, p) != {}
    ensures Enumerates(ps, s.players.Keys)
    ensures Claim(Restart(cfg, s, es, ps), s.players[p].name) != InRangeOwned(s, p)
  {
    hide Restart, Claim, InRange;
    var q :| q in s.players && q != p && s.players[q].name == s.players[p].name && OwnedBy(s.entities, q) != {};
    ps := OrderEndingWith(s.players.Keys, q);
    var a :| a in InRangeOwned(s, p);
    LastOwnerWins(cfg, s, es, ps, q, a);
  }

  lemma ReconnectClaim(cfg: Config, s: Server, es: seq<EntityID>, ps: seq<PlayerID>, p: PlayerID, peer: Peer, loopback: bool)
    requires Inv(s) && Enumerates(es, s.entities.Keys) && Enumerates(ps, s.players.Keys) && p in s.players
    ensures Returned(cfg, s, es, ps, p, peer, loopback) == Claim(Restart(cfg, s, es, ps), s.players[p].name)
  {
    hide Restart, Claim;
    RestartKeepsInv(cfg, s, es, ps);
    JoinTakesClaim(Restart(cfg, s, es, ps), peer, s.players[p].name, loopback);
  }

  /** What a player owns when it comes back under its name right after a restart. */
  function Returned(cfg: Config, s: Server, es: seq<EntityID>, ps: seq<PlayerID>, p: PlayerID, peer: Peer, loopback: bool): set<EntityID>
    requires Enumerates(es, s.entities.Keys) && Enumerates(ps, s.players.Keys) && p in s.players
  {
    var s' := Restart(cfg, s, es, ps);
    OwnedBy(Joined(s', peer, s.players[p].name, loopback).entities, s'.nextPlayerId)
  }

  /** Save, restart, reconnect, within the cap: a player that owns something in range gets
      back exactly its entities in range, whatever order the players are written in, if and
      only if nobody else connected under its name owns anything. */
  lemma SaveRestartReconnect(cfg: Config, s: Server, es: seq<EntityID>, p: PlayerID, peer: Peer, loopback: bool)
    requires Inv(s) && Enumerates(es, s.entities.Keys) && p in s.players && InRangeOwned(s, p) != {}
    requires |s.entities| <= MAX_SYNC_ENTITIES
    ensures (forall ps :: Enumerates(ps, s.players.Keys) ==> Returned(cfg, s, es, ps, p, peer, loopback) == InRangeOwned(s, p))
            <==> SoleOwnerOfName(s, p)
  {
    hide Returned, Restart, Claim, InRange, Enumerates;
    if SoleOwnerOfName(s, p) {
      var x :| x in InRangeOwned(s, p);
      assert x in OwnedBy(s.entities, p);
      forall ps | Enumerates(ps, s.players.Keys) ensures Returned(cfg, s, es, ps, p, peer, loopback) == InRangeOwned(s, p) {
        ReconnectClaim(cfg, s, es, ps, p, peer, loopback);
        RestartMakesClaim(cfg, s, es, ps, p);
      }
    } else {
      var ps := SharedNameFails(cfg, s, es, p);
      ReconnectClaim(cfg, s, es, ps, p, peer, loopback);
    }
  }

  /** Whatever the names, every entity is back with every persisted field equal, and every id
      is below the new counter. */
  lemma ReconnectKeepsFields(cfg: Config, s: Server, es: seq<EntityID>, ps: seq<PlayerID>, peer: Peer, n: string, loopback: bool)
    requires Inv(s) && Enumerates(es, s.entities.Keys) && Enumerates(ps, s.players.Keys)
    requires |s.entities| <= MAX_SYNC_ENTITIES
    ensures var s' := Joined(Restart(cfg, s, es, ps), peer, n, loopback);
            && (forall id :: id in s'.entities <==> id in s.entities && InRange(s.entities[id].position))
            && (forall id :: id in s'.entities ==> SamePersisted(s.entities[id], s'.entities[id]))
            && (forall id :: id in s.entities ==> id < s'.nextEntityId)
  {
    hide InRange, Restart;
    RestartKeeps(cfg, s, es, ps);
  }

  /** Distinct names are needed: of two connected players that share a name and both own
      something, at least one loses every entity to nobody at the next restart. */
  lemma SharedNameLosesOne(cfg: Config, s: Server, es: seq<EntityID>, ps: seq<PlayerID>, p: PlayerID, q: PlayerID,
                           a: EntityID, b: EntityID)
    requires Inv(s) && Enumerates(es, s.entities.Keys) && Enumerates(ps, s.players.Keys)
    requires p in s.players && q in s.players && p != q && s.players[p].name == s.players[q].name
    requires a in OwnedBy(s.entities, p) && b in OwnedBy(s.entities, q)
    requires a in Restart(cfg, s, es, ps).entities && b in Restart(cfg, s, es, ps).entities
    ensures Abandoned(Restart(cfg, s, es, ps), a) || Abandoned(Restart(cfg, s, es, ps), b)
  {
    hide LoadRecords, RecordsToWrite;
    var rs, s' := Records(es, s.entities), Restart(cfg, s, es, ps);
    LoadRecordsOk(cfg, rs);
    SavedRecordsLoad(cfg, rs);
    RecordSources(s, ps, es);
    var w := RecordsToWrite(s, ps, es);
    assert LoadedAs(cfg, LoadRecords(cfg, rs), a) && LoadedAs(cfg, LoadRecords(cfg, rs), b);
    var n := s.players[p].name;
    forall m | m in w ensures (a in w[m] ==> m == n) && (b in w[m] ==> m == n) && !(a in w[m] && b in w[m]) {
      assert WrittenFor(s, es, m, w[m]);
      assert m in s.saved ==> Unowned(s, s.saved[m]);
    }
  }
}
