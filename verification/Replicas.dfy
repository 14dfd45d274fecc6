/** What spawn messages say: the full record a client can put together for each entity, against
    the entity itself, field by field. */
module Replicas {
  import opened Types
  import opened Combat
  import opened ServerModel
  import opened Persistence
  import opened Runs
  import opened Ownership
  import opened Hosts

  /** All a client is told about an entity, and the equipment slots it was told of. */
  datatype Replica = Replica(
    owner: PlayerID, alive: bool, kind: nat, templateId: nat, factionId: nat, templateName: string,
    position: Vec3, rotation: Quat, health: Parts, equipment: map<nat, nat>)

  type Replicas = map<EntityID, Replica>

  function Take(r: Replicas, m: Msg): Replicas {
    match m
    case EntitySpawn(id, owner, alive, kind, templateId, factionId, templateName, position, rotation, health) =>
      r[id := Replica(owner, alive, kind, templateId, factionId, templateName, position, rotation, health,
                      if id in r then r[id].equipment else map[])]
    case EquipmentUpdate(id, slot, item) =>
      if id in r then r[id := r[id].(equipment := r[id].equipment[slot := item])] else r
    case EntityDespawn(id, _) => r - {id}
    case BuildDestroyed(id, _) => r - {id}
    case _ => r
  }

  function Taken(r: Replicas, log: seq<Msg>): Replicas {
    if log == [] then r else Take(Taken(r, log[..|log| - 1]), log[|log| - 1])
  }

  /** The record says what the entity is, its name cut to what a message holds. */
  predicate Depicts(e: Entity, r: Replica) {
    && r.owner == e.owner && r.alive == e.alive && r.kind == e.detail.kind && r.templateId == e.detail.templateId
    && r.factionId == e.detail.factionId && r.position == e.position && r.rotation == e.rotation && r.health == e.health
    && |r.templateName| == (if |e.detail.templateName| <= 255 then |e.detail.templateName| else 255)
    && r.templateName <= e.detail.templateName
  }

  /** The record's slots are the entity's, where it has an item. */
  predicate Outfits(e: Entity, r: Replica) {
    && (forall slot :: 0 <= slot < SLOTS ==>
          (slot in r.equipment <==> e.detail.equipment[slot] != 0) &&
          (slot in r.equipment ==> r.equipment[slot] == e.detail.equipment[slot]))
    && (forall slot :: slot in r.equipment ==> slot < SLOTS)
  }

  lemma {:induction false} TakenConcat(r: Replicas, x: seq<Msg>, y: seq<Msg>)
    ensures Taken(r, x + y) == Taken(Taken(r, x), y)
  {
    if y == [] {
      assert x + y == x;
    } else {
      assert (x + y)[..|x + y| - 1] == x + y[..|y| - 1];
      TakenConcat(r, x, y[..|y| - 1]);
    }
  }

  lemma TakenSends(r: Replicas, p: PlayerID, x: seq<Send>, y: seq<Send>)
    ensures Taken(r, MessagesFor(p, x + y)) == Taken(Taken(r, MessagesFor(p, x)), MessagesFor(p, y))
  {
    MessagesForConcat(p, x, y);
    TakenConcat(r, MessagesFor(p, x), MessagesFor(p, y));
  }

  lemma TakenOne(r: Replicas, p: PlayerID, send: Send)
    ensures Taken(r, MessagesFor(p, [send])) == if Receives(p, send) then Take(r, send.msg) else r
  {
    hide Take;
    assert [send][..0] == [] && MessagesFor(p, []) == [];
    assert [send.msg][..0] == [];
  }

  lemma TakenNothing(r: Replicas, p: PlayerID)
    ensures Taken(r, MessagesFor(p, [])) == r
  {}

  predicate Dull(m: Msg) {
    !m.EntitySpawn? && !m.EquipmentUpdate? && !m.EntityDespawn? && !m.BuildDestroyed?
  }

  lemma {:induction false} DullTaken(r: Replicas, p: PlayerID, sends: seq<Send>)
    requires forall k :: 0 <= k < |sends| ==> Dull(sends[k].msg)
    ensures Taken(r, MessagesFor(p, sends)) == r
  {
    if sends != [] {
      var front, last := sends[..|sends| - 1], sends[|sends| - 1];
      DullTaken(r, p, front);
      assert sends == front + [last];
      TakenSends(r, p, front, [last]);
      TakenOne(r, p, last);
    }
  }

  // ----- one entity shown

  lemma SpawnDepicts(e: Entity, r: Replicas, p: PlayerID, send: Send)
    requires send.msg == SpawnMsg(e) && Receives(p, send)
    ensures var r' := Taken(r, MessagesFor(p, [send]));
            && e.id in r' && Depicts(e, r'[e.id]) && r' == r[e.id := r'[e.id]]
            && r'[e.id].equipment == if e.id in r then r[e.id].equipment else map[]
  {
    TakenOne(r, p, send);
  }

  /** The slots told so far. */
  predicate OutfitsBelow(e: Entity, r: Replica, n: nat)
    requires n <= SLOTS
  {
    && (forall slot :: 0 <= slot < n ==>
          (slot in r.equipment <==> e.detail.equipment[slot] != 0) &&
          (slot in r.equipment ==> r.equipment[slot] == e.detail.equipment[slot]))
    && (forall slot :: slot in r.equipment ==> slot < n)
  }

  lemma EquipmentMore(to: PlayerID, e: Entity, n: nat)
    requires 0 < n <= SLOTS
    ensures var rest, item := EquipmentSends(to, e, n - 1), e.detail.equipment[n - 1];
            EquipmentSends(to, e, n) ==
            if item != 0 then rest + [ToOne(to, EquipmentUpdate(e.id, n - 1, item))] else rest
  {}

  lemma SlotMore(e: Entity, r: Replica, n: nat)
    requires 0 < n <= SLOTS && OutfitsBelow(e, r, n - 1)
    ensures var item := e.detail.equipment[n - 1];
            OutfitsBelow(e, if item != 0 then r.(equipment := r.equipment[n - 1 := item]) else r, n)
  {}

  lemma {:induction false} EquipmentTaken(r: Replicas, to: PlayerID, e: Entity, n: nat)
    requires n <= SLOTS && e.id in r && r[e.id].equipment == map[]
    ensures var r' := Taken(r, MessagesFor(to, EquipmentSends(to, e, n)));
            e.id in r' && OutfitsBelow(e, r'[e.id], n) && r' == r[e.id := r[e.id].(equipment := r'[e.id].equipment)]
  {
    hide Taken, MessagesFor, OutfitsBelow;
    if n == 0 {
      NothingWorn(r, to, e);
    } else {
      EquipmentTaken(r, to, e, n - 1);
      EquipmentMore(to, e, n);
      var rest, item := EquipmentSends(to, e, n - 1), e.detail.equipment[n - 1];
      hide EquipmentSends;
      SlotMore(e, Taken(r, MessagesFor(to, rest))[e.id], n);
      if item != 0 {
        var send := ToOne(to, EquipmentUpdate(e.id, n - 1, item));
        TakenSends(r, to, rest, [send]);
        TakenOne(Taken(r, MessagesFor(to, rest)), to, send);
      }
    }
  }

  lemma NothingWorn(r: Replicas, to: PlayerID, e: Entity)
    requires e.id in r && r[e.id].equipment == map[]
    ensures Taken(r, MessagesFor(to, EquipmentSends(to, e, 0))) == r && OutfitsBelow(e, r[e.id], 0)
  {}

  lemma ShownTaken(r: Replicas, to: PlayerID, e: Entity)
    requires e.id !in r
    ensures var r' := Taken(r, MessagesFor(to, [ToOne(to, SpawnMsg(e))] + EquipmentSends(to, e, SLOTS)));
            e.id in r' && Depicts(e, r'[e.id]) && Outfits(e, r'[e.id]) && r' == r[e.id := r'[e.id]]
  {
    hide SpawnMsg, EquipmentSends, MessagesFor, Taken;
    var spawn := [ToOne(to, SpawnMsg(e))];
    SpawnDepicts(e, r, to, spawn[0]);
    EquipmentTaken(Taken(r, MessagesFor(to, spawn)), to, e, SLOTS);
    TakenSends(r, to, spawn, EquipmentSends(to, e, SLOTS));
  }

  // ----- the snapshot

  /** Exactly these entities, each as it is. */
  ghost predicate Portrays(entities: Entities, ids: set<EntityID>, r: Replicas) {
    r.Keys == ids && forall id :: id in ids ==> id in entities && Depicts(entities[id], r[id]) && Outfits(entities[id], r[id])
  }

  function ShownOf(order: seq<EntityID>, entities: Entities, players: Players): set<EntityID> {
    set id | id in order && id in entities && InSnapshot(entities[id], players)
  }

  /** The entities whose coordinates are at most a million in size. */
  function AllInRange(entities: Entities): set<EntityID> {
    set id | id in entities && WithinMillion(entities[id].position)
  }

  predicate WithinMillion(v: Vec3) {
    -1000000.0 <= v.x <= 1000000.0 && -1000000.0 <= v.y <= 1000000.0 && -1000000.0 <= v.z <= 1000000.0
  }

  lemma SnapshotMore(to: PlayerID, order: seq<EntityID>, entities: Entities, players: Players)
    requires order != [] && forall i :: 0 <= i < |order| ==> order[i] in entities
    ensures var rest, e := Snapshot(to, order[..|order| - 1], entities, players), entities[order[|order| - 1]];
            Snapshot(to, order, entities, players) ==
            if InSnapshot(e, players) then rest + ([ToOne(to, SpawnMsg(e))] + EquipmentSends(to, e, SLOTS)) else rest
  {
    hide InSnapshot, EquipmentSends, SpawnMsg;
  }

  lemma ShownMore(order: seq<EntityID>, entities: Entities, players: Players)
    requires order != [] && (forall i :: 0 <= i < |order| ==> order[i] in entities)
    requires forall i, j :: 0 <= i < j < |order| ==> order[i] != order[j]
    ensures var front, last := order[..|order| - 1], order[|order| - 1];
            && last !in ShownOf(front, entities, players)
            && ShownOf(order, entities, players) ==
               if InSnapshot(entities[last], players) then ShownOf(front, entities, players) + {last}
               else ShownOf(front, entities, players)
  {
    hide InSnapshot;
    var front, last := order[..|order| - 1], order[|order| - 1];
    assert order == front + [last] && last !in front;
  }

  lemma PortraysMore(entities: Entities, ids: set<EntityID>, r: Replicas, r': Replicas, id: EntityID)
    requires Portrays(entities, ids, r) && id in entities && id in r' && r' == r[id := r'[id]]
    requires Depicts(entities[id], r'[id]) && Outfits(entities[id], r'[id])
    ensures Portrays(entities, ids + {id}, r')
  {
    hide Depicts, Outfits;
  }

  lemma PortraysNothing(entities: Entities, players: Players)
    ensures Portrays(entities, ShownOf([], entities, players), map[])
  {}

  lemma {:induction false} SnapshotTaken(to: PlayerID, order: seq<EntityID>, entities: Entities, players: Players)
    requires (forall id :: id in entities ==> entities[id].id == id)
    requires (forall i :: 0 <= i < |order| ==> order[i] in entities)
    requires forall i, j :: 0 <= i < j < |order| ==> order[i] != order[j]
    ensures Portrays(entities, ShownOf(order, entities, players),
                     Taken(map[], MessagesFor(to, Snapshot(to, order, entities, players))))
  {
    hide InSnapshot, EquipmentSends, SpawnMsg, Depicts, Outfits, MessagesFor, Taken, ShownOf;
    if order == [] {
      TakenNothing(map[], to);
      PortraysNothing(entities, players);
    } else {
      var front, last := order[..|order| - 1], order[|order| - 1];
      SnapshotTaken(to, front, entities, players);
      SnapshotMore(to, order, entities, players);
      ShownMore(order, entities, players);
      var e, rest := entities[last], Snapshot(to, front, entities, players);
      var r, ids := Taken(map[], MessagesFor(to, rest)), ShownOf(front, entities, players);
      assert last !in r;
      hide Portrays, Snapshot;
      if InSnapshot(e, players) {
        var shown := [ToOne(to, SpawnMsg(e))] + EquipmentSends(to, e, SLOTS);
        TakenSends(map[], to, rest, shown);
        ShownTaken(r, to, e);
        PortraysMore(entities, ids, r, Taken(r, MessagesFor(to, shown)), last);
      }
    }
  }

  lemma WelcomeTaken(s: Server, id: PlayerID, took: bool, es: seq<EntityID>, ps: seq<PlayerID>, p: PlayerID, r: Replicas)
    requires id in s.players
    requires forall i :: 0 <= i < |es| ==> es[i] in s.entities
    requires forall i :: 0 <= i < |ps| ==> ps[i] in s.players
    ensures Taken(r, MessagesFor(p, Greeting(id, took) + Welcome(s, id, es, ps)))
            == Taken(r, MessagesFor(p, Snapshot(id, es, s.entities, s.players)))
  {
    var snap := Snapshot(id, es, s.entities, s.players);
    var first := [ToOne(id, FactionAssignment(FactionSlot(id))), ToOthers(id, PlayerJoined(id, NameOnWire(s.players[id].name)))];
    var intro, bye := Introductions(id, ps, s.players), [ToAll(SystemMessage(s.players[id].name + " joined the game"))];
    IntroductionsIntroduce(id, ps, s.players);
    hide Snapshot, Introductions, MessagesFor, Taken;
    var head := Greeting(id, took) + (first + intro);
    assert forall k :: 0 <= k < |head| ==> Dull(head[k].msg);
    assert Greeting(id, took) + Welcome(s, id, es, ps) == head + snap + bye;
    TakenSends(r, p, head + snap, bye);
    TakenSends(r, p, head, snap);
    DullTaken(r, p, head);
    DullTaken(Taken(r, MessagesFor(p, head + snap)), p, bye);
  }

  /** After a handshake the newcomer can put together the full record of every entity in
      range, exactly as the server has it, and of no other. */
  lemma NewcomerSeesAll(cfg: Config, s: Server, e: Event)
    requires Inv(s) && e.Joins? && Enabled(s, e) && Admits(cfg, s, e.peer, e.version)
    ensures var s' := Step(cfg, s, e).server;
            Portrays(s'.entities, AllInRange(s'.entities),
                     Taken(map[], MessagesFor(s.nextPlayerId, Step(cfg, s, e).sends)))
  {
    hide Handshake, Greeting, Welcome, Sanitized, TakesOverHost, Snapshot, InRange, Portrays, MessagesFor, Taken;
    JoinStep(cfg, s, e);
    var name := Sanitized(e.raw);
    var s', p := Joined(s, e.peer, name, e.loopback), s.nextPlayerId;
    JoinedKeepsInv(s, e.peer, name, e.loopback);
    WelcomeTaken(s', p, TakesOverHost(s, e.loopback), e.entityOrder, e.playerOrder, p, map[]);
    SnapshotTaken(p, e.entityOrder, s'.entities, s'.players);
    ShownIsInRange(s', e.entityOrder);
  }

  lemma ShownIsInRange(s: Server, es: seq<EntityID>)
    requires OwnersOk(s) && Enumerates(es, s.entities.Keys)
    ensures ShownOf(es, s.entities, s.players) == AllInRange(s.entities)
  {
    forall id | id in s.entities
      ensures InSnapshot(s.entities[id], s.players) <==> WithinMillion(s.entities[id].position)
    {
      assert InRange(s.entities[id].position) <==> WithinMillion(s.entities[id].position);
    }
  }

  // ----- a zone request

  /** Foreign and in the zone or next to it, in coordinates. */
  predicate Near(e: Entity, pid: PlayerID, x: int, y: int) {
    e.owner != pid && x - 1 <= e.zone.x <= x + 1 && y - 1 <= e.zone.y <= y + 1
  }

  function NearOf(order: seq<EntityID>, entities: Entities, pid: PlayerID, x: int, y: int): set<EntityID> {
    set id | id in order && id in entities && Near(entities[id], pid, x, y)
  }

  function AllNear(entities: Entities, pid: PlayerID, x: int, y: int): set<EntityID> {
    set id | id in entities && Near(entities[id], pid, x, y)
  }

  /** These entities as they are, with the slots known before, and everything else as before. */
  ghost predicate Refreshes(entities: Entities, ids: set<EntityID>, r: Replicas, r': Replicas) {
    && r'.Keys == r.Keys + ids
    && (forall id :: id in ids ==> id in entities && Depicts(entities[id], r'[id])
                                   && r'[id].equipment == if id in r then r[id].equipment else map[])
    && (forall id :: id in r && id !in ids ==> r'[id] == r[id])
  }

  lemma ReplyMore(pid: PlayerID, zone: Zone, order: seq<EntityID>, entities: Entities)
    requires order != [] && forall i :: 0 <= i < |order| ==> order[i] in entities
    ensures var rest, e := ZoneReply(pid, zone, order[..|order| - 1], entities), entities[order[|order| - 1]];
            ZoneReply(pid, zone, order, entities) ==
            if Near(e, pid, zone.x, zone.y) then rest + [ToOne(pid, SpawnMsg(e))] else rest
  {
    hide SpawnMsg;
    var e := entities[order[|order| - 1]];
    assert InZoneReply(e, pid, zone) <==> Near(e, pid, zone.x, zone.y);
  }

  lemma NearMore(order: seq<EntityID>, entities: Entities, pid: PlayerID, x: int, y: int)
    requires order != [] && (forall i :: 0 <= i < |order| ==> order[i] in entities)
    requires forall i, j :: 0 <= i < j < |order| ==> order[i] != order[j]
    ensures var front, last := order[..|order| - 1], order[|order| - 1];
            && last !in NearOf(front, entities, pid, x, y)
            && NearOf(order, entities, pid, x, y) ==
               if Near(entities[last], pid, x, y) then NearOf(front, entities, pid, x, y) + {last}
               else NearOf(front, entities, pid, x, y)
  {
    hide Near;
    var front, last := order[..|order| - 1], order[|order| - 1];
    assert order == front + [last] && last !in front;
  }

  lemma RefreshesMore(entities: Entities, ids: set<EntityID>, r: Replicas, r1: Replicas, r2: Replicas, id: EntityID)
    requires Refreshes(entities, ids, r, r1) && id !in ids && id in entities && id in r2 && r2 == r1[id := r2[id]]
    requires Depicts(entities[id], r2[id]) && r2[id].equipment == if id in r1 then r1[id].equipment else map[]
    ensures Refreshes(entities, ids + {id}, r, r2)
  {
    hide Depicts;
  }

  lemma RefreshesNothing(entities: Entities, pid: PlayerID, x: int, y: int, r: Replicas)
    ensures Refreshes(entities, NearOf([], entities, pid, x, y), r, r)
  {}

  lemma {:induction false} ReplyTaken(pid: PlayerID, zone: Zone, order: seq<EntityID>, entities: Entities, r: Replicas)
    requires (forall id :: id in entities ==> entities[id].id == id)
    requires (forall i :: 0 <= i < |order| ==> order[i] in entities)
    requires forall i, j :: 0 <= i < j < |order| ==> order[i] != order[j]
    ensures Refreshes(entities, NearOf(order, entities, pid, zone.x, zone.y), r,
                      Taken(r, MessagesFor(pid, ZoneReply(pid, zone, order, entities))))
  {
    hide SpawnMsg, Depicts, MessagesFor, Taken, NearOf, Near, Refreshes;
    if order == [] {
      TakenNothing(r, pid);
      RefreshesNothing(entities, pid, zone.x, zone.y, r);
    } else {
      var front, last := order[..|order| - 1], order[|order| - 1];
      ReplyTaken(pid, zone, front, entities, r);
      ReplyMore(pid, zone, order, entities);
      NearMore(order, entities, pid, zone.x, zone.y);
      var e, rest := entities[last], ZoneReply(pid, zone, front, entities);
      var r1 := Taken(r, MessagesFor(pid, rest));
      hide ZoneReply;
      if Near(e, pid, zone.x, zone.y) {
        var shown := ToOne(pid, SpawnMsg(e));
        TakenSends(r, pid, rest, [shown]);
        SpawnDepicts(e, r1, pid, shown);
        RefreshesMore(entities, NearOf(front, entities, pid, zone.x, zone.y), r, r1, Taken(r1, MessagesFor(pid, [shown])), last);
      }
    }
  }

  /** A zone request within bounds refreshes exactly the foreign entities of the zone and its
      eight neighbours; one out of bounds does nothing; the state never changes. */
  lemma ZoneShowsNeighbours(cfg: Config, s: Server, pid: PlayerID, zone: Zone, order: seq<EntityID>, r: Replicas)
    requires Inv(s) && pid in s.players && Enumerates(order, s.entities.Keys)
    ensures var f := Act(cfg, s, pid, ZoneRequest(zone, order));
            && f.server == s
            && (if -500 <= zone.x <= 500 && -500 <= zone.y <= 500
                then Refreshes(s.entities, AllNear(s.entities, pid, zone.x, zone.y), r,
                               Taken(r, MessagesFor(pid, f.sends)))
                else f.sends == [])
  {
    hide ZoneReply, Refreshes, Taken, MessagesFor;
    ReplyTaken(pid, zone, order, s.entities, r);
    assert NearOf(order, s.entities, pid, zone.x, zone.y) == AllNear(s.entities, pid, zone.x, zone.y);
  }

  // ----- a new entity

  /** What was asked for, under a fresh id and the sender. */
  predicate AsAsked(cfg: Config, e: Entity, id: EntityID, pid: PlayerID, pkt: Packet)
    requires pkt.SpawnRequest?
  {
    && e.id == id && e.owner == pid && e.alive == pkt.alive && e.position == pkt.position
    && e.rotation == pkt.rotation && e.health == pkt.health && e.authority == cfg.authority
    && e.detail.kind == pkt.kind && e.detail.templateId == pkt.templateId && e.detail.factionId == pkt.factionId
    && e.detail.templateName == (if |pkt.templateName| <= 255 then pkt.templateName else "")
    && (forall slot :: 0 <= slot < SLOTS ==> e.detail.equipment[slot] == 0)
  }

  /** The state after a spawn: one more entity, and a player who was still at the origin's zone is
      where the entity is. */
  predicate Grown(s: Server, s': Server, pid: PlayerID, id: EntityID)
    requires pid in s.players
  {
    var p := s.players[pid];
    && id !in s.entities && id in s'.entities
    && s' == s.(entities := s.entities[id := s'.entities[id]], nextEntityId := id + 1,
                players := s.players[pid := if p.zone == Zone(0, 0)
                                            then p.(position := s'.entities[id].position, zone := ZoneOf(s'.entities[id].position))
                                            else p])
  }

  lemma SpawnMakes(cfg: Config, s: Server, pid: PlayerID, pkt: Packet)
    requires Inv(s) && pid in s.players && pkt.SpawnRequest?
    ensures var f, id := Spawn(cfg, s, pid, pkt), s.nextEntityId;
            if pkt.kind <= 6 && |s.entities| < 2048 then
              && Grown(s, f.server, pid, id) && AsAsked(cfg, f.server.entities[id], id, pid, pkt)
              && f.sends == [ToAll(SpawnMsg(f.server.entities[id]))]
            else f == Effect(s, [])
  {
    hide SpawnMsg, ZoneOf;
    assert s.players[pid := s.players[pid]] == s.players;
  }

  /** A spawn request of a known kind below the cap makes one entity as asked for, and every
      client, the sender included, is told exactly that; any other makes nothing. */
  lemma SpawnShown(cfg: Config, s: Server, pid: PlayerID, pkt: Packet, p: PlayerID, r: Replicas)
    requires Inv(s) && pid in s.players && pkt.SpawnRequest?
    ensures var f, id := Act(cfg, s, pid, pkt), s.nextEntityId;
            if pkt.kind <= 6 && |s.entities| < 2048 then
              && Grown(s, f.server, pid, id) && AsAsked(cfg, f.server.entities[id], id, pid, pkt)
              && var r' := Taken(r, MessagesFor(p, f.sends));
              && id in r' && Depicts(f.server.entities[id], r'[id]) && r' == r[id := r'[id]]
            else f == Effect(s, [])
  {
    hide Spawn, SpawnMsg, Depicts, Taken, MessagesFor, Inv;
    SpawnMakes(cfg, s, pid, pkt);
    if pkt.kind <= 6 && |s.entities| < 2048 {
      var e := Spawn(cfg, s, pid, pkt).server.entities[s.nextEntityId];
      SpawnDepicts(e, r, p, ToAll(SpawnMsg(e)));
    }
  }
}
