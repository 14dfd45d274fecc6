/** Replication: what folding a client's messages says about the server's entities. */
module Replication {
  import opened Types
  import opened ServerModel
  import opened Runs

  /** Entity ids and alive flags, as the messages tell them. */
  type View = map<EntityID, bool>

  function Observe(v: View, m: Msg): View {
    match m
    case EntitySpawn(id, _, alive, _, _, _, _, _, _, _) => v[id := alive]
    case BuildPlaced(id, _, _, _, _) => v[id := true]
    case EntityDespawn(id, _) => v - {id}
    case BuildDestroyed(id, _) => v - {id}
    case CombatDeath(victim, _) => if victim in v then v[victim := false] else v
    case _ => v
  }

  function Observed(v: View, log: seq<Msg>): View {
    if log == [] then v else Observe(Observed(v, log[..|log| - 1]), log[|log| - 1])
  }

  lemma {:induction false} ObservedConcat(v: View, x: seq<Msg>, y: seq<Msg>)
    ensures Observed(v, x + y) == Observed(Observed(v, x), y)
  {
    if y == [] {
      assert x + y == x;
    } else {
      assert (x + y)[..|x + y| - 1] == x + y[..|y| - 1];
      ObservedConcat(v, x, y[..|y| - 1]);
    }
  }

  // ----- where a client's view may differ

  /** The entities a client is not told about: those its snapshot skipped for a bad
      position and those it built itself, until a zone request brings them. */
  function UnseenAfter(cfg: Config, s: Server, e: Event, p: PlayerID, unseen: set<EntityID>): set<EntityID>
    requires PeersOk(s)
  {
    match e
    case Joins(peer, version, _, _, _, _) =>
      if Admits(cfg, s, peer, version) && p == s.nextPlayerId
      then set id | id in s.entities && !InRange(s.entities[id].position) else unseen
    case Packets(peer, pkt) =>
      if peer !in s.peers || s.peers[peer] != p then unseen
      else if pkt.BuildRequest? && CanBuild(s, p, pkt.position) then unseen + {s.nextEntityId}
      else if pkt.ZoneRequest? && ZoneInBounds(pkt.zone)
      then unseen - set id | id in s.entities && InZoneReply(s.entities[id], p, pkt.zone)
      else unseen
    case _ => unseen
  }

  /** The entities a client still shows after dismantling them itself. */
  function StaleAfter(s: Server, e: Event, p: PlayerID, unseen: set<EntityID>, stale: set<EntityID>): set<EntityID>
    requires PeersOk(s)
  {
    if && e.Packets? && e.peer in s.peers && s.peers[e.peer] == p && e.pkt.Dismantle?
       && MayManage(s, p, e.pkt.building) && e.pkt.building !in unseen
    then stale + {e.pkt.building} else stale
  }

  /** The view agrees with the server: it holds every seen entity with its alive flag,
      and nothing else but what the client dismantled. */
  predicate Mirrors(s: Server, unseen: set<EntityID>, stale: set<EntityID>, v: View) {
    && v.Keys == (s.entities.Keys - unseen) + stale
    && stale !! s.entities.Keys
    && (forall id :: id in s.entities && id !in unseen ==> v[id] == s.entities[id].alive)
    && (forall id :: id in unseen ==> id < s.nextEntityId)
    && (forall id :: id in stale ==> id < s.nextEntityId)
  }

  // ----- sends that say nothing about entities

  predicate Inert(m: Msg) {
    !m.EntitySpawn? && !m.BuildPlaced? && !m.EntityDespawn? && !m.BuildDestroyed? && !m.CombatDeath?
  }

  predicate AllInert(sends: seq<Send>) { forall i :: 0 <= i < |sends| ==> Inert(sends[i].msg) }

  lemma {:induction false} InertObserved(v: View, p: PlayerID, sends: seq<Send>)
    requires AllInert(sends)
    ensures Observed(v, MessagesFor(p, sends)) == v
  {
    if sends != [] {
      InertObserved(v, p, sends[..|sends| - 1]);
      var m, last := MessagesFor(p, sends[..|sends| - 1]), sends[|sends| - 1];
      assert (m + [last.msg])[..|m|] == m;
    }
  }

  lemma ObservedSends(v: View, p: PlayerID, x: seq<Send>, y: seq<Send>)
    ensures Observed(v, MessagesFor(p, x + y)) == Observed(Observed(v, MessagesFor(p, x)), MessagesFor(p, y))
  {
    MessagesForConcat(p, x, y);
    ObservedConcat(v, MessagesFor(p, x), MessagesFor(p, y));
  }

  /** One message to everybody, or to everybody but one. */
  lemma ObservedOne(v: View, p: PlayerID, send: Send)
    ensures Observed(v, MessagesFor(p, [send])) == if Receives(p, send) then Observe(v, send.msg) else v
  {
    assert [send][..0] == [];
    assert MessagesFor(p, [send]) == if Receives(p, send) then [send.msg] else [];
  }

  // ----- the snapshot and the zone reply

  predicate Keyed(entities: Entities) { forall id :: id in entities ==> entities[id].id == id }

  /** A view told about some of the entities. */
  function Told(v: View, ids: set<EntityID>, entities: Entities): View {
    v + map id | id in ids && id in entities :: entities[id].alive
  }

  function Picked(order: seq<EntityID>, test: EntityID -> bool): set<EntityID> {
    set id | id in order && test(id)
  }

  lemma PickedStep(order: seq<EntityID>, test: EntityID -> bool)
    requires order != []
    ensures var front, last := order[..|order| - 1], order[|order| - 1];
            Picked(order, test) == if test(last) then Picked(front, test) + {last} else Picked(front, test)
  {
    assert order == order[..|order| - 1] + [order[|order| - 1]];
  }

  lemma ToldStep(v: View, ids: set<EntityID>, id: EntityID, entities: Entities)
    requires id in entities
    ensures Told(v, ids + {id}, entities) == Told(v, ids, entities)[id := entities[id].alive]
  {}

  function ShownTo(entities: Entities, players: Players): EntityID -> bool {
    id => id in entities && InSnapshot(entities[id], players)
  }

  lemma {:induction false} SnapshotObserved(v: View, to: PlayerID, order: seq<EntityID>, entities: Entities, players: Players)
    requires Keyed(entities) && forall i :: 0 <= i < |order| ==> order[i] in entities
    ensures Observed(v, MessagesFor(to, Snapshot(to, order, entities, players)))
            == Told(v, Picked(order, ShownTo(entities, players)), entities)
  {
    if order != [] {
      var front, last := order[..|order| - 1], order[|order| - 1];
      SnapshotObserved(v, to, front, entities, players);
      PickedStep(order, ShownTo(entities, players));
      if InSnapshot(entities[last], players) {
        ShownObserved(v, to, Snapshot(to, front, entities, players), entities[last]);
        ToldStep(v, Picked(front, ShownTo(entities, players)), last, entities);
      }
    }
  }

  lemma SpawnObserved(v: View, to: PlayerID, rest: seq<Send>, e: Entity)
    ensures Observed(v, MessagesFor(to, rest + [ToOne(to, SpawnMsg(e))]))
            == Observed(v, MessagesFor(to, rest))[e.id := e.alive]
  {
    ObservedSends(v, to, rest, [ToOne(to, SpawnMsg(e))]);
    ObservedOne(Observed(v, MessagesFor(to, rest)), to, ToOne(to, SpawnMsg(e)));
  }

  lemma ShownObserved(v: View, to: PlayerID, rest: seq<Send>, e: Entity)
    ensures Observed(v, MessagesFor(to, rest + [ToOne(to, SpawnMsg(e))] + EquipmentSends(to, e, SLOTS)))
            == Observed(v, MessagesFor(to, rest))[e.id := e.alive]
  {
    var spawn, equip := [ToOne(to, SpawnMsg(e))], EquipmentSends(to, e, SLOTS);
    EquipmentShows(to, e, SLOTS);
    ObservedSends(v, to, rest + spawn, equip);
    SpawnObserved(v, to, rest, e);
    InertObserved(Observed(v, MessagesFor(to, rest + spawn)), to, equip);
  }

  lemma {:induction false} SnapshotToOthers(p: PlayerID, to: PlayerID, order: seq<EntityID>, entities: Entities, players: Players)
    requires p != to && forall i :: 0 <= i < |order| ==> order[i] in entities
    ensures MessagesFor(p, Snapshot(to, order, entities, players)) == []
  {
    if order != [] {
      var front, e := order[..|order| - 1], entities[order[|order| - 1]];
      SnapshotToOthers(p, to, front, entities, players);
      if InSnapshot(e, players) {
        var rest, spawn, equip := Snapshot(to, front, entities, players), [ToOne(to, SpawnMsg(e))], EquipmentSends(to, e, SLOTS);
        EquipmentToOthers(p, to, e, SLOTS);
        MessagesForConcat(p, rest + spawn, equip);
        MessagesForConcat(p, rest, spawn);
      }
    }
  }

  lemma {:induction false} EquipmentToOthers(p: PlayerID, to: PlayerID, e: Entity, n: nat)
    requires p != to && n <= SLOTS
    ensures MessagesFor(p, EquipmentSends(to, e, n)) == []
  {
    if n > 0 {
      EquipmentToOthers(p, to, e, n - 1);
      var rest := EquipmentSends(to, e, n - 1);
      if e.detail.equipment[n - 1] != 0 {
        MessagesForConcat(p, rest, [ToOne(to, EquipmentUpdate(e.id, n - 1, e.detail.equipment[n - 1]))]);
      } else {
        assert EquipmentSends(to, e, n) == rest;
      }
    }
  }

  function InReply(entities: Entities, pid: PlayerID, zone: Zone): EntityID -> bool {
    id => id in entities && InZoneReply(entities[id], pid, zone)
  }

  lemma {:induction false} ZoneObserved(v: View, pid: PlayerID, zone: Zone, order: seq<EntityID>, entities: Entities)
    requires Keyed(entities) && forall i :: 0 <= i < |order| ==> order[i] in entities
    ensures Observed(v, MessagesFor(pid, ZoneReply(pid, zone, order, entities)))
            == Told(v, Picked(order, InReply(entities, pid, zone)), entities)
  {
    if order != [] {
      var front, last := order[..|order| - 1], order[|order| - 1];
      ZoneObserved(v, pid, zone, front, entities);
      PickedStep(order, InReply(entities, pid, zone));
      if InZoneReply(entities[last], pid, zone) {
        SpawnObserved(v, pid, ZoneReply(pid, zone, front, entities), entities[last]);
        ToldStep(v, Picked(front, InReply(entities, pid, zone)), last, entities);
      }
    }
  }

  lemma {:induction false} ZoneToOthers(p: PlayerID, pid: PlayerID, zone: Zone, order: seq<EntityID>, entities: Entities)
    requires p != pid && forall i :: 0 <= i < |order| ==> order[i] in entities
    ensures MessagesFor(p, ZoneReply(pid, zone, order, entities)) == []
  {
    if order != [] {
      ZoneToOthers(p, pid, zone, order[..|order| - 1], entities);
    }
  }
}
