/** Every event keeps every client's view in agreement with the server. */
module Mirroring {
  import opened Types
  import opened Combat
  import opened ServerModel
  import opened Runs
  import opened Ownership
  import opened Hosts
  import opened Replication

  // ----- the five ways an event bears on a view

  predicate SameVital(a: Entities, b: Entities) {
    a.Keys == b.Keys && forall id :: id in a ==> a[id].alive == b[id].alive
  }

  lemma QuietMirror(s: Server, s': Server, p: PlayerID, unseen: set<EntityID>, stale: set<EntityID>, v: View, sends: seq<Send>)
    requires Mirrors(s, unseen, stale, v) && AllInert(sends)
    requires SameVital(s.entities, s'.entities) && s.nextEntityId <= s'.nextEntityId
    ensures Mirrors(s', unseen, stale, Observed(v, MessagesFor(p, sends)))
  {
    InertObserved(v, p, sends);
  }

  lemma InsertMirror(s: Server, s': Server, e: Entity, unseen: set<EntityID>, stale: set<EntityID>, v: View)
    requires Mirrors(s, unseen, stale, v) && IdsOk(s) && e.id == s.nextEntityId
    requires s'.entities == s.entities[e.id := e] && s'.nextEntityId == e.id + 1
    ensures Mirrors(s', unseen, stale, v[e.id := e.alive])
    ensures Mirrors(s', unseen + {e.id}, stale, v)
  {
    assert e.id !in v && e.id !in unseen + stale;
    assert s'.entities.Keys == s.entities.Keys + {e.id};
  }

  lemma RemoveMirror(s: Server, s': Server, id: EntityID, unseen: set<EntityID>, stale: set<EntityID>, v: View)
    requires Mirrors(s, unseen, stale, v) && IdsOk(s) && id in s.entities
    requires s'.entities == s.entities - {id} && s'.nextEntityId == s.nextEntityId
    ensures Mirrors(s', unseen, stale, v - {id})
    ensures Mirrors(s', unseen, if id in unseen then stale else stale + {id}, v)
  {
    assert s'.entities.Keys == s.entities.Keys - {id};
    assert id !in unseen ==> v.Keys == (s'.entities.Keys - unseen) + (stale + {id});
  }

  lemma DeathMirror(s: Server, s': Server, id: EntityID, unseen: set<EntityID>, stale: set<EntityID>, v: View)
    requires Mirrors(s, unseen, stale, v) && id in s.entities && s'.nextEntityId == s.nextEntityId
    requires s'.entities.Keys == s.entities.Keys && !s'.entities[id].alive
    requires forall k :: k in s.entities && k != id ==> s'.entities[k].alive == s.entities[k].alive
    ensures Mirrors(s', unseen, stale, if id in v then v[id := false] else v)
  {}

  lemma ReplyMirror(s: Server, unseen: set<EntityID>, stale: set<EntityID>, v: View, ids: set<EntityID>)
    requires Mirrors(s, unseen, stale, v) && ids <= s.entities.Keys
    ensures Mirrors(s, unseen - ids, stale, Told(v, ids, s.entities))
  {}

  // ----- packets

  predicate QuietPacket(pkt: Packet) {
    || pkt.PositionUpdate? || pkt.MoveOrder? || pkt.Equip? || pkt.Repair? || pkt.ReportKO?
    || pkt.ReportLimbs? || pkt.ReportStatus? || pkt.Ready?
  }

  lemma {:induction false} MovedVital(entities: Entities, pid: PlayerID, updates: seq<Placement>)
    ensures SameVital(entities, Moved(entities, pid, updates))
  {
    if updates != [] {
      MovedVital(entities, pid, updates[..|updates| - 1]);
    }
  }

  /** The packet leaves ids and alive flags alone and sends nothing about either. */
  predicate Quiet(s: Server, f: Effect) {
    SameVital(s.entities, f.server.entities) && f.server.nextEntityId == s.nextEntityId && AllInert(f.sends)
  }

  lemma MoveQuiet(s: Server, pid: PlayerID, updates: seq<Placement>)
    requires PeersOk(s) && pid in s.players
    ensures Quiet(s, MoveEntities(s, pid, updates))
  {
    MovedVital(s.entities, pid, updates);
  }

  lemma AmendQuiet(s: Server, pid: PlayerID, id: EntityID, ok: bool, detail: Detail, msg: Msg)
    requires Inert(msg)
    ensures Quiet(s, Amend(s, pid, id, ok, detail, msg))
  {}

  lemma MendQuiet(s: Server, pid: PlayerID, id: EntityID, amount: real)
    ensures Quiet(s, Mend(s, pid, id, amount))
  {}

  lemma KnockOutQuiet(s: Server, pid: PlayerID, victim: EntityID, attacker: EntityID, reason: nat, chest: real)
    ensures Quiet(s, KnockOut(s, pid, victim, attacker, reason, chest))
  {}

  lemma AmendmentQuiet(cfg: Config, s: Server, pid: PlayerID, pkt: Packet)
    requires PeersOk(s) && pid in s.players && (pkt.Equip? || pkt.ReportLimbs? || pkt.ReportStatus?)
    ensures Quiet(s, Act(cfg, s, pid, pkt))
  {
    match pkt
    case Equip(id, slot, item) =>
      var d := DetailOf(s, id);
      AmendQuiet(s, pid, id, slot < SLOTS,
                 if slot < SLOTS then d.(equipment := d.equipment[slot := item]) else d, EquipmentUpdate(id, slot, item));
    case ReportLimbs(id, limbs) =>
      AmendQuiet(s, pid, id, true, DetailOf(s, id).(limbHealth := limbs), LimbHealth(id, limbs));
    case ReportStatus(id, effect, active) =>
      var d := DetailOf(s, id);
      AmendQuiet(s, pid, id, effect < EFFECTS,
                 if effect < EFFECTS then d.(statusEffects := d.statusEffects[effect := active]) else d,
                 StatusEffect(id, effect, active));
  }

  lemma QuietAct(cfg: Config, s: Server, pid: PlayerID, pkt: Packet)
    requires PeersOk(s) && pid in s.players && QuietPacket(pkt)
    ensures Quiet(s, Act(cfg, s, pid, pkt))
  {
    if pkt.PositionUpdate? {
      MoveQuiet(s, pid, pkt.updates);
    } else if pkt.Repair? {
      MendQuiet(s, pid, pkt.building, pkt.amount);
    } else if pkt.ReportKO? {
      KnockOutQuiet(s, pid, pkt.victim, pkt.attacker, pkt.reason, pkt.chestHealth);
    } else if pkt.Equip? || pkt.ReportLimbs? || pkt.ReportStatus? {
      AmendmentQuiet(cfg, s, pid, pkt);
    }
  }

  lemma SpawnTold(v: View, p: PlayerID, e: Entity)
    ensures Observed(v, MessagesFor(p, [ToAll(SpawnMsg(e))])) == v[e.id := e.alive]
  {
    ObservedOne(v, p, ToAll(SpawnMsg(e)));
  }

  lemma SpawnMirror(cfg: Config, s: Server, pid: PlayerID, pkt: Packet, p: PlayerID,
                    unseen: set<EntityID>, stale: set<EntityID>, v: View)
    requires Inv(s) && pid in s.players && pkt.SpawnRequest? && Mirrors(s, unseen, stale, v)
    ensures var f := Spawn(cfg, s, pid, pkt);
            Mirrors(f.server, unseen, stale, Observed(v, MessagesFor(p, f.sends)))
  {
    if CanSpawn(s, pkt) {
      var e, f := NewEntity(cfg, s, pid, pkt), Spawn(cfg, s, pid, pkt);
      SpawnTold(v, p, e);
      InsertMirror(s, f.server, e, unseen, stale, v);
    }
  }

  lemma BuildMirror(cfg: Config, s: Server, pid: PlayerID, templateId: nat, position: Vec3, rotation: Quat, p: PlayerID,
                    unseen: set<EntityID>, stale: set<EntityID>, v: View)
    requires Inv(s) && pid in s.players && Mirrors(s, unseen, stale, v)
    ensures var f := Build(cfg, s, pid, templateId, position, rotation);
            Mirrors(f.server, if p == pid && CanBuild(s, pid, position) then unseen + {s.nextEntityId} else unseen,
                    stale, Observed(v, MessagesFor(p, f.sends)))
  {
    if CanBuild(s, pid, position) {
      var e, f := NewBuilding(cfg, s, pid, templateId, position, rotation), Build(cfg, s, pid, templateId, position, rotation);
      InsertMirror(s, f.server, e, unseen, stale, v);
      ObservedOne(v, p, f.sends[0]);
    }
  }

  lemma DespawnMirror(s: Server, pid: PlayerID, id: EntityID, reason: nat, p: PlayerID,
                      unseen: set<EntityID>, stale: set<EntityID>, v: View)
    requires Inv(s) && Mirrors(s, unseen, stale, v)
    ensures var f := Despawn(s, pid, id, reason);
            Mirrors(f.server, unseen, stale, Observed(v, MessagesFor(p, f.sends)))
  {
    var f := Despawn(s, pid, id, reason);
    if f.sends != [] {
      RemoveMirror(s, f.server, id, unseen, stale, v);
      ObservedOne(v, p, f.sends[0]);
    }
  }

  lemma DemolishMirror(s: Server, pid: PlayerID, id: EntityID, p: PlayerID,
                       unseen: set<EntityID>, stale: set<EntityID>, v: View)
    requires Inv(s) && Mirrors(s, unseen, stale, v)
    ensures var f := Demolish(s, pid, id);
            Mirrors(f.server, unseen,
                    if p == pid && MayManage(s, pid, id) && id !in unseen then stale + {id} else stale,
                    Observed(v, MessagesFor(p, f.sends)))
  {
    var f := Demolish(s, pid, id);
    if MayManage(s, pid, id) {
      RemoveMirror(s, f.server, id, unseen, stale, v);
      ObservedOne(v, p, f.sends[0]);
    }
  }

  lemma KillMirror(s: Server, pid: PlayerID, victim: EntityID, killer: EntityID, p: PlayerID,
                   unseen: set<EntityID>, stale: set<EntityID>, v: View)
    requires Inv(s) && Mirrors(s, unseen, stale, v)
    ensures var f := Kill(s, pid, victim, killer);
            Mirrors(f.server, unseen, stale, Observed(v, MessagesFor(p, f.sends)))
  {
    var f := Kill(s, pid, victim, killer);
    if MayReport(s, pid, victim, killer) {
      DeathMirror(s, f.server, victim, unseen, stale, v);
      ObservedOne(v, p, f.sends[0]);
    }
  }

  lemma FatalObserved(v: View, p: PlayerID, hit: Msg, target: EntityID, attacker: EntityID)
    requires Inert(hit)
    ensures Observed(v, MessagesFor(p, [ToAll(hit)] + [ToAll(CombatDeath(target, attacker))]))
            == if target in v then v[target := false] else v
  {
    ObservedSends(v, p, [ToAll(hit)], [ToAll(CombatDeath(target, attacker))]);
    ObservedOne(v, p, ToAll(hit));
    ObservedOne(v, p, ToAll(CombatDeath(target, attacker)));
  }

  lemma StrikeEntities(s: Server, target: EntityID, roll: Roll)
    requires target in s.entities && s.entities[target].alive
    ensures var s' := s.(entities := s.entities[target := Hit(s.entities[target], roll)]);
            && s'.entities.Keys == s.entities.Keys
            && (forall k :: k in s.entities && k != target ==> s'.entities[k].alive == s.entities[k].alive)
            && (s'.entities[target].alive <==> !Fatal(Struck(s.entities[target].health, roll)))
  {}

  lemma StrikeMirror(s: Server, pid: PlayerID, attacker: EntityID, target: EntityID, attackType: nat, roll: Roll, p: PlayerID,
                     unseen: set<EntityID>, stale: set<EntityID>, v: View)
    requires Inv(s) && Mirrors(s, unseen, stale, v)
    ensures var f := Strike(s, pid, attacker, target, attackType, roll);
            Mirrors(f.server, unseen, stale, Observed(v, MessagesFor(p, f.sends)))
  {
    var f := Strike(s, pid, attacker, target, attackType, roll);
    if CanStrike(s, pid, attacker, target, attackType) {
      StrikeEntities(s, target, roll);
      if Fatal(Struck(s.entities[target].health, roll)) {
        FatalObserved(v, p, f.sends[0].msg, target, attacker);
        DeathMirror(s, f.server, target, unseen, stale, v);
      } else {
        QuietMirror(s, f.server, p, unseen, stale, v, f.sends);
      }
    }
  }

  lemma ZoneMirror(s: Server, pid: PlayerID, zone: Zone, order: seq<EntityID>, p: PlayerID,
                   unseen: set<EntityID>, stale: set<EntityID>, v: View)
    requires Inv(s) && Mirrors(s, unseen, stale, v) && Enumerates(order, s.entities.Keys)
    ensures var ids := set id | id in s.entities && InZoneReply(s.entities[id], pid, zone);
            Mirrors(s, if p == pid then unseen - ids else unseen, stale,
                    Observed(v, MessagesFor(p, ZoneReply(pid, zone, order, s.entities))))
  {
    if p == pid {
      var ids := set id | id in s.entities && InZoneReply(s.entities[id], pid, zone);
      assert ids == Picked(order, InReply(s.entities, pid, zone));
      ZoneObserved(v, pid, zone, order, s.entities);
      ReplyMirror(s, unseen, stale, v, ids);
    } else {
      ZoneToOthers(p, pid, zone, order, s.entities);
    }
  }

  // ----- joins and departures

  /** Everything a handshake sends besides the snapshot is about players and the host. */
  lemma JoinObserved(s: Server, id: PlayerID, took: bool, es: seq<EntityID>, ps: seq<PlayerID>, p: PlayerID, v: View)
    requires id in s.players
    requires forall i :: 0 <= i < |es| ==> es[i] in s.entities
    requires forall i :: 0 <= i < |ps| ==> ps[i] in s.players
    ensures Observed(v, MessagesFor(p, Greeting(id, took) + Welcome(s, id, es, ps)))
            == Observed(v, MessagesFor(p, Snapshot(id, es, s.entities, s.players)))
  {
    var snap := Snapshot(id, es, s.entities, s.players);
    var first := [ToOne(id, FactionAssignment(FactionSlot(id))), ToOthers(id, PlayerJoined(id, NameOnWire(s.players[id].name)))];
    var intro, bye := Introductions(id, ps, s.players), [ToAll(SystemMessage(s.players[id].name + " joined the game"))];
    IntroductionsIntroduce(id, ps, s.players);
    hide Snapshot, Introductions, MessagesFor, Observed;
    var head := Greeting(id, took) + (first + intro);
    assert AllInert(head);
    assert Greeting(id, took) + Welcome(s, id, es, ps) == head + snap + bye;
    ObservedSends(v, p, head + snap, bye);
    ObservedSends(v, p, head, snap);
    InertObserved(v, p, head);
    InertObserved(Observed(v, MessagesFor(p, head + snap)), p, bye);
  }

  lemma JoinedVital(s: Server, peer: Peer, name: string, loopback: bool)
    ensures SameVital(s.entities, Joined(s, peer, name, loopback).entities)
    ensures Keyed(s.entities) ==> Keyed(Joined(s, peer, name, loopback).entities)
  {}

  lemma ShownAreInRange(s: Server, s': Server, es: seq<EntityID>)
    requires OwnersOk(s') && Enumerates(es, s.entities.Keys) && s'.entities.Keys == s.entities.Keys
    requires forall k :: k in s.entities ==> s'.entities[k].position == s.entities[k].position
    ensures Picked(es, ShownTo(s'.entities, s'.players))
            == s'.entities.Keys - set k | k in s.entities && !InRange(s.entities[k].position)
  {
    hide InRange;
  }

  /** The snapshot shows a newcomer every entity in range. */
  lemma NewcomerMirror(s: Server, s': Server, id: PlayerID, es: seq<EntityID>)
    requires Inv(s) && Inv(s') && Enumerates(es, s.entities.Keys) && SameVital(s.entities, s'.entities)
    requires forall k :: k in s.entities ==> s'.entities[k].position == s.entities[k].position
    requires s'.nextEntityId == s.nextEntityId
    ensures Mirrors(s', set k | k in s.entities && !InRange(s.entities[k].position), {},
                    Observed(map[], MessagesFor(id, Snapshot(id, es, s'.entities, s'.players))))
  {
    hide InRange, Snapshot, ShownTo, MessagesFor, Observed;
    SnapshotObserved(map[], id, es, s'.entities, s'.players);
    ShownAreInRange(s, s', es);
    var shown := Picked(es, ShownTo(s'.entities, s'.players));
    assert Told(map[], shown, s'.entities).Keys == shown;
  }

  lemma JoinSeen(cfg: Config, s: Server, e: Event, p: PlayerID, v: View)
    requires Inv(s) && e.Joins? && Enabled(s, e) && Admits(cfg, s, e.peer, e.version)
    ensures var s' := Joined(s, e.peer, Sanitized(e.raw), e.loopback);
            Observed(v, MessagesFor(p, Step(cfg, s, e).sends))
            == Observed(v, MessagesFor(p, Snapshot(s.nextPlayerId, e.entityOrder, s'.entities, s'.players)))
  {
    var s' := Joined(s, e.peer, Sanitized(e.raw), e.loopback);
    JoinStep(cfg, s, e);
    JoinObserved(s', s.nextPlayerId, TakesOverHost(s, e.loopback), e.entityOrder, e.playerOrder, p, v);
  }

  lemma OldcomerMirror(cfg: Config, s: Server, e: Event, p: PlayerID, unseen: set<EntityID>, stale: set<EntityID>, v: View)
    requires Inv(s) && e.Joins? && Enabled(s, e) && Admits(cfg, s, e.peer, e.version)
    requires p in s.players && Mirrors(s, unseen, stale, v)
    ensures Mirrors(Step(cfg, s, e).server, unseen, stale, Observed(v, MessagesFor(p, Step(cfg, s, e).sends)))
  {
    var s' := Joined(s, e.peer, Sanitized(e.raw), e.loopback);
    JoinStep(cfg, s, e);
    JoinSeen(cfg, s, e, p, v);
    JoinedVital(s, e.peer, Sanitized(e.raw), e.loopback);
    SnapshotToOthers(p, s.nextPlayerId, e.entityOrder, s'.entities, s'.players);
    QuietMirror(s, s', p, unseen, stale, v, []);
  }

  lemma JoinMirror(cfg: Config, s: Server, e: Event)
    requires Inv(s) && e.Joins? && Enabled(s, e) && Admits(cfg, s, e.peer, e.version)
    ensures var p := s.nextPlayerId;
            Mirrors(Step(cfg, s, e).server, UnseenAfter(cfg, s, e, p, {}), {},
                    Observed(map[], MessagesFor(p, Step(cfg, s, e).sends)))
  {
    var s' := Joined(s, e.peer, Sanitized(e.raw), e.loopback);
    JoinStep(cfg, s, e);
    JoinSeen(cfg, s, e, s.nextPlayerId, map[]);
    JoinedKeepsInv(s, e.peer, Sanitized(e.raw), e.loopback);
    JoinedVital(s, e.peer, Sanitized(e.raw), e.loopback);
    NewcomerMirror(s, s', s.nextPlayerId, e.entityOrder);
  }

  lemma FarewellInert(pid: PlayerID, name: string, heir: PlayerID, heirName: string)
    ensures AllInert(Farewell(pid, name, Succession(heir, heirName))) && AllInert(Farewell(pid, name, []))
  {}

  lemma LeaveMirror(s: Server, peer: Peer, order: seq<EntityID>, heir: PlayerID, p: PlayerID,
                    unseen: set<EntityID>, stale: set<EntityID>, v: View)
    requires Inv(s) && Enabled(s, Leaves(peer, order, heir)) && peer in s.peers && Mirrors(s, unseen, stale, v)
    ensures var f := Disconnect(s, peer, order, heir);
            Mirrors(f.server, unseen, stale, Observed(v, MessagesFor(p, f.sends)))
  {
    var f, pid := Disconnect(s, peer, order, heir), s.peers[peer];
    assert SameVital(s.entities, f.server.entities);
    FarewellInert(pid, s.players[pid].name, heir,
                  if heir in s.players - {pid} then (s.players - {pid})[heir].name else "");
    QuietMirror(s, f.server, p, unseen, stale, v, f.sends);
  }

  /** What a packet leaves in one client's view. */
  predicate MirrorsAfter(cfg: Config, s: Server, peer: Peer, pkt: Packet, p: PlayerID,
                         unseen: set<EntityID>, stale: set<EntityID>, v: View)
    requires PeersOk(s) && peer in s.peers && WellOrdered(s, pkt)
  {
    var e, f := Packets(peer, pkt), Act(cfg, s, s.peers[peer], pkt);
    Mirrors(f.server, UnseenAfter(cfg, s, e, p, unseen), StaleAfter(s, e, p, unseen, stale),
            Observed(v, MessagesFor(p, f.sends)))
  }

  lemma CombatMirror(cfg: Config, s: Server, peer: Peer, pkt: Packet, p: PlayerID,
                     unseen: set<EntityID>, stale: set<EntityID>, v: View)
    requires Inv(s) && peer in s.peers && Mirrors(s, unseen, stale, v) && (pkt.AttackIntent? || pkt.ReportDeath?)
    ensures MirrorsAfter(cfg, s, peer, pkt, p, unseen, stale, v)
  {
    if pkt.AttackIntent? {
      StrikeMirror(s, s.peers[peer], pkt.attacker, pkt.target, pkt.attackType, pkt.roll, p, unseen, stale, v);
    } else {
      KillMirror(s, s.peers[peer], pkt.victim, pkt.killer, p, unseen, stale, v);
    }
  }

  lemma ArrivalMirror(cfg: Config, s: Server, peer: Peer, pkt: Packet, p: PlayerID,
                      unseen: set<EntityID>, stale: set<EntityID>, v: View)
    requires Inv(s) && peer in s.peers && Mirrors(s, unseen, stale, v) && (pkt.BuildRequest? || pkt.SpawnRequest?)
    ensures MirrorsAfter(cfg, s, peer, pkt, p, unseen, stale, v)
  {
    hide Mirrors, Observed, MessagesFor, Build, Spawn;
    if pkt.BuildRequest? {
      BuildMirror(cfg, s, s.peers[peer], pkt.templateId, pkt.position, pkt.rotation, p, unseen, stale, v);
    } else {
      SpawnMirror(cfg, s, s.peers[peer], pkt, p, unseen, stale, v);
    }
  }

  lemma RemovalMirror(cfg: Config, s: Server, peer: Peer, pkt: Packet, p: PlayerID,
                      unseen: set<EntityID>, stale: set<EntityID>, v: View)
    requires Inv(s) && peer in s.peers && Mirrors(s, unseen, stale, v) && (pkt.DespawnRequest? || pkt.Dismantle?)
    ensures MirrorsAfter(cfg, s, peer, pkt, p, unseen, stale, v)
  {
    hide Mirrors, Observed, MessagesFor, Despawn, Demolish;
    if pkt.DespawnRequest? {
      DespawnMirror(s, s.peers[peer], pkt.entity, pkt.reason, p, unseen, stale, v);
    } else {
      DemolishMirror(s, s.peers[peer], pkt.building, p, unseen, stale, v);
    }
  }

  lemma PacketMirror(cfg: Config, s: Server, peer: Peer, pkt: Packet, p: PlayerID,
                     unseen: set<EntityID>, stale: set<EntityID>, v: View)
    requires Inv(s) && peer in s.peers && WellOrdered(s, pkt) && Mirrors(s, unseen, stale, v)
    ensures MirrorsAfter(cfg, s, peer, pkt, p, unseen, stale, v)
  {
    if pkt.AttackIntent? || pkt.ReportDeath? {
      CombatMirror(cfg, s, peer, pkt, p, unseen, stale, v);
    } else if pkt.BuildRequest? || pkt.SpawnRequest? {
      ArrivalMirror(cfg, s, peer, pkt, p, unseen, stale, v);
    } else if pkt.DespawnRequest? || pkt.Dismantle? {
      RemovalMirror(cfg, s, peer, pkt, p, unseen, stale, v);
    } else if pkt.ZoneRequest? {
      ZoneMirror(s, s.peers[peer], pkt.zone, pkt.order, p, unseen, stale, v);
    } else {
      QuietAct(cfg, s, s.peers[peer], pkt);
      QuietMirror(s, Act(cfg, s, s.peers[peer], pkt).server, p, unseen, stale, v, Act(cfg, s, s.peers[peer], pkt).sends);
    }
  }

  lemma StepMirrorJoins(cfg: Config, s: Server, e: Event, p: PlayerID, unseen: set<EntityID>, stale: set<EntityID>, v: View)
    requires Inv(s) && Enabled(s, e) && e.Joins? && p in Step(cfg, s, e).server.players
    requires p in s.players ==> Mirrors(s, unseen, stale, v)
    requires p !in s.players ==> unseen == {} && stale == {} && v == map[]
    ensures Mirrors(Step(cfg, s, e).server, UnseenAfter(cfg, s, e, p, unseen), stale,
                    Observed(v, MessagesFor(p, Step(cfg, s, e).sends)))
  {
    if !Admits(cfg, s, e.peer, e.version) {
      RejectStep(cfg, s, e);
      InertObserved(v, p, Step(cfg, s, e).sends);
    } else if p in s.players {
      OldcomerMirror(cfg, s, e, p, unseen, stale, v);
    } else {
      JoinStep(cfg, s, e);
      JoinMirror(cfg, s, e);
    }
  }

  lemma StepMirrorLeaves(cfg: Config, s: Server, e: Event, p: PlayerID, unseen: set<EntityID>, stale: set<EntityID>, v: View)
    requires Inv(s) && Enabled(s, e) && e.Leaves? && Mirrors(s, unseen, stale, v)
    ensures Mirrors(Step(cfg, s, e).server, unseen, stale, Observed(v, MessagesFor(p, Step(cfg, s, e).sends)))
  {
    if e.peer in s.peers {
      LeaveMirror(s, e.peer, e.entityOrder, e.heir, p, unseen, stale, v);
    }
  }

  lemma StepMirrorPackets(cfg: Config, s: Server, e: Event, p: PlayerID, unseen: set<EntityID>, stale: set<EntityID>, v: View)
    requires Inv(s) && Enabled(s, e) && e.Packets? && Mirrors(s, unseen, stale, v)
    ensures Mirrors(Step(cfg, s, e).server, UnseenAfter(cfg, s, e, p, unseen), StaleAfter(s, e, p, unseen, stale),
                    Observed(v, MessagesFor(p, Step(cfg, s, e).sends)))
  {
    if e.peer in s.peers {
      PacketMirror(cfg, s, e.peer, e.pkt, p, unseen, stale, v);
    }
  }

  lemma OldPlayers(cfg: Config, s: Server, e: Event, p: PlayerID)
    requires Inv(s) && Enabled(s, e) && p in Step(cfg, s, e).server.players && !e.Joins?
    ensures p in s.players && !e.Restarts?
  {
    if e.Packets? && e.peer in s.peers {
      ActFrame(cfg, s, s.peers[e.peer], e.pkt);
    }
  }

  lemma StepMirror(cfg: Config, s: Server, e: Event, p: PlayerID, unseen: set<EntityID>, stale: set<EntityID>, v: View)
    requires Inv(s) && Enabled(s, e) && p in Step(cfg, s, e).server.players
    requires p in s.players ==> Mirrors(s, unseen, stale, v)
    requires p !in s.players ==> unseen == {} && stale == {} && v == map[]
    ensures Mirrors(Step(cfg, s, e).server, UnseenAfter(cfg, s, e, p, unseen), StaleAfter(s, e, p, unseen, stale),
                    Observed(v, MessagesFor(p, Step(cfg, s, e).sends)))
  {
    if e.Joins? {
      StepMirrorJoins(cfg, s, e, p, unseen, stale, v);
    } else {
      OldPlayers(cfg, s, e, p);
      if e.Leaves? {
        StepMirrorLeaves(cfg, s, e, p, unseen, stale, v);
      } else if e.Packets? {
        StepMirrorPackets(cfg, s, e, p, unseen, stale, v);
      } else {
        SweepRemovesNothing(s, e.entityOrder);
      }
    }
  }

  // ----- whole runs

  function Unseen(cfg: Config, states: seq<Server>, events: seq<Event>, i: nat, p: PlayerID): set<EntityID>
    requires IsRun(cfg, states, events) && i < |states|
  {
    if i == 0 || p !in states[i].players then {}
    else UnseenAfter(cfg, states[i - 1], events[i - 1], p, Unseen(cfg, states, events, i - 1, p))
  }

  function Stale(cfg: Config, states: seq<Server>, events: seq<Event>, i: nat, p: PlayerID): set<EntityID>
    requires IsRun(cfg, states, events) && i < |states|
  {
    if i == 0 || p !in states[i].players then {}
    else StaleAfter(states[i - 1], events[i - 1], p, Unseen(cfg, states, events, i - 1, p),
                    Stale(cfg, states, events, i - 1, p))
  }

  lemma NextMirror(cfg: Config, states: seq<Server>, events: seq<Event>, i: nat, p: PlayerID)
    requires IsRun(cfg, states, events) && i < |events| && Inv(states[i]) && p in states[i + 1].players
    requires p in states[i].players ==>
      Mirrors(states[i], Unseen(cfg, states, events, i, p), Stale(cfg, states, events, i, p),
              Observed(map[], Log(cfg, states, events, i, p)))
    ensures Mirrors(states[i + 1], Unseen(cfg, states, events, i + 1, p), Stale(cfg, states, events, i + 1, p),
                    Observed(map[], Log(cfg, states, events, i + 1, p)))
  {
    var before, sends := Log(cfg, states, events, i, p), Step(cfg, states[i], events[i]).sends;
    ObservedConcat(map[], before, MessagesFor(p, sends));
    StepMirror(cfg, states[i], events[i], p, Unseen(cfg, states, events, i, p), Stale(cfg, states, events, i, p),
               Observed(map[], before));
  }

  /** Replication over every run: folding the messages of any connected client gives
      exactly the server's entities with their alive flags, less those the client was
      never told about, plus those it dismantled itself. */
  lemma {:induction false} Replicated(cfg: Config, states: seq<Server>, events: seq<Event>, i: nat, p: PlayerID)
    requires IsRun(cfg, states, events) && i < |states| && Inv(states[0]) && states[0].players.Keys == {}
    requires p in states[i].players
    ensures Mirrors(states[i], Unseen(cfg, states, events, i, p), Stale(cfg, states, events, i, p),
                    Observed(map[], Log(cfg, states, events, i, p)))
  {
    assert i > 0;
    RunKeepsInv(cfg, states, events, i - 1);
    if p in states[i - 1].players {
      Replicated(cfg, states, events, i - 1, p);
    }
    NextMirror(cfg, states, events, i - 1, p);
  }
}
