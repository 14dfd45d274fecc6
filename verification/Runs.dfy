/** Runs of the server together with what each client has received. */
module Runs {
  import opened Types
  import opened Combat
  import opened ServerModel
  import opened Persistence

  datatype Event =
    | Joins(peer: Peer, version: nat, raw: string, loopback: bool,
            entityOrder: seq<EntityID>, playerOrder: seq<PlayerID>)
    | Leaves(peer: Peer, entityOrder: seq<EntityID>, heir: PlayerID)
    | Packets(peer: Peer, pkt: Packet)
    | Sweeps(entityOrder: seq<EntityID>)
    | Restarts(entityOrder: seq<EntityID>, playerOrder: seq<PlayerID>)

  /** Transport-level consistency, which the dispatch of packets to players rests on. */
  predicate PeersOk(s: Server) {
    && (forall q :: q in s.peers ==> s.peers[q] in s.players && s.players[s.peers[q]].peer == q)
    && (forall p :: p in s.players ==> s.players[p].id == p && s.players[p].peer in s.peers
                                       && s.peers[s.players[p].peer] == p)
  }

  /** The environment's choices are ones it could make in this state. */
  predicate Enabled(s: Server, e: Event) {
    match e
    case Joins(_, _, _, _, es, ps) =>
      Enumerates(es, s.entities.Keys) && Enumerates(ps, s.players.Keys + {s.nextPlayerId})
    case Leaves(peer, es, heir) =>
      && Enumerates(es, s.entities.Keys)
      && (peer in s.peers && s.players.Keys - {s.peers[peer]} != {} ==> heir in s.players.Keys - {s.peers[peer]})
    case Packets(_, pkt) => WellOrdered(s, pkt) && (pkt.AttackIntent? ==> ValidRoll(pkt.roll))
    case Sweeps(es) => Enumerates(es, s.entities.Keys)
    case Restarts(es, ps) => Enumerates(es, s.entities.Keys) && Enumerates(ps, s.players.Keys)
  }

  function Step(cfg: Config, s: Server, e: Event): Effect
    requires PeersOk(s) && Enabled(s, e)
  {
    match e
    case Joins(peer, version, raw, loopback, es, ps) => Handshake(cfg, s, peer, version, raw, loopback, es, ps)
    case Leaves(peer, es, heir) => Disconnect(s, peer, es, heir)
    case Packets(peer, pkt) =>
      if peer in s.peers then Act(cfg, s, s.peers[peer], pkt) else Effect(s, [])
    case Sweeps(es) => Sweep(s, es)
    case Restarts(es, ps) => Effect(Restart(cfg, s, es, ps), [])
  }

  // ----- what the longer lists of sends consist of

  predicate OnlyShows(sends: seq<Send>) {
    forall i :: 0 <= i < |sends| ==> sends[i].msg.EntitySpawn? || sends[i].msg.EquipmentUpdate?
  }

  predicate OnlyEquips(sends: seq<Send>) { forall i :: 0 <= i < |sends| ==> sends[i].msg.EquipmentUpdate? }

  predicate OnlyIntroduces(sends: seq<Send>) { forall i :: 0 <= i < |sends| ==> sends[i].msg.PlayerJoined? }

  lemma {:induction false} EquipmentShows(to: PlayerID, e: Entity, n: nat)
    requires n <= SLOTS
    ensures OnlyEquips(EquipmentSends(to, e, n))
  {
    if n > 0 {
      EquipmentShows(to, e, n - 1);
    }
  }

  lemma {:induction false} SnapshotShows(to: PlayerID, order: seq<EntityID>, entities: Entities, players: Players)
    requires forall i :: 0 <= i < |order| ==> order[i] in entities
    ensures OnlyShows(Snapshot(to, order, entities, players))
  {
    if order != [] {
      SnapshotShows(to, order[..|order| - 1], entities, players);
      EquipmentShows(to, entities[order[|order| - 1]], SLOTS);
    }
  }

  lemma {:induction false} IntroductionsIntroduce(to: PlayerID, order: seq<PlayerID>, players: Players)
    requires forall i :: 0 <= i < |order| ==> order[i] in players
    ensures OnlyIntroduces(Introductions(to, order, players))
  {
    if order != [] {
      IntroductionsIntroduce(to, order[..|order| - 1], players);
    }
  }

  lemma {:induction false} ZoneReplyShows(pid: PlayerID, zone: Zone, order: seq<EntityID>, entities: Entities)
    requires forall i :: 0 <= i < |order| ==> order[i] in entities
    ensures OnlyShows(ZoneReply(pid, zone, order, entities))
  {
    if order != [] {
      ZoneReplyShows(pid, zone, order[..|order| - 1], entities);
    }
  }

  // ----- the invariant of the server's state

  predicate IdsOk(s: Server) {
    && (forall id :: id in s.entities ==> 0 < id < s.nextEntityId && s.entities[id].id == id)
    && (forall p :: p in s.players ==> 0 < p < s.nextPlayerId)
    && 0 < s.nextEntityId && 0 < s.nextPlayerId
  }

  /** Every entity is unowned or owned by a connected player. */
  predicate OwnersOk(s: Server) {
    forall id :: id in s.entities ==> s.entities[id].owner == 0 || s.entities[id].owner in s.players
  }

  /** There is a host exactly when somebody is connected, and the host is connected. */
  predicate HostOk(s: Server) {
    (s.host == 0 <==> s.players.Keys == {}) && (s.host != 0 ==> s.host in s.players)
  }

  /** A saved record names only unowned or removed entities. */
  predicate RecordsUnowned(s: Server) {
    forall n :: n in s.saved ==> Unowned(s, s.saved[n])
  }

  predicate Unowned(s: Server, ids: seq<EntityID>) {
    forall id :: id in ids ==> id < s.nextEntityId && (id in s.entities ==> s.entities[id].owner == 0)
  }

  predicate RecordsDisjoint(saved: map<string, seq<EntityID>>) {
    forall m, n, id :: m in saved && n in saved && id in saved[m] && id in saved[n] ==> m == n
  }

  predicate Inv(s: Server) {
    IdsOk(s) && PeersOk(s) && OwnersOk(s) && HostOk(s) && RecordsUnowned(s) && RecordsDisjoint(s.saved)
  }

  lemma InvFresh()
    ensures Inv(FRESH)
  {}

  // ----- the steps that are not packets

  lemma JoinStep(cfg: Config, s: Server, e: Event)
    requires Inv(s) && e.Joins? && Enabled(s, e) && Admits(cfg, s, e.peer, e.version)
    ensures var s' := Joined(s, e.peer, Sanitized(e.raw), e.loopback);
            && Step(cfg, s, e).server == s'
            && Step(cfg, s, e).sends == Greeting(s.nextPlayerId, TakesOverHost(s, e.loopback))
                                        + Welcome(s', s.nextPlayerId, e.entityOrder, e.playerOrder)
  {}

  lemma RejectStep(cfg: Config, s: Server, e: Event)
    requires Inv(s) && e.Joins? && Enabled(s, e) && !Admits(cfg, s, e.peer, e.version)
    ensures Step(cfg, s, e).server == s
    ensures forall i :: 0 <= i < |Step(cfg, s, e).sends| ==> Step(cfg, s, e).sends[i].msg.HandshakeReject?
  {}

  /** A disconnect or packet from a peer without a player does nothing. */
  lemma IdleStep(cfg: Config, s: Server, e: Event)
    requires Inv(s) && Enabled(s, e) && (e.Leaves? || e.Packets?) && e.peer !in s.peers
    ensures Step(cfg, s, e) == Effect(s, [])
  {}

  lemma LeaveStep(cfg: Config, s: Server, e: Event)
    requires Inv(s) && Enabled(s, e) && e.Leaves? && e.peer in s.peers
    ensures Step(cfg, s, e).server == Left(s, s.peers[e.peer], e.entityOrder, e.heir)
  {}

  // ----- what a packet can and cannot change

  /** The frame every packet from a player respects, whatever its kind. */
  predicate PacketFrame(cfg: Config, s: Server, s': Server, pid: PlayerID) {
    && s'.peers == s.peers && s'.saved == s.saved && s'.host == s.host && s'.nextPlayerId == s.nextPlayerId
    && s'.players.Keys == s.players.Keys
    && (forall p :: p in s.players ==> s'.players[p] == s.players[p].(position := s'.players[p].position,
                                         zone := s'.players[p].zone, isReady := s'.players[p].isReady))
    && s.nextEntityId <= s'.nextEntityId <= s.nextEntityId + 1
    && (forall id :: id in s'.entities ==> id in s.entities || (id == s.nextEntityId && id < s'.nextEntityId))
    && (forall id :: id in s'.entities && id in s.entities ==> Continues(s.entities[id], s'.entities[id]))
    && (forall id :: id in s'.entities && id !in s.entities ==>
          s'.entities[id].id == id && s'.entities[id].owner == pid && s'.entities[id].authority == cfg.authority)
  }

  /** One entity before and after a packet: same identity, owner and authority, and
      never back from the dead. */
  predicate Continues(e: Entity, e': Entity) {
    e'.id == e.id && e'.owner == e.owner && e'.authority == e.authority && (e'.alive ==> e.alive)
  }

  lemma {:induction false} MovedFrame(entities: Entities, pid: PlayerID, updates: seq<Placement>)
    ensures Moved(entities, pid, updates).Keys == entities.Keys
    ensures forall id :: id in entities ==> Continues(entities[id], Moved(entities, pid, updates)[id])
  {
    if updates != [] {
      MovedFrame(entities, pid, updates[..|updates| - 1]);
    }
  }

  lemma {:induction false} TrackedFrame(entities: Entities, player: Player, updates: seq<Placement>)
    ensures var t := Tracked(entities, player, updates);
            t == player.(position := t.position, zone := t.zone)
  {
    if updates != [] {
      TrackedFrame(entities, player, updates[1..]);
    }
  }

  lemma UpdateFrame(cfg: Config, s: Server, pid: PlayerID, id: EntityID, e: Entity)
    requires PeersOk(s) && IdsOk(s) && id in s.entities && Continues(s.entities[id], e)
    ensures PacketFrame(cfg, s, s.(entities := s.entities[id := e]), pid)
  {}

  lemma RemoveFrame(cfg: Config, s: Server, pid: PlayerID, id: EntityID)
    requires PeersOk(s) && IdsOk(s)
    ensures PacketFrame(cfg, s, s.(entities := s.entities - {id}), pid)
  {}

  lemma InsertFrame(cfg: Config, s: Server, pid: PlayerID, e: Entity, p: Player)
    requires PeersOk(s) && IdsOk(s) && pid in s.players
    requires e.id == s.nextEntityId && e.owner == pid && e.authority == cfg.authority
    requires p == s.players[pid].(position := p.position, zone := p.zone)
    ensures PacketFrame(cfg, s, s.(entities := s.entities[e.id := e], nextEntityId := e.id + 1,
                                   players := s.players[pid := p]), pid)
  {}

  lemma SpawnFrame(cfg: Config, s: Server, pid: PlayerID, pkt: Packet)
    requires PeersOk(s) && IdsOk(s) && pid in s.players && pkt.SpawnRequest?
    ensures PacketFrame(cfg, s, Spawn(cfg, s, pid, pkt).server, pid)
  {
    if CanSpawn(s, pkt) {
      var e, p := NewEntity(cfg, s, pid, pkt), s.players[pid];
      InsertFrame(cfg, s, pid, e, p.(position := e.position, zone := e.zone));
      InsertFrame(cfg, s, pid, e, p);
      assert s.players[pid := p] == s.players;
    }
  }

  lemma BuildFrame(cfg: Config, s: Server, pid: PlayerID, templateId: nat, position: Vec3, rotation: Quat)
    requires PeersOk(s) && IdsOk(s) && pid in s.players
    ensures PacketFrame(cfg, s, Build(cfg, s, pid, templateId, position, rotation).server, pid)
  {
    if CanBuild(s, pid, position) {
      InsertFrame(cfg, s, pid, NewBuilding(cfg, s, pid, templateId, position, rotation), s.players[pid]);
      assert s.players[pid := s.players[pid]] == s.players;
    }
  }

  lemma MoveFrame(cfg: Config, s: Server, pid: PlayerID, updates: seq<Placement>)
    requires PeersOk(s) && IdsOk(s) && pid in s.players
    ensures PacketFrame(cfg, s, MoveEntities(s, pid, updates).server, pid)
  {
    MovedFrame(s.entities, pid, updates);
    TrackedFrame(s.entities, s.players[pid], updates);
  }

  lemma CombatFrame(cfg: Config, s: Server, pid: PlayerID, pkt: Packet)
    requires PeersOk(s) && IdsOk(s) && pid in s.players
    requires pkt.AttackIntent? || pkt.ReportKO? || pkt.ReportDeath?
    ensures PacketFrame(cfg, s, Act(cfg, s, pid, pkt).server, pid)
  {
    hide DistSq, KnockedOut, Fatal;
    match pkt
    case AttackIntent(attacker, target, attackType, roll) =>
      if CanStrike(s, pid, attacker, target, attackType) {
        UpdateFrame(cfg, s, pid, target, Hit(s.entities[target], roll));
      }
    case ReportKO(victim, attacker, _, chest) =>
      if MayReport(s, pid, victim, attacker) {
        var e := s.entities[victim];
        UpdateFrame(cfg, s, pid, victim, e.(health := e.health[0 := chest]));
      }
    case ReportDeath(victim, killer) =>
      if MayReport(s, pid, victim, killer) {
        UpdateFrame(cfg, s, pid, victim, s.entities[victim].(alive := false));
      }
  }

  lemma AmendFrame(cfg: Config, s: Server, pid: PlayerID, id: EntityID, ok: bool, detail: Detail, msg: Msg)
    requires PeersOk(s) && IdsOk(s)
    ensures PacketFrame(cfg, s, Amend(s, pid, id, ok, detail, msg).server, pid)
  {
    if id in s.entities {
      UpdateFrame(cfg, s, pid, id, s.entities[id].(detail := detail));
    }
  }

  lemma MendFrame(cfg: Config, s: Server, pid: PlayerID, id: EntityID, amount: real)
    requires PeersOk(s) && IdsOk(s)
    ensures PacketFrame(cfg, s, Mend(s, pid, id, amount).server, pid)
  {
    if id in s.entities {
      var e := s.entities[id];
      var progress := Clamped(e.detail.buildProgress + amount);
      UpdateFrame(cfg, s, pid, id, e.(detail := e.detail.(buildProgress := progress)));
    }
  }

  lemma AmendmentFrame(cfg: Config, s: Server, pid: PlayerID, pkt: Packet)
    requires PeersOk(s) && IdsOk(s) && pid in s.players
    requires pkt.Equip? || pkt.ReportLimbs? || pkt.ReportStatus?
    ensures PacketFrame(cfg, s, Act(cfg, s, pid, pkt).server, pid)
  {
    hide PacketFrame;
    match pkt
    case Equip(id, slot, item) =>
      var d := DetailOf(s, id);
      AmendFrame(cfg, s, pid, id, slot < SLOTS,
                 if slot < SLOTS then d.(equipment := d.equipment[slot := item]) else d,
                 EquipmentUpdate(id, slot, item));
    case ReportLimbs(id, limbs) =>
      AmendFrame(cfg, s, pid, id, true, DetailOf(s, id).(limbHealth := limbs), LimbHealth(id, limbs));
    case ReportStatus(id, effect, active) =>
      var d := DetailOf(s, id);
      AmendFrame(cfg, s, pid, id, effect < EFFECTS,
                 if effect < EFFECTS then d.(statusEffects := d.statusEffects[effect := active]) else d,
                 StatusEffect(id, effect, active));
  }

  lemma RemovalFrame(cfg: Config, s: Server, pid: PlayerID, pkt: Packet)
    requires PeersOk(s) && IdsOk(s) && pid in s.players
    requires pkt.DespawnRequest? || pkt.Dismantle?
    ensures PacketFrame(cfg, s, Act(cfg, s, pid, pkt).server, pid)
  {
    RemoveFrame(cfg, s, pid, if pkt.Dismantle? then pkt.building else pkt.entity);
  }

  lemma ReadyFrame(cfg: Config, s: Server, pid: PlayerID)
    requires PeersOk(s) && IdsOk(s) && pid in s.players
    ensures PacketFrame(cfg, s, MarkReady(s, pid).server, pid)
  {}

  lemma SameFrame(cfg: Config, s: Server, pid: PlayerID)
    requires PeersOk(s) && IdsOk(s)
    ensures PacketFrame(cfg, s, s, pid)
  {}

  /** Every packet, whatever its kind and contents, stays within the frame. */
  lemma ActFrame(cfg: Config, s: Server, pid: PlayerID, pkt: Packet)
    requires PeersOk(s) && IdsOk(s) && pid in s.players && WellOrdered(s, pkt)
    ensures PacketFrame(cfg, s, Act(cfg, s, pid, pkt).server, pid)
  {
    if pkt.PositionUpdate? {
      MoveFrame(cfg, s, pid, pkt.updates);
    } else if pkt.BuildRequest? {
      BuildFrame(cfg, s, pid, pkt.templateId, pkt.position, pkt.rotation);
    } else if pkt.SpawnRequest? {
      SpawnFrame(cfg, s, pid, pkt);
    } else if pkt.Repair? {
      MendFrame(cfg, s, pid, pkt.building, pkt.amount);
    } else if pkt.AttackIntent? || pkt.ReportKO? || pkt.ReportDeath? {
      CombatFrame(cfg, s, pid, pkt);
    } else if pkt.Equip? || pkt.ReportLimbs? || pkt.ReportStatus? {
      AmendmentFrame(cfg, s, pid, pkt);
    } else if pkt.DespawnRequest? || pkt.Dismantle? {
      RemovalFrame(cfg, s, pid, pkt);
    } else if pkt.Ready? {
      ReadyFrame(cfg, s, pid);
    } else {
      SameFrame(cfg, s, pid);
    }
  }

  lemma FrameKeepsInv(cfg: Config, s: Server, s': Server, pid: PlayerID)
    requires Inv(s) && pid in s.players && PacketFrame(cfg, s, s', pid)
    ensures Inv(s')
  {
    forall n | n in s'.saved ensures Unowned(s', s'.saved[n]) {
      assert Unowned(s, s.saved[n]);
    }
  }
}
