/** What each packet does, in terms of the entities alone: exactly when it is accepted, what it
    changes then, and what is sent. Everything else is left as it is, and a packet that is not
    accepted does nothing at all. */
module Handling {
  import opened Types
  import opened Combat
  import opened ServerModel
  import opened Runs

  /** A live entity of this player's under player authority. */
  predicate Commands(s: Server, pid: PlayerID, id: EntityID) {
    id in s.entities && var e := s.entities[id]; e.alive && e.owner == pid && e.authority.PlayerSide?
  }

  predicate Owns(s: Server, pid: PlayerID, id: EntityID) { id in s.entities && s.entities[id].owner == pid }

  /** Within a million in every coordinate. */
  predicate OnMap(v: Vec3) {
    -1000000.0 <= v.x <= 1000000.0 && -1000000.0 <= v.y <= 1000000.0 && -1000000.0 <= v.z <= 1000000.0
  }

  predicate Within(a: Vec3, b: Vec3, reach: real) {
    var x, y, z := b.x - a.x, b.y - a.y, b.z - a.z;
    x * x + y * y + z * z <= reach * reach
  }

  /** One entity replaced, nothing else. */
  function With(s: Server, id: EntityID, e: Entity): Server { s.(entities := s.entities[id := e]) }

  // ----- reports

  /** A death report is accepted from the victim's owner and from the killer's owner, for a live
      victim, and from nobody else. */
  lemma DeathReported(cfg: Config, s: Server, pid: PlayerID, victim: EntityID, killer: EntityID)
    requires PeersOk(s) && pid in s.players
    ensures var f := Act(cfg, s, pid, ReportDeath(victim, killer));
            if victim in s.entities && s.entities[victim].alive && (Owns(s, pid, victim) || (killer != 0 && Owns(s, pid, killer)))
            then f == Effect(With(s, victim, s.entities[victim].(alive := false)), [ToAll(CombatDeath(victim, killer))])
            else f == Effect(s, [])
  {}

  lemma KnockOutReported(cfg: Config, s: Server, pid: PlayerID, victim: EntityID, attacker: EntityID, reason: nat, chest: real)
    requires PeersOk(s) && pid in s.players
    ensures var f := Act(cfg, s, pid, ReportKO(victim, attacker, reason, chest));
            if victim in s.entities && s.entities[victim].alive && (Owns(s, pid, victim) || (attacker != 0 && Owns(s, pid, attacker)))
            then f == Effect(With(s, victim, s.entities[victim].(health := s.entities[victim].health[0 := chest])),
                             [ToAll(CombatKO(victim, attacker, reason, chest))])
            else f == Effect(s, [])
  {}

  // ----- commands

  lemma MoveOrdered(cfg: Config, s: Server, pid: PlayerID, id: EntityID, target: Vec3)
    requires PeersOk(s) && pid in s.players
    ensures Act(cfg, s, pid, MoveOrder(id, target)) ==
            Effect(s, if Commands(s, pid, id) then [ToOthers(pid, MoveCommand(id, target))] else [])
  {}

  /** One part of the target lost the damage of the roll, and it dies if chest or head is at -100
      or below; nothing else about it changes. */
  predicate Wounds(e: Entity, e': Entity, part: nat, damage: real) {
    && part < PARTS && e'.health[part] == e.health[part] - damage
    && (forall i :: 0 <= i < PARTS && i != part ==> e'.health[i] == e.health[i])
    && e' == e.(health := e'.health, alive := e.alive && e'.health[1] > -100.0 && e'.health[0] > -100.0)
  }

  predicate Unconscious(e: Entity) { exists i :: 0 <= i < PARTS && e.health[i] <= -50.0 }

  /** Twenty times the drawn factor, less ten percent, and three tenths of that if blocked. */
  function Harm(roll: Roll): real { (if roll.block < 0.2 then 5.4 else 18.0) * roll.factor }

  lemma HarmIsDamage(roll: Roll)
    ensures Damage(roll) == Harm(roll)
  {}

  lemma PartsDiffer(a: Parts, b: Parts)
    requires forall i :: 0 <= i < PARTS ==> a[i] == b[i]
    ensures a == b
  {}

  /** An attack is carried out exactly on a live target within reach of a commanded attacker. The
      hit is announced with what it did, then a death if the target is at its end, or else a KO
      if it is unconscious. */
  lemma AttackResolved(cfg: Config, s: Server, pid: PlayerID, attacker: EntityID, target: EntityID, attackType: nat, roll: Roll)
    requires PeersOk(s) && pid in s.players
    ensures var f := Act(cfg, s, pid, AttackIntent(attacker, target, attackType, roll));
            if && Commands(s, pid, attacker) && target in s.entities && s.entities[target].alive
               && Within(s.entities[attacker].position, s.entities[target].position, if attackType == 1 then 150.0 else 15.0)
            then
              && target in f.server.entities && f.server == With(s, target, f.server.entities[target])
              && var e, part := f.server.entities[target], BodyPart(roll.part);
              && Wounds(s.entities[target], e, part, Harm(roll))
              && f.sends ==
                 [ToAll(CombatHit(attacker, target, part, Harm(roll) / 2.0, Harm(roll) / 2.0, e.health[part],
                                  roll.block < 0.2, Unconscious(e)))]
                 + (if e.health[1] <= -100.0 || e.health[0] <= -100.0 then [ToAll(CombatDeath(target, attacker))]
                    else if Unconscious(e) then [ToAll(CombatKO(target, attacker, part, e.health[part]))] else [])
            else f == Effect(s, [])
  {
    hide BodyPart, Damage;
    HarmIsDamage(roll);
    hide Harm;
    if CanStrike(s, pid, attacker, target, attackType) {
      var e := Hit(s.entities[target], roll);
      assert KnockedOut(e.health) <==> Unconscious(e);
    }
  }

  // ----- positions

  /** The batch holds an accepted placement of this entity at this position. */
  predicate PlacesAt(s: Server, pid: PlayerID, updates: seq<Placement>, k: nat, id: EntityID)
    requires k < |updates|
  {
    updates[k].id == id && OnMap(updates[k].position) && Commands(s, pid, id)
  }

  /** The last accepted placement decides; without one the entity stays as it is. */
  predicate PlacedBy(s: Server, pid: PlayerID, updates: seq<Placement>, id: EntityID, e: Entity)
    requires id in s.entities
  {
    || (e == s.entities[id] && forall k :: 0 <= k < |updates| ==> !PlacesAt(s, pid, updates, k, id))
    || exists k :: 0 <= k < |updates| && LastPlace(s, pid, updates, k, id, e)
  }

  predicate LastPlace(s: Server, pid: PlayerID, updates: seq<Placement>, k: nat, id: EntityID, e: Entity)
    requires id in s.entities && k < |updates|
  {
    var u, was := updates[k], s.entities[id];
    && PlacesAt(s, pid, updates, k, id)
    && (forall j :: k < j < |updates| ==> !PlacesAt(s, pid, updates, j, id))
    && e.position == u.position && e.rotation == u.rotation && e.zone == ZoneOf(u.position)
    && e.detail == was.detail.(animState := u.animState, moveSpeed := u.moveSpeed, flags := u.flags)
    && e.id == was.id && e.owner == was.owner && e.authority == was.authority && e.alive == was.alive && e.health == was.health
  }

  lemma MovedOne(s: Server, pid: PlayerID, updates: seq<Placement>, id: EntityID)
    requires updates != [] && id in s.entities
    requires var front := updates[..|updates| - 1];
             id in Moved(s.entities, pid, front) && PlacedBy(s, pid, front, id, Moved(s.entities, pid, front)[id])
    ensures id in Moved(s.entities, pid, updates) && PlacedBy(s, pid, updates, id, Moved(s.entities, pid, updates)[id])
  {
    var n := |updates| - 1;
    var front, before := updates[..n], Moved(s.entities, pid, updates[..n]);
    var u := updates[n];
    assert forall k :: 0 <= k < n ==> (PlacesAt(s, pid, front, k, id) <==> PlacesAt(s, pid, updates, k, id));
    if u.id == id && Accepted(before, pid, u) {
      assert LastPlace(s, pid, updates, n, id, Moved(s.entities, pid, updates)[id]);
    } else {
      assert !PlacesAt(s, pid, updates, n, id);
      if k :| 0 <= k < n && LastPlace(s, pid, front, k, id, before[id]) {
        assert LastPlace(s, pid, updates, k, id, before[id]);
      }
    }
  }

  lemma {:induction false} MovedExactly(s: Server, pid: PlayerID, updates: seq<Placement>, id: EntityID)
    requires id in s.entities
    ensures id in Moved(s.entities, pid, updates) && PlacedBy(s, pid, updates, id, Moved(s.entities, pid, updates)[id])
  {
    if updates != [] {
      MovedExactly(s, pid, updates[..|updates| - 1], id);
      hide PlacedBy, Moved;
      MovedOne(s, pid, updates, id);
    }
  }

  /** The player is where its first accepted placement put an entity. */
  predicate TrackedBy(s: Server, player: Player, updates: seq<Placement>, after: Player) {
    || (after == player && forall k :: 0 <= k < |updates| ==> !PlacesAt(s, player.id, updates, k, updates[k].id))
    || exists k :: 0 <= k < |updates| && FirstPlace(s, player, updates, k, after)
  }

  predicate FirstPlace(s: Server, player: Player, updates: seq<Placement>, k: nat, after: Player)
    requires k < |updates|
  {
    && PlacesAt(s, player.id, updates, k, updates[k].id)
    && (forall j :: 0 <= j < k ==> !PlacesAt(s, player.id, updates, j, updates[j].id))
    && after == player.(position := updates[k].position, zone := ZoneOf(updates[k].position))
  }

  lemma {:induction false} TrackedExactly(s: Server, player: Player, updates: seq<Placement>)
    ensures TrackedBy(s, player, updates, Tracked(s.entities, player, updates))
  {
    hide ZoneOf;
    if updates != [] {
      var u, rest := updates[0], updates[1..];
      assert Accepted(s.entities, player.id, u) <==> PlacesAt(s, player.id, updates, 0, u.id);
      if Accepted(s.entities, player.id, u) {
        assert FirstPlace(s, player, updates, 0, Tracked(s.entities, player, updates));
      } else {
        TrackedExactly(s, player, rest);
        TrackedLater(s, player, updates, Tracked(s.entities, player, rest));
      }
    }
  }

  lemma TrackedLater(s: Server, player: Player, updates: seq<Placement>, after: Player)
    requires updates != [] && !PlacesAt(s, player.id, updates, 0, updates[0].id) && TrackedBy(s, player, updates[1..], after)
    ensures TrackedBy(s, player, updates, after)
  {
    hide ZoneOf;
    var rest := updates[1..];
    assert forall k :: 0 <= k < |rest| ==>
      (PlacesAt(s, player.id, rest, k, rest[k].id) <==> PlacesAt(s, player.id, updates, k + 1, updates[k + 1].id));
    if k :| 0 <= k < |rest| && FirstPlace(s, player, rest, k, after) {
      assert FirstPlace(s, player, updates, k + 1, after);
    } else {
      forall k | 0 <= k < |updates| ensures !PlacesAt(s, player.id, updates, k, updates[k].id) {
        if k > 0 {
          assert rest[k - 1] == updates[k];
        }
      }
    }
  }

  /** A position update moves every entity to its last accepted placement and the player to its
      first; it touches nothing else and sends nothing. */
  lemma PositionsUpdated(cfg: Config, s: Server, pid: PlayerID, updates: seq<Placement>)
    requires PeersOk(s) && pid in s.players
    ensures var f := Act(cfg, s, pid, PositionUpdate(updates));
            && f.sends == [] && f.server.entities.Keys == s.entities.Keys && f.server.players.Keys == s.players.Keys
            && f.server == s.(entities := f.server.entities, players := s.players[pid := f.server.players[pid]])
            && (forall id :: id in s.entities ==> PlacedBy(s, pid, updates, id, f.server.entities[id]))
            && TrackedBy(s, s.players[pid], updates, f.server.players[pid])
  {
    hide PlacedBy, TrackedBy, Moved, Tracked;
    MovedFrame(s.entities, pid, updates);
    TrackedExactly(s, s.players[pid], updates);
    forall id | id in s.entities ensures PlacedBy(s, pid, updates, id, Moved(s.entities, pid, updates)[id]) {
      MovedExactly(s, pid, updates, id);
    }
  }

  // ----- buildings

  /** A build on the map within 500 of the builder makes one whole building there, under a fresh
      id, and tells the others where and what it is. */
  lemma BuildPlacedThere(cfg: Config, s: Server, pid: PlayerID, templateId: nat, position: Vec3, rotation: Quat)
    requires PeersOk(s) && IdsOk(s) && pid in s.players
    ensures var f, id := Act(cfg, s, pid, BuildRequest(templateId, position, rotation)), s.nextEntityId;
            if OnMap(position) && Within(s.players[pid].position, position, 500.0) then
              && id !in s.entities && id in f.server.entities
              && f.server == With(s, id, f.server.entities[id]).(nextEntityId := id + 1)
              && f.sends == [ToOthers(pid, BuildPlaced(id, templateId, position, rotation, pid))]
              && var e := f.server.entities[id];
              && e.id == id && e.owner == pid && e.authority == cfg.authority && e.alive && e.position == position
              && e.rotation == rotation && e.zone == ZoneOf(position) && e.detail.kind == 3 && e.detail.templateId == templateId
              && (forall i :: 0 <= i < PARTS ==> e.health[i] == 100.0) && e.detail.buildProgress == 0.0
            else f == Effect(s, [])
  {
    assert CanBuild(s, pid, position) <==> OnMap(position) && Within(s.players[pid].position, position, 500.0);
  }

  lemma Dismantled(cfg: Config, s: Server, pid: PlayerID, id: EntityID)
    requires PeersOk(s) && pid in s.players
    ensures Act(cfg, s, pid, Dismantle(id)) ==
            if id in s.entities && (s.entities[id].owner == pid || s.host == pid)
            then Effect(s.(entities := map k | k in s.entities && k != id :: s.entities[k]), [ToOthers(pid, BuildDestroyed(id, 2))])
            else Effect(s, [])
  {
    assert (map k | k in s.entities && k != id :: s.entities[k]) == s.entities - {id};
  }

  /** A repair by the owner or the host raises the progress by the amount, up to one. */
  lemma Repaired(cfg: Config, s: Server, pid: PlayerID, id: EntityID, amount: real)
    requires PeersOk(s) && pid in s.players
    ensures var f := Act(cfg, s, pid, Repair(id, amount));
            if id in s.entities && (s.entities[id].owner == pid || s.host == pid) && 0.0 < amount <= 1.0 then
              && id in f.server.entities && f.server == With(s, id, f.server.entities[id])
              && var e, was := f.server.entities[id], s.entities[id];
              && e == was.(detail := was.detail.(buildProgress := e.detail.buildProgress))
              && 0.0 <= e.detail.buildProgress <= 1.0
              && (0.0 <= was.detail.buildProgress + amount <= 1.0 ==> e.detail.buildProgress == was.detail.buildProgress + amount)
              && (was.detail.buildProgress + amount > 1.0 ==> e.detail.buildProgress == 1.0)
              && (was.detail.buildProgress + amount < 0.0 ==> e.detail.buildProgress == 0.0)
              && f.sends == [ToOthers(pid, BuildProgress(id, e.detail.buildProgress))]
            else f == Effect(s, [])
  {}

  // ----- the player's own entities

  lemma Despawned(cfg: Config, s: Server, pid: PlayerID, id: EntityID, reason: nat)
    requires PeersOk(s) && pid in s.players
    ensures Act(cfg, s, pid, DespawnRequest(id, reason)) ==
            if Owns(s, pid, id)
            then Effect(s.(entities := map k | k in s.entities && k != id :: s.entities[k]), [ToAll(EntityDespawn(id, reason))])
            else Effect(s, [])
  {
    assert (map k | k in s.entities && k != id :: s.entities[k]) == s.entities - {id};
  }

  /** One slot of the player's own entity holds the item, and the others are told. */
  lemma Equipped(cfg: Config, s: Server, pid: PlayerID, id: EntityID, slot: nat, item: nat)
    requires PeersOk(s) && pid in s.players
    ensures var f := Act(cfg, s, pid, Equip(id, slot, item));
            if Owns(s, pid, id) && slot < 14 then
              && id in f.server.entities && f.server == With(s, id, f.server.entities[id])
              && var e, was := f.server.entities[id], s.entities[id];
              && e == was.(detail := was.detail.(equipment := e.detail.equipment)) && e.detail.equipment[slot] == item
              && (forall k :: 0 <= k < 14 && k != slot ==> e.detail.equipment[k] == was.detail.equipment[k])
              && f.sends == [ToOthers(pid, EquipmentUpdate(id, slot, item))]
            else f == Effect(s, [])
  {}

  lemma LimbsReported(cfg: Config, s: Server, pid: PlayerID, id: EntityID, limbs: Parts)
    requires PeersOk(s) && pid in s.players
    ensures Act(cfg, s, pid, ReportLimbs(id, limbs)) ==
            if Owns(s, pid, id)
            then Effect(With(s, id, s.entities[id].(detail := s.entities[id].detail.(limbHealth := limbs))),
                        [ToOthers(pid, LimbHealth(id, limbs))])
            else Effect(s, [])
  {}

  lemma StatusReported(cfg: Config, s: Server, pid: PlayerID, id: EntityID, effect: nat, active: nat)
    requires PeersOk(s) && pid in s.players
    ensures var f := Act(cfg, s, pid, ReportStatus(id, effect, active));
            if Owns(s, pid, id) && effect < 5 then
              && id in f.server.entities && f.server == With(s, id, f.server.entities[id])
              && var e, was := f.server.entities[id], s.entities[id];
              && e == was.(detail := was.detail.(statusEffects := e.detail.statusEffects)) && e.detail.statusEffects[effect] == active
              && (forall k :: 0 <= k < 5 && k != effect ==> e.detail.statusEffects[k] == was.detail.statusEffects[k])
              && f.sends == [ToOthers(pid, StatusEffect(id, effect, active))]
            else f == Effect(s, [])
  {}

  // ----- zones

  /** The zone a position is in: 750 wide in both horizontal directions. */
  lemma ZoneHolds(v: Vec3)
    ensures var z := ZoneOf(v);
            && z.x as real * 750.0 <= v.x < (z.x + 1) as real * 750.0
            && z.y as real * 750.0 <= v.z < (z.y + 1) as real * 750.0
  {
    FloorScaled(v.x);
    FloorScaled(v.z);
  }

  lemma FloorScaled(r: real)
    ensures (r / 750.0).Floor as real * 750.0 <= r < ((r / 750.0).Floor + 1) as real * 750.0
  {
    var q := r / 750.0;
    assert q.Floor as real <= q < (q.Floor + 1) as real;
  }
}
