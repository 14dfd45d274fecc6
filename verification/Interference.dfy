/** Who can change what: packets from one player against the entities of another, and
    what the authority of new entities does to client commands. */
module Interference {
  import opened Types
  import opened Combat
  import opened ServerModel
  import opened Persistence
  import opened Runs
  import opened Ownership

  // ----- one packet

  /** Same entity except for health and alive, and no resurrection. */
  predicate Wounded(e: Entity, e': Entity) {
    e' == e.(health := e'.health, alive := e'.alive) && (e'.alive ==> e.alive)
  }

  /** Same entity except for the build progress. */
  predicate Mended(e: Entity, e': Entity) {
    e' == e.(detail := e.detail.(buildProgress := e'.detail.buildProgress))
  }

  /** An attack by an entity the player may command, on a live target in reach. */
  predicate OwnStrike(s: Server, pid: PlayerID, pkt: Packet, id: EntityID) {
    pkt.AttackIntent? && pkt.target == id && CanStrike(s, pid, pkt.attacker, id, pkt.attackType)
  }

  /** A KO or death report that names an entity of the player's own as the attacker. */
  predicate OwnReport(s: Server, pid: PlayerID, pkt: Packet, id: EntityID) {
    && ((pkt.ReportKO? && pkt.victim == id) || (pkt.ReportDeath? && pkt.victim == id))
    && var attacker := if pkt.ReportKO? then pkt.attacker else pkt.killer;
       attacker != 0 && attacker in s.entities && s.entities[attacker].owner == pid
  }

  /** What a packet may do to an entity of somebody else: nothing, a wound by the
      player's own attacker, or, for the host alone, dismantling and repair. */
  predicate Respects(s: Server, s': Server, pid: PlayerID, pkt: Packet, id: EntityID)
    requires id in s.entities
  {
    var e := s.entities[id];
    || (id in s'.entities && s'.entities[id] == e)
    || (id in s'.entities && e.alive && Wounded(e, s'.entities[id])
        && (OwnStrike(s, pid, pkt, id) || OwnReport(s, pid, pkt, id)))
    || (pid == s.host && pkt.Dismantle? && pkt.building == id && id !in s'.entities)
    || (pid == s.host && pkt.Repair? && pkt.building == id && id in s'.entities && Mended(e, s'.entities[id]))
  }

  lemma {:induction false} MovedOwn(entities: Entities, pid: PlayerID, updates: seq<Placement>, id: EntityID)
    requires id in entities && entities[id].owner != pid
    ensures id in Moved(entities, pid, updates) && Moved(entities, pid, updates)[id] == entities[id]
  {
    if updates != [] {
      MovedOwn(entities, pid, updates[..|updates| - 1], id);
    }
  }

  lemma CombatRespects(cfg: Config, s: Server, pid: PlayerID, pkt: Packet, id: EntityID)
    requires Inv(s) && pid in s.players && id in s.entities && s.entities[id].owner != pid
    requires pkt.AttackIntent? || pkt.ReportKO? || pkt.ReportDeath?
    ensures Respects(s, Act(cfg, s, pid, pkt).server, pid, pkt, id)
  {
    hide KnockedOut, Struck, Fatal, DistSq;
  }

  lemma WorldRespects(cfg: Config, s: Server, pid: PlayerID, pkt: Packet, id: EntityID)
    requires Inv(s) && pid in s.players && id in s.entities && s.entities[id].owner != pid
    requires pkt.BuildRequest? || pkt.SpawnRequest? || pkt.DespawnRequest? || pkt.Dismantle? || pkt.Repair?
    ensures Respects(s, Act(cfg, s, pid, pkt).server, pid, pkt, id)
  {}

  /** Non-interference: whatever a player sends, an entity it does not own is unchanged,
      except for wounds by its own attacker and what only the host may do. */
  lemma NonInterference(cfg: Config, s: Server, pid: PlayerID, pkt: Packet, id: EntityID)
    requires Inv(s) && pid in s.players && WellOrdered(s, pkt) && id in s.entities && s.entities[id].owner != pid
    ensures Respects(s, Act(cfg, s, pid, pkt).server, pid, pkt, id)
  {
    hide InRange, DistSq, KnockedOut, Fatal;
    if pkt.PositionUpdate? {
      MovedOwn(s.entities, pid, pkt.updates, id);
    } else if pkt.AttackIntent? || pkt.ReportKO? || pkt.ReportDeath? {
      CombatRespects(cfg, s, pid, pkt, id);
    } else if pkt.BuildRequest? || pkt.SpawnRequest? || pkt.DespawnRequest? || pkt.Dismantle? || pkt.Repair? {
      WorldRespects(cfg, s, pid, pkt, id);
    }
  }

  /** A knock-out report carries the health of the chest, but what an accepted one writes is
      the head; every other part, the chest included, keeps its value. */
  lemma ReportWritesHead(s: Server, pid: PlayerID, victim: EntityID, attacker: EntityID, reason: nat, chest: real)
    requires MayReport(s, pid, victim, attacker)
    ensures var e, e' := s.entities[victim], KnockOut(s, pid, victim, attacker, reason, chest).server.entities[victim];
            && e'.health[HEAD] == chest
            && (forall i :: 0 <= i < PARTS && i != HEAD ==> e'.health[i] == e.health[i])
            && (e'.health[CHEST] == chest <==> e.health[CHEST] == chest)
  {}

  // ----- a player that sends nothing

  /** Everything about an entity that only its owner can change. */
  predicate Intact(e: Entity, e': Entity) {
    && e' == e.(health := e'.health, alive := e'.alive, detail := e.detail.(buildProgress := e'.detail.buildProgress))
    && (e'.alive ==> e.alive)
  }

  /** Neither a packet nor a departure of this player, and no restart. */
  predicate Passive(s: Server, e: Event, q: PlayerID)
    requires PeersOk(s)
  {
    !e.Restarts? && ((e.Packets? || e.Leaves?) && e.peer in s.peers ==> s.peers[e.peer] != q)
  }

  lemma PacketIntact(cfg: Config, s: Server, pid: PlayerID, pkt: Packet, id: EntityID)
    requires Inv(s) && pid in s.players && WellOrdered(s, pkt) && id in s.entities && s.entities[id].owner != pid
    requires id in Act(cfg, s, pid, pkt).server.entities
    ensures Intact(s.entities[id], Act(cfg, s, pid, pkt).server.entities[id])
  {
    hide Act;
    NonInterference(cfg, s, pid, pkt, id);
  }

  lemma StepIntact(cfg: Config, s: Server, e: Event, q: PlayerID, id: EntityID)
    requires Inv(s) && Enabled(s, e) && Passive(s, e, q) && q != 0
    requires id in s.entities && s.entities[id].owner == q && id in Step(cfg, s, e).server.entities
    ensures Intact(s.entities[id], Step(cfg, s, e).server.entities[id])
  {
    hide Act, Handshake, Disconnect;
    match e
    case Joins(peer, version, raw, loopback, _, _) =>
      if Admits(cfg, s, peer, version) {
        JoinStep(cfg, s, e);
      } else {
        RejectStep(cfg, s, e);
      }
    case Leaves(peer, es, heir) =>
      if peer in s.peers {
        LeaveStep(cfg, s, e);
      } else {
        IdleStep(cfg, s, e);
      }
    case Packets(peer, pkt) =>
      if peer in s.peers {
        PacketIntact(cfg, s, s.peers[peer], pkt, id);
      }
    case Sweeps(es) => SweepRemovesNothing(s, es);
  }

  lemma NextIntact(cfg: Config, states: seq<Server>, events: seq<Event>, i: nat, q: PlayerID, id: EntityID)
    requires IsRun(cfg, states, events) && i < |events| && Inv(states[i]) && q != 0 && Passive(states[i], events[i], q)
    requires id in states[i].entities && states[i].entities[id].owner == q && id in states[i + 1].entities
    ensures Intact(states[i].entities[id], states[i + 1].entities[id])
  {
    hide Step;
    StepIntact(cfg, states[i], events[i], q, id);
  }

  predicate AllPassive(cfg: Config, states: seq<Server>, events: seq<Event>, a: nat, b: nat, q: PlayerID)
    requires IsRun(cfg, states, events) && b <= |events|
  {
    forall k {:trigger events[k]} :: a <= k < b ==> Passive(states[k], events[k], q)
  }

  /** Over any run in which a player sends nothing and stays, whatever everybody else
      sends, each of its entities that exists throughout keeps its owner, authority,
      position, rotation, equipment and everything else but health, alive and build
      progress, and none is revived. */
  lemma {:induction false} SilentPlayerIntact(cfg: Config, states: seq<Server>, events: seq<Event>,
                                              a: nat, b: nat, q: PlayerID, id: EntityID)
    requires IsRun(cfg, states, events) && a <= b < |states| && Inv(states[0]) && q != 0
    requires AllPassive(cfg, states, events, a, b, q)
    requires forall k {:trigger states[k]} :: a <= k <= b ==> id in states[k].entities
    requires states[a].entities[id].owner == q
    ensures Intact(states[a].entities[id], states[b].entities[id])
  {
    if a < b {
      RunKeepsInv(cfg, states, events, b - 1);
      SilentPlayerIntact(cfg, states, events, a, b - 1, q, id);
      NextIntact(cfg, states, events, b - 1, q, id);
    }
  }

  // ----- the authority of new entities

  predicate NoneUnderPlayers(s: Server) {
    forall id :: id in s.entities ==> s.entities[id].authority != PlayerSide
  }

  lemma RestartAuthority(cfg: Config, rs: seq<Record>)
    requires cfg.authority != PlayerSide
    ensures forall id :: id in LoadRecords(cfg, rs).entities ==> LoadRecords(cfg, rs).entities[id].authority != PlayerSide
  {
    hide LoadRecords;
    LoadRecordsOk(cfg, rs);
    assert forall id :: id in LoadRecords(cfg, rs).entities ==> LoadedAs(cfg, LoadRecords(cfg, rs), id);
  }

  lemma StepAuthority(cfg: Config, s: Server, e: Event)
    requires Inv(s) && Enabled(s, e) && NoneUnderPlayers(s) && cfg.authority != PlayerSide
    ensures NoneUnderPlayers(Step(cfg, s, e).server)
  {
    hide Act, Handshake, Disconnect, LoadRecords;
    match e
    case Joins(peer, version, raw, loopback, _, _) =>
      if Admits(cfg, s, peer, version) {
        JoinStep(cfg, s, e);
      } else {
        RejectStep(cfg, s, e);
      }
    case Leaves(peer, es, heir) =>
      if peer in s.peers {
        LeaveStep(cfg, s, e);
      } else {
        IdleStep(cfg, s, e);
      }
    case Packets(peer, pkt) =>
      if peer in s.peers {
        ActFrame(cfg, s, s.peers[peer], pkt);
      }
    case Sweeps(es) => SweepRemovesNothing(s, es);
    case Restarts(es, ps) =>
      RestartAuthority(cfg, Records(es, s.entities));
  }

  predicate Command(pkt: Packet) { pkt.PositionUpdate? || pkt.MoveOrder? || pkt.AttackIntent? }

  lemma {:induction false} NothingMoves(s: Server, pid: PlayerID, updates: seq<Placement>)
    requires NoneUnderPlayers(s)
    ensures Moved(s.entities, pid, updates) == s.entities
  {
    if updates != [] {
      NothingMoves(s, pid, updates[..|updates| - 1]);
    }
  }

  lemma {:induction false} NothingTracked(s: Server, player: Player, updates: seq<Placement>)
    requires NoneUnderPlayers(s)
    ensures Tracked(s.entities, player, updates) == player
  {
    if updates != [] {
      NothingTracked(s, player, updates[1..]);
    }
  }

  lemma CommandIgnored(cfg: Config, s: Server, pid: PlayerID, pkt: Packet)
    requires PeersOk(s) && pid in s.players && NoneUnderPlayers(s) && Command(pkt)
    ensures Act(cfg, s, pid, pkt) == Effect(s, [])
  {
    if pkt.PositionUpdate? {
      NothingMoves(s, pid, pkt.updates);
      NothingTracked(s, s.players[pid], pkt.updates);
      assert s.players[pid := s.players[pid]] == s.players;
    }
  }

  lemma {:induction false} RunAuthority(cfg: Config, states: seq<Server>, events: seq<Event>, i: nat)
    requires IsRun(cfg, states, events) && i < |states| && Inv(states[0])
    requires NoneUnderPlayers(states[0]) && cfg.authority != PlayerSide
    ensures NoneUnderPlayers(states[i])
  {
    hide Step, Inv, NoneUnderPlayers;
    if i > 0 {
      RunKeepsInv(cfg, states, events, i - 1);
      RunAuthority(cfg, states, events, i - 1);
      var e := events[i - 1];
      StepAuthority(cfg, states[i - 1], events[i - 1]);
    }
  }

  /** As long as new entities do not start under player authority, every position
      update, move order and attack of every run is ignored. */
  lemma CommandsNeverAccepted(cfg: Config, states: seq<Server>, events: seq<Event>, i: nat)
    requires IsRun(cfg, states, events) && i < |events| && Inv(states[0])
    requires NoneUnderPlayers(states[0]) && cfg.authority != PlayerSide
    requires events[i].Packets? && Command(events[i].pkt)
    ensures Step(cfg, states[i], events[i]) == Effect(states[i], [])
  {
    RunAuthority(cfg, states, events, i);
    var s, e := states[i], events[i];
    if e.peer in s.peers {
      CommandIgnored(cfg, s, s.peers[e.peer], e.pkt);
    }
  }

  /** The owner of a newly spawned live entity can command it if and only if entities
      start under player authority. */
  lemma SpawnCommandable(cfg: Config, s: Server, pid: PlayerID, pkt: Packet)
    requires Inv(s) && pid in s.players && pkt.SpawnRequest? && CanSpawn(s, pkt) && pkt.alive
    ensures CanCommand(pid, s.nextEntityId, Spawn(cfg, s, pid, pkt).server.entities) <==> cfg.authority == PlayerSide
  {}
}
