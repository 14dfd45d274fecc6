/** What an entity is never changes, and over whole runs every client has it right: kind,
    template, faction and name of everything it was ever told of and that still exists. */
module Identities {
  import opened Types
  import opened Combat
  import opened ServerModel
  import opened Persistence
  import opened Runs
  import opened Ownership
  import opened Hosts

  datatype Identity = Identity(kind: nat, templateId: nat, factionId: nat, templateName: string)

  type Identities = map<EntityID, Identity>

  function IdentityOf(e: Entity): Identity {
    Identity(e.detail.kind, e.detail.templateId, e.detail.factionId,
             if |e.detail.templateName| <= 255 then e.detail.templateName else e.detail.templateName[..255])
  }

  /** A spawn message names all four; a building is of kind 3, of no faction and nameless. */
  function Learn(v: Identities, m: Msg): Identities {
    match m
    case EntitySpawn(id, _, _, kind, templateId, factionId, templateName, _, _, _) =>
      v[id := Identity(kind, templateId, factionId, templateName)]
    case BuildPlaced(id, templateId, _, _, _) => v[id := Identity(3, templateId, 0, "")]
    case _ => v
  }

  function Learnt(v: Identities, log: seq<Msg>): Identities {
    if log == [] then v else Learn(Learnt(v, log[..|log| - 1]), log[|log| - 1])
  }

  /** Whatever is known of an entity that exists is so, and no id from the future is known. */
  predicate Right(s: Server, v: Identities) {
    forall id :: id in v ==> id < s.nextEntityId && (id in s.entities ==> v[id] == IdentityOf(s.entities[id]))
  }

  /** A message that is right about the entity it introduces. */
  predicate True(s: Server, m: Msg) {
    && (m.EntitySpawn? ==> m.id in s.entities && IdentityOf(s.entities[m.id]) == Identity(m.kind, m.templateId, m.factionId, m.templateName))
    && (m.BuildPlaced? ==> m.id in s.entities && IdentityOf(s.entities[m.id]) == Identity(3, m.templateId, 0, ""))
  }

  predicate AllTrue(s: Server, sends: seq<Send>) { forall k :: 0 <= k < |sends| ==> True(s, sends[k].msg) }

  lemma LearnTrue(s: Server, v: Identities, m: Msg)
    requires IdsOk(s) && Right(s, v) && True(s, m)
    ensures Right(s, Learn(v, m))
  {
    hide IdentityOf;
  }

  lemma {:induction false} TrueSends(s: Server, v: Identities, p: PlayerID, sends: seq<Send>)
    requires IdsOk(s) && Right(s, v) && AllTrue(s, sends)
    ensures Right(s, Learnt(v, MessagesFor(p, sends)))
  {
    hide Right, True, Learn, IdsOk;
    if sends != [] {
      var last := sends[|sends| - 1];
      TrueSends(s, v, p, sends[..|sends| - 1]);
      var m := MessagesFor(p, sends[..|sends| - 1]);
      assert (m + [last.msg])[..|m|] == m;
      LearnTrue(s, Learnt(v, m), last.msg);
    }
  }

  lemma {:induction false} LearntConcat(v: Identities, x: seq<Msg>, y: seq<Msg>)
    ensures Learnt(v, x + y) == Learnt(Learnt(v, x), y)
  {
    if y == [] {
      assert x + y == x;
    } else {
      assert (x + y)[..|x + y| - 1] == x + y[..|y| - 1];
      LearntConcat(v, x, y[..|y| - 1]);
    }
  }

  // ----- what events do

  /** Entities keep their identity and ids are not used twice. */
  predicate Constant(s: Server, s': Server) {
    && s.nextEntityId <= s'.nextEntityId
    && (forall id :: id in s'.entities && id < s.nextEntityId ==>
          id in s.entities && IdentityOf(s'.entities[id]) == IdentityOf(s.entities[id]))
  }

  lemma ConstantRight(s: Server, s': Server, v: Identities)
    requires Right(s, v) && Constant(s, s')
    ensures Right(s', v)
  {
    hide IdentityOf;
  }

  lemma {:induction false} MovedConstant(entities: Entities, pid: PlayerID, updates: seq<Placement>)
    ensures Moved(entities, pid, updates).Keys == entities.Keys
    ensures forall id :: id in entities ==> IdentityOf(Moved(entities, pid, updates)[id]) == IdentityOf(entities[id])
  {
    hide InRange, ZoneOf;
    if updates != [] {
      MovedConstant(entities, pid, updates[..|updates| - 1]);
    }
  }

  lemma {:induction false} ZoneTrue(s: Server, pid: PlayerID, zone: Zone, order: seq<EntityID>)
    requires IdsOk(s) && forall i :: 0 <= i < |order| ==> order[i] in s.entities
    ensures AllTrue(s, ZoneReply(pid, zone, order, s.entities))
  {
    hide InZoneReply;
    if order != [] {
      ZoneTrue(s, pid, zone, order[..|order| - 1]);
      SpawnTrue(s, s.entities[order[|order| - 1]]);
      hide SpawnMsg, True;
    }
  }

  lemma SpawnTrue(s: Server, e: Entity)
    requires e.id in s.entities && s.entities[e.id] == e
    ensures True(s, SpawnMsg(e))
  {}

  lemma {:induction false} EquipmentTrue(s: Server, to: PlayerID, e: Entity, n: nat)
    requires n <= SLOTS
    ensures AllTrue(s, EquipmentSends(to, e, n))
  {
    if n > 0 {
      EquipmentTrue(s, to, e, n - 1);
    }
  }

  lemma {:induction false} SnapshotTrue(s: Server, to: PlayerID, order: seq<EntityID>)
    requires IdsOk(s) && forall i :: 0 <= i < |order| ==> order[i] in s.entities
    ensures AllTrue(s, Snapshot(to, order, s.entities, s.players))
  {
    hide InSnapshot;
    if order != [] {
      var e := s.entities[order[|order| - 1]];
      SnapshotTrue(s, to, order[..|order| - 1]);
      SpawnTrue(s, e);
      EquipmentTrue(s, to, e, SLOTS);
      hide SpawnMsg, True, EquipmentSends;
    }
  }

  predicate Arrival(pkt: Packet) { pkt.SpawnRequest? || pkt.BuildRequest? }

  lemma ArrivalTrue(cfg: Config, s: Server, pid: PlayerID, pkt: Packet)
    requires PeersOk(s) && IdsOk(s) && pid in s.players && Arrival(pkt)
    ensures Constant(s, Act(cfg, s, pid, pkt).server) && AllTrue(Act(cfg, s, pid, pkt).server, Act(cfg, s, pid, pkt).sends)
  {
    hide InRange, DistSq, ZoneOf;
  }

  predicate NoneIntroduced(sends: seq<Send>) {
    forall k :: 0 <= k < |sends| ==> !sends[k].msg.EntitySpawn? && !sends[k].msg.BuildPlaced?
  }

  lemma UpdateConstant(s: Server, id: EntityID, e: Entity)
    requires IdsOk(s) && id in s.entities && IdentityOf(e) == IdentityOf(s.entities[id])
    ensures Constant(s, s.(entities := s.entities[id := e]))
  {
    hide IdentityOf;
  }

  lemma CombatConstant(cfg: Config, s: Server, pid: PlayerID, pkt: Packet)
    requires PeersOk(s) && IdsOk(s) && pid in s.players && (pkt.AttackIntent? || pkt.ReportKO? || pkt.ReportDeath?)
    ensures Constant(s, Act(cfg, s, pid, pkt).server) && NoneIntroduced(Act(cfg, s, pid, pkt).sends)
  {
    hide DistSq, KnockedOut, Fatal, Struck, BodyPart, Damage, Constant, IdsOk;
    SameConstant(s);
    match pkt
    case AttackIntent(attacker, target, attackType, roll) =>
      if CanStrike(s, pid, attacker, target, attackType) {
        UpdateConstant(s, target, Hit(s.entities[target], roll));
      }
    case ReportKO(victim, attacker, _, chest) =>
      if MayReport(s, pid, victim, attacker) {
        UpdateConstant(s, victim, s.entities[victim].(health := s.entities[victim].health[0 := chest]));
      }
    case ReportDeath(victim, killer) =>
      if MayReport(s, pid, victim, killer) {
        UpdateConstant(s, victim, s.entities[victim].(alive := false));
      }
  }

  lemma SameConstant(s: Server)
    requires IdsOk(s)
    ensures Constant(s, s)
  {}

  lemma AmendConstant(s: Server, pid: PlayerID, id: EntityID, ok: bool, detail: Detail, msg: Msg)
    requires IdsOk(s) && !msg.EntitySpawn? && !msg.BuildPlaced?
    requires id in s.entities ==> IdentityOf(s.entities[id].(detail := detail)) == IdentityOf(s.entities[id])
    ensures Constant(s, Amend(s, pid, id, ok, detail, msg).server) && NoneIntroduced(Amend(s, pid, id, ok, detail, msg).sends)
  {
    hide Constant, IdsOk, IdentityOf;
    SameConstant(s);
    if id in s.entities {
      UpdateConstant(s, id, s.entities[id].(detail := detail));
    }
  }

  lemma AmendmentConstant(cfg: Config, s: Server, pid: PlayerID, pkt: Packet)
    requires PeersOk(s) && IdsOk(s) && pid in s.players && (pkt.Equip? || pkt.ReportLimbs? || pkt.ReportStatus?)
    ensures Constant(s, Act(cfg, s, pid, pkt).server) && NoneIntroduced(Act(cfg, s, pid, pkt).sends)
  {
    hide Constant, IdsOk, Amend, NoneIntroduced;
    match pkt
    case Equip(id, slot, item) =>
      var d := DetailOf(s, id);
      AmendConstant(s, pid, id, slot < SLOTS, if slot < SLOTS then d.(equipment := d.equipment[slot := item]) else d,
                    EquipmentUpdate(id, slot, item));
    case ReportLimbs(id, limbs) =>
      AmendConstant(s, pid, id, true, DetailOf(s, id).(limbHealth := limbs), LimbHealth(id, limbs));
    case ReportStatus(id, effect, active) =>
      var d := DetailOf(s, id);
      AmendConstant(s, pid, id, effect < EFFECTS, if effect < EFFECTS then d.(statusEffects := d.statusEffects[effect := active]) else d,
                    StatusEffect(id, effect, active));
  }

  lemma QuietConstant(cfg: Config, s: Server, pid: PlayerID, pkt: Packet)
    requires PeersOk(s) && IdsOk(s) && pid in s.players && WellOrdered(s, pkt)
    requires !Arrival(pkt) && !pkt.PositionUpdate? && !pkt.ZoneRequest?
    ensures Constant(s, Act(cfg, s, pid, pkt).server) && NoneIntroduced(Act(cfg, s, pid, pkt).sends)
  {
    hide Strike, Kill, KnockOut, Amend;
    if pkt.AttackIntent? || pkt.ReportKO? || pkt.ReportDeath? {
      CombatConstant(cfg, s, pid, pkt);
    } else if pkt.Equip? || pkt.ReportLimbs? || pkt.ReportStatus? {
      AmendmentConstant(cfg, s, pid, pkt);
    }
  }

  lemma PacketTrue(cfg: Config, s: Server, pid: PlayerID, pkt: Packet)
    requires PeersOk(s) && IdsOk(s) && pid in s.players && WellOrdered(s, pkt)
    ensures Constant(s, Act(cfg, s, pid, pkt).server) && AllTrue(Act(cfg, s, pid, pkt).server, Act(cfg, s, pid, pkt).sends)
  {
    hide Strike, Build, Spawn, Mend, Kill, KnockOut, Amend, Demolish, Despawn, OrderMove, MarkReady, ZoneReply, Moved, Tracked, IdentityOf;
    if Arrival(pkt) {
      ArrivalTrue(cfg, s, pid, pkt);
    } else if pkt.PositionUpdate? {
      MovedConstant(s.entities, pid, pkt.updates);
    } else if pkt.ZoneRequest? {
      ZoneTrue(s, pid, pkt.zone, pkt.order);
    } else {
      QuietConstant(cfg, s, pid, pkt);
    }
  }

  lemma WelcomeTrue(s: Server, id: PlayerID, took: bool, es: seq<EntityID>, ps: seq<PlayerID>)
    requires id in s.players && IdsOk(s)
    requires forall i :: 0 <= i < |es| ==> es[i] in s.entities
    requires forall i :: 0 <= i < |ps| ==> ps[i] in s.players
    ensures AllTrue(s, Greeting(id, took) + Welcome(s, id, es, ps))
  {
    SnapshotTrue(s, id, es);
    IntroductionsIntroduce(id, ps, s.players);
    hide Snapshot, Introductions, IdentityOf;
  }

  lemma JoinedConstant(s: Server, peer: Peer, name: string, loopback: bool)
    ensures Constant(s, Joined(s, peer, name, loopback))
    ensures Joined(s, peer, name, loopback).entities.Keys == s.entities.Keys
    ensures Joined(s, peer, name, loopback).players.Keys == s.players.Keys + {s.nextPlayerId}
  {}

  lemma InvIds(s: Server)
    requires Inv(s)
    ensures IdsOk(s) && PeersOk(s)
  {}

  lemma JoinTrue(cfg: Config, s: Server, e: Event)
    requires Inv(s) && e.Joins? && Enabled(s, e) && Admits(cfg, s, e.peer, e.version)
    ensures Constant(s, Step(cfg, s, e).server) && AllTrue(Step(cfg, s, e).server, Step(cfg, s, e).sends)
  {
    hide Handshake, Joined, Greeting, Welcome, Sanitized, TakesOverHost, AllTrue, Inv, Constant;
    InvIds(s);
    JoinStep(cfg, s, e);
    var name := Sanitized(e.raw);
    var s' := Joined(s, e.peer, name, e.loopback);
    JoinedKeepsInv(s, e.peer, name, e.loopback);
    JoinedConstant(s, e.peer, name, e.loopback);
    InvIds(s');
    WelcomeTrue(s', s.nextPlayerId, TakesOverHost(s, e.loopback), e.entityOrder, e.playerOrder);
  }

  lemma LeaveTrue(cfg: Config, s: Server, e: Event)
    requires Inv(s) && e.Leaves? && Enabled(s, e)
    ensures Constant(s, Step(cfg, s, e).server) && AllTrue(Step(cfg, s, e).server, Step(cfg, s, e).sends)
  {
    hide OwnedIn;
  }

  lemma StepTrue(cfg: Config, s: Server, e: Event)
    requires Inv(s) && Enabled(s, e) && !e.Restarts?
    ensures Constant(s, Step(cfg, s, e).server) && AllTrue(Step(cfg, s, e).server, Step(cfg, s, e).sends)
  {
    hide Handshake, Disconnect, Act, Sweep, IdentityOf;
    match e
    case Joins(peer, version, _, _, _, _) =>
      if Admits(cfg, s, peer, version) {
        JoinTrue(cfg, s, e);
      } else {
        RejectStep(cfg, s, e);
      }
    case Leaves(_, _, _) => LeaveTrue(cfg, s, e);
    case Packets(peer, pkt) =>
      if peer in s.peers {
        PacketTrue(cfg, s, s.peers[peer], pkt);
      }
    case Sweeps(es) => SweepRemovesNothing(s, es);
  }

  lemma NextRight(cfg: Config, states: seq<Server>, events: seq<Event>, i: nat, p: PlayerID, v: Identities)
    requires IsRun(cfg, states, events) && i < |events| && Inv(states[i]) && Inv(states[i + 1]) && !events[i].Restarts?
    requires Right(states[i], v)
    ensures Right(states[i + 1], Learnt(v, MessagesFor(p, Step(cfg, states[i], events[i]).sends)))
  {
    hide Step, Constant, AllTrue, Right;
    var e := events[i];
    StepTrue(cfg, states[i], e);
    ConstantRight(states[i], states[i + 1], v);
    TrueSends(states[i + 1], v, p, Step(cfg, states[i], e).sends);
  }

  lemma RestartEmpties(cfg: Config, s: Server, e: Event, p: PlayerID)
    requires PeersOk(s) && Enabled(s, e) && e.Restarts?
    ensures p !in Step(cfg, s, e).server.players
  {}

  lemma NoRestartHere(cfg: Config, states: seq<Server>, events: seq<Event>, i: nat, p: PlayerID)
    requires IsRun(cfg, states, events) && i < |events| && p in states[i + 1].players
    ensures !events[i].Restarts?
  {
    hide Step;
    var e := events[i];
    if e.Restarts? {
      RestartEmpties(cfg, states[i], e, p);
    }
  }

  /** Over every run: whatever a client has been told an entity is, it is, for as long as it
      exists. */
  lemma {:induction false} ClientsAreRight(cfg: Config, states: seq<Server>, events: seq<Event>, i: nat, p: PlayerID)
    requires IsRun(cfg, states, events) && i < |states| && Inv(states[0]) && states[0].players.Keys == {}
    requires p in states[i].players
    ensures Right(states[i], Learnt(map[], Log(cfg, states, events, i, p)))
  {
    hide Step, Inv, Right, Learnt, MessagesFor;
    RunKeepsInv(cfg, states, events, i - 1);
    RunKeepsInv(cfg, states, events, i);
    NoRestartHere(cfg, states, events, i - 1, p);
    var e := events[i - 1];
    var log, sends := Log(cfg, states, events, i - 1, p), Step(cfg, states[i - 1], e).sends;
    LearntConcat(map[], log, MessagesFor(p, sends));
    if p in states[i - 1].players {
      ClientsAreRight(cfg, states, events, i - 1, p);
    } else {
      NothingLearnt(states[i - 1]);
    }
    NextRight(cfg, states, events, i - 1, p, Learnt(map[], log));
  }

  lemma NothingLearnt(s: Server)
    ensures Learnt(map[], []) == map[] && Right(s, map[])
  {}
}
