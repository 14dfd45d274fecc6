/** Death is final: over any run of one server process, ids are not reused, nobody
    comes back to life, and no combat message names a victim after its death. */
module Mortality {
  import opened Types
  import opened Combat
  import opened ServerModel
  import opened Persistence
  import opened Runs
  import opened Ownership

  predicate IsCombat(m: Msg) { m.CombatHit? || m.CombatKO? || m.CombatDeath? }

  function Victim(m: Msg): EntityID { if IsCombat(m) then m.victim else 0 }

  /** The combat messages of a list of sends; all of them go to everybody. */
  function CombatOf(sends: seq<Send>): (r: seq<Msg>)
    ensures forall k :: 0 <= k < |r| ==> IsCombat(r[k])
  {
    if sends == [] then []
    else
      var rest := CombatOf(sends[..|sends| - 1]);
      var m := sends[|sends| - 1].msg;
      if IsCombat(m) then rest + [m] else rest
  }

  predicate Peaceful(sends: seq<Send>) { forall i :: 0 <= i < |sends| ==> !IsCombat(sends[i].msg) }

  lemma {:induction false} PeacefulCombat(sends: seq<Send>)
    requires Peaceful(sends)
    ensures CombatOf(sends) == []
  {
    if sends != [] {
      PeacefulCombat(sends[..|sends| - 1]);
    }
  }

  // ----- one event

  /** The combat messages of one event: every victim was alive before it, and only the
      last message can be a death, whose victim is dead after it. */
  predicate Fair(s: Server, s': Server, msgs: seq<Msg>) {
    && (forall k :: 0 <= k < |msgs| ==> Lives(s, Victim(msgs[k])))
    && (forall k :: 0 <= k < |msgs| && msgs[k].CombatDeath? ==>
          k == |msgs| - 1 && Victim(msgs[k]) in s'.entities && !Lives(s', Victim(msgs[k])))
  }

  predicate Lives(s: Server, id: EntityID) { id in s.entities && s.entities[id].alive }

  lemma StrikeFair(s: Server, pid: PlayerID, attacker: EntityID, target: EntityID, attackType: nat, roll: Roll)
    ensures Fair(s, Strike(s, pid, attacker, target, attackType, roll).server,
                 CombatOf(Strike(s, pid, attacker, target, attackType, roll).sends))
  {
    hide Struck, KnockedOut, DistSq, BodyPart, Damage, CombatOf;
    var f := Strike(s, pid, attacker, target, attackType, roll);
    if f.sends == [] {
      PeacefulCombat([]);
    } else if |f.sends| == 1 {
      CombatOfOne(f.sends[0]);
      assert f.sends == [f.sends[0]];
    } else {
      CombatOfTwo(f.sends[0], f.sends[1]);
      assert f.sends == [f.sends[0], f.sends[1]];
    }
  }

  lemma CombatOfOne(a: Send)
    requires IsCombat(a.msg)
    ensures CombatOf([a]) == [a.msg]
  {
    assert [a][..0] == [];
  }

  lemma CombatOfTwo(a: Send, b: Send)
    requires IsCombat(a.msg) && IsCombat(b.msg)
    ensures CombatOf([a, b]) == [a.msg, b.msg]
  {
    CombatOfOne(a);
    assert [a, b][..1] == [a];
  }

  lemma ReportFair(s: Server, pid: PlayerID, victim: EntityID, other: EntityID, reason: nat, chest: real)
    ensures Fair(s, Kill(s, pid, victim, other).server, CombatOf(Kill(s, pid, victim, other).sends))
    ensures Fair(s, KnockOut(s, pid, victim, other, reason, chest).server,
                 CombatOf(KnockOut(s, pid, victim, other, reason, chest).sends))
  {
    if MayReport(s, pid, victim, other) {
      assert CombatOf(Kill(s, pid, victim, other).sends) == [CombatDeath(victim, other)];
      assert CombatOf(KnockOut(s, pid, victim, other, reason, chest).sends) == [CombatKO(victim, other, reason, chest)];
    }
  }

  lemma ActPeaceful(cfg: Config, s: Server, pid: PlayerID, pkt: Packet)
    requires PeersOk(s) && pid in s.players && WellOrdered(s, pkt)
    requires !pkt.AttackIntent? && !pkt.ReportKO? && !pkt.ReportDeath?
    ensures Peaceful(Act(cfg, s, pid, pkt).sends)
  {
    if pkt.ZoneRequest? {
      ZoneReplyShows(pid, pkt.zone, pkt.order, s.entities);
    }
  }

  lemma ActFair(cfg: Config, s: Server, pid: PlayerID, pkt: Packet)
    requires PeersOk(s) && pid in s.players && WellOrdered(s, pkt)
    ensures Fair(s, Act(cfg, s, pid, pkt).server, CombatOf(Act(cfg, s, pid, pkt).sends))
  {
    if pkt.AttackIntent? {
      StrikeFair(s, pid, pkt.attacker, pkt.target, pkt.attackType, pkt.roll);
    } else if pkt.ReportKO? {
      ReportFair(s, pid, pkt.victim, pkt.attacker, pkt.reason, pkt.chestHealth);
    } else if pkt.ReportDeath? {
      ReportFair(s, pid, pkt.victim, pkt.killer, 0, 0.0);
    } else {
      ActPeaceful(cfg, s, pid, pkt);
      PeacefulCombat(Act(cfg, s, pid, pkt).sends);
    }
  }

  lemma WelcomePeaceful(s: Server, id: PlayerID, took: bool, es: seq<EntityID>, ps: seq<PlayerID>)
    requires id in s.players
    requires forall i :: 0 <= i < |es| ==> es[i] in s.entities
    requires forall i :: 0 <= i < |ps| ==> ps[i] in s.players
    ensures Peaceful(Greeting(id, took) + Welcome(s, id, es, ps))
  {
    hide Snapshot, Introductions;
    IntroductionsIntroduce(id, ps, s.players);
    SnapshotShows(id, es, s.entities, s.players);
  }

  lemma JoinPeaceful(cfg: Config, s: Server, e: Event)
    requires Inv(s) && Enabled(s, e) && e.Joins?
    ensures Peaceful(Step(cfg, s, e).sends)
  {
    hide Handshake, Greeting, Welcome, Sanitized, TakesOverHost;
    if Admits(cfg, s, e.peer, e.version) {
      JoinStep(cfg, s, e);
      var s' := Joined(s, e.peer, Sanitized(e.raw), e.loopback);
      WelcomePeaceful(s', s.nextPlayerId, TakesOverHost(s, e.loopback), e.entityOrder, e.playerOrder);
    } else {
      RejectStep(cfg, s, e);
    }
  }

  lemma QuietFair(s: Server, f: Effect)
    requires Peaceful(f.sends)
    ensures Fair(s, f.server, CombatOf(f.sends))
  {
    PeacefulCombat(f.sends);
  }

  lemma LeavePeaceful(cfg: Config, s: Server, e: Event)
    requires Inv(s) && Enabled(s, e) && e.Leaves?
    ensures Peaceful(Step(cfg, s, e).sends)
  {
    hide Left, Enumerates;
  }

  lemma StepFair(cfg: Config, s: Server, e: Event)
    requires Inv(s) && Enabled(s, e)
    ensures Fair(s, Step(cfg, s, e).server, CombatOf(Step(cfg, s, e).sends))
  {
    hide Act, Handshake, Disconnect, Restart, Fair, CombatOf;
    match e
    case Joins(_, _, _, _, _, _) =>
      JoinPeaceful(cfg, s, e);
      QuietFair(s, Step(cfg, s, e));
    case Leaves(_, _, _) =>
      LeavePeaceful(cfg, s, e);
      QuietFair(s, Step(cfg, s, e));
    case Packets(peer, pkt) =>
      if peer in s.peers {
        ActFair(cfg, s, s.peers[peer], pkt);
      } else {
        QuietFair(s, Step(cfg, s, e));
      }
    case Sweeps(es) =>
      SweepRemovesNothing(s, es);
      QuietFair(s, Step(cfg, s, e));
    case Restarts(_, _) => QuietFair(s, Step(cfg, s, e));
  }

  /** Identity and mortality from one state to the next. */
  predicate Ages(s: Server, s': Server) {
    && s.nextEntityId <= s'.nextEntityId
    && (forall id :: id in s'.entities && id < s.nextEntityId ==> id in s.entities)
    && (forall id :: id in s'.entities && id in s.entities && s'.entities[id].alive ==> s.entities[id].alive)
  }

  lemma JoinAges(s: Server, peer: Peer, name: string, loopback: bool)
    ensures Ages(s, Joined(s, peer, name, loopback))
  {}

  lemma LeaveAges(s: Server, pid: PlayerID, order: seq<EntityID>, heir: PlayerID)
    requires pid in s.players
    ensures Ages(s, Left(s, pid, order, heir))
  {}

  lemma PacketAges(cfg: Config, s: Server, pid: PlayerID, pkt: Packet)
    requires Inv(s) && pid in s.players && WellOrdered(s, pkt)
    ensures Ages(s, Act(cfg, s, pid, pkt).server)
  {
    ActFrame(cfg, s, pid, pkt);
  }

  lemma StepAges(cfg: Config, s: Server, e: Event)
    requires Inv(s) && Enabled(s, e) && !e.Restarts?
    ensures Ages(s, Step(cfg, s, e).server)
  {
    hide Act, Handshake, Disconnect, Left, Joined;
    match e
    case Joins(peer, version, raw, loopback, _, _) =>
      if Admits(cfg, s, peer, version) {
        JoinStep(cfg, s, e);
        JoinAges(s, peer, Sanitized(raw), loopback);
      } else {
        RejectStep(cfg, s, e);
      }
    case Leaves(peer, es, heir) =>
      if peer in s.peers {
        LeaveStep(cfg, s, e);
        LeaveAges(s, s.peers[peer], es, heir);
      } else {
        IdleStep(cfg, s, e);
      }
    case Packets(peer, pkt) =>
      if peer in s.peers {
        PacketAges(cfg, s, s.peers[peer], pkt);
      }
    case Sweeps(es) => SweepRemovesNothing(s, es);
  }

  lemma AgesTransitive(s1: Server, s2: Server, s3: Server)
    requires IdsOk(s1) && Ages(s1, s2) && Ages(s2, s3)
    ensures Ages(s1, s3)
  {}

  // ----- whole runs

  predicate OneProcess(events: seq<Event>) { forall k :: 0 <= k < |events| ==> !events[k].Restarts? }

  lemma NextAges(cfg: Config, states: seq<Server>, events: seq<Event>, i: nat)
    requires IsRun(cfg, states, events) && i < |events| && Inv(states[i]) && OneProcess(events)
    ensures Ages(states[i], states[i + 1])
  {
    StepAges(cfg, states[i], events[i]);
  }

  /** Between any two states of a run, entities only leave and die. */
  lemma {:induction false} RunAges(cfg: Config, states: seq<Server>, events: seq<Event>, a: nat, b: nat)
    requires IsRun(cfg, states, events) && a <= b < |states| && Inv(states[0]) && OneProcess(events)
    ensures Ages(states[a], states[b])
  {
    if a < b {
      RunKeepsInv(cfg, states, events, a);
      RunKeepsInv(cfg, states, events, b - 1);
      RunAges(cfg, states, events, a, b - 1);
      NextAges(cfg, states, events, b - 1);
      AgesTransitive(states[a], states[b - 1], states[b]);
    }
  }

  /** An id that was in use and is not any more never comes back, and an entity that
      was dead is dead for as long as it exists. */
  lemma GoneForGood(cfg: Config, states: seq<Server>, events: seq<Event>, a: nat, b: nat, c: nat, id: EntityID)
    requires IsRun(cfg, states, events) && a <= b <= c < |states| && Inv(states[0]) && OneProcess(events)
    requires id in states[a].entities
    ensures id !in states[b].entities ==> id !in states[c].entities
    ensures !states[a].entities[id].alive && id in states[c].entities ==> !states[c].entities[id].alive
  {
    RunKeepsInv(cfg, states, events, a);
    RunAges(cfg, states, events, a, b);
    RunAges(cfg, states, events, b, c);
    RunAges(cfg, states, events, a, c);
  }

  /** Everything broadcast about combat up to a state of a run, in order. */
  function CombatLog(cfg: Config, states: seq<Server>, events: seq<Event>, i: nat): (r: seq<Msg>)
    requires IsRun(cfg, states, events) && i < |states|
    ensures forall k :: 0 <= k < |r| ==> IsCombat(r[k])
  {
    if i == 0 then []
    else CombatLog(cfg, states, events, i - 1) + CombatOf(Step(cfg, states[i - 1], events[i - 1]).sends)
  }

  /** Nothing in a log names a victim after that victim's death. */
  predicate Final(log: seq<Msg>) {
    forall i, j :: 0 <= i < j < |log| && log[i].CombatDeath? ==> Victim(log[j]) != Victim(log[i])
  }

  /** Whoever a log has declared dead is dead or gone, and its id spent. */
  predicate Buried(s: Server, log: seq<Msg>) {
    forall k :: 0 <= k < |log| && log[k].CombatDeath? ==>
      Victim(log[k]) < s.nextEntityId && !Lives(s, Victim(log[k]))
  }

  lemma BuriedStep(s: Server, s': Server, log: seq<Msg>, msgs: seq<Msg>)
    requires IdsOk(s) && Ages(s, s') && Buried(s, log) && Final(log) && Fair(s, s', msgs)
    ensures Final(log + msgs) && Buried(s', log + msgs)
  {
    var all := log + msgs;
    forall k | 0 <= k < |all| && all[k].CombatDeath? ensures Victim(all[k]) < s'.nextEntityId && !Lives(s', Victim(all[k])) {
      if k < |log| {
        assert all[k] == log[k];
      } else {
        assert all[k] == msgs[k - |log|] && Lives(s, Victim(msgs[k - |log|]));
      }
    }
    forall i, j | 0 <= i < j < |all| && all[i].CombatDeath? ensures Victim(all[j]) != Victim(all[i]) {
      if |log| <= j {
        assert all[j] == msgs[j - |log|] && Lives(s, Victim(all[j]));
        assert i < |log|;
      }
    }
  }

  lemma NextBuried(cfg: Config, states: seq<Server>, events: seq<Event>, i: nat)
    requires IsRun(cfg, states, events) && i < |events| && Inv(states[i]) && OneProcess(events)
    requires Final(CombatLog(cfg, states, events, i)) && Buried(states[i], CombatLog(cfg, states, events, i))
    ensures Final(CombatLog(cfg, states, events, i + 1)) && Buried(states[i + 1], CombatLog(cfg, states, events, i + 1))
  {
    NextAges(cfg, states, events, i);
    StepFair(cfg, states[i], events[i]);
    BuriedStep(states[i], states[i + 1], CombatLog(cfg, states, events, i), CombatOf(Step(cfg, states[i], events[i]).sends));
  }

  /** Over every run: at most one death is broadcast per id, and after it no hit, KO or
      death names that id as victim; a declared death is never taken back. */
  lemma {:induction false} DeathIsFinal(cfg: Config, states: seq<Server>, events: seq<Event>, i: nat)
    requires IsRun(cfg, states, events) && i < |states| && Inv(states[0]) && OneProcess(events)
    ensures Final(CombatLog(cfg, states, events, i)) && Buried(states[i], CombatLog(cfg, states, events, i))
  {
    hide Step, Inv, Follows, OneProcess;
    if i > 0 {
      RunKeepsInv(cfg, states, events, i - 1);
      DeathIsFinal(cfg, states, events, i - 1);
      NextBuried(cfg, states, events, i - 1);
    }
  }
}
