/** Consequences of replication for a client: when its view is exact. */
module Clients {
  import opened Types
  import opened Combat
  import opened ServerModel
  import opened Persistence
  import opened Runs
  import opened Ownership
  import opened Hosts
  import opened Replication
  import opened Mirroring

  // ----- in-range spawns

  predicate AllInRange(entities: Entities) { forall id :: id in entities ==> InRange(entities[id].position) }

  predicate SpawnsInRange(e: Event) { e.Packets? && e.pkt.SpawnRequest? ==> InRange(e.pkt.position) }

  lemma {:induction false} MovedInRange(entities: Entities, pid: PlayerID, updates: seq<Placement>)
    requires AllInRange(entities)
    ensures AllInRange(Moved(entities, pid, updates))
  {
    if updates != [] {
      MovedInRange(entities, pid, updates[..|updates| - 1]);
    }
  }

  lemma {:induction false} LoadedInRange(cfg: Config, rs: seq<Record>)
    ensures AllInRange(LoadRecords(cfg, rs).entities)
  {
    if rs != [] {
      LoadedInRange(cfg, rs[..|rs| - 1]);
    }
  }

  lemma ActInRange(cfg: Config, s: Server, pid: PlayerID, pkt: Packet)
    requires PeersOk(s) && pid in s.players && WellOrdered(s, pkt) && AllInRange(s.entities)
    requires pkt.SpawnRequest? ==> InRange(pkt.position)
    ensures AllInRange(Act(cfg, s, pid, pkt).server.entities)
  {
    hide InRange, DistSq, KnockedOut, Fatal;
    if pkt.PositionUpdate? {
      MovedInRange(s.entities, pid, pkt.updates);
    }
  }

  lemma StepInRange(cfg: Config, s: Server, e: Event)
    requires Inv(s) && Enabled(s, e) && AllInRange(s.entities) && SpawnsInRange(e)
    ensures AllInRange(Step(cfg, s, e).server.entities)
  {
    hide Act, InRange;
    match e
    case Joins(_, _, _, _, _, _) =>
    case Leaves(_, _, _) =>
    case Packets(peer, pkt) =>
      if peer in s.peers {
        ActInRange(cfg, s, s.peers[peer], pkt);
      }
    case Sweeps(_) =>
    case Restarts(es, _) => LoadedInRange(cfg, Records(es, s.entities));
  }

  // ----- a client knows every entity that is not its own

  predicate UnseenAreOwn(s: Server, p: PlayerID, unseen: set<EntityID>) {
    forall id :: id in unseen && id in s.entities ==> s.entities[id].owner == p
  }

  lemma PacketUnseen(cfg: Config, s: Server, peer: Peer, pkt: Packet, p: PlayerID, unseen: set<EntityID>)
    requires Inv(s) && peer in s.peers && WellOrdered(s, pkt) && UnseenAreOwn(s, p, unseen)
    requires forall id :: id in unseen ==> id < s.nextEntityId
    ensures UnseenAreOwn(Act(cfg, s, s.peers[peer], pkt).server, p, UnseenAfter(cfg, s, Packets(peer, pkt), p, unseen))
  {
    ActFrame(cfg, s, s.peers[peer], pkt);
    var s' := Act(cfg, s, s.peers[peer], pkt).server;
    assert forall id :: id in unseen && id in s'.entities ==> id in s.entities;
  }

  lemma JoinUnseen(cfg: Config, s: Server, e: Event, p: PlayerID, unseen: set<EntityID>)
    requires Inv(s) && Enabled(s, e) && e.Joins? && AllInRange(s.entities)
    requires p in s.players ==> UnseenAreOwn(s, p, unseen)
    requires p !in s.players ==> unseen == {}
    ensures UnseenAreOwn(Step(cfg, s, e).server, p, UnseenAfter(cfg, s, e, p, unseen))
  {
    hide Handshake, InRange;
    if Admits(cfg, s, e.peer, e.version) {
      JoinStep(cfg, s, e);
    } else {
      RejectStep(cfg, s, e);
    }
  }

  lemma LeaveUnseen(s: Server, pid: PlayerID, order: seq<EntityID>, heir: PlayerID, p: PlayerID, unseen: set<EntityID>)
    requires Inv(s) && pid in s.players && p != pid && UnseenAreOwn(s, p, unseen)
    ensures UnseenAreOwn(Left(s, pid, order, heir), p, unseen)
  {}

  lemma StepUnseen(cfg: Config, s: Server, e: Event, p: PlayerID, unseen: set<EntityID>)
    requires Inv(s) && Enabled(s, e) && AllInRange(s.entities) && p in Step(cfg, s, e).server.players
    requires p in s.players ==> UnseenAreOwn(s, p, unseen) && forall id :: id in unseen ==> id < s.nextEntityId
    requires p !in s.players ==> unseen == {}
    ensures UnseenAreOwn(Step(cfg, s, e).server, p, UnseenAfter(cfg, s, e, p, unseen))
  {
    if e.Joins? {
      JoinUnseen(cfg, s, e, p, unseen);
    } else {
      OldPlayers(cfg, s, e, p);
      if e.Leaves? && e.peer in s.peers {
        LeaveUnseen(s, s.peers[e.peer], e.entityOrder, e.heir, p, unseen);
      } else if e.Packets? && e.peer in s.peers {
        PacketUnseen(cfg, s, e.peer, e.pkt, p, unseen);
      } else if e.Sweeps? {
        SweepRemovesNothing(s, e.entityOrder);
      }
    }
  }

  lemma NextUnseen(cfg: Config, states: seq<Server>, events: seq<Event>, i: nat, p: PlayerID)
    requires IsRun(cfg, states, events) && i < |events| && Inv(states[i]) && p in states[i + 1].players
    requires AllInRange(states[i].entities)
    requires p in states[i].players ==>
      && UnseenAreOwn(states[i], p, Unseen(cfg, states, events, i, p))
      && (forall id :: id in Unseen(cfg, states, events, i, p) ==> id < states[i].nextEntityId)
    ensures UnseenAreOwn(states[i + 1], p, Unseen(cfg, states, events, i + 1, p))
  {
    StepUnseen(cfg, states[i], events[i], p, Unseen(cfg, states, events, i, p));
  }

  lemma {:induction false} RunInRange(cfg: Config, states: seq<Server>, events: seq<Event>, i: nat)
    requires IsRun(cfg, states, events) && i < |states| && Inv(states[0]) && AllInRange(states[0].entities)
    requires forall k :: 0 <= k < |events| ==> SpawnsInRange(events[k])
    ensures AllInRange(states[i].entities)
  {
    hide Step, Inv, AllInRange;
    if i > 0 {
      RunKeepsInv(cfg, states, events, i - 1);
      RunInRange(cfg, states, events, i - 1);
      var e := events[i - 1];
      StepInRange(cfg, states[i - 1], events[i - 1]);
    }
  }

  lemma {:induction false} RunUnseen(cfg: Config, states: seq<Server>, events: seq<Event>, i: nat, p: PlayerID)
    requires IsRun(cfg, states, events) && i < |states| && Inv(states[0]) && states[0].players.Keys == {}
    requires AllInRange(states[0].entities) && forall k :: 0 <= k < |events| ==> SpawnsInRange(events[k])
    requires p in states[i].players
    ensures UnseenAreOwn(states[i], p, Unseen(cfg, states, events, i, p))
  {
    assert i > 0;
    RunKeepsInv(cfg, states, events, i - 1);
    RunInRange(cfg, states, events, i - 1);
    if p in states[i - 1].players {
      RunUnseen(cfg, states, events, i - 1, p);
      Replicated(cfg, states, events, i - 1, p);
    }
    NextUnseen(cfg, states, events, i - 1, p);
  }

  /** What a client has built in this session. */
  function Built(cfg: Config, states: seq<Server>, events: seq<Event>, i: nat, p: PlayerID): set<EntityID>
    requires IsRun(cfg, states, events) && i < |states|
  {
    if i == 0 || p !in states[i].players then {}
    else
      var s, e, before := states[i - 1], events[i - 1], Built(cfg, states, events, i - 1, p);
      if e.Packets? && e.peer in s.peers && s.peers[e.peer] == p && e.pkt.BuildRequest? && CanBuild(s, p, e.pkt.position)
      then before + {s.nextEntityId} else before
  }

  lemma StepUnseenBuilt(cfg: Config, s: Server, e: Event, p: PlayerID, unseen: set<EntityID>)
    requires Inv(s) && AllInRange(s.entities) && UnseenAreOwn(s, p, unseen)
    ensures UnseenAfter(cfg, s, e, p, unseen) ==
            if e.Joins? && Admits(cfg, s, e.peer, e.version) && p == s.nextPlayerId then {}
            else if && e.Packets? && e.peer in s.peers && s.peers[e.peer] == p
                    && e.pkt.BuildRequest? && CanBuild(s, p, e.pkt.position) then unseen + {s.nextEntityId}
            else unseen
  {
    hide InRange;
  }

  lemma NextUnseenBuilt(cfg: Config, states: seq<Server>, events: seq<Event>, i: nat, p: PlayerID)
    requires IsRun(cfg, states, events) && i < |events| && Inv(states[i]) && AllInRange(states[i].entities)
    requires p in states[i + 1].players && UnseenAreOwn(states[i], p, Unseen(cfg, states, events, i, p))
    requires Unseen(cfg, states, events, i, p) == Built(cfg, states, events, i, p)
    ensures Unseen(cfg, states, events, i + 1, p) == Built(cfg, states, events, i + 1, p)
  {
    hide Inv, InRange, Step, CanBuild;
    var e := events[i];
    StepUnseenBuilt(cfg, states[i], e, p, Unseen(cfg, states, events, i, p));
    if p == states[i].nextPlayerId {
      FreshIdAbsent(states[i]);
    }
  }

  lemma FreshIdAbsent(s: Server)
    requires Inv(s)
    ensures s.nextPlayerId !in s.players
  {}

  lemma {:induction false} UnseenIsBuilt(cfg: Config, states: seq<Server>, events: seq<Event>, i: nat, p: PlayerID)
    requires IsRun(cfg, states, events) && i < |states| && Inv(states[0]) && states[0].players.Keys == {}
    requires AllInRange(states[0].entities) && forall k :: 0 <= k < |events| ==> SpawnsInRange(events[k])
    ensures Unseen(cfg, states, events, i, p) == Built(cfg, states, events, i, p)
  {
    if i > 0 && p in states[i].players {
      UnseenIsBuilt(cfg, states, events, i - 1, p);
      RunKeepsInv(cfg, states, events, i - 1);
      RunInRange(cfg, states, events, i - 1);
      if p in states[i - 1].players {
        RunUnseen(cfg, states, events, i - 1, p);
      }
      NextUnseenBuilt(cfg, states, events, i - 1, p);
    }
  }

  /** When every spawn position is in range, folding a client's messages gives exactly the
      server's entities with their alive flags in every state of the run, apart from what
      the client itself built or dismantled in this session. */
  lemma ExactView(cfg: Config, states: seq<Server>, events: seq<Event>, i: nat, p: PlayerID)
    requires IsRun(cfg, states, events) && i < |states| && Inv(states[0]) && states[0].players.Keys == {}
    requires AllInRange(states[0].entities) && forall k :: 0 <= k < |events| ==> SpawnsInRange(events[k])
    requires p in states[i].players
    ensures Mirrors(states[i], Built(cfg, states, events, i, p), Stale(cfg, states, events, i, p),
                    Observed(map[], Log(cfg, states, events, i, p)))
    ensures UnseenAreOwn(states[i], p, Built(cfg, states, events, i, p))
  {
    hide Built, Unseen, Stale, Log, Observed, Mirrors;
    UnseenIsBuilt(cfg, states, events, i, p);
    RunUnseen(cfg, states, events, i, p);
    Replicated(cfg, states, events, i, p);
  }

  /** In particular it holds every entity of every other owner, with the right alive flag. */
  lemma KnowsAllOthers(cfg: Config, states: seq<Server>, events: seq<Event>, i: nat, p: PlayerID, id: EntityID)
    requires IsRun(cfg, states, events) && i < |states| && Inv(states[0]) && states[0].players.Keys == {}
    requires AllInRange(states[0].entities) && forall k :: 0 <= k < |events| ==> SpawnsInRange(events[k])
    requires p in states[i].players && id in states[i].entities && states[i].entities[id].owner != p
    ensures var v := Observed(map[], Log(cfg, states, events, i, p));
            id in v && v[id] == states[i].entities[id].alive
  {
    hide Built, Stale, Log, Observed;
    ExactView(cfg, states, events, i, p);
  }

  /** The range condition is needed: whatever the newcomer's snapshot skips is missing
      from its view. */
  lemma SkippedIsMissing(cfg: Config, s: Server, e: Event, id: EntityID)
    requires Inv(s) && e.Joins? && Enabled(s, e) && Admits(cfg, s, e.peer, e.version) && id in s.entities
    ensures id in Observed(map[], MessagesFor(s.nextPlayerId, Step(cfg, s, e).sends))
            <==> InRange(s.entities[id].position)
  {
    hide Handshake, InRange, Observed, MessagesFor;
    JoinMirror(cfg, s, e);
    JoinStep(cfg, s, e);
  }
}
