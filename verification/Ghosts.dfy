/** A client's registry against the server, from its connection on: what it hears before its
    handshake, when a broadcast reaches it like everybody else but a message to the other
    players does not, and what it hears as a player. */
module Ghosts {
  import opened Types
  import opened Combat
  import opened ServerModel
  import opened Runs
  import opened Ownership
  import opened Hosts
  import opened HostBeliefs
  import opened Replication
  import opened Mirroring
  import opened Mortality
  import opened ClientRegistry

  // ----- a session, seen from everything the server had when it began

  function FullView(entities: Entities): View { map id | id in entities :: entities[id].alive }

  predicate Dismantles(s: Server, e: Event, p: PlayerID)
    requires PeersOk(s)
  {
    e.Packets? && e.peer in s.peers && s.peers[e.peer] == p && e.pkt.Dismantle? && MayManage(s, p, e.pkt.building)
  }

  /** What a client has dismantled in this session. */
  function Dismantled(cfg: Config, states: seq<Server>, events: seq<Event>, i: nat, p: PlayerID): set<EntityID>
    requires IsRun(cfg, states, events) && i < |states|
  {
    if i == 0 || p !in states[i].players then {}
    else
      var before := Dismantled(cfg, states, events, i - 1, p);
      if Dismantles(states[i - 1], events[i - 1], p) then before + {events[i - 1].pkt.building} else before
  }

  /** Nothing in the view but what exists, with its alive flag, or what was dismantled. */
  predicate Tracks(s: Server, dismantled: set<EntityID>, v: View) {
    && v.Keys <= s.entities.Keys + dismantled
    && (forall id :: id in v ==> id < s.nextEntityId && (id in s.entities ==> v[id] == s.entities[id].alive))
  }

  lemma TracksMirrors(s: Server, d: set<EntityID>, v: View)
    requires Inv(s) && Tracks(s, d, v)
    ensures Mirrors(s, s.entities.Keys - v.Keys, v.Keys - s.entities.Keys, v)
  {}

  lemma MirrorsTracks(s: Server, unseen: set<EntityID>, stale: set<EntityID>, d: set<EntityID>, v: View)
    requires Inv(s) && Mirrors(s, unseen, stale, v) && stale <= d
    ensures Tracks(s, d, v)
  {
    forall id | id in v ensures id < s.nextEntityId && (id in s.entities ==> v[id] == s.entities[id].alive) {
      assert id in stale || id in s.entities;
    }
  }

  lemma StepTracks(cfg: Config, s: Server, e: Event, p: PlayerID, d: set<EntityID>, v: View)
    requires Inv(s) && Enabled(s, e) && p in s.players && p in Step(cfg, s, e).server.players && Tracks(s, d, v)
    ensures Tracks(Step(cfg, s, e).server, if Dismantles(s, e, p) then d + {e.pkt.building} else d,
                   Observed(v, MessagesFor(p, Step(cfg, s, e).sends)))
  {
    hide Step, Inv, Mirrors, Observed, MessagesFor, Enabled;
    var unseen, stale := s.entities.Keys - v.Keys, v.Keys - s.entities.Keys;
    InvPeers(s);
    StepKeepsInv(cfg, s, e);
    TracksMirrors(s, d, v);
    StepMirror(cfg, s, e, p, unseen, stale, v);
    MirrorsTracks(Step(cfg, s, e).server, UnseenAfter(cfg, s, e, p, unseen), StaleAfter(s, e, p, unseen, stale),
                  if Dismantles(s, e, p) then d + {e.pkt.building} else d,
                  Observed(v, MessagesFor(p, Step(cfg, s, e).sends)));
  }

  lemma InvPeers(s: Server)
    requires Inv(s)
    ensures PeersOk(s)
  {}

  /** A newcomer that already knew everything is told nothing that does not exist. */
  lemma JoinTracks(cfg: Config, s: Server, e: Event)
    requires Inv(s) && e.Joins? && Enabled(s, e) && Admits(cfg, s, e.peer, e.version)
    ensures Tracks(Step(cfg, s, e).server, {},
                   Observed(FullView(s.entities), MessagesFor(s.nextPlayerId, Step(cfg, s, e).sends)))
  {
    hide MessagesFor, Observed, Snapshot, ShownTo, Handshake, InRange;
    var s', v := Joined(s, e.peer, Sanitized(e.raw), e.loopback), FullView(s.entities);
    JoinStep(cfg, s, e);
    JoinSeen(cfg, s, e, s.nextPlayerId, v);
    JoinedVital(s, e.peer, Sanitized(e.raw), e.loopback);
    SnapshotObserved(v, s.nextPlayerId, e.entityOrder, s'.entities, s'.players);
    ToldTracks(s, s', Picked(e.entityOrder, ShownTo(s'.entities, s'.players)));
  }

  lemma ToldTracks(s: Server, s': Server, ids: set<EntityID>)
    requires Inv(s) && SameVital(s.entities, s'.entities) && s'.nextEntityId == s.nextEntityId
    ensures Tracks(s', {}, Told(FullView(s.entities), ids, s'.entities))
  {}

  lemma NextTracks(cfg: Config, states: seq<Server>, events: seq<Event>, i: nat, p: PlayerID, v: View)
    requires IsRun(cfg, states, events) && i < |events| && Inv(states[i])
    requires p in states[i].players && p in states[i + 1].players && Tracks(states[i], Dismantled(cfg, states, events, i, p), v)
    ensures Tracks(states[i + 1], Dismantled(cfg, states, events, i + 1, p),
                   Observed(v, MessagesFor(p, Step(cfg, states[i], events[i]).sends)))
  {
    hide Tracks;
    var e := events[i];
    StepTracks(cfg, states[i], e, p, Dismantled(cfg, states, events, i, p), v);
  }

  lemma FirstTracks(cfg: Config, states: seq<Server>, events: seq<Event>, i: nat, p: PlayerID)
    requires IsRun(cfg, states, events) && i < |events| && Inv(states[i])
    requires p !in states[i].players && p in states[i + 1].players
    ensures Tracks(states[i + 1], Dismantled(cfg, states, events, i + 1, p),
                   Observed(FullView(states[i].entities), MessagesFor(p, Step(cfg, states[i], events[i]).sends)))
  {
    hide Tracks, Observed, MessagesFor;
    var s, e := states[i], events[i];
    NewPlayerJoins(cfg, s, e, p);
    JoinTracks(cfg, s, e);
    assert Dismantled(cfg, states, events, i, p) == {};
  }

  lemma NewPlayerJoins(cfg: Config, s: Server, e: Event, p: PlayerID)
    requires Inv(s) && Enabled(s, e) && p !in s.players && p in Step(cfg, s, e).server.players
    ensures e.Joins? && Admits(cfg, s, e.peer, e.version) && p == s.nextPlayerId
  {
    if e.Joins? {
      if Admits(cfg, s, e.peer, e.version) {
        JoinStep(cfg, s, e);
      } else {
        RejectStep(cfg, s, e);
      }
    } else {
      OldPlayers(cfg, s, e, p);
    }
  }

  /** Over every run: folding a client's messages over everything the server had when it
      joined gives nothing but what exists and what the client dismantled. */
  lemma {:induction false} RunTracks(cfg: Config, states: seq<Server>, events: seq<Event>, i: nat, p: PlayerID)
    requires IsRun(cfg, states, events) && i < |states| && Inv(states[0]) && states[0].players.Keys == {}
    requires p in states[i].players
    ensures Tracks(states[i], Dismantled(cfg, states, events, i, p),
                   Observed(FullView(states[JoinedAt(states, i, p)].entities), Log(cfg, states, events, i, p)))
  {
    hide Tracks, Dismantled, Observed, MessagesFor, Step;
    RunKeepsInv(cfg, states, events, i - 1);
    var e := events[i - 1];
    var start, sends := FullView(states[JoinedAt(states, i, p)].entities), Step(cfg, states[i - 1], e).sends;
    ObservedConcat(start, Log(cfg, states, events, i - 1, p), MessagesFor(p, sends));
    if p in states[i - 1].players {
      RunTracks(cfg, states, events, i - 1, p);
      NextTracks(cfg, states, events, i - 1, p, Observed(start, Log(cfg, states, events, i - 1, p)));
    } else {
      NothingObserved(start);
      FirstTracks(cfg, states, events, i - 1, p);
    }
  }

  lemma NothingObserved(v: View)
    ensures Observed(v, []) == v
  {}

  // ----- before the handshake

  predicate TakesDown(s: Server, e: Event)
    requires PeersOk(s)
  {
    e.Packets? && e.peer in s.peers && e.pkt.Dismantle? && MayManage(s, s.peers[e.peer], e.pkt.building)
  }

  /** What anybody dismantled from state `c` up to state `i`. */
  function TakenDown(cfg: Config, states: seq<Server>, events: seq<Event>, c: nat, i: nat): set<EntityID>
    requires IsRun(cfg, states, events) && i < |states|
  {
    if i <= c then {}
    else
      var before := TakenDown(cfg, states, events, c, i - 1);
      if TakesDown(states[i - 1], events[i - 1]) then before + {events[i - 1].pkt.building} else before
  }

  /** Broadcasts that announce nothing new. */
  predicate NoNews(sends: seq<Send>) {
    forall k :: 0 <= k < |sends| && sends[k].ToAll? ==> !sends[k].msg.EntitySpawn? && !sends[k].msg.BuildPlaced?
  }

  lemma {:induction false} NoNewsShrinks(v: View, sends: seq<Send>)
    requires NoNews(sends)
    ensures Observed(v, Broadcasts(sends)).Keys <= v.Keys
  {
    if sends != [] {
      NoNewsShrinks(v, sends[..|sends| - 1]);
      var m, last := Broadcasts(sends[..|sends| - 1]), sends[|sends| - 1];
      assert (m + [last.msg])[..|m|] == m;
    }
  }

  lemma OneToAll(v: View, m: Msg)
    ensures Observed(v, Broadcasts([ToAll(m)])) == Observe(v, m)
  {
    hide Observe;
    assert [ToAll(m)][..0] == [] && [m][..0] == [];
    assert Broadcasts([ToAll(m)]) == [m];
    assert Observed(v, [m]) == Observe(Observed(v, []), m);
  }

  lemma QuietNews(cfg: Config, s: Server, pid: PlayerID, pkt: Packet)
    requires PeersOk(s) && IdsOk(s) && pid in s.players && WellOrdered(s, pkt)
    requires !pkt.SpawnRequest? && !pkt.DespawnRequest? && !pkt.Dismantle?
    ensures NoNews(Act(cfg, s, pid, pkt).sends) && s.entities.Keys <= Act(cfg, s, pid, pkt).server.entities.Keys
  {
    hide InRange, DistSq, KnockedOut, Fatal;
    if pkt.PositionUpdate? {
      MovedFrame(s.entities, pid, pkt.updates);
    } else if pkt.ZoneRequest? {
      ZoneNews(pid, pkt.zone, pkt.order, s.entities);
    }
  }

  lemma {:induction false} ZoneNews(pid: PlayerID, zone: Zone, order: seq<EntityID>, entities: Entities)
    requires forall i :: 0 <= i < |order| ==> order[i] in entities
    ensures NoNews(ZoneReply(pid, zone, order, entities))
  {
    if order != [] {
      ZoneNews(pid, zone, order[..|order| - 1], entities);
    }
  }

  lemma PacketOverheard(cfg: Config, s: Server, pid: PlayerID, pkt: Packet, d: set<EntityID>, v: View)
    requires Inv(s) && pid in s.players && WellOrdered(s, pkt) && v.Keys <= s.entities.Keys + d
    ensures Observed(v, Broadcasts(Act(cfg, s, pid, pkt).sends)).Keys <=
            Act(cfg, s, pid, pkt).server.entities.Keys
            + (if pkt.Dismantle? && MayManage(s, pid, pkt.building) then d + {pkt.building} else d)
  {
    hide Observed, Broadcasts;
    var f := Act(cfg, s, pid, pkt);
    if pkt.SpawnRequest? {
      SpawnOverheard(cfg, s, pid, pkt, v);
    } else if pkt.DespawnRequest? {
      DespawnOverheard(s, pid, pkt.entity, pkt.reason, v);
    } else if pkt.Dismantle? {
      NoNewsShrinks(v, f.sends);
    } else {
      QuietNews(cfg, s, pid, pkt);
      hide Act;
      NoNewsShrinks(v, f.sends);
    }
  }

  lemma SpawnOverheard(cfg: Config, s: Server, pid: PlayerID, pkt: Packet, v: View)
    requires Inv(s) && pid in s.players && pkt.SpawnRequest?
    ensures s.entities.Keys <= Spawn(cfg, s, pid, pkt).server.entities.Keys
    ensures Observed(v, Broadcasts(Spawn(cfg, s, pid, pkt).sends)).Keys <= v.Keys + Spawn(cfg, s, pid, pkt).server.entities.Keys
  {
    if CanSpawn(s, pkt) {
      var e := NewEntity(cfg, s, pid, pkt);
      OneToAll(v, SpawnMsg(e));
      assert Spawn(cfg, s, pid, pkt).sends == [ToAll(SpawnMsg(e))];
    } else {
      NoNewsShrinks(v, []);
    }
  }

  lemma DespawnOverheard(s: Server, pid: PlayerID, id: EntityID, reason: nat, v: View)
    ensures var f := Despawn(s, pid, id, reason);
            if f.sends == [] then f.server == s && Observed(v, Broadcasts(f.sends)).Keys <= v.Keys
            else f.server.entities == s.entities - {id} && Observed(v, Broadcasts(f.sends)).Keys == v.Keys - {id}
  {
    NoNewsShrinks(v, []);
    OneToAll(v, EntityDespawn(id, reason));
  }

  lemma WelcomeNews(s: Server, id: PlayerID, es: seq<EntityID>, ps: seq<PlayerID>, took: bool)
    requires id in s.players
    requires forall i :: 0 <= i < |es| ==> es[i] in s.entities
    requires forall i :: 0 <= i < |ps| ==> ps[i] in s.players
    ensures NoNews(Greeting(id, took) + Welcome(s, id, es, ps))
  {
    hide Snapshot, Introductions;
    SnapshotPrivate(id, es, s.entities, s.players);
    IntroductionsIntroduce(id, ps, s.players);
  }

  lemma JoinedKeys(s: Server, peer: Peer, name: string, loopback: bool)
    ensures var s' := Joined(s, peer, name, loopback);
            s'.entities.Keys == s.entities.Keys && s'.players.Keys == s.players.Keys + {s.nextPlayerId}
  {}

  lemma JoinNews(cfg: Config, s: Server, e: Event)
    requires Inv(s) && e.Joins? && Enabled(s, e)
    ensures NoNews(Step(cfg, s, e).sends) && Step(cfg, s, e).server.entities.Keys == s.entities.Keys
  {
    hide Handshake, Greeting, Welcome, Sanitized, NoNews, Joined, Inv, TakesOverHost;
    InvPeers(s);
    if Admits(cfg, s, e.peer, e.version) {
      JoinStep(cfg, s, e);
      var s' := Joined(s, e.peer, Sanitized(e.raw), e.loopback);
      JoinedKeys(s, e.peer, Sanitized(e.raw), e.loopback);
      WelcomeNews(s', s.nextPlayerId, e.entityOrder, e.playerOrder, TakesOverHost(s, e.loopback));
    } else {
      RejectStep(cfg, s, e);
      RejectionNews(Step(cfg, s, e).sends);
    }
  }

  lemma RejectionNews(sends: seq<Send>)
    requires forall i :: 0 <= i < |sends| ==> sends[i].msg.HandshakeReject?
    ensures NoNews(sends)
  {}

  lemma {:induction false} SnapshotPrivate(to: PlayerID, order: seq<EntityID>, entities: Entities, players: Players)
    requires forall i :: 0 <= i < |order| ==> order[i] in entities
    ensures NoNews(Snapshot(to, order, entities, players))
  {
    if order != [] {
      SnapshotPrivate(to, order[..|order| - 1], entities, players);
      EquipmentShows(to, entities[order[|order| - 1]], SLOTS);
    }
  }

  lemma LeaveNews(cfg: Config, s: Server, e: Event)
    requires Inv(s) && e.Leaves? && Enabled(s, e)
    ensures NoNews(Step(cfg, s, e).sends) && Step(cfg, s, e).server.entities.Keys == s.entities.Keys
  {
    hide OwnedIn;
  }

  lemma StepOverheard(cfg: Config, s: Server, e: Event, d: set<EntityID>, v: View)
    requires Inv(s) && Enabled(s, e) && !e.Restarts? && v.Keys <= s.entities.Keys + d
    ensures Observed(v, Broadcasts(Step(cfg, s, e).sends)).Keys <=
            Step(cfg, s, e).server.entities.Keys + (if TakesDown(s, e) then d + {e.pkt.building} else d)
  {
    hide Handshake, Disconnect, Act, Sweep, Observed, Broadcasts, Enumerates;
    match e
    case Joins(_, _, _, _, _, _) =>
      JoinNews(cfg, s, e);
      NoNewsShrinks(v, Step(cfg, s, e).sends);
    case Leaves(_, _, _) =>
      LeaveNews(cfg, s, e);
      NoNewsShrinks(v, Step(cfg, s, e).sends);
    case Packets(peer, pkt) =>
      if peer in s.peers {
        PacketOverheard(cfg, s, s.peers[peer], pkt, d, v);
      } else {
        NoNewsShrinks(v, []);
      }
    case Sweeps(es) =>
      SweepRemovesNothing(s, es);
      NoNewsShrinks(v, []);
  }

  lemma FollowsAt(cfg: Config, states: seq<Server>, events: seq<Event>, i: nat)
    requires IsRun(cfg, states, events) && i < |events|
    ensures PeersOk(states[i]) && Enabled(states[i], events[i])
  {
    var e := events[i];
  }

  lemma NextOverheard(cfg: Config, states: seq<Server>, events: seq<Event>, i: nat, d: set<EntityID>, v: View)
    requires IsRun(cfg, states, events) && i < |events| && Inv(states[i]) && !events[i].Restarts?
    requires v.Keys <= states[i].entities.Keys + d
    ensures Observed(v, Broadcasts(Step(cfg, states[i], events[i]).sends)).Keys <=
            states[i + 1].entities.Keys + (if TakesDown(states[i], events[i]) then d + {events[i].pkt.building} else d)
  {
    hide Observed, Broadcasts, Step;
    var e := events[i];
    StepOverheard(cfg, states[i], e, d, v);
  }

  /** Over every run: folding the broadcasts since a peer connected gives nothing but what
      exists and what was dismantled meanwhile. */
  lemma {:induction false} RunOverheard(cfg: Config, states: seq<Server>, events: seq<Event>, c: nat, i: nat)
    requires IsRun(cfg, states, events) && c <= i < |states| && Inv(states[0]) && OneServer(events, c, i)
    ensures Observed(map[], Overheard(cfg, states, events, c, i)).Keys <=
            states[i].entities.Keys + TakenDown(cfg, states, events, c, i)
  {
    hide Broadcasts, Step, Inv, Follows, TakesDown, Observe;
    if c < i {
      RunOverheard(cfg, states, events, c, i - 1);
      RunKeepsInv(cfg, states, events, i - 1);
      FollowsAt(cfg, states, events, i - 1);
      var e, heard := events[i - 1], Overheard(cfg, states, events, c, i - 1);
      ObservedConcat(map[], heard, Broadcasts(Step(cfg, states[i - 1], e).sends));
      NextOverheard(cfg, states, events, i - 1, TakenDown(cfg, states, events, c, i - 1), Observed(map[], heard));
    }
  }

  lemma DismantledGone(cfg: Config, s: Server, e: Event)
    requires Inv(s) && Enabled(s, e) && TakesDown(s, e)
    ensures e.pkt.building < s.nextEntityId && e.pkt.building !in Step(cfg, s, e).server.entities
  {}

  ghost predicate Spent(s: Server, ids: set<EntityID>) {
    forall id :: id in ids ==> id < s.nextEntityId && id !in s.entities
  }

  lemma NextSpent(cfg: Config, states: seq<Server>, events: seq<Event>, i: nat, ids: set<EntityID>)
    requires IsRun(cfg, states, events) && i < |events| && Inv(states[i]) && !events[i].Restarts? && Spent(states[i], ids)
    ensures Spent(states[i + 1], ids)
    ensures TakesDown(states[i], events[i]) ==> Spent(states[i + 1], ids + {events[i].pkt.building})
  {
    hide Step;
    var e := events[i];
    StepAges(cfg, states[i], e);
    if TakesDown(states[i], e) {
      DismantledGone(cfg, states[i], e);
    }
  }

  lemma {:induction false} TakenDownSpent(cfg: Config, states: seq<Server>, events: seq<Event>, c: nat, i: nat)
    requires IsRun(cfg, states, events) && c <= i < |states| && Inv(states[0]) && OneServer(events, c, i)
    ensures Spent(states[i], TakenDown(cfg, states, events, c, i))
  {
    if c < i {
      TakenDownSpent(cfg, states, events, c, i - 1);
      RunKeepsInv(cfg, states, events, i - 1);
      hide Spent;
      var e := events[i - 1];
      NextSpent(cfg, states, events, i - 1, TakenDown(cfg, states, events, c, i - 1));
    }
  }

  // ----- the two together

  predicate Connected(h: seq<Happening>) { forall k :: 0 <= k < |h| ==> !h[k].Disconnects? }

  lemma KnownIsSeen(c: Client, v: View, h: seq<Happening>)
    requires Known(c) <= v.Keys && NeverMissed(c, h) && Connected(h)
    ensures Known(After(c, h)) <= Observed(v, Messages(h)).Keys
  {
    hide Known, After, Seen, NeverMissed, Messages, Observed;
    GhostFreeIff(c, v, h);
    SeenIsObserved(v, h);
    assert h[..|h|] == h;
    assert PointFree(c, v, h[..|h|]);
  }

  /** What a client brings into its session: having missed no removal it was sent, it comes to
      its handshake knowing only what exists if and only if it knows nothing that was
      dismantled while it was waiting. */
  lemma WaitingGhosts(cfg: Config, states: seq<Server>, events: seq<Event>, c: nat, j: nat, k: Client, h: seq<Happening>)
    requires IsRun(cfg, states, events) && c <= j < |states| && Inv(states[0]) && OneServer(events, c, j)
    requires Known(k) == {} && NeverMissed(k, h) && Connected(h) && Messages(h) == Overheard(cfg, states, events, c, j)
    ensures Known(After(k, h)) <= states[j].entities.Keys <==> Known(After(k, h)) !! TakenDown(cfg, states, events, c, j)
  {
    hide Known, After, NeverMissed, Messages, Observed, Overheard, TakenDown, Step;
    KnownIsSeen(k, map[], h);
    RunOverheard(cfg, states, events, c, j);
    TakenDownSpent(cfg, states, events, c, j);
  }

  /** Over every run, for a client in any condition at its handshake: at every point of its
      session what it has registered or deferred is in the view of everything it was entitled
      to know, if and only if it came knowing only what existed and has missed no removal
      since; and then it knows nothing but what exists or what it dismantled itself. */
  lemma NoGhosts(cfg: Config, states: seq<Server>, events: seq<Event>, i: nat, p: PlayerID, k: Client, h: seq<Happening>)
    requires IsRun(cfg, states, events) && i < |states| && Inv(states[0]) && states[0].players.Keys == {}
    requires p in states[i].players && Connected(h) && Messages(h) == Log(cfg, states, events, i, p)
    ensures var start := states[JoinedAt(states, i, p)].entities;
            && (GhostFree(k, FullView(start), h) <==> Known(k) <= start.Keys && NeverMissed(k, h))
            && (GhostFree(k, FullView(start), h) ==>
                  Known(After(k, h)) <= states[i].entities.Keys + Dismantled(cfg, states, events, i, p))
  {
    var start := states[JoinedAt(states, i, p)].entities;
    FirstPoint(k, FullView(start), h);
    hide Known, After, NeverMissed, Messages, Observed, Log, GhostFree, Dismantled, Step;
    RunTracks(cfg, states, events, i, p);
    if Known(k) <= FullView(start).Keys {
      GhostFreeIff(k, FullView(start), h);
      if NeverMissed(k, h) {
        KnownIsSeen(k, FullView(start), h);
      }
    }
  }

  lemma FirstPoint(c: Client, v: View, h: seq<Happening>)
    ensures GhostFree(c, v, h) ==> Known(c) <= v.Keys
  {
    hide Known;
    assert h[..0] == [];
    if GhostFree(c, v, h) {
      assert PointFree(c, v, h[..0]);
    }
  }

  /** Such ghosts are real too: a player spawns an entity and dismantles it while a loaded
      client is waiting for its handshake. The client hears of the first and not of the
      second. */
  lemma WaitingGhostAppears(cfg: Config, s: Server, p: PlayerID, pkt: Packet, c: Client)
    requires Inv(s) && p in s.players && pkt.SpawnRequest? && CanSpawn(s, pkt)
    requires c.loaded && !Early(c.phase) && c.localId != p
    ensures var f1 := Spawn(cfg, s, p, pkt);
            var f2 := Demolish(f1.server, p, s.nextEntityId);
            var m := SpawnMsg(f1.server.entities[s.nextEntityId]);
            && Broadcasts(f1.sends + f2.sends) == [m]
            && s.nextEntityId !in f2.server.entities && s.nextEntityId in After(c, [Hears(m)]).remote
  {
    var f1 := Spawn(cfg, s, p, pkt);
    var e := f1.server.entities[s.nextEntityId];
    var f2 := Demolish(f1.server, p, s.nextEntityId);
    var sends := [ToAll(SpawnMsg(e)), ToOthers(p, BuildDestroyed(s.nextEntityId, 2))];
    assert f1.sends + f2.sends == sends;
    assert sends[..1] == [ToAll(SpawnMsg(e))] && sends[..1][..0] == [];
    assert Broadcasts(sends[..1]) == [SpawnMsg(e)];
    assert [Hears(SpawnMsg(e))][..0] == [];
  }
}
