/** The server as the code runs it: an object whose handlers update its maps in place
    and send as they go. Each handler is proved to take exactly the step that the
    step function describes; the object keeps the record of its own run, and after
    every event what is proved of whole runs holds of the object itself. */
module GameServer {
  import opened Types
  import opened Combat
  import opened ServerModel
  import opened Persistence
  import opened WorldFile
  import opened Names
  import opened Replicas
  import opened Runs
  import opened Ownership
  import opened Hosts
  import opened Replication
  import opened Mirroring
  import opened Mortality

  // ----- how the step functions unfold along an iteration order

  lemma OwnedInStep(order: seq<EntityID>, i: nat, entities: Entities, pid: PlayerID)
    requires i < |order|
    ensures OwnedIn(order[..i + 1], entities, pid) ==
      if order[i] in entities && entities[order[i]].owner == pid
      then OwnedIn(order[..i], entities, pid) + [order[i]] else OwnedIn(order[..i], entities, pid)
  {
    assert order[..i + 1][..i] == order[..i];
  }

  lemma OwnedInNone(entities: Entities, pid: PlayerID)
    ensures OwnedIn([], entities, pid) == []
  {}

  /** The entities after the player's among the listed ones have been set unowned. */
  function ReleasedAmong(entities: Entities, ids: seq<EntityID>, pid: PlayerID): Entities {
    map k | k in entities ::
      if k in ids && entities[k].owner == pid then entities[k].(owner := 0) else entities[k]
  }

  lemma ReleasedNone(entities: Entities, pid: PlayerID)
    ensures ReleasedAmong(entities, [], pid) == entities
  {}

  lemma ReleasedAll(entities: Entities, order: seq<EntityID>, pid: PlayerID)
    requires Enumerates(order, entities.Keys)
    ensures ReleasedAmong(entities, order, pid) == Released(entities, pid)
  {}

  lemma ReleasedStep(entities: Entities, order: seq<EntityID>, i: nat, pid: PlayerID)
    requires i < |order| && Enumerates(order, entities.Keys)
    ensures var now := ReleasedAmong(entities, order[..i], pid);
            && order[i] in now && now[order[i]] == entities[order[i]]
            && ReleasedAmong(entities, order[..i + 1], pid) ==
               if entities[order[i]].owner == pid then now[order[i] := now[order[i]].(owner := 0)] else now
  {
    assert order[i] !in order[..i] && order[..i + 1] == order[..i] + [order[i]];
  }

  lemma OrphanSet(s: Server, order: seq<EntityID>)
    requires Enumerates(order, s.entities.Keys)
    ensures (set id | id in Orphans(s, order)) == set id | id in s.entities && Orphan(s, id)
  {}

  lemma SnapshotStep(to: PlayerID, order: seq<EntityID>, i: nat, entities: Entities, players: Players)
    requires i < |order| && forall k :: 0 <= k < |order| ==> order[k] in entities
    ensures Snapshot(to, order[..i + 1], entities, players) ==
      if InSnapshot(entities[order[i]], players)
      then Snapshot(to, order[..i], entities, players) + [ToOne(to, SpawnMsg(entities[order[i]]))]
           + EquipmentSends(to, entities[order[i]], SLOTS)
      else Snapshot(to, order[..i], entities, players)
  {
    assert order[..i + 1][..i] == order[..i];
  }

  lemma SnapshotNone(to: PlayerID, entities: Entities, players: Players)
    ensures Snapshot(to, [], entities, players) == []
  {}

  lemma IntroductionsStep(to: PlayerID, order: seq<PlayerID>, i: nat, players: Players)
    requires i < |order| && forall k :: 0 <= k < |order| ==> order[k] in players
    ensures Introductions(to, order[..i + 1], players) ==
      if order[i] == to then Introductions(to, order[..i], players)
      else Introductions(to, order[..i], players) + [ToOne(to, PlayerJoined(order[i], NameOnWire(players[order[i]].name)))]
  {
    assert order[..i + 1][..i] == order[..i];
  }

  lemma SnapshotPortrays(s: Server, to: PlayerID, order: seq<EntityID>)
    requires IdsOk(s) && OwnersOk(s) && Enumerates(order, s.entities.Keys)
    ensures Portrays(s.entities, AllInRange(s.entities),
                     Taken(map[], MessagesFor(to, Snapshot(to, order, s.entities, s.players))))
  {
    hide Portrays, Snapshot, Taken, MessagesFor, ShownOf;
    SnapshotTaken(to, order, s.entities, s.players);
    ShownIsInRange(s, order);
  }

  lemma IntroductionsNone(to: PlayerID, players: Players)
    ensures Introductions(to, [], players) == []
  {}

  lemma ZoneReplyStep(pid: PlayerID, zone: Zone, order: seq<EntityID>, i: nat, entities: Entities)
    requires i < |order| && forall k :: 0 <= k < |order| ==> order[k] in entities
    ensures ZoneReply(pid, zone, order[..i + 1], entities) ==
      if InZoneReply(entities[order[i]], pid, zone)
      then ZoneReply(pid, zone, order[..i], entities) + [ToOne(pid, SpawnMsg(entities[order[i]]))]
      else ZoneReply(pid, zone, order[..i], entities)
  {
    assert order[..i + 1][..i] == order[..i];
  }

  /** The name of a joining player: the printable characters of what it sent, in order, up to a
      NUL or the limit, or a default; never empty, never too long, printable throughout. */
  method SanitizeName(raw: string) returns (name: string)
    ensures name == Sanitized(raw) && SentAs(raw, name)
    ensures 0 < |name| <= MAX_NAME_LENGTH && forall i :: 0 <= i < |name| ==> Printable(name[i])
  {
    hide SentAs;
    SanitizedIsSent(raw);
    name := "";
    var i := 0;
    while i < |raw| && i < MAX_NAME_LENGTH && raw[i] != 0 as char
      invariant 0 <= i <= |raw| && i <= MAX_NAME_LENGTH
      invariant NameEnd(raw, i) == NameEnd(raw, 0)
      invariant name == Filtered(raw[..i]) && |name| <= i
      invariant forall k :: 0 <= k < |name| ==> Printable(name[k])
    {
      assert raw[..i + 1][..i] == raw[..i];
      if Printable(raw[i]) {
        name := name + [raw[i]];
      }
      i := i + 1;
    }
    if name == "" {
      name := "Player";
    }
  }

  // ----- the run so far

  /** Everything sent up to a state of a run. */
  function AllSends(cfg: Config, states: seq<Server>, events: seq<Event>, i: nat): seq<Send>
    requires IsRun(cfg, states, events) && i < |states|
  {
    if i == 0 then [] else AllSends(cfg, states, events, i - 1) + Step(cfg, states[i - 1], events[i - 1]).sends
  }

  lemma LongerRun(cfg: Config, states: seq<Server>, events: seq<Event>, e: Event)
    requires IsRun(cfg, states, events) && PeersOk(states[|events|]) && Enabled(states[|events|], e)
    ensures IsRun(cfg, states + [Step(cfg, states[|events|], e).server], events + [e])
  {
    var last := Step(cfg, states[|events|], e).server;
    assert Follows(cfg, states[|events|], e, last);
    hide Step, Enabled, PeersOk, Follows;
    var states', events' := states + [last], events + [e];
    forall i {:trigger events'[i]} | 0 <= i < |events'| ensures Follows(cfg, states'[i], events'[i], states'[i + 1]) {
      if i < |events| {
        assert events'[i] == events[i] && states'[i] == states[i] && states'[i + 1] == states[i + 1];
      }
    }
  }

  lemma {:induction false} SameSends(cfg: Config, states: seq<Server>, events: seq<Event>,
                                     states': seq<Server>, events': seq<Event>, i: nat)
    requires IsRun(cfg, states, events) && IsRun(cfg, states', events') && i < |states|
    requires |events| <= |events'| && states'[..|states|] == states && events'[..|events|] == events
    ensures AllSends(cfg, states', events', i) == AllSends(cfg, states, events, i)
  {
    hide Step;
    if i > 0 {
      SameSends(cfg, states, events, states', events', i - 1);
      assert states'[i - 1] == states'[..|states|][i - 1] && events'[i - 1] == events'[..|events|][i - 1];
    }
  }

  lemma {:induction false} SendsGrow(cfg: Config, states: seq<Server>, events: seq<Event>, j: nat, i: nat)
    requires IsRun(cfg, states, events) && j <= i < |states|
    ensures AllSends(cfg, states, events, j) <= AllSends(cfg, states, events, i)
  {
    hide Step, Enabled, PeersOk;
    if j < i {
      SendsGrow(cfg, states, events, j, i - 1);
    }
  }

  lemma SuffixGrows(p: PlayerID, before: seq<Send>, most: seq<Send>, last: seq<Send>)
    requires before <= most
    ensures MessagesFor(p, (most + last)[|before|..]) == MessagesFor(p, most[|before|..]) + MessagesFor(p, last)
  {
    assert (most + last)[|before|..] == most[|before|..] + last;
    MessagesForConcat(p, most[|before|..], last);
  }

  /** What a client has received since its handshake is what was sent to it since then. */
  lemma {:induction false} LogIsSent(cfg: Config, states: seq<Server>, events: seq<Event>, i: nat, p: PlayerID)
    requires IsRun(cfg, states, events) && i < |states| && states[0].players.Keys == {} && p in states[i].players
    ensures AllSends(cfg, states, events, JoinedAt(states, i, p)) <= AllSends(cfg, states, events, i)
    ensures Log(cfg, states, events, i, p) ==
            MessagesFor(p, AllSends(cfg, states, events, i)[|AllSends(cfg, states, events, JoinedAt(states, i, p))|..])
  {
    hide Step, MessagesFor, AllSends, Log, IsRun;
    var j := JoinedAt(states, i, p);
    SendsGrow(cfg, states, events, j, i);
    SendsGrow(cfg, states, events, j, i - 1);
    OneMore(cfg, states, events, i, p);
    if p in states[i - 1].players {
      LogIsSent(cfg, states, events, i - 1, p);
    } else {
      NothingFor(p);
    }
    SuffixGrows(p, AllSends(cfg, states, events, j), AllSends(cfg, states, events, i - 1),
                Step(cfg, states[i - 1], events[i - 1]).sends);
  }

  lemma OneMore(cfg: Config, states: seq<Server>, events: seq<Event>, i: nat, p: PlayerID)
    requires IsRun(cfg, states, events) && 0 < i < |states| && p in states[i].players
    ensures |events| == |states| - 1 && PeersOk(states[i - 1]) && Enabled(states[i - 1], events[i - 1])
    ensures AllSends(cfg, states, events, i) ==
            AllSends(cfg, states, events, i - 1) + Step(cfg, states[i - 1], events[i - 1]).sends
    ensures Log(cfg, states, events, i, p) ==
            Log(cfg, states, events, i - 1, p) + MessagesFor(p, Step(cfg, states[i - 1], events[i - 1]).sends)
    ensures p !in states[i - 1].players ==> Log(cfg, states, events, i - 1, p) == []
  {
    hide Step, Enabled, PeersOk, MessagesFor;
    var e := events[i - 1];
  }

  lemma NothingFor(p: PlayerID)
    ensures MessagesFor(p, []) == []
  {}

  class GameServer {
    const config: Config
    var players: Players
    var peers: map<Peer, PlayerID>
    var entities: Entities
    var saved: map<string, seq<EntityID>>
    var nextPlayerId: PlayerID
    var nextEntityId: EntityID
    var host: PlayerID
    /** Everything handed to the transport, in order. */
    var sent: seq<Send>
    /** The run so far. */
    ghost var states: seq<Server>
    ghost var events: seq<Event>

    /** The object is at the end of a run from a fresh server, and has sent what that run sends. */
    ghost predicate Valid()
      reads this
    {
      && IsRun(config, states, events) && states[0] == FRESH && View() == states[|events|]
      && sent == AllSends(config, states, events, |events|)
    }

    /** The invariant of the state; every connected client's view agrees with it; and in one
        process nothing announced names a victim after its death. */
    ghost predicate Guarantees()
      requires Valid()
      reads this
    {
      && Inv(View())
      && (forall p :: p in players ==>
            Mirrors(View(), Unseen(config, states, events, |events|, p), Stale(config, states, events, |events|, p),
                    Observed(map[], Log(config, states, events, |events|, p))))
      && (OneProcess(events) ==> Final(CombatLog(config, states, events, |events|)))
    }

    lemma AlwaysGuaranteed()
      requires Valid()
      ensures Guarantees()
    {
      hide Inv, Mirrors, Final, Unseen, Stale, Log, CombatLog, Observed, AllSends, Step;
      InvFresh();
      RunKeepsInv(config, states, events, |events|);
      forall p | p in players
        ensures Mirrors(View(), Unseen(config, states, events, |events|, p), Stale(config, states, events, |events|, p),
                        Observed(map[], Log(config, states, events, |events|, p)))
      {
        Replicated(config, states, events, |events|, p);
      }
      if OneProcess(events) {
        DeathIsFinal(config, states, events, |events|);
      }
    }

    function View(): Server
      reads this
    {
      Server(players, peers, entities, saved, nextPlayerId, nextEntityId, host)
    }

    /** The object took exactly this step. */
    twostate predicate Took(f: Effect)
      reads this
    {
      View() == f.server && sent == old(sent) + f.sends
    }

    constructor (config: Config)
      ensures Valid() && Guarantees() && events == [] && this.config == config
    {
      this.config := config;
      players, peers, entities, saved := map[], map[], map[], map[];
      nextPlayerId, nextEntityId, host := 1, 1, 0;
      sent := [];
      states, events := [FRESH], [];
      new;
      AlwaysGuaranteed();
    }

    method Post(s: Send)
      modifies this`sent
      ensures sent == old(sent) + [s]
    {
      sent := sent + [s];
    }

    // ----- joining

    /** Shows one entity and its equipment to one client. */
    method SendEntity(to: PlayerID, e: Entity)
      modifies this`sent
      ensures sent == old(sent) + [ToOne(to, SpawnMsg(e))] + EquipmentSends(to, e, SLOTS)
    {
      Post(ToOne(to, SpawnMsg(e)));
      for slot := 0 to SLOTS
        invariant sent == old(sent) + [ToOne(to, SpawnMsg(e))] + EquipmentSends(to, e, slot)
      {
        if e.detail.equipment[slot] != 0 {
          Post(ToOne(to, EquipmentUpdate(e.id, slot, e.detail.equipment[slot])));
        }
      }
    }

    method SendWorldSnapshot(to: PlayerID, order: seq<EntityID>)
      requires forall i :: 0 <= i < |order| ==> order[i] in entities
      modifies this`sent
      ensures sent == old(sent) + Snapshot(to, order, entities, players)
      ensures IdsOk(View()) && OwnersOk(View()) && Enumerates(order, entities.Keys) ==>
                Portrays(entities, AllInRange(entities), Taken(map[], MessagesFor(to, Snapshot(to, order, entities, players))))
    {
      if IdsOk(View()) && OwnersOk(View()) && Enumerates(order, entities.Keys) {
        SnapshotPortrays(View(), to, order);
      }
      hide Portrays, IdsOk, OwnersOk, Enumerates;
      hide EquipmentSends, SpawnMsg, Snapshot, InRange;
      SnapshotNone(to, entities, players);
      for i := 0 to |order|
        invariant sent == old(sent) + Snapshot(to, order[..i], entities, players)
      {
        SnapshotStep(to, order, i, entities, players);
        var e := entities[order[i]];
        if (e.owner == 0 || e.owner in players) && InRange(e.position) {
          SendEntity(to, e);
        }
      }
      assert order[..|order|] == order;
    }

    method Introduce(to: PlayerID, order: seq<PlayerID>)
      requires forall i :: 0 <= i < |order| ==> order[i] in players
      modifies this`sent
      ensures sent == old(sent) + Introductions(to, order, players)
    {
      hide Introductions, NameOnWire;
      IntroductionsNone(to, players);
      for i := 0 to |order|
        invariant sent == old(sent) + Introductions(to, order[..i], players)
      {
        IntroductionsStep(to, order, i, players);
        if order[i] != to {
          Post(ToOne(to, PlayerJoined(order[i], NameOnWire(players[order[i]].name))));
        }
      }
      assert order[..|order|] == order;
    }

    /** Takes over the unowned entities of a saved record, one by one. */
    method ReclaimEntities(name: string, id: PlayerID)
      requires id != 0
      modifies this`entities, this`saved
      ensures entities == Reclaimed(old(View()), name, id)
      ensures saved == old(saved) - {name}
    {
      if name in saved {
        var ids := saved[name];
        for i := 0 to |ids|
          invariant saved == old(saved) && entities.Keys == old(entities).Keys
          invariant forall k :: k in entities ==>
            (entities[k] == if k in ids[..i] && old(entities)[k].owner == 0
                            then old(entities)[k].(owner := id) else old(entities)[k])
        {
          var eid := ids[i];
          assert ids[..i + 1] == ids[..i] + [eid];
          if eid in entities && entities[eid].owner == 0 {
            entities := entities[eid := entities[eid].(owner := id)];
          }
        }
        assert ids[..|ids|] == ids;
        saved := saved - {name};
      }
      assert entities == Reclaimed(old(View()), name, id);
    }

    /** Registers a player, gives it back its entities and settles who is host. */
    method AddPlayer(peer: Peer, name: string, loopback: bool) returns (id: PlayerID, hostChanged: bool)
      requires nextPlayerId != 0 && nextPlayerId !in players
      modifies this`players, this`peers, this`entities, this`saved, this`nextPlayerId, this`host
      ensures id == old(nextPlayerId) && View() == Joined(old(View()), peer, name, loopback)
      ensures hostChanged <==> TakesOverHost(old(View()), loopback)
      ensures id in players && (hostChanged ==> host == id)
      ensures entities.Keys == old(entities).Keys && players.Keys == old(players).Keys + {id}
    {
      ghost var s := View();
      id := nextPlayerId;
      nextPlayerId := nextPlayerId + 1;
      peers := peers[peer := id];
      players := players[id := Player(id, name, peer, ORIGIN, Zone(0, 0), loopback, false)];
      ReclaimEntities(name, id);
      assert entities == Reclaimed(s, name, id);
      hostChanged := false;
      if host == 0 {
        host := id;
        hostChanged := true;
      } else if loopback && host in players && !players[host].isLoopback {
        host := id;
        hostChanged := true;
      }
    }

    method WelcomePlayer(id: PlayerID, hostChanged: bool, entityOrder: seq<EntityID>, playerOrder: seq<PlayerID>)
      requires id in players && (hostChanged ==> host == id)
      requires forall i :: 0 <= i < |entityOrder| ==> entityOrder[i] in entities
      requires forall i :: 0 <= i < |playerOrder| ==> playerOrder[i] in players
      modifies this`sent
      ensures sent == old(sent) + (Greeting(id, hostChanged) + Welcome(View(), id, entityOrder, playerOrder))
    {
      hide Snapshot, Introductions, FactionSlot;
      Post(ToOne(id, HandshakeAck(id)));
      if hostChanged {
        Post(ToAll(HostAssignment(host)));
      }
      assert sent == old(sent) + Greeting(id, hostChanged);
      Post(ToOne(id, FactionAssignment(FactionSlot(id))));
      Post(ToOthers(id, PlayerJoined(id, NameOnWire(players[id].name))));
      Introduce(id, playerOrder);
      SendWorldSnapshot(id, entityOrder);
      Post(ToAll(SystemMessage(players[id].name + " joined the game")));
    }

    method HandleHandshake(peer: Peer, version: nat, raw: string, loopback: bool,
                           entityOrder: seq<EntityID>, playerOrder: seq<PlayerID>)
      requires nextPlayerId != 0 && nextPlayerId !in players
      requires Enumerates(entityOrder, entities.Keys) && Enumerates(playerOrder, players.Keys + {nextPlayerId})
      modifies this`players, this`peers, this`entities, this`saved, this`nextPlayerId, this`nextEntityId, this`host, this`sent
      ensures Took(Handshake(config, old(View()), peer, version, raw, loopback, entityOrder, playerOrder))
    {
      hide Snapshot, Introductions, Sanitized, Joined, Greeting;
      if peer in peers {
        return;
      }
      if |players| >= config.maxPlayers {
        Post(ToPeer(peer, HandshakeReject(0)));
        return;
      }
      if version != PROTOCOL_VERSION {
        Post(ToPeer(peer, HandshakeReject(1)));
        return;
      }
      var name := SanitizeName(raw);
      var id, hostChanged := AddPlayer(peer, name, loopback);
      WelcomePlayer(id, hostChanged, entityOrder, playerOrder);
    }

    // ----- leaving

    /** Sets everything a player owns unowned and lists it in iteration order. */
    method ReleaseEntities(pid: PlayerID, order: seq<EntityID>) returns (owned: seq<EntityID>)
      requires Enumerates(order, entities.Keys)
      modifies this`entities
      ensures entities == Released(old(entities), pid) && owned == OwnedIn(order, old(entities), pid)
    {
      hide OwnedIn, ReleasedAmong;
      owned := [];
      ghost var was := entities;
      ReleasedNone(was, pid);
      OwnedInNone(was, pid);
      for i := 0 to |order|
        invariant entities == ReleasedAmong(was, order[..i], pid) && owned == OwnedIn(order[..i], was, pid)
      {
        OwnedInStep(order, i, was, pid);
        ReleasedStep(was, order, i, pid);
        var eid := order[i];
        if entities[eid].owner == pid {
          entities := entities[eid := entities[eid].(owner := 0)];
          owned := owned + [eid];
        }
      }
      assert order[..|order|] == order;
      ReleasedAll(was, order, pid);
    }

    method RemovePlayer(pid: PlayerID, peer: Peer, order: seq<EntityID>, heir: PlayerID) returns (succession: bool)
      requires pid in players && players[pid].peer == peer && Enumerates(order, entities.Keys)
      requires players.Keys - {pid} != {} ==> heir in players.Keys - {pid}
      modifies this`players, this`peers, this`entities, this`saved, this`host
      ensures View() == Left(old(View()), pid, order, heir)
      ensures succession <==> pid == old(host) && players.Keys != {}
    {
      ghost var s := View();
      var name := players[pid].name;
      var owned := ReleaseEntities(pid, order);
      if owned != [] {
        saved := saved[name := owned];
      }
      players := players - {pid};
      succession := false;
      if pid == host {
        host := 0;
        if players.Keys != {} {
          host := heir;
          succession := true;
        }
      }
      peers := peers - {peer};
    }

    method HandleDisconnect(peer: Peer, order: seq<EntityID>, heir: PlayerID)
      requires PeersOk(View()) && Enabled(View(), Leaves(peer, order, heir))
      modifies this`players, this`peers, this`entities, this`saved, this`nextPlayerId, this`nextEntityId, this`host, this`sent
      ensures Took(Disconnect(old(View()), peer, order, heir))
    {
      hide OwnedIn, Released;
      if peer !in peers {
        return;
      }
      var pid := peers[peer];
      var name := players[pid].name;
      Post(ToOthers(pid, PlayerLeft(pid)));
      var succession := RemovePlayer(pid, peer, order, heir);
      if succession {
        Post(ToAll(SystemMessage(players[host].name + " is now the host")));
        Post(ToAll(HostAssignment(host)));
      }
      Post(ToAll(SystemMessage(name + " left the game")));
    }

    // ----- the orphan sweep

    method FindOrphans(order: seq<EntityID>) returns (orphans: seq<EntityID>)
      requires Enumerates(order, entities.Keys)
      ensures orphans == Orphans(View(), order)
    {
      hide Enumerates;
      orphans := [];
      for i := 0 to |order|
        invariant orphans == Orphans(View(), order[..i])
      {
        assert order[..i + 1][..i] == order[..i];
        var id := order[i];
        if id in entities && entities[id].owner != 0 && entities[id].owner !in players {
          orphans := orphans + [id];
        }
      }
      assert order[..|order|] == order;
    }

    method RemoveOrphans(orphans: seq<EntityID>)
      modifies this`entities, this`sent
      ensures View() == old(View()).(entities := old(entities) - set id | id in orphans)
      ensures sent == old(sent) + DespawnSends(orphans, 2)
    {
      for i := 0 to |orphans|
        invariant View() == old(View()).(entities := old(entities) - set id | id in orphans[..i])
        invariant sent == old(sent) + DespawnSends(orphans[..i], 2)
      {
        assert orphans[..i + 1] == orphans[..i] + [orphans[i]];
        Post(ToAll(EntityDespawn(orphans[i], 2)));
        entities := entities - {orphans[i]};
      }
      assert orphans[..|orphans|] == orphans;
    }

    method SweepOrphans(order: seq<EntityID>)
      requires Enumerates(order, entities.Keys)
      modifies this`entities, this`sent
      ensures Took(Sweep(old(View()), order))
    {
      ghost var s := View();
      var orphans := FindOrphans(order);
      OrphanSet(s, order);
      RemoveOrphans(orphans);
    }
 
    // ----- packets

    method HandlePositionUpdate(pid: PlayerID, updates: seq<Placement>)
      requires pid in players && players[pid].id == pid
      modifies this`entities, this`players
      ensures Took(MoveEntities(old(View()), pid, updates))
    {
      hide InRange, Placed;
      ghost var was, player := entities, players[pid];
      var updated := false;
      for i := 0 to |updates|
        invariant entities == Moved(was, pid, updates[..i])
        invariant pid in players && players == old(players)[pid := players[pid]] && players[pid].id == pid
        invariant Tracked(was, player, updates) ==
                  if updated then players[pid] else Tracked(was, player, updates[i..])
        invariant !updated ==> players[pid] == player && entities == was
      {
        assert updates[..i + 1][..i] == updates[..i];
        assert updates[i..][1..] == updates[i + 1..];
        var u := updates[i];
        if InRange(u.position) && CanCommand(pid, u.id, entities) {
          entities := entities[u.id := Placed(entities[u.id], u)];
          if !updated {
            players := players[pid := players[pid].(position := u.position, zone := ZoneOf(u.position))];
            updated := true;
          }
        }
      }
      assert updates[..|updates|] == updates;
    }

    method HandleMoveCommand(pid: PlayerID, id: EntityID, destination: Vec3)
      modifies this`sent
      ensures Took(OrderMove(old(View()), pid, id, destination))
    {
      if CanCommand(pid, id, entities) {
        Post(ToOthers(pid, MoveCommand(id, destination)));
      }
    }

    method HandleAttackIntent(pid: PlayerID, attacker: EntityID, target: EntityID, attackType: nat, roll: Roll)
      modifies this`entities, this`sent
      ensures Took(Strike(old(View()), pid, attacker, target, attackType, roll))
    {
      hide Struck, KnockedOut, Fatal, BodyPart, Damage;
      if !CanCommand(pid, attacker, entities) {
        return;
      }
      if target !in entities || !entities[target].alive {
        return;
      }
      var maxDist := if attackType == 1 then 150.0 else 15.0;
      if DistSq(entities[attacker].position, entities[target].position) > maxDist * maxDist {
        return;
      }
      var hit, result := ResolveCombat(entities[target], roll);
      entities := entities[target := hit];
      assert result.cut == Damage(roll) * 0.5 && result.blunt == Damage(roll) * 0.5;
      Post(ToAll(CombatHit(attacker, target, result.hitPart, result.cut, result.blunt,
                           result.resultHealth, result.wasBlocked, result.wasKO)));
      if result.wasDeath {
        Post(ToAll(CombatDeath(target, attacker)));
      } else if result.wasKO {
        Post(ToAll(CombatKO(target, attacker, result.hitPart, result.resultHealth)));
      }
    }

    method HandleBuildRequest(pid: PlayerID, templateId: nat, position: Vec3, rotation: Quat)
      requires pid in players
      modifies this`entities, this`nextEntityId, this`sent
      ensures Took(Build(config, old(View()), pid, templateId, position, rotation))
    {
      if !InRange(position) {
        return;
      }
      if DistSq(position, players[pid].position) > 500.0 * 500.0 {
        return;
      }
      var id := nextEntityId;
      nextEntityId := nextEntityId + 1;
      entities := entities[id := Entity(id, pid, config.authority, true, position, rotation, ZoneOf(position),
                                        FULL_HEALTH, BLANK.(kind := BUILDING, templateId := templateId))];
      Post(ToOthers(pid, BuildPlaced(id, templateId, position, rotation, pid)));
    }

    method HandleEntitySpawnReq(pid: PlayerID, r: Packet)
      requires pid in players && r.SpawnRequest?
      modifies this`entities, this`nextEntityId, this`players, this`sent
      ensures Took(Spawn(config, old(View()), pid, r))
    {
      if r.kind > TURRET || |entities| >= MAX_SYNC_ENTITIES {
        return;
      }
      var id := nextEntityId;
      nextEntityId := nextEntityId + 1;
      var name := if |r.templateName| <= 255 then r.templateName else "";
      var e := Entity(id, pid, config.authority, r.alive, r.position, r.rotation, ZoneOf(r.position), r.health,
                      BLANK.(kind := r.kind, templateId := r.templateId, factionId := r.factionId, templateName := name));
      entities := entities[id := e];
      if players[pid].zone == Zone(0, 0) {
        players := players[pid := players[pid].(position := e.position, zone := e.zone)];
      }
      Post(ToAll(SpawnMsg(e)));
    }

    method HandleEntityDespawnReq(pid: PlayerID, id: EntityID, reason: nat)
      modifies this`entities, this`sent
      ensures Took(Despawn(old(View()), pid, id, reason))
    {
      if id !in entities {
        return;
      }
      if entities[id].owner != pid {
        return;
      }
      entities := entities - {id};
      Post(ToAll(EntityDespawn(id, reason)));
    }

    method HandleEquipmentUpdate(pid: PlayerID, id: EntityID, slot: nat, item: nat)
      requires pid in players && players[pid].id == pid
      modifies this`entities, this`sent
      ensures Took(Act(config, old(View()), pid, Equip(id, slot, item)))
    {
      if id !in entities || entities[id].owner != pid {
        return;
      }
      if slot >= SLOTS {
        return;
      }
      var d := entities[id].detail;
      entities := entities[id := entities[id].(detail := d.(equipment := d.equipment[slot := item]))];
      Post(ToOthers(pid, EquipmentUpdate(id, slot, item)));
    }

    method HandleZoneRequest(pid: PlayerID, zone: Zone, order: seq<EntityID>)
      requires pid in players && players[pid].id == pid && Enumerates(order, entities.Keys)
      modifies this`sent
      ensures Took(Act(config, old(View()), pid, ZoneRequest(zone, order)))
    {
      hide SpawnMsg;
      if zone.x < -500 || zone.x > 500 || zone.y < -500 || zone.y > 500 {
        return;
      }
      SendZone(pid, zone, order);
    }

    method SendZone(pid: PlayerID, zone: Zone, order: seq<EntityID>)
      requires forall i :: 0 <= i < |order| ==> order[i] in entities
      modifies this`sent
      ensures sent == old(sent) + ZoneReply(pid, zone, order, entities)
    {
      hide SpawnMsg;
      for i := 0 to |order|
        invariant sent == old(sent) + ZoneReply(pid, zone, order[..i], entities)
      {
        ZoneReplyStep(pid, zone, order, i, entities);
        var e := entities[order[i]];
        if e.owner != pid && (Adjacent(zone, e.zone) || e.zone == zone) {
          Post(ToOne(pid, SpawnMsg(e)));
        }
      }
      assert order[..|order|] == order;
    }

    method HandleBuildDismantle(pid: PlayerID, id: EntityID)
      modifies this`entities, this`sent
      ensures Took(Demolish(old(View()), pid, id))
    {
      if id !in entities {
        return;
      }
      if entities[id].owner != pid && pid != host {
        return;
      }
      entities := entities - {id};
      Post(ToOthers(pid, BuildDestroyed(id, 2)));
    }

    method HandleBuildRepair(pid: PlayerID, id: EntityID, amount: real)
      modifies this`entities, this`sent
      ensures Took(Mend(old(View()), pid, id, amount))
    {
      if id !in entities {
        return;
      }
      if entities[id].owner != pid && pid != host {
        return;
      }
      if amount <= 0.0 || amount > 1.0 {
        return;
      }
      var d := entities[id].detail;
      var progress := Clamped(d.buildProgress + amount);
      entities := entities[id := entities[id].(detail := d.(buildProgress := progress))];
      Post(ToOthers(pid, BuildProgress(id, progress)));
    }

    method HandleCombatKO(pid: PlayerID, victim: EntityID, attacker: EntityID, reason: nat, chest: real)
      modifies this`entities, this`sent
      ensures Took(KnockOut(old(View()), pid, victim, attacker, reason, chest))
    {
      if victim !in entities || !entities[victim].alive {
        return;
      }
      var byVictim := entities[victim].owner == pid;
      var byAttacker := attacker != 0 && attacker in entities && entities[attacker].owner == pid;
      if !byVictim && !byAttacker {
        return;
      }
      var e := entities[victim];
      entities := entities[victim := e.(health := e.health[0 := chest])];
      Post(ToAll(CombatKO(victim, attacker, reason, chest)));
    }

    method HandleCombatDeath(pid: PlayerID, victim: EntityID, killer: EntityID)
      modifies this`entities, this`sent
      ensures Took(Kill(old(View()), pid, victim, killer))
    {
      if victim !in entities {
        return;
      }
      if !entities[victim].alive {
        return;
      }
      var byVictim := entities[victim].owner == pid;
      var byKiller := killer != 0 && killer in entities && entities[killer].owner == pid;
      if !byVictim && !byKiller {
        return;
      }
      entities := entities[victim := entities[victim].(alive := false)];
      Post(ToAll(CombatDeath(victim, killer)));
    }

    method HandleLimbHealth(pid: PlayerID, id: EntityID, limbs: Parts)
      requires pid in players && players[pid].id == pid
      modifies this`entities, this`sent
      ensures Took(Act(config, old(View()), pid, ReportLimbs(id, limbs)))
    {
      if id !in entities || entities[id].owner != pid {
        return;
      }
      var d := entities[id].detail;
      entities := entities[id := entities[id].(detail := d.(limbHealth := limbs))];
      Post(ToOthers(pid, LimbHealth(id, limbs)));
    }

    method HandleStatusEffect(pid: PlayerID, id: EntityID, effect: nat, active: nat)
      requires pid in players && players[pid].id == pid
      modifies this`entities, this`sent
      ensures Took(Act(config, old(View()), pid, ReportStatus(id, effect, active)))
    {
      if id !in entities || entities[id].owner != pid {
        return;
      }
      if effect >= EFFECTS {
        return;
      }
      var d := entities[id].detail;
      entities := entities[id := entities[id].(detail := d.(statusEffects := d.statusEffects[effect := active]))];
      Post(ToOthers(pid, StatusEffect(id, effect, active)));
    }

    /** Counts the players that are ready. */
    method ReadyPlayerCount() returns (count: nat)
      ensures count == |players| <==> AllReady(players)
    {
      count := 0;
      var rest := players.Keys;
      while rest != {}
        invariant rest <= players.Keys && count <= |players.Keys - rest|
        invariant count == |players.Keys - rest| <==> forall p :: p in players.Keys - rest ==> players[p].isReady
      {
        var p :| p in rest;
        assert players.Keys - (rest - {p}) == (players.Keys - rest) + {p};
        rest := rest - {p};
        if players[p].isReady {
          count := count + 1;
        }
      }
      assert players.Keys - rest == players.Keys;
    }

    method HandlePlayerReady(pid: PlayerID)
      requires pid in players
      modifies this`players, this`sent
      ensures Took(MarkReady(old(View()), pid))
    {
      if players[pid].isReady {
        return;
      }
      players := players[pid := players[pid].(isReady := true)];
      var ready := ReadyPlayerCount();
      if |players| > 1 && ready == |players| {
        Post(ToAll(AllPlayersReady));
      }
    }

    /** Dispatch of one packet: ignored unless the peer has a player. */
    method HandlePacket(peer: Peer, pkt: Packet)
      requires PeersOk(View()) && Enabled(View(), Packets(peer, pkt))
      modifies this`players, this`peers, this`entities, this`saved, this`nextPlayerId, this`nextEntityId, this`host, this`sent
      ensures Took(Step(config, old(View()), Packets(peer, pkt)))
    {
      hide MoveEntities, OrderMove, Strike, Build, Spawn, Despawn, Amend, ZoneReply, Demolish, Mend, KnockOut, Kill, MarkReady;
      if peer !in peers {
        return;
      }
      var pid := peers[peer];
      match pkt
      case PositionUpdate(updates) => HandlePositionUpdate(pid, updates);
      case MoveOrder(id, destination) => HandleMoveCommand(pid, id, destination);
      case AttackIntent(attacker, target, attackType, roll) => HandleAttackIntent(pid, attacker, target, attackType, roll);
      case BuildRequest(templateId, position, rotation) => HandleBuildRequest(pid, templateId, position, rotation);
      case SpawnRequest(_, _, _, _, _, _, _, _) => HandleEntitySpawnReq(pid, pkt);
      case DespawnRequest(id, reason) => HandleEntityDespawnReq(pid, id, reason);
      case Equip(id, slot, item) => HandleEquipmentUpdate(pid, id, slot, item);
      case ZoneRequest(zone, order) => HandleZoneRequest(pid, zone, order);
      case Dismantle(id) => HandleBuildDismantle(pid, id);
      case Repair(id, amount) => HandleBuildRepair(pid, id, amount);
      case ReportKO(victim, attacker, reason, chest) => HandleCombatKO(pid, victim, attacker, reason, chest);
      case ReportDeath(victim, killer) => HandleCombatDeath(pid, victim, killer);
      case ReportLimbs(id, limbs) => HandleLimbHealth(pid, id, limbs);
      case ReportStatus(id, effect, active) => HandleStatusEffect(pid, id, effect, active);
      case Ready => HandlePlayerReady(pid);
    }

    // ----- the loop

    /** Saves the world, and starts over from what was saved. */
    method Restart(entityOrder: seq<EntityID>, playerOrder: seq<PlayerID>)
      requires Enumerates(entityOrder, entities.Keys) && Enumerates(playerOrder, players.Keys)
      modifies this`players, this`peers, this`entities, this`saved, this`nextPlayerId, this`nextEntityId, this`host, this`sent
      ensures Took(Effect(Persistence.Restart(config, old(View()), entityOrder, playerOrder), []))
    {
      var doc := WorldFile.SaveWorld(View(), entityOrder, playerOrder);
      var ok, s := WorldFile.LoadWorld(config, FRESH, Readable(doc));
      players, peers, entities, saved := s.players, s.peers, s.entities, s.saved;
      nextPlayerId, nextEntityId, host := s.nextPlayerId, s.nextEntityId, s.host;
    }

    /** One turn of the loop, under the lock: whatever comes in is handled by the step it
        stands for, and everything proved of runs holds of the object afterwards. */
    method Update(e: Event)
      requires Valid() && Enabled(View(), e)
      modifies this
      ensures Valid() && Guarantees()
      ensures events == old(events) + [e] && states == old(states) + [View()]
      ensures PeersOk(old(View())) && Took(Step(config, old(View()), e))
    {
      AlwaysGuaranteed();
      ghost var s := View();
      FreshId(s);
      Handle(e);
      Recorded(e);
    }

    lemma FreshId(s: Server)
      requires Inv(s)
      ensures PeersOk(s) && s.nextPlayerId != 0 && s.nextPlayerId !in s.players
    {}

    /** Dispatch of one event. */
    method Handle(e: Event)
      requires PeersOk(View()) && Enabled(View(), e) && nextPlayerId != 0 && nextPlayerId !in players
      modifies this`players, this`peers, this`entities, this`saved, this`nextPlayerId, this`nextEntityId, this`host, this`sent
      ensures Took(Step(config, old(View()), e))
    {
      hide Handshake, Disconnect, Act, Sweep, Persistence.Restart;
      match e
      case Joins(peer, version, raw, loopback, es, ps) => HandleHandshake(peer, version, raw, loopback, es, ps);
      case Leaves(peer, es, heir) => HandleDisconnect(peer, es, heir);
      case Packets(peer, pkt) => HandlePacket(peer, pkt);
      case Sweeps(es) => SweepOrphans(es);
      case Restarts(es, ps) => Restart(es, ps);
    }

    /** Extends the record of the run by the step just taken. */
    ghost method Recorded(e: Event)
      requires IsRun(config, states, events) && states[0] == FRESH
      requires PeersOk(states[|events|]) && Enabled(states[|events|], e)
      requires View() == Step(config, states[|events|], e).server
      requires sent == AllSends(config, states, events, |events|) + Step(config, states[|events|], e).sends
      modifies this`states, this`events
      ensures Valid() && Guarantees()
      ensures events == old(events) + [e] && states == old(states) + [View()]
    {
      hide Step, Enabled, PeersOk, Guarantees;
      LongerRun(config, states, events, e);
      SameSends(config, states, events, states + [View()], events + [e], |events|);
      assert (states + [View()])[..|states|] == states && (events + [e])[..|events|] == events;
      states, events := states + [View()], events + [e];
      AlwaysGuaranteed();
    }
  }
}
