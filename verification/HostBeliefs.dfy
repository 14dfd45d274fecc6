/** Who believes to be host when clients carry something over: a broadcast reaches every
    connected peer, also one that has not shaken hands yet, and a client between sessions
    still holds the player id of the last one. */
module HostBeliefs {
  import opened Types
  import opened ServerModel
  import opened Runs
  import opened Ownership
  import opened Hosts

  // ----- what reaches a peer before its handshake

  function Broadcasts(sends: seq<Send>): seq<Msg> {
    if sends == [] then []
    else
      var rest, last := Broadcasts(sends[..|sends| - 1]), sends[|sends| - 1];
      if last.ToAll? then rest + [last.msg] else rest
  }

  lemma {:induction false} BroadcastsConcat(x: seq<Send>, y: seq<Send>)
    ensures Broadcasts(x + y) == Broadcasts(x) + Broadcasts(y)
  {
    if y == [] {
      assert x + y == x;
    } else {
      assert (x + y)[..|x + y| - 1] == x + y[..|y| - 1];
      BroadcastsConcat(x, y[..|y| - 1]);
    }
  }

  lemma {:induction false} SilentBroadcasts(b: Belief, sends: seq<Send>)
    requires AllSilent(sends)
    ensures Heard(b, Broadcasts(sends)) == b
  {
    if sends != [] {
      SilentBroadcasts(b, sends[..|sends| - 1]);
      var m, last := Broadcasts(sends[..|sends| - 1]), sends[|sends| - 1];
      assert (m + [last.msg])[..|m|] == m;
    }
  }

  /** Everything broadcast from state `c` up to state `i`. */
  function Overheard(cfg: Config, states: seq<Server>, events: seq<Event>, c: nat, i: nat): seq<Msg>
    requires IsRun(cfg, states, events) && i < |states|
  {
    if i <= c then []
    else Overheard(cfg, states, events, c, i - 1) + Broadcasts(Step(cfg, states[i - 1], events[i - 1]).sends)
  }

  lemma OneBroadcast(b: Belief, x: seq<Send>, h: PlayerID, y: seq<Send>)
    requires AllSilent(y) && Broadcasts(x) == []
    ensures Heard(b, Broadcasts(x + [ToAll(HostAssignment(h))] + y)) == Hear(b, HostAssignment(h))
    ensures Heard(b, Broadcasts(x + y)) == b
  {
    var told := [ToAll(HostAssignment(h))];
    BroadcastsConcat(x + told, y);
    BroadcastsConcat(x, told);
    BroadcastsConcat(x, y);
    assert told[..0] == [] && Broadcasts(told) == [HostAssignment(h)];
    HeardConcat(b, [HostAssignment(h)], Broadcasts(y));
    assert [HostAssignment(h)][..0] == [] && Heard(b, [HostAssignment(h)]) == Hear(b, HostAssignment(h));
    assert [] + Broadcasts(y) == Broadcasts(y) && [] + [HostAssignment(h)] == [HostAssignment(h)];
    SilentBroadcasts(Hear(b, HostAssignment(h)), y);
    SilentBroadcasts(b, y);
  }

  lemma GreetingOverheard(b: Belief, id: PlayerID, took: bool, rest: seq<Send>)
    requires AllSilent(rest)
    ensures Heard(b, Broadcasts(Greeting(id, took) + rest)) == if took then Hear(b, HostAssignment(id)) else b
  {
    var ack := [ToOne(id, HandshakeAck(id))];
    assert ack[..0] == [] && Broadcasts(ack) == [];
    hide Heard, Broadcasts;
    OneBroadcast(b, ack, id, rest);
    assert ack + [] + rest == ack + rest;
  }

  lemma JoinOverheard(cfg: Config, s: Server, e: Event, b: Belief)
    requires Inv(s) && e.Joins? && Enabled(s, e) && Admits(cfg, s, e.peer, e.version)
    ensures Heard(b, Broadcasts(Step(cfg, s, e).sends)) ==
            if TakesOverHost(s, e.loopback) then Hear(b, HostAssignment(s.nextPlayerId)) else b
    ensures Step(cfg, s, e).server.host == if TakesOverHost(s, e.loopback) then s.nextPlayerId else s.host
  {
    hide Handshake, Welcome, Greeting, Heard, Sanitized, Broadcasts;
    JoinStep(cfg, s, e);
    var s' := Joined(s, e.peer, Sanitized(e.raw), e.loopback);
    WelcomeSilent(s', s.nextPlayerId, e.entityOrder, e.playerOrder);
    GreetingOverheard(b, s.nextPlayerId, TakesOverHost(s, e.loopback),
                      Welcome(s', s.nextPlayerId, e.entityOrder, e.playerOrder));
  }

  lemma LeaveOverheard(s: Server, peer: Peer, order: seq<EntityID>, heir: PlayerID, b: Belief)
    requires Inv(s) && Enabled(s, Leaves(peer, order, heir)) && peer in s.peers
    ensures var f := Disconnect(s, peer, order, heir);
            Heard(b, Broadcasts(f.sends)) ==
            if s.peers[peer] == s.host && f.server.players.Keys != {} then Hear(b, HostAssignment(heir)) else b
  {
    hide Heard, Released, OwnedIn;
    var pid := s.peers[peer];
    var name, left := s.players[pid].name, [ToOthers(pid, PlayerLeft(pid))];
    var bye := [ToAll(SystemMessage(name + " left the game"))];
    assert left[..0] == [] && Broadcasts(left) == [];
    var s' := Left(s, pid, order, heir);
    if pid == s.host && s'.players.Keys != {} {
      SuccessionOverheard(b, left, heir, s'.players[heir].name, bye);
    } else {
      OneBroadcast(b, left, heir, bye);
      assert left + [] + bye == left + bye;
    }
  }

  lemma NoBroadcasts()
    ensures Broadcasts([]) == []
  {}

  lemma SuccessionOverheard(b: Belief, x: seq<Send>, heir: PlayerID, name: string, y: seq<Send>)
    requires AllSilent(x) && AllSilent(y) && Broadcasts(x) == []
    ensures Heard(b, Broadcasts(x + Succession(heir, name) + y)) == Hear(b, HostAssignment(heir))
  {
    hide Heard, Hear, Broadcasts;
    NoBroadcasts();
    var news := [ToAll(SystemMessage(name + " is now the host"))];
    OneBroadcast(b, [], heir, y);
    var rest := [ToAll(HostAssignment(heir))] + y;
    assert [] + [ToAll(HostAssignment(heir))] + y == rest;
    assert x + Succession(heir, name) + y == x + news + rest;
    BroadcastsConcat(x + news, rest);
    HeardConcat(b, Broadcasts(x + news), Broadcasts(rest));
    SilentBroadcasts(b, x + news);
  }

  // ----- the belief of a peer that has not shaken hands

  /** It takes itself for host exactly when the last host it heard of bears its old id, and
      that host, if any, is the host as long as there is one. */
  predicate Eavesdrops(s: Server, was: PlayerID, b: Belief) {
    && b.localId == was && (b.isHost <==> was != 0 && b.hostId == was)
    && (b.hostId == 0 || s.host == 0 || b.hostId == s.host)
  }

  lemma StepEavesdrops(cfg: Config, s: Server, e: Event, was: PlayerID, b: Belief)
    requires Inv(s) && Enabled(s, e) && !e.Restarts? && Eavesdrops(s, was, b)
    ensures Eavesdrops(Step(cfg, s, e).server, was, Heard(b, Broadcasts(Step(cfg, s, e).sends)))
  {
    hide Handshake, Disconnect, Act, Heard, Broadcasts, Released, Enumerates, PacketFrame, OwnedIn;
    match e
    case Joins(peer, version, _, _, _, _) =>
      if Admits(cfg, s, peer, version) {
        JoinOverheard(cfg, s, e, b);
      } else {
        RejectStep(cfg, s, e);
        SilentBroadcasts(b, Step(cfg, s, e).sends);
      }
    case Leaves(peer, es, heir) =>
      if peer in s.peers {
        LeaveOverheard(s, peer, es, heir, b);
        LeaveStep(cfg, s, e);
      } else {
        IdleStep(cfg, s, e);
        SilentBroadcasts(b, []);
      }
    case Packets(peer, pkt) =>
      if peer in s.peers {
        PacketInforms(cfg, s, s.peers[peer], pkt, was, b);
        ActSilent(cfg, s, s.peers[peer], pkt);
        SilentBroadcasts(b, Step(cfg, s, e).sends);
      } else {
        IdleStep(cfg, s, e);
        SilentBroadcasts(b, []);
      }
    case Sweeps(es) =>
      SweepRemovesNothing(s, es);
      SilentBroadcasts(b, []);
  }

  predicate OneServer(events: seq<Event>, c: nat, j: nat)
    requires j <= |events|
  {
    forall k {:trigger events[k]} :: c <= k < j ==> !events[k].Restarts?
  }

  lemma NextEavesdrops(cfg: Config, states: seq<Server>, events: seq<Event>, i: nat, was: PlayerID, b: Belief)
    requires IsRun(cfg, states, events) && i < |events| && Inv(states[i]) && !events[i].Restarts?
    requires Eavesdrops(states[i], was, b)
    ensures Eavesdrops(states[i + 1], was, Heard(b, Broadcasts(Step(cfg, states[i], events[i]).sends)))
  {
    StepEavesdrops(cfg, states[i], events[i], was, b);
  }

  lemma {:induction false} RunEavesdrops(cfg: Config, states: seq<Server>, events: seq<Event>, c: nat, j: nat, was: PlayerID)
    requires IsRun(cfg, states, events) && c <= j < |states| && Inv(states[0]) && OneServer(events, c, j)
    ensures Eavesdrops(states[j], was, Heard(Idle(was), Overheard(cfg, states, events, c, j)))
  {
    if c < j {
      RunEavesdrops(cfg, states, events, c, j - 1, was);
      RunKeepsInv(cfg, states, events, j - 1);
      var e := events[j - 1];
      hide Eavesdrops, Broadcasts;
      var log := Overheard(cfg, states, events, c, j - 1);
      HeardConcat(Idle(was), log, Broadcasts(Step(cfg, states[j - 1], e).sends));
      NextEavesdrops(cfg, states, events, j - 1, was, Heard(Idle(was), log));
    }
  }

  // ----- the whole story of a client

  /** A client whose last session gave it id `was`, which has been connected since state `c`
      and is now player `p`: what it believed at its ack, and what it believes now. */
  function BeforeAck(cfg: Config, states: seq<Server>, events: seq<Event>, i: nat, p: PlayerID, c: nat, was: PlayerID): Belief
    requires IsRun(cfg, states, events) && i < |states| && states[0].players.Keys == {} && p in states[i].players
  {
    Heard(Idle(was), Overheard(cfg, states, events, c, JoinedAt(states, i, p)))
  }

  function Now(cfg: Config, states: seq<Server>, events: seq<Event>, i: nat, p: PlayerID, c: nat, was: PlayerID): Belief
    requires IsRun(cfg, states, events) && i < |states| && states[0].players.Keys == {} && p in states[i].players
  {
    Heard(BeforeAck(cfg, states, events, i, p, c, was), Log(cfg, states, events, i, p))
  }

  /** The client heard, before its ack, that the host is the player whose id it still held,
      and has been told nothing since. */
  predicate Fooled(cfg: Config, states: seq<Server>, events: seq<Event>, i: nat, p: PlayerID, c: nat, was: PlayerID)
    requires IsRun(cfg, states, events) && i < |states| && states[0].players.Keys == {} && p in states[i].players
  {
    && was != 0 && BeforeAck(cfg, states, events, i, p, c, was).hostId == was
    && !Now(cfg, states, events, i, p, c, was).told
  }

  predicate Connection(states: seq<Server>, events: seq<Event>, i: nat, p: PlayerID, c: nat)
    requires |states| == |events| + 1 && i < |states| && states[0].players.Keys == {} && p in states[i].players
  {
    c <= JoinedAt(states, i, p) && OneServer(events, c, JoinedAt(states, i, p))
  }

  /** In every state of every run each connected client knows its own id, and any host it
      knows of is the host; and it takes itself for host exactly when it is, if and only if
      it was not fooled. A fooled client shares the belief with the real host, whose id it
      held in an earlier session. */
  lemma HostAgreement(cfg: Config, states: seq<Server>, events: seq<Event>, i: nat, p: PlayerID, c: nat, was: PlayerID)
    requires IsRun(cfg, states, events) && i < |states| && Inv(states[0]) && states[0].players.Keys == {}
    requires p in states[i].players && Connection(states, events, i, p, c)
    ensures var b := Now(cfg, states, events, i, p, c, was);
            && b.localId == p && (b.hostId == 0 || b.hostId == states[i].host)
            && ((b.isHost <==> p == states[i].host) <==> !Fooled(cfg, states, events, i, p, c, was))
            && (Fooled(cfg, states, events, i, p, c, was) ==> b.isHost && states[i].host == was != p)
  {
    hide Log, Overheard;
    var j := JoinedAt(states, i, p);
    var before := BeforeAck(cfg, states, events, i, p, c, was);
    RunEavesdrops(cfg, states, events, c, j, was);
    SessionInforms(cfg, states, events, i, p, before);
    RunKeepsInv(cfg, states, events, i);
  }

  /** A client in its first session is never fooled. */
  lemma FreshClientsAgree(cfg: Config, states: seq<Server>, events: seq<Event>, i: nat, p: PlayerID, c: nat)
    requires IsRun(cfg, states, events) && i < |states| && Inv(states[0]) && states[0].players.Keys == {}
    requires p in states[i].players && Connection(states, events, i, p, c)
    ensures Now(cfg, states, events, i, p, c, 0).isHost <==> p == states[i].host
  {
    hide Now, BeforeAck;
    HostAgreement(cfg, states, events, i, p, c, 0);
  }

  /** With anybody connected there is a connected host, and the host alone believes to be it
      if and only if no connected client was fooled. */
  lemma OneHost(cfg: Config, states: seq<Server>, events: seq<Event>, i: nat, since: PlayerID -> nat, was: PlayerID -> PlayerID)
    requires IsRun(cfg, states, events) && i < |states| && Inv(states[0]) && states[0].players.Keys == {}
    requires states[i].players.Keys != {}
    requires forall p :: p in states[i].players ==> Connection(states, events, i, p, since(p))
    ensures states[i].host in states[i].players
    ensures (forall p :: p in states[i].players ==>
               (Now(cfg, states, events, i, p, since(p), was(p)).isHost <==> p == states[i].host))
            <==> (forall p :: p in states[i].players ==> !Fooled(cfg, states, events, i, p, since(p), was(p)))
  {
    hide Now, BeforeAck, Fooled, Connection;
    RunKeepsInv(cfg, states, events, i);
    forall p | p in states[i].players
      ensures (Now(cfg, states, events, i, p, since(p), was(p)).isHost <==> p == states[i].host)
              <==> !Fooled(cfg, states, events, i, p, since(p), was(p))
    {
      HostAgreement(cfg, states, events, i, p, since(p), was(p));
    }
  }

  /** The failing case is real: on an empty server, say after a restart, somebody else joins
      first and gets the id that a waiting client held last; the client then joins without
      taking over, and both believe to be host. */
  lemma TwoHosts(cfg: Config, s: Server, e1: Event, e2: Event)
    requires Inv(s) && s.players.Keys == {} && e1.Joins? && Enabled(s, e1) && Admits(cfg, s, e1.peer, e1.version)
    requires var s1 := Step(cfg, s, e1).server;
             PeersOk(s1) && e2.Joins? && Enabled(s1, e2) && Admits(cfg, s1, e2.peer, e2.version) && (e2.loopback ==> e1.loopback)
    ensures var was, s1 := s.nextPlayerId, Step(cfg, s, e1).server;
            var p, s2 := s1.nextPlayerId, Step(cfg, s1, e2).server;
            && s2.host == was != p
            && Heard(Heard(Idle(0), MessagesFor(was, Step(cfg, s, e1).sends)), MessagesFor(was, Step(cfg, s1, e2).sends)).isHost
            && Heard(Heard(Idle(was), Broadcasts(Step(cfg, s, e1).sends)), MessagesFor(p, Step(cfg, s1, e2).sends)).isHost
  {
    hide Handshake, Heard, MessagesFor, Broadcasts;
    var s1 := Step(cfg, s, e1).server;
    StepKeepsInv(cfg, s, e1);
    JoinStep(cfg, s, e1);
    JoinOverheard(cfg, s, e1, Idle(s.nextPlayerId));
    HandshakeHeard(cfg, s, e1, s.nextPlayerId, Idle(0));
    JoinOverheard(cfg, s1, e2, Idle(0));
    HandshakeHeard(cfg, s1, e2, s.nextPlayerId, Hear(Hear(Idle(0), HandshakeAck(s.nextPlayerId)), HostAssignment(s.nextPlayerId)));
    HandshakeHeard(cfg, s1, e2, s1.nextPlayerId, Hear(Idle(s.nextPlayerId), HostAssignment(s.nextPlayerId)));
  }
}
