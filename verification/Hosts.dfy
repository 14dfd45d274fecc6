/** What every client has been sent, and who it believes the host to be. */
module Hosts {
  import opened Types
  import opened ServerModel
  import opened Runs
  import opened Ownership

  /** Everything sent to a client since its handshake, up to state `i` of a run. */
  function Log(cfg: Config, states: seq<Server>, events: seq<Event>, i: nat, p: PlayerID): seq<Msg>
    requires IsRun(cfg, states, events) && i < |states|
  {
    if i == 0 || p !in states[i].players then []
    else Log(cfg, states, events, i - 1, p) + MessagesFor(p, Step(cfg, states[i - 1], events[i - 1]).sends)
  }

  /** The client's own id, the host id it was last told, its host flag, and whether it has
      been told a host since its last ack. */
  datatype Belief = Belief(localId: PlayerID, hostId: PlayerID, isHost: bool, told: bool)

  /** A client between sessions: the host is forgotten, the id of the last session is not. */
  function Idle(was: PlayerID): Belief { Belief(was, 0, false, false) }

  function Hear(b: Belief, m: Msg): Belief {
    match m
    case HandshakeAck(id) => b.(localId := id, told := false)
    case HostAssignment(h) => b.(hostId := h, isHost := h != 0 && h == b.localId, told := true)
    case _ => b
  }

  function Heard(b: Belief, log: seq<Msg>): Belief {
    if log == [] then b else Hear(Heard(b, log[..|log| - 1]), log[|log| - 1])
  }

  lemma {:induction false} HeardConcat(b: Belief, x: seq<Msg>, y: seq<Msg>)
    ensures Heard(b, x + y) == Heard(Heard(b, x), y)
  {
    if y == [] {
      assert x + y == x;
    } else {
      assert (x + y)[..|x + y| - 1] == x + y[..|y| - 1];
      HeardConcat(b, x, y[..|y| - 1]);
    }
  }

  // ----- sends that say nothing about the host

  predicate Silent(m: Msg) { !m.HandshakeAck? && !m.HostAssignment? }
  predicate AllSilent(sends: seq<Send>) { forall i :: 0 <= i < |sends| ==> Silent(sends[i].msg) }

  lemma {:induction false} SilentHeard(b: Belief, p: PlayerID, sends: seq<Send>)
    requires AllSilent(sends)
    ensures Heard(b, MessagesFor(p, sends)) == b
  {
    if sends != [] {
      var front := sends[..|sends| - 1];
      SilentHeard(b, p, front);
      var last := sends[|sends| - 1];
      var m := MessagesFor(p, front);
      assert (m + [last.msg])[..|m|] == m;
    }
  }

  lemma ActSilent(cfg: Config, s: Server, pid: PlayerID, pkt: Packet)
    requires pid in s.players && s.players[pid].id == pid && WellOrdered(s, pkt)
    ensures AllSilent(Act(cfg, s, pid, pkt).sends)
  {
    if pkt.ZoneRequest? {
      ZoneReplyShows(pid, pkt.zone, pkt.order, s.entities);
    }
  }

  // ----- one event

  /** A client's belief in a state, given what it believed right before its ack and who was
      host right after: once told, it is right about the host; until then it is not the
      host, the host is the same, and it believes what it believed before. */
  predicate Informed(s: Server, p: PlayerID, before: Belief, first: PlayerID, b: Belief) {
    && b.localId == p
    && (b.told ==> b.hostId == s.host && (b.isHost <==> p == s.host))
    && (!b.told ==> p != s.host == first && b.hostId == before.hostId && b.isHost == before.isHost)
  }

  lemma GreetingHeard(p: PlayerID, id: PlayerID, took: bool, b: Belief)
    ensures var b1 := if p == id then Hear(b, HandshakeAck(id)) else b;
            Heard(b, MessagesFor(p, Greeting(id, took))) == if took then Hear(b1, HostAssignment(id)) else b1
  {
    var ack := [ToOne(id, HandshakeAck(id))];
    var host := if took then [ToAll(HostAssignment(id))] else [];
    MessagesForConcat(p, ack, host);
    HeardConcat(b, MessagesFor(p, ack), MessagesFor(p, host));
  }

  lemma WelcomeSilent(s: Server, id: PlayerID, entityOrder: seq<EntityID>, playerOrder: seq<PlayerID>)
    requires id in s.players
    requires forall i :: 0 <= i < |entityOrder| ==> entityOrder[i] in s.entities
    requires forall i :: 0 <= i < |playerOrder| ==> playerOrder[i] in s.players
    ensures AllSilent(Welcome(s, id, entityOrder, playerOrder))
  {
    IntroductionsIntroduce(id, playerOrder, s.players);
    SnapshotShows(id, entityOrder, s.entities, s.players);
  }

  /** A list of sends whose tail is silent is heard as its head. */
  lemma SilentTail(b: Belief, p: PlayerID, x: seq<Send>, y: seq<Send>)
    requires AllSilent(y)
    ensures Heard(b, MessagesFor(p, x + y)) == Heard(b, MessagesFor(p, x))
  {
    MessagesForConcat(p, x, y);
    HeardConcat(b, MessagesFor(p, x), MessagesFor(p, y));
    SilentHeard(Heard(b, MessagesFor(p, x)), p, y);
  }

  lemma SilentFront(b: Belief, p: PlayerID, x: seq<Send>, y: seq<Send>)
    requires AllSilent(x)
    ensures Heard(b, MessagesFor(p, x + y)) == Heard(b, MessagesFor(p, y))
  {
    MessagesForConcat(p, x, y);
    HeardConcat(b, MessagesFor(p, x), MessagesFor(p, y));
    SilentHeard(b, p, x);
  }

  /** The messages of a handshake, as one client hears them: an ack and possibly a host
      assignment, then nothing about either. */
  lemma HandshakeHeard(cfg: Config, s: Server, e: Event, p: PlayerID, b: Belief)
    requires Inv(s) && e.Joins? && Enabled(s, e) && Admits(cfg, s, e.peer, e.version)
    ensures var id, took := s.nextPlayerId, TakesOverHost(s, e.loopback);
            var b1 := if p == id then Hear(b, HandshakeAck(id)) else b;
            Heard(b, MessagesFor(p, Step(cfg, s, e).sends)) == if took then Hear(b1, HostAssignment(id)) else b1
  {
    var id := s.nextPlayerId;
    var s' := Joined(s, e.peer, Sanitized(e.raw), e.loopback);
    WelcomeSilent(s', id, e.entityOrder, e.playerOrder);
    var greeting := Greeting(id, TakesOverHost(s, e.loopback));
    SilentTail(b, p, greeting, Welcome(s', id, e.entityOrder, e.playerOrder));
    GreetingHeard(p, id, TakesOverHost(s, e.loopback), b);
  }

  lemma JoinInforms(cfg: Config, s: Server, e: Event, p: PlayerID, before: Belief, first: PlayerID, b: Belief)
    requires Inv(s) && e.Joins? && Enabled(s, e) && Admits(cfg, s, e.peer, e.version)
    requires p in s.players ==> Informed(s, p, before, first, b)
    requires p == s.nextPlayerId ==> b == before && first == s.host
    requires p in s.players || p == s.nextPlayerId
    ensures Informed(Step(cfg, s, e).server, p, before, first, Heard(b, MessagesFor(p, Step(cfg, s, e).sends)))
  {
    hide Handshake, Heard, MessagesFor, Reclaimed, Sanitized, Greeting, Welcome;
    HandshakeHeard(cfg, s, e, p, b);
    JoinStep(cfg, s, e);
  }

  lemma SuccessionHeard(p: PlayerID, heir: PlayerID, name: string, b: Belief)
    ensures Heard(b, MessagesFor(p, Succession(heir, name))) == Hear(b, HostAssignment(heir))
  {
    var system, assign := [ToAll(SystemMessage(name + " is now the host"))], [ToAll(HostAssignment(heir))];
    assert Succession(heir, name) == system + assign;
    SilentFront(b, p, system, assign);
    assert MessagesFor(p, assign) == [HostAssignment(heir)];
  }

  lemma FarewellHeard(p: PlayerID, pid: PlayerID, name: string, succession: seq<Send>, b: Belief)
    ensures Heard(b, MessagesFor(p, Farewell(pid, name, succession))) == Heard(b, MessagesFor(p, succession))
  {
    var left, bye := [ToOthers(pid, PlayerLeft(pid))], [ToAll(SystemMessage(name + " left the game"))];
    SilentTail(b, p, left + succession, bye);
    SilentFront(b, p, left, succession);
  }

  lemma LeaveInforms(s: Server, peer: Peer, order: seq<EntityID>, heir: PlayerID, p: PlayerID,
                     before: Belief, first: PlayerID, b: Belief)
    requires Inv(s) && Enabled(s, Leaves(peer, order, heir)) && peer in s.peers
    requires p in s.players && p != s.peers[peer] && Informed(s, p, before, first, b)
    ensures var f := Disconnect(s, peer, order, heir);
            Informed(f.server, p, before, first, Heard(b, MessagesFor(p, f.sends)))
  {
    hide Heard, MessagesFor, OwnedIn, Released, Farewell, Succession, Hear;
    HearAssignment(b, heir);
    var pid := s.peers[peer];
    var s' := Left(s, pid, order, heir);
    assert p in s.players.Keys - {pid} && p in s'.players.Keys;
    if pid == s.host {
      FarewellHeard(p, pid, s.players[pid].name, Succession(heir, s'.players[heir].name), b);
      SuccessionHeard(p, heir, s'.players[heir].name, b);
    } else {
      FarewellHeard(p, pid, s.players[pid].name, [], b);
      NothingHeard(p, b);
    }
  }

  lemma NothingHeard(p: PlayerID, b: Belief)
    ensures Heard(b, MessagesFor(p, [])) == b
  {}

  lemma HearAssignment(b: Belief, h: PlayerID)
    ensures Hear(b, HostAssignment(h)) == b.(hostId := h, isHost := h != 0 && h == b.localId, told := true)
  {}

  lemma PacketInforms(cfg: Config, s: Server, pid: PlayerID, pkt: Packet, p: PlayerID, b: Belief)
    requires Inv(s) && pid in s.players && WellOrdered(s, pkt)
    ensures Act(cfg, s, pid, pkt).server.host == s.host
    ensures Heard(b, MessagesFor(p, Act(cfg, s, pid, pkt).sends)) == b
  {
    ActFrame(cfg, s, pid, pkt);
    ActSilent(cfg, s, pid, pkt);
    SilentHeard(b, p, Act(cfg, s, pid, pkt).sends);
  }

  lemma RejectInforms(cfg: Config, s: Server, e: Event, p: PlayerID, b: Belief)
    requires Inv(s) && e.Joins? && Enabled(s, e) && !Admits(cfg, s, e.peer, e.version)
    ensures Step(cfg, s, e).server == s
    ensures Heard(b, MessagesFor(p, Step(cfg, s, e).sends)) == b
  {
    SilentHeard(b, p, Step(cfg, s, e).sends);
  }

  lemma StepInforms(cfg: Config, s: Server, e: Event, p: PlayerID, before: Belief, first: PlayerID, b: Belief)
    requires Inv(s) && Enabled(s, e) && p in Step(cfg, s, e).server.players
    requires p in s.players ==> Informed(s, p, before, first, b)
    requires p !in s.players ==> b == before && first == s.host
    ensures Informed(Step(cfg, s, e).server, p, before, first, Heard(b, MessagesFor(p, Step(cfg, s, e).sends)))
  {
    match e
    case Joins(peer, version, _, _, _, _) =>
      if Admits(cfg, s, peer, version) {
        JoinInforms(cfg, s, e, p, before, first, b);
      } else {
        RejectInforms(cfg, s, e, p, b);
      }
    case Leaves(peer, es, heir) =>
      if peer in s.peers {
        LeaveInforms(s, peer, es, heir, p, before, first, b);
      }
    case Packets(peer, pkt) =>
      if peer in s.peers {
        ActFrame(cfg, s, s.peers[peer], pkt);
        PacketInforms(cfg, s, s.peers[peer], pkt, p, b);
      }
    case Sweeps(es) => SweepRemovesNothing(s, es);
    case Restarts(_, _) =>
  }

  // ----- one session

  /** The step at which a connected player joined. */
  function JoinedAt(states: seq<Server>, i: nat, p: PlayerID): (j: nat)
    requires i < |states| && states[0].players.Keys == {} && p in states[i].players
    ensures j < i && p !in states[j].players && forall k :: j < k <= i ==> p in states[k].players
  {
    if p in states[i - 1].players then JoinedAt(states, i - 1, p) else i - 1
  }

  lemma NextInforms(cfg: Config, states: seq<Server>, events: seq<Event>, i: nat, p: PlayerID, before: Belief, first: PlayerID)
    requires IsRun(cfg, states, events) && i < |events| && Inv(states[i]) && p in states[i + 1].players
    requires p in states[i].players ==> Informed(states[i], p, before, first, Heard(before, Log(cfg, states, events, i, p)))
    requires p !in states[i].players ==> first == states[i].host
    ensures Informed(states[i + 1], p, before, first, Heard(before, Log(cfg, states, events, i + 1, p)))
  {
    var log, sends := Log(cfg, states, events, i, p), Step(cfg, states[i], events[i]).sends;
    HeardConcat(before, log, MessagesFor(p, sends));
    StepInforms(cfg, states[i], events[i], p, before, first, Heard(before, log));
  }

  /** In every state of every run and whatever a client believed before its ack: once it has
      been told a host it is right about it; until then it is not the host and believes what
      it did. */
  lemma {:induction false} SessionInforms(cfg: Config, states: seq<Server>, events: seq<Event>, i: nat, p: PlayerID, before: Belief)
    requires IsRun(cfg, states, events) && i < |states| && Inv(states[0]) && states[0].players.Keys == {}
    requires p in states[i].players
    ensures Informed(states[i], p, before, states[JoinedAt(states, i, p)].host, Heard(before, Log(cfg, states, events, i, p)))
  {
    hide Log;
    RunKeepsInv(cfg, states, events, i - 1);
    if p in states[i - 1].players {
      SessionInforms(cfg, states, events, i - 1, p, before);
    }
    NextInforms(cfg, states, events, i - 1, p, before, states[JoinedAt(states, i, p)].host);
  }

  /** What a handshake tells the newcomer about the host: it is told if and only if it takes
      the role over; otherwise it keeps whatever it believed. */
  lemma JoinerToldHost(cfg: Config, s: Server, e: Event, before: Belief)
    requires Inv(s) && e.Joins? && Enabled(s, e) && Admits(cfg, s, e.peer, e.version)
    ensures var s', p := Step(cfg, s, e).server, s.nextPlayerId;
            var b := Heard(before, MessagesFor(p, Step(cfg, s, e).sends));
            && (b.told <==> TakesOverHost(s, e.loopback))
            && (b.told ==> b == Belief(p, p, true, true) && s'.host == p)
            && (!b.told ==> b == before.(localId := p, told := false) && s'.host == s.host != p)
            && (before.hostId == 0 ==> (b.hostId == s'.host <==> TakesOverHost(s, e.loopback)))
  {
    HandshakeHeard(cfg, s, e, s.nextPlayerId, before);
  }

  // ----- the integrated host

  predicate LoopbackIsHost(s: Server) {
    forall p :: p in s.players && s.players[p].isLoopback ==> p == s.host
  }

  predicate NoLoopback(s: Server) { forall p :: p in s.players ==> !s.players[p].isLoopback }

  /** A loopback peer joins only while no other is connected. */
  predicate OneLoopback(cfg: Config, s: Server, e: Event) {
    e.Joins? && e.loopback && Admits(cfg, s, e.peer, e.version) ==> NoLoopback(s)
  }

  lemma JoinLoopback(s: Server, peer: Peer, name: string, loopback: bool)
    requires Inv(s) && LoopbackIsHost(s) && (loopback ==> NoLoopback(s))
    ensures LoopbackIsHost(Joined(s, peer, name, loopback))
  {}

  lemma LeaveLoopback(s: Server, pid: PlayerID, order: seq<EntityID>, heir: PlayerID)
    requires Inv(s) && pid in s.players && LoopbackIsHost(s)
    ensures LoopbackIsHost(Left(s, pid, order, heir))
  {}

  lemma PacketLoopback(cfg: Config, s: Server, pid: PlayerID, pkt: Packet)
    requires Inv(s) && pid in s.players && WellOrdered(s, pkt) && LoopbackIsHost(s)
    ensures LoopbackIsHost(Act(cfg, s, pid, pkt).server)
  {
    ActFrame(cfg, s, pid, pkt);
  }

  lemma StepLoopback(cfg: Config, s: Server, e: Event)
    requires Inv(s) && Enabled(s, e) && LoopbackIsHost(s) && OneLoopback(cfg, s, e)
    ensures LoopbackIsHost(Step(cfg, s, e).server)
  {
    match e
    case Joins(peer, version, raw, loopback, _, _) =>
      if Admits(cfg, s, peer, version) {
        JoinLoopback(s, peer, Sanitized(raw), loopback);
      }
    case Leaves(peer, es, heir) =>
      if peer in s.peers {
        LeaveLoopback(s, s.peers[peer], es, heir);
      }
    case Packets(peer, pkt) =>
      if peer in s.peers {
        PacketLoopback(cfg, s, s.peers[peer], pkt);
      }
    case Sweeps(es) => SweepRemovesNothing(s, es);
    case Restarts(_, _) =>
  }

  lemma NextLoopback(cfg: Config, states: seq<Server>, events: seq<Event>, i: nat)
    requires IsRun(cfg, states, events) && i < |events| && Inv(states[i])
    requires LoopbackIsHost(states[i]) && OneLoopback(cfg, states[i], events[i])
    ensures LoopbackIsHost(states[i + 1])
  {
    hide Step;
    StepLoopback(cfg, states[i], events[i]);
  }

  /** With at most one loopback peer at a time, a connected loopback player is host in
      every state of every run. */
  lemma {:induction false} LoopbackAlwaysHost(cfg: Config, states: seq<Server>, events: seq<Event>, i: nat)
    requires IsRun(cfg, states, events) && i < |states| && Inv(states[0]) && states[0].players.Keys == {}
    requires forall k {:trigger events[k]} :: 0 <= k < i ==> OneLoopback(cfg, states[k], events[k])
    ensures LoopbackIsHost(states[i])
  {
    if i > 0 {
      RunKeepsInv(cfg, states, events, i - 1);
      LoopbackAlwaysHost(cfg, states, events, i - 1);
      NextLoopback(cfg, states, events, i - 1);
    }
  }

  /** The bound is needed: with a second loopback player connected, the departure of the
      host can hand the role to a player that is not on loopback. */
  lemma SecondLoopbackPassedOver(s: Server, q: PlayerID, r: PlayerID, order: seq<EntityID>)
    requires Inv(s) && Enumerates(order, s.entities.Keys)
    requires q in s.players && r in s.players && q != s.host && r != s.host
    requires s.players[q].isLoopback && !s.players[r].isLoopback
    ensures Inv(Left(s, s.host, order, r)) && !LoopbackIsHost(Left(s, s.host, order, r))
  {
    LeftKeepsInv(s, s.host, order, r);
    var s' := Left(s, s.host, order, r);
    assert q in s'.players && s'.players[q].isLoopback && s'.host == r;
  }
}
