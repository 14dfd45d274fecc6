/** A handshake that fails halfway: when the packet for the ack or for the faction cannot be
    created, the player is erased again, but the host id, the reclaimed owners and the
    consumed record stay as they are. */
module HandshakeFailure {
  import opened Types
  import opened ServerModel
  import opened Runs
  import opened Ownership
  import opened Reclaim
  import opened Hosts

  /** The state such a handshake leaves. */
  function Aborted(s: Server, peer: Peer, name: string, loopback: bool): Server {
    var s' := Joined(s, peer, name, loopback);
    s'.(players := s'.players - {s.nextPlayerId}, peers := s'.peers - {peer})
  }

  lemma AbortedState(s: Server, peer: Peer, name: string, loopback: bool)
    requires Inv(s) && peer !in s.peers
    ensures var s' := Aborted(s, peer, name, loopback);
            && s'.players == s.players && s'.peers == s.peers && IdsOk(s') && PeersOk(s')
            && OwnedBy(s'.entities, s.nextPlayerId) == Claim(s, name)
  {
    JoinTakesClaim(s, peer, name, loopback);
  }

  /** It does no harm if and only if there was nothing to reclaim and no role to take over. */
  lemma AbortKeepsInv(s: Server, peer: Peer, name: string, loopback: bool)
    requires Inv(s) && peer !in s.peers
    ensures Inv(Aborted(s, peer, name, loopback)) <==> Claim(s, name) == {} && !TakesOverHost(s, loopback)
  {
    var s' := Aborted(s, peer, name, loopback);
    AbortedState(s, peer, name, loopback);
    JoinedKeepsRecords(s, peer, name, loopback);
    if Claim(s, name) != {} {
      var id :| id in Claim(s, name);
      assert id in OwnedBy(s'.entities, s.nextPlayerId);
      assert !OwnersOk(s');
    } else if TakesOverHost(s, loopback) {
      assert !HostOk(s');
    } else {
      assert forall id :: id in s'.entities ==> id !in OwnedBy(s'.entities, s.nextPlayerId);
      assert forall id :: id in s'.entities ==> s'.entities[id] == s.entities[id];
    }
  }

  /** The next sweep makes the owners right again by removing everything the player would have
      got back; nothing else is touched. */
  lemma SweepAfterAbort(s: Server, peer: Peer, name: string, loopback: bool, order: seq<EntityID>)
    requires Inv(s) && peer !in s.peers && Enumerates(order, s.entities.Keys)
    ensures var s' := Aborted(s, peer, name, loopback);
            && Enumerates(order, s'.entities.Keys)
            && Sweep(s', order).server.entities.Keys == s.entities.Keys - Claim(s, name)
            && OwnersOk(Sweep(s', order).server)
            && forall id :: id in Sweep(s', order).server.entities ==> Sweep(s', order).server.entities[id] == s.entities[id]
  {
    var s' := Aborted(s, peer, name, loopback);
    AbortedState(s, peer, name, loopback);
    assert s'.entities.Keys == s.entities.Keys;
    assert name in s.saved ==> Unowned(s, s.saved[name]);
  }

  /** A host id that names nobody. */
  predicate Dangling(s: Server) { s.host != 0 && s.host < s.nextPlayerId && s.host !in s.players }

  predicate Stuck(s: Server) { IdsOk(s) && PeersOk(s) && Dangling(s) }

  lemma StuckJoin(s: Server, peer: Peer, name: string, loopback: bool)
    requires Stuck(s) && peer !in s.peers
    ensures Stuck(Joined(s, peer, name, loopback)) && Joined(s, peer, name, loopback).host == s.host
  {}

  lemma StuckLeave(s: Server, pid: PlayerID, order: seq<EntityID>, heir: PlayerID)
    requires Stuck(s) && pid in s.players
    ensures Stuck(Left(s, pid, order, heir)) && Left(s, pid, order, heir).host == s.host
  {
    hide OwnedIn;
  }

  lemma StuckPacket(cfg: Config, s: Server, pid: PlayerID, pkt: Packet)
    requires Stuck(s) && pid in s.players && WellOrdered(s, pkt)
    ensures Stuck(Act(cfg, s, pid, pkt).server) && Act(cfg, s, pid, pkt).server.host == s.host
  {
    hide Act;
    ActFrame(cfg, s, pid, pkt);
  }

  lemma JoinServer(cfg: Config, s: Server, e: Event)
    requires PeersOk(s) && Enabled(s, e) && e.Joins?
    ensures Step(cfg, s, e).server ==
            if Admits(cfg, s, e.peer, e.version) then Joined(s, e.peer, Sanitized(e.raw), e.loopback) else s
  {}

  lemma LeaveServer(cfg: Config, s: Server, e: Event)
    requires PeersOk(s) && Enabled(s, e) && e.Leaves?
    ensures Step(cfg, s, e).server ==
            if e.peer in s.peers then Left(s, s.peers[e.peer], e.entityOrder, e.heir) else s
  {}

  lemma StuckSweep(s: Server, order: seq<EntityID>)
    requires Stuck(s) && Enumerates(order, s.entities.Keys)
    ensures Stuck(Sweep(s, order).server) && Sweep(s, order).server.host == s.host
  {}

  lemma StuckStays(cfg: Config, s: Server, e: Event)
    requires Stuck(s) && Enabled(s, e) && !e.Restarts?
    ensures Stuck(Step(cfg, s, e).server) && Step(cfg, s, e).server.host == s.host
  {
    hide Act, Joined, Left, Handshake, Disconnect, Sweep, IdsOk, Enumerates;
    match e
    case Joins(peer, version, raw, loopback, _, _) =>
      JoinServer(cfg, s, e);
      if Admits(cfg, s, peer, version) {
        StuckJoin(s, peer, Sanitized(raw), loopback);
      }
    case Leaves(peer, es, heir) =>
      LeaveServer(cfg, s, e);
      if peer in s.peers {
        StuckLeave(s, s.peers[peer], es, heir);
      }
    case Packets(peer, pkt) =>
      if peer in s.peers {
        StuckPacket(cfg, s, s.peers[peer], pkt);
      }
    case Sweeps(es) => StuckSweep(s, es);
  }

  lemma StuckAbort(s: Server, peer: Peer, name: string, loopback: bool)
    requires Stuck(s) && peer !in s.peers
    ensures Stuck(Aborted(s, peer, name, loopback)) && Aborted(s, peer, name, loopback).host == s.host
  {
    assert Aborted(s, peer, name, loopback).players == s.players;
    assert Aborted(s, peer, name, loopback).peers == s.peers;
  }

  // ----- runs in which handshakes may fail

  /** An event, or a handshake that fails at the ack or, later, at the faction. */
  datatype Turn = Ordinary(event: Event) | Aborts(peer: Peer, raw: string, loopback: bool, late: bool)

  predicate CanTurn(s: Server, t: Turn) {
    match t
    case Ordinary(e) => PeersOk(s) && Enabled(s, e)
    case Aborts(peer, _, _, _) => peer !in s.peers
  }

  /** A late failure comes after the ack and the news about the host have gone out. */
  function TurnStep(cfg: Config, s: Server, t: Turn): Effect
    requires CanTurn(s, t)
  {
    match t
    case Ordinary(e) => Step(cfg, s, e)
    case Aborts(peer, raw, loopback, late) =>
      Effect(Aborted(s, peer, Sanitized(raw), loopback),
             if late then Greeting(s.nextPlayerId, TakesOverHost(s, loopback)) else [])
  }

  predicate Turns(cfg: Config, s: Server, t: Turn, s': Server) { CanTurn(s, t) && s' == TurnStep(cfg, s, t).server }

  predicate MixedRun(cfg: Config, states: seq<Server>, turns: seq<Turn>) {
    && |states| == |turns| + 1
    && forall i {:trigger turns[i]} :: 0 <= i < |turns| ==> Turns(cfg, states[i], turns[i], states[i + 1])
  }

  /** A failed handshake with nothing to reclaim and no role to take over. */
  predicate Harmless(s: Server, t: Turn) {
    t.Aborts? ==> Claim(s, Sanitized(t.raw)) == {} && !TakesOverHost(s, t.loopback)
  }

  /** One turn keeps the invariant if and only if it is harmless. */
  lemma TurnKeepsInv(cfg: Config, s: Server, t: Turn)
    requires Inv(s) && CanTurn(s, t)
    ensures Inv(TurnStep(cfg, s, t).server) <==> Harmless(s, t)
  {
    hide Inv, Step, Aborted, Claim, TakesOverHost;
    match t
    case Ordinary(e) => StepKeepsInv(cfg, s, e);
    case Aborts(peer, raw, loopback, _) => AbortKeepsInv(s, peer, Sanitized(raw), loopback);
  }

  /** So do whole runs, as long as every failed handshake in them is harmless. */
  lemma {:induction false} MixedKeepsInv(cfg: Config, states: seq<Server>, turns: seq<Turn>, i: nat)
    requires MixedRun(cfg, states, turns) && i < |states| && Inv(states[0])
    requires forall k {:trigger turns[k]} :: 0 <= k < |turns| ==> Harmless(states[k], turns[k])
    ensures Inv(states[i])
  {
    hide Inv, TurnStep, Harmless;
    if i > 0 {
      MixedKeepsInv(cfg, states, turns, i - 1);
      var t := turns[i - 1];
      TurnKeepsInv(cfg, states[i - 1], t);
    }
  }

  lemma NextStuck(cfg: Config, s: Server, t: Turn)
    requires CanTurn(s, t) && Stuck(s) && (t.Ordinary? ==> !t.event.Restarts?)
    ensures Stuck(TurnStep(cfg, s, t).server) && TurnStep(cfg, s, t).server.host == s.host
  {
    hide Step, Aborted, Dangling, IdsOk;
    match t
    case Ordinary(e) => StuckStays(cfg, s, e);
    case Aborts(peer, raw, loopback, _) => StuckAbort(s, peer, Sanitized(raw), loopback);
  }

  /** The role is stuck: once it names nobody, no join, departure, packet, sweep or further
      failed handshake ever gives it to anybody, so nobody is host until the server restarts. */
  lemma {:induction false} StuckForever(cfg: Config, states: seq<Server>, turns: seq<Turn>, i: nat)
    requires MixedRun(cfg, states, turns) && i < |states| && Stuck(states[0])
    requires forall k {:trigger turns[k]} :: 0 <= k < |turns| && turns[k].Ordinary? ==> !turns[k].event.Restarts?
    ensures Stuck(states[i]) && states[i].host == states[0].host
  {
    hide Stuck, TurnStep;
    if i > 0 {
      StuckForever(cfg, states, turns, i - 1);
      var t := turns[i - 1];
      NextStuck(cfg, states[i - 1], t);
    }
  }

  /** After a late failure that took the role over, every connected client has been told that
      the host is a player who is not there, and the one that failed believes to be it. */
  lemma AbortTold(cfg: Config, s: Server, t: Turn, p: PlayerID, b: Belief)
    requires Inv(s) && t.Aborts? && CanTurn(s, t) && t.late && TakesOverHost(s, t.loopback)
    requires p in s.players ==> b.localId == p
    ensures var f := TurnStep(cfg, s, t);
            && f.server.host == s.nextPlayerId && f.server.host !in f.server.players
            && (p in s.players ==>
                  Heard(b, MessagesFor(p, f.sends)) == Belief(p, s.nextPlayerId, false, true))
            && (p == s.nextPlayerId ==> Heard(b, MessagesFor(p, f.sends)).isHost)
  {
    GreetingHeard(p, s.nextPlayerId, true, b);
  }

  /** A failed handshake leaves the role stuck if and only if it had taken it over. */
  lemma AbortSticks(s: Server, peer: Peer, name: string, loopback: bool)
    requires Inv(s) && peer !in s.peers
    ensures Stuck(Aborted(s, peer, name, loopback)) <==> TakesOverHost(s, loopback)
  {
    AbortedState(s, peer, name, loopback);
  }
}
