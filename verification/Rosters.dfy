/** Who is connected, as the clients are told it and as the server keeps it: rosters, the player
    limit, readiness, and the zones entities are filed under. */
module Rosters {
  import opened Types
  import opened Combat
  import opened ServerModel
  import opened Persistence
  import opened Runs
  import opened Ownership
  import opened Hosts

  // ----- what a client is told about the others

  type Roster = map<PlayerID, string>

  function Meet(r: Roster, m: Msg): Roster {
    match m
    case PlayerJoined(p, name) => r[p := name]
    case PlayerLeft(p) => r - {p}
    case _ => r
  }

  function Met(r: Roster, log: seq<Msg>): Roster {
    if log == [] then r else Meet(Met(r, log[..|log| - 1]), log[|log| - 1])
  }

  /** Everybody else who is connected, by name as far as a message holds it. */
  predicate Names(s: Server, p: PlayerID, r: Roster) {
    && r.Keys == s.players.Keys - {p}
    && forall q :: q in s.players && q != p ==>
         r[q] <= s.players[q].name && |r[q]| == (if |s.players[q].name| <= 30 then |s.players[q].name| else 30)
  }

  lemma {:induction false} MetConcat(r: Roster, x: seq<Msg>, y: seq<Msg>)
    ensures Met(r, x + y) == Met(Met(r, x), y)
  {
    if y == [] {
      assert x + y == x;
    } else {
      assert (x + y)[..|x + y| - 1] == x + y[..|y| - 1];
      MetConcat(r, x, y[..|y| - 1]);
    }
  }

  lemma MetSends(r: Roster, p: PlayerID, x: seq<Send>, y: seq<Send>)
    ensures Met(r, MessagesFor(p, x + y)) == Met(Met(r, MessagesFor(p, x)), MessagesFor(p, y))
  {
    MessagesForConcat(p, x, y);
    MetConcat(r, MessagesFor(p, x), MessagesFor(p, y));
  }

  lemma MetOne(r: Roster, p: PlayerID, send: Send)
    ensures Met(r, MessagesFor(p, [send])) == if Receives(p, send) then Meet(r, send.msg) else r
  {
    hide Meet;
    assert [send][..0] == [] && MessagesFor(p, []) == [];
    assert [send.msg][..0] == [];
  }

  lemma MetNothing(r: Roster, p: PlayerID)
    ensures Met(r, MessagesFor(p, [])) == r
  {}

  predicate Impersonal(sends: seq<Send>) {
    forall k :: 0 <= k < |sends| ==> !sends[k].msg.PlayerJoined? && !sends[k].msg.PlayerLeft?
  }

  lemma {:induction false} ImpersonalMet(r: Roster, p: PlayerID, sends: seq<Send>)
    requires Impersonal(sends)
    ensures Met(r, MessagesFor(p, sends)) == r
  {
    hide MessagesFor, Met;
    if sends == [] {
      MetNothing(r, p);
    } else {
      var front, last := sends[..|sends| - 1], sends[|sends| - 1];
      ImpersonalMet(r, p, front);
      assert sends == front + [last];
      MetSends(r, p, front, [last]);
      MetOne(r, p, last);
    }
  }

  // ----- a handshake

  predicate NamesAll(players: Players, ids: set<PlayerID>, r: Roster) {
    && r.Keys == ids
    && forall q :: q in ids ==>
         q in players && r[q] <= players[q].name && |r[q]| == (if |players[q].name| <= 30 then |players[q].name| else 30)
  }

  function Except(order: seq<PlayerID>, to: PlayerID): set<PlayerID> { set q | q in order && q != to }

  lemma ExceptMore(order: seq<PlayerID>, to: PlayerID)
    requires order != []
    ensures var front, last := order[..|order| - 1], order[|order| - 1];
            Except(order, to) == if last == to then Except(front, to) else Except(front, to) + {last}
  {
    assert order == order[..|order| - 1] + [order[|order| - 1]];
  }

  lemma IntroductionsMore(to: PlayerID, order: seq<PlayerID>, players: Players)
    requires order != [] && forall i :: 0 <= i < |order| ==> order[i] in players
    ensures var front, last := order[..|order| - 1], order[|order| - 1];
            Introductions(to, order, players) == Introductions(to, front, players) +
            if last == to then [] else [ToOne(to, PlayerJoined(last, NameOnWire(players[last].name)))]
  {}

  lemma {:induction false} IntroductionsMet(to: PlayerID, order: seq<PlayerID>, players: Players)
    requires forall i :: 0 <= i < |order| ==> order[i] in players
    ensures NamesAll(players, Except(order, to), Met(map[], MessagesFor(to, Introductions(to, order, players))))
  {
    hide MessagesFor, Met, Except, NamesAll, NameOnWire;
    if order == [] {
      MetNothing(map[], to);
      NamesNobody(players, to);
    } else {
      var front, last := order[..|order| - 1], order[|order| - 1];
      IntroductionsMet(to, front, players);
      ExceptMore(order, to);
      IntroductionsMore(to, order, players);
      var rest := Introductions(to, front, players);
      if last == to {
        assert rest + [] == rest;
      } else {
        var send := ToOne(to, PlayerJoined(last, NameOnWire(players[last].name)));
        MetSends(map[], to, rest, [send]);
        MetOne(Met(map[], MessagesFor(to, rest)), to, send);
        NamesOneMore(players, Except(front, to), Met(map[], MessagesFor(to, rest)), last);
      }
    }
  }

  lemma NamesOneMore(players: Players, ids: set<PlayerID>, r: Roster, q: PlayerID)
    requires NamesAll(players, ids, r) && q in players
    ensures NamesAll(players, ids + {q}, r[q := NameOnWire(players[q].name)])
  {}

  lemma NamesNobody(players: Players, to: PlayerID)
    ensures NamesAll(players, Except([], to), map[])
  {}

  lemma {:induction false} IntroductionsPrivate(p: PlayerID, to: PlayerID, order: seq<PlayerID>, players: Players)
    requires p != to && forall i :: 0 <= i < |order| ==> order[i] in players
    ensures MessagesFor(p, Introductions(to, order, players)) == []
  {
    if order != [] {
      IntroductionsPrivate(p, to, order[..|order| - 1], players);
    }
  }

  /** Impersonal messages, one about the newcomer, the introductions, impersonal messages. */
  lemma PartsMet(r: Roster, p: PlayerID, head: seq<Send>, joined: Send, intro: seq<Send>, tail: seq<Send>)
    requires Impersonal(head) && Impersonal(tail)
    ensures Met(r, MessagesFor(p, head + ([joined] + (intro + tail)))) ==
            Met(if Receives(p, joined) then Meet(r, joined.msg) else r, MessagesFor(p, intro))
  {
    hide MessagesFor, Met, Meet, Impersonal;
    MetSends(r, p, head, [joined] + (intro + tail));
    ImpersonalMet(r, p, head);
    MetSends(r, p, [joined], intro + tail);
    MetOne(r, p, joined);
    var r1 := Met(r, MessagesFor(p, [joined]));
    MetSends(r1, p, intro, tail);
    ImpersonalMet(Met(r1, MessagesFor(p, intro)), p, tail);
  }

  lemma WelcomeParts(s: Server, id: PlayerID, took: bool, es: seq<EntityID>, ps: seq<PlayerID>) returns (head: seq<Send>, tail: seq<Send>)
    requires id in s.players
    requires forall i :: 0 <= i < |es| ==> es[i] in s.entities
    requires forall i :: 0 <= i < |ps| ==> ps[i] in s.players
    ensures Impersonal(head) && Impersonal(tail)
    ensures Greeting(id, took) + Welcome(s, id, es, ps) ==
            head + ([ToOthers(id, PlayerJoined(id, NameOnWire(s.players[id].name)))] + (Introductions(id, ps, s.players) + tail))
  {
    SnapshotShows(id, es, s.entities, s.players);
    hide Introductions, Snapshot, NameOnWire;
    head := Greeting(id, took) + [ToOne(id, FactionAssignment(FactionSlot(id)))];
    tail := Snapshot(id, es, s.entities, s.players) + [ToAll(SystemMessage(s.players[id].name + " joined the game"))];
  }

  /** What a handshake says about people: the newcomer to the others, the others to the newcomer. */
  lemma WelcomeMet(s: Server, id: PlayerID, took: bool, es: seq<EntityID>, ps: seq<PlayerID>, p: PlayerID, r: Roster)
    requires id in s.players
    requires forall i :: 0 <= i < |es| ==> es[i] in s.entities
    requires forall i :: 0 <= i < |ps| ==> ps[i] in s.players
    ensures Met(r, MessagesFor(p, Greeting(id, took) + Welcome(s, id, es, ps))) ==
            if p == id then Met(r, MessagesFor(p, Introductions(id, ps, s.players)))
            else r[id := NameOnWire(s.players[id].name)]
  {
    hide Introductions, Greeting, Welcome, NameOnWire, MessagesFor, Met;
    var joined := ToOthers(id, PlayerJoined(id, NameOnWire(s.players[id].name)));
    var head, tail := WelcomeParts(s, id, took, es, ps);
    PartsMet(r, p, head, joined, Introductions(id, ps, s.players), tail);
    if p != id {
      IntroductionsPrivate(p, id, ps, s.players);
      NoMessages(r[id := NameOnWire(s.players[id].name)]);
    }
  }

  lemma NoMessages(r: Roster)
    ensures Met(r, []) == r
  {}

  lemma JoinedPlayers(s: Server, peer: Peer, name: string, loopback: bool)
    ensures Joined(s, peer, name, loopback).players ==
            s.players[s.nextPlayerId := Player(s.nextPlayerId, name, peer, Vec3(0.0, 0.0, 0.0), Zone(0, 0), loopback, false)]
    ensures Joined(s, peer, name, loopback).entities.Keys == s.entities.Keys
  {}

  lemma NamesNewcomer(s: Server, s': Server, id: PlayerID, player: Player, p: PlayerID, r: Roster)
    requires Names(s, p, r) && id !in s.players && p != id && s'.players == s.players[id := player]
    ensures Names(s', p, r[id := NameOnWire(player.name)])
  {}

  lemma NamesFromAll(s: Server, id: PlayerID, order: seq<PlayerID>, r: Roster)
    requires Enumerates(order, s.players.Keys) && id in s.players && NamesAll(s.players, Except(order, id), r)
    ensures Names(s, id, r)
  {
    assert Except(order, id) == s.players.Keys - {id};
  }

  lemma JoinNames(cfg: Config, s: Server, e: Event, p: PlayerID, r: Roster)
    requires Inv(s) && e.Joins? && Enabled(s, e) && Admits(cfg, s, e.peer, e.version)
    requires if p == s.nextPlayerId then r == map[] else p in s.players && Names(s, p, r)
    ensures Names(Step(cfg, s, e).server, p, Met(r, MessagesFor(p, Step(cfg, s, e).sends)))
  {
    hide Handshake, Joined, Greeting, Welcome, Sanitized, TakesOverHost, MessagesFor, Met, Introductions, Names, NamesAll,
      NameOnWire, Except;
    JoinStep(cfg, s, e);
    var name, id := Sanitized(e.raw), s.nextPlayerId;
    var s' := Joined(s, e.peer, name, e.loopback);
    JoinedPlayers(s, e.peer, name, e.loopback);
    WelcomeMet(s', id, TakesOverHost(s, e.loopback), e.entityOrder, e.playerOrder, p, r);
    if p == id {
      IntroductionsMet(id, e.playerOrder, s'.players);
      NamesFromAll(s', id, e.playerOrder, Met(r, MessagesFor(id, Introductions(id, e.playerOrder, s'.players))));
    } else {
      NamesNewcomer(s, s', id, s'.players[id], p, r);
    }
  }

  // ----- the other events

  lemma LeaveNames(s: Server, peer: Peer, order: seq<EntityID>, heir: PlayerID, p: PlayerID, r: Roster)
    requires Inv(s) && Enabled(s, Leaves(peer, order, heir)) && peer in s.peers && p in s.players && p != s.peers[peer]
    requires Names(s, p, r)
    ensures var f := Disconnect(s, peer, order, heir);
            Names(f.server, p, Met(r, MessagesFor(p, f.sends)))
  {
    hide OwnedIn, Released, MessagesFor, Met;
    var pid := s.peers[peer];
    var rest := s.players - {pid};
    FarewellMet(pid, s.players[pid].name, [], p, r);
    if pid == s.host && rest.Keys != {} {
      FarewellMet(pid, s.players[pid].name, Succession(heir, rest[heir].name), p, r);
    }
  }

  lemma FarewellMet(pid: PlayerID, name: string, succession: seq<Send>, p: PlayerID, r: Roster)
    requires p != pid && Impersonal(succession)
    ensures Met(r, MessagesFor(p, Farewell(pid, name, succession))) == r - {pid}
  {
    hide MessagesFor, Met;
    var left, rest := ToOthers(pid, PlayerLeft(pid)), succession + [ToAll(SystemMessage(name + " left the game"))];
    assert Farewell(pid, name, succession) == [left] + rest;
    MetSends(r, p, [left], rest);
    MetOne(r, p, left);
    ImpersonalMet(r - {pid}, p, rest);
  }

  lemma ActImpersonal(cfg: Config, s: Server, pid: PlayerID, pkt: Packet)
    requires PeersOk(s) && pid in s.players && WellOrdered(s, pkt)
    ensures Impersonal(Act(cfg, s, pid, pkt).sends)
  {
    hide InRange, DistSq, KnockedOut, Fatal, Moved, Tracked;
    if pkt.ZoneRequest? {
      ZoneReplyShows(pid, pkt.zone, pkt.order, s.entities);
    }
  }

  lemma PacketNames(cfg: Config, s: Server, pid: PlayerID, pkt: Packet, p: PlayerID, r: Roster)
    requires Inv(s) && pid in s.players && WellOrdered(s, pkt) && p in s.players && Names(s, p, r)
    ensures Names(Act(cfg, s, pid, pkt).server, p, Met(r, MessagesFor(p, Act(cfg, s, pid, pkt).sends)))
  {
    hide Act, MessagesFor, Met;
    ActFrame(cfg, s, pid, pkt);
    ActImpersonal(cfg, s, pid, pkt);
    ImpersonalMet(r, p, Act(cfg, s, pid, pkt).sends);
  }

  lemma StepNames(cfg: Config, s: Server, e: Event, p: PlayerID, r: Roster)
    requires Inv(s) && Enabled(s, e) && p in Step(cfg, s, e).server.players
    requires if p in s.players then Names(s, p, r) else r == map[]
    ensures Names(Step(cfg, s, e).server, p, Met(r, MessagesFor(p, Step(cfg, s, e).sends)))
  {
    hide Handshake, Disconnect, Act, Restart, Names, MessagesFor, Met, Sweep;
    match e
    case Joins(peer, version, _, _, _, _) =>
      if Admits(cfg, s, peer, version) {
        JoinStep(cfg, s, e);
        JoinNames(cfg, s, e, p, r);
      } else {
        RejectStep(cfg, s, e);
        ImpersonalMet(r, p, Step(cfg, s, e).sends);
      }
    case Leaves(peer, es, heir) =>
      if peer in s.peers {
        LeaveStep(cfg, s, e);
        LeaveNames(s, peer, es, heir, p, r);
      } else {
        IdleStep(cfg, s, e);
        MetNothing(r, p);
      }
    case Packets(peer, pkt) =>
      if peer in s.peers {
        ActFrame(cfg, s, s.peers[peer], pkt);
        PacketNames(cfg, s, s.peers[peer], pkt, p, r);
      } else {
        MetNothing(r, p);
      }
    case Sweeps(es) =>
      SweepRemovesNothing(s, es);
      MetNothing(r, p);
    case Restarts(es, ps) => EmptyAfterRestart(cfg, s, es, ps);
  }

  lemma EmptyAfterRestart(cfg: Config, s: Server, es: seq<EntityID>, ps: seq<PlayerID>)
    requires Enumerates(es, s.entities.Keys) && Enumerates(ps, s.players.Keys)
    ensures Restart(cfg, s, es, ps).players.Keys == {}
  {}

  lemma NextNames(cfg: Config, states: seq<Server>, events: seq<Event>, i: nat, p: PlayerID)
    requires IsRun(cfg, states, events) && i < |events| && Inv(states[i]) && p in states[i + 1].players
    requires p in states[i].players ==> Names(states[i], p, Met(map[], Log(cfg, states, events, i, p)))
    ensures Names(states[i + 1], p, Met(map[], Log(cfg, states, events, i + 1, p)))
  {
    hide Step, Names, MessagesFor, Met;
    var e := events[i];
    var log, sends := Log(cfg, states, events, i, p), Step(cfg, states[i], e).sends;
    MetConcat(map[], log, MessagesFor(p, sends));
    NoMessages(map[]);
    StepNames(cfg, states[i], e, p, Met(map[], log));
  }

  /** Over every run: what a client has been told about joining and leaving is exactly who else
      is connected, by name. */
  lemma {:induction false} RostersAgree(cfg: Config, states: seq<Server>, events: seq<Event>, i: nat, p: PlayerID)
    requires IsRun(cfg, states, events) && i < |states| && Inv(states[0]) && states[0].players.Keys == {}
    requires p in states[i].players
    ensures Names(states[i], p, Met(map[], Log(cfg, states, events, i, p)))
  {
    hide Names, Met, Log, Inv, Step;
    RunKeepsInv(cfg, states, events, i - 1);
    if p in states[i - 1].players {
      RostersAgree(cfg, states, events, i - 1, p);
    }
    NextNames(cfg, states, events, i - 1, p);
  }

  /** What a departure announces, and to whom: the others hear who left, everybody who takes over
      if the host did and somebody is left, and everybody the farewell. */
  lemma DepartureAnnounced(cfg: Config, s: Server, e: Event)
    requires Inv(s) && e.Leaves? && Enabled(s, e)
    ensures Step(cfg, s, e).sends ==
            if e.peer !in s.peers then []
            else
              var pid := s.peers[e.peer];
              [ToOthers(pid, PlayerLeft(pid))]
              + (if s.host == pid && s.players.Keys - {pid} != {}
                 then [ToAll(SystemMessage(s.players[e.heir].name + " is now the host")), ToAll(HostAssignment(e.heir))] else [])
              + [ToAll(SystemMessage(s.players[pid].name + " left the game"))]
  {
    hide OwnedIn, Released;
    if e.peer in s.peers {
      var pid := s.peers[e.peer];
      assert (s.players - {pid}).Keys == s.players.Keys - {pid};
    }
  }

  // ----- the player limit

  /** A new player, who is not ready and stands at the origin, its id, and its faction slot. */
  ghost predicate Registers(s: Server, e: Event, f: Effect)
    requires e.Joins?
  {
    var id := s.nextPlayerId;
    && id !in s.players && f.server.nextPlayerId == id + 1 && f.server.peers == s.peers[e.peer := id]
    && f.server.players == s.players[id := Player(id, Sanitized(e.raw), e.peer, Vec3(0.0, 0.0, 0.0), Zone(0, 0), e.loopback, false)]
    && |f.sends| > 0 && f.sends[0] == ToOne(id, HandshakeAck(id))
    && ToOne(id, FactionAssignment(if id == 0 then 0 else (id - 1) % 2)) in f.sends
  }

  lemma AdmittedRegisters(cfg: Config, s: Server, e: Event)
    requires Inv(s) && e.Joins? && Enabled(s, e) && Admits(cfg, s, e.peer, e.version)
    ensures Registers(s, e, Step(cfg, s, e))
  {
    hide Sanitized, Welcome, Joined, TakesOverHost, Handshake, Reclaimed;
    JoinStep(cfg, s, e);
    var name := Sanitized(e.raw);
    JoinedPlayers(s, e.peer, name, e.loopback);
    JoinedCounts(s, e.peer, name, e.loopback);
    FactionAssigned(Joined(s, e.peer, name, e.loopback), s.nextPlayerId, e.entityOrder, e.playerOrder);
  }

  lemma RefusedAnswer(cfg: Config, s: Server, e: Event)
    requires Inv(s) && e.Joins? && Enabled(s, e) && !Admits(cfg, s, e.peer, e.version)
    ensures Step(cfg, s, e) ==
            if e.peer in s.peers then Effect(s, [])
            else if |s.players| >= cfg.maxPlayers then Effect(s, [ToPeer(e.peer, HandshakeReject(0))])
            else Effect(s, [ToPeer(e.peer, HandshakeReject(1))])
  {}

  /** What a handshake is answered: nothing to a peer that has a player, a rejection with its
      reason to one that finds the server full or speaks another version, and otherwise a new
      player's id. */
  lemma HandshakeAnswered(cfg: Config, s: Server, e: Event)
    requires Inv(s) && e.Joins? && Enabled(s, e)
    ensures if e.peer in s.peers then Step(cfg, s, e) == Effect(s, [])
            else if |s.players| >= cfg.maxPlayers then Step(cfg, s, e) == Effect(s, [ToPeer(e.peer, HandshakeReject(0))])
            else if e.version != 1 then Step(cfg, s, e) == Effect(s, [ToPeer(e.peer, HandshakeReject(1))])
            else Registers(s, e, Step(cfg, s, e))
  {
    hide Handshake, Registers, Inv, Enabled;
    InvIsSound(s, e);
    if Admits(cfg, s, e.peer, e.version) {
      AdmittedRegisters(cfg, s, e);
    } else {
      RefusedAnswer(cfg, s, e);
    }
  }

  lemma InvIsSound(s: Server, e: Event)
    requires Inv(s)
    ensures PeersOk(s) && s.nextPlayerId > 0
  {}

  lemma JoinedCounts(s: Server, peer: Peer, name: string, loopback: bool)
    ensures Joined(s, peer, name, loopback).nextPlayerId == s.nextPlayerId + 1
    ensures Joined(s, peer, name, loopback).peers == s.peers[peer := s.nextPlayerId]
  {}

  lemma FactionAssigned(s: Server, id: PlayerID, es: seq<EntityID>, ps: seq<PlayerID>)
    requires id in s.players && id > 0
    requires forall i :: 0 <= i < |es| ==> es[i] in s.entities
    requires forall i :: 0 <= i < |ps| ==> ps[i] in s.players
    ensures ToOne(id, FactionAssignment((id - 1) % 2)) in Welcome(s, id, es, ps)
  {
    hide Snapshot, Introductions;
    assert Welcome(s, id, es, ps)[0] == ToOne(id, FactionAssignment((id - 1) % 2));
  }

  lemma StepKeepsLimit(cfg: Config, s: Server, e: Event)
    requires Inv(s) && Enabled(s, e) && |s.players| <= cfg.maxPlayers
    ensures |Step(cfg, s, e).server.players| <= cfg.maxPlayers
  {
    hide Act, Handshake, Disconnect, Restart;
    match e
    case Joins(_, _, _, _, _, _) =>
      HandshakeAnswered(cfg, s, e);
      SizeGrows(s.players, Step(cfg, s, e).server.players, s.nextPlayerId);
    case Leaves(peer, es, heir) =>
      if peer in s.peers {
        LeaveStep(cfg, s, e);
        SizeShrinks(s.players, s.peers[peer]);
      } else {
        IdleStep(cfg, s, e);
      }
    case Packets(peer, pkt) =>
      if peer in s.peers {
        ActFrame(cfg, s, s.peers[peer], pkt);
        SameSize(s.players, Step(cfg, s, e).server.players);
      }
    case Sweeps(es) => SweepRemovesNothing(s, es);
    case Restarts(es, ps) =>
      EmptyAfterRestart(cfg, s, es, ps);
      assert |Step(cfg, s, e).server.players.Keys| == 0;
  }

  lemma SizeGrows(a: Players, b: Players, id: PlayerID)
    ensures b.Keys == a.Keys + {id} && id !in a ==> |b| == |a| + 1
  {
    if b.Keys == a.Keys + {id} && id !in a {
      assert |b.Keys| == |a.Keys| + 1;
    }
  }

  lemma SizeShrinks(a: Players, id: PlayerID)
    requires id in a
    ensures |a - {id}| == |a| - 1
  {
    assert (a - {id}).Keys == a.Keys - {id};
    assert |a.Keys - {id}| == |a.Keys| - 1;
  }

  lemma SameSize(a: Players, b: Players)
    requires a.Keys == b.Keys
    ensures |a| == |b|
  {
    assert |a.Keys| == |b.Keys|;
  }

  /** The player limit holds in every state of every run. */
  lemma {:induction false} RunKeepsLimit(cfg: Config, states: seq<Server>, events: seq<Event>, i: nat)
    requires IsRun(cfg, states, events) && i < |states| && Inv(states[0]) && states[0].players.Keys == {}
    ensures |states[i].players| <= cfg.maxPlayers
  {
    hide Step, Inv;
    if i == 0 {
      assert |states[0].players.Keys| == 0;
    } else {
      RunKeepsLimit(cfg, states, events, i - 1);
      RunKeepsInv(cfg, states, events, i - 1);
      var e := events[i - 1];
      StepKeepsLimit(cfg, states[i - 1], e);
    }
  }

  // ----- readiness

  /** This event is a ready report of that player. */
  predicate Reports(s: Server, e: Event, p: PlayerID) {
    e.Packets? && e.pkt.Ready? && e.peer in s.peers && s.peers[e.peer] == p
  }

  predicate Readied(s: Server, p: PlayerID) { p in s.players && s.players[p].isReady }

  lemma StepReadies(cfg: Config, s: Server, e: Event, p: PlayerID)
    requires Inv(s) && Enabled(s, e) && p in Step(cfg, s, e).server.players
    ensures Readied(Step(cfg, s, e).server, p) <==> Readied(s, p) || Reports(s, e, p)
  {
    hide Handshake, Disconnect, Act, Restart, Sweep;
    match e
    case Joins(_, _, _, _, _, _) => HandshakeAnswered(cfg, s, e);
    case Leaves(peer, es, heir) =>
      if peer in s.peers {
        LeaveStep(cfg, s, e);
      } else {
        IdleStep(cfg, s, e);
      }
    case Packets(peer, pkt) =>
      if peer in s.peers {
        PacketReadies(cfg, s, s.peers[peer], pkt, p);
      }
    case Sweeps(es) => SweepRemovesNothing(s, es);
    case Restarts(es, ps) => EmptyAfterRestart(cfg, s, es, ps);
  }

  lemma SamePlayers(cfg: Config, s: Server, pid: PlayerID, pkt: Packet)
    requires PeersOk(s) && pid in s.players && WellOrdered(s, pkt)
    requires !pkt.PositionUpdate? && !pkt.SpawnRequest? && !pkt.Ready?
    ensures Act(cfg, s, pid, pkt).server.players == s.players
  {
    hide InRange, DistSq, KnockedOut, Fatal, Struck, ZoneReply;
  }

  lemma PacketReadies(cfg: Config, s: Server, pid: PlayerID, pkt: Packet, p: PlayerID)
    requires Inv(s) && pid in s.players && WellOrdered(s, pkt) && p in Act(cfg, s, pid, pkt).server.players
    ensures Readied(Act(cfg, s, pid, pkt).server, p) <==> Readied(s, p) || (pkt.Ready? && p == pid)
  {
    hide Moved, Tracked, Strike, Build, Mend, ZoneReply, Kill, KnockOut, Amend, Demolish, Despawn, OrderMove;
    if pkt.PositionUpdate? {
      TrackedReady(s.entities, s.players[pid], pkt.updates);
    } else if !pkt.SpawnRequest? && !pkt.Ready? {
      SamePlayers(cfg, s, pid, pkt);
    }
  }

  lemma {:induction false} TrackedReady(entities: Entities, player: Player, updates: seq<Placement>)
    ensures Tracked(entities, player, updates).isReady == player.isReady
  {
    if updates != [] {
      TrackedReady(entities, player, updates[1..]);
    }
  }

  lemma NextReadies(cfg: Config, states: seq<Server>, events: seq<Event>, i: nat, p: PlayerID)
    requires IsRun(cfg, states, events) && i < |events| && Inv(states[i]) && p in states[i + 1].players
    ensures Readied(states[i + 1], p) <==> Readied(states[i], p) || Reports(states[i], events[i], p)
  {
    hide Step, Readied, Reports;
    var e := events[i];
    StepReadies(cfg, states[i], e, p);
  }

  ghost predicate EverReported(states: seq<Server>, events: seq<Event>, j: nat, i: nat, p: PlayerID)
    requires i <= |events| < |states|
  {
    exists k {:trigger events[k]} :: j < k < i && Reports(states[k], events[k], p)
  }

  lemma ReportedMore(states: seq<Server>, events: seq<Event>, j: nat, i: nat, p: PlayerID)
    requires j + 1 < i <= |events| < |states|
    ensures EverReported(states, events, j, i, p) <==> EverReported(states, events, j, i - 1, p) || Reports(states[i - 1], events[i - 1], p)
  {
    hide Reports;
    if Reports(states[i - 1], events[i - 1], p) {
      var e := events[i - 1];
    }
  }

  /** In every state of every run a player is ready exactly when it has reported so since it
      joined. */
  lemma {:induction false} ReadyMeansReported(cfg: Config, states: seq<Server>, events: seq<Event>, i: nat, p: PlayerID)
    requires IsRun(cfg, states, events) && i < |states| && Inv(states[0]) && states[0].players.Keys == {}
    requires p in states[i].players
    ensures states[i].players[p].isReady <==> EverReported(states, events, JoinedAt(states, i, p), i, p)
  {
    hide Step, Inv, Reports, Follows, EverReported;
    var j := JoinedAt(states, i, p);
    RunKeepsInv(cfg, states, events, i - 1);
    NextReadies(cfg, states, events, i - 1, p);
    if p in states[i - 1].players {
      ReadyMeansReported(cfg, states, events, i - 1, p);
      ReportedMore(states, events, j, i, p);
    } else {
      NewcomerReports(cfg, states, events, i - 1, p);
    }
  }

  lemma NewcomerReports(cfg: Config, states: seq<Server>, events: seq<Event>, i: nat, p: PlayerID)
    requires IsRun(cfg, states, events) && i < |events| && p !in states[i].players
    ensures !Reports(states[i], events[i], p) && !EverReported(states, events, i, i + 1, p)
  {
    hide Step, Reports, Enabled;
    var e := events[i];
    NewcomerSilent(states[i], e, p);
  }

  lemma NewcomerSilent(s: Server, e: Event, p: PlayerID)
    requires PeersOk(s) && p !in s.players
    ensures !Reports(s, e, p)
  {}

  // ----- the announcement

  predicate Announces(sends: seq<Send>) { exists k :: 0 <= k < |sends| && sends[k].msg.AllPlayersReady? }

  /** This player reports for the first time, it is not alone, and everybody else has reported. */
  predicate LastToReport(s: Server, e: Event, p: PlayerID) {
    && Reports(s, e, p) && p in s.players && !s.players[p].isReady && |s.players| >= 2
    && forall q :: q in s.players && q != p ==> s.players[q].isReady
  }

  lemma ReadyAnnounced(cfg: Config, s: Server, e: Event, p: PlayerID)
    requires Inv(s) && Reports(s, e, p)
    ensures Step(cfg, s, e).sends == if LastToReport(s, e, p) then [ToAll(AllPlayersReady)] else []
  {
    var players := s.players[p := s.players[p].(isReady := true)];
    SameSize(s.players, players);
    assert AllReady(players) <==> forall q :: q in s.players && q != p ==> s.players[q].isReady;
  }

  lemma OthersSilent(cfg: Config, s: Server, e: Event)
    requires Inv(s) && Enabled(s, e) && (e.Packets? && e.peer in s.peers ==> !e.pkt.Ready?)
    ensures !Announces(Step(cfg, s, e).sends)
  {
    hide Handshake, Disconnect, Act, Restart, Sweep;
    match e
    case Joins(_, _, _, _, _, _) => JoinSilent(cfg, s, e);
    case Leaves(_, _, _) => LeaveSilent(cfg, s, e);
    case Packets(peer, pkt) =>
      if peer in s.peers {
        PacketSilent(cfg, s, s.peers[peer], pkt);
      }
    case Sweeps(es) => SweepRemovesNothing(s, es);
    case Restarts(_, _) =>
  }

  lemma PacketSilent(cfg: Config, s: Server, pid: PlayerID, pkt: Packet)
    requires PeersOk(s) && pid in s.players && WellOrdered(s, pkt) && !pkt.Ready?
    ensures !Announces(Act(cfg, s, pid, pkt).sends)
  {
    hide InRange, DistSq, KnockedOut, Fatal, Moved, Tracked, Struck, BodyPart;
    if pkt.ZoneRequest? {
      ZoneReplyShows(pid, pkt.zone, pkt.order, s.entities);
    }
  }

  lemma LeaveSilent(cfg: Config, s: Server, e: Event)
    requires Inv(s) && Enabled(s, e) && e.Leaves?
    ensures !Announces(Step(cfg, s, e).sends)
  {
    hide Left, Enumerates;
  }

  lemma JoinSilent(cfg: Config, s: Server, e: Event)
    requires Inv(s) && Enabled(s, e) && e.Joins?
    ensures !Announces(Step(cfg, s, e).sends)
  {
    hide Handshake, Greeting, Welcome, Sanitized, TakesOverHost;
    if Admits(cfg, s, e.peer, e.version) {
      JoinStep(cfg, s, e);
      WelcomeQuiet(Joined(s, e.peer, Sanitized(e.raw), e.loopback), s.nextPlayerId, TakesOverHost(s, e.loopback),
                   e.entityOrder, e.playerOrder);
    } else {
      RejectStep(cfg, s, e);
    }
  }

  lemma WelcomeQuiet(s: Server, id: PlayerID, took: bool, es: seq<EntityID>, ps: seq<PlayerID>)
    requires id in s.players
    requires forall i :: 0 <= i < |es| ==> es[i] in s.entities
    requires forall i :: 0 <= i < |ps| ==> ps[i] in s.players
    ensures !Announces(Greeting(id, took) + Welcome(s, id, es, ps))
  {
    hide Snapshot, Introductions;
    IntroductionsIntroduce(id, ps, s.players);
    SnapshotShows(id, es, s.entities, s.players);
  }

  /** The report of this player is its first and the last one missing. */
  ghost predicate Completes(states: seq<Server>, events: seq<Event>, i: nat, p: PlayerID)
    requires i < |events| < |states| && states[0].players.Keys == {}
  {
    && Reports(states[i], events[i], p) && p in states[i].players && |states[i].players| >= 2
    && !EverReported(states, events, JoinedAt(states, i, p), i, p)
    && forall q :: q in states[i].players && q != p ==> EverReported(states, events, JoinedAt(states, i, q), i, q)
  }

  lemma CompletesIsLast(cfg: Config, states: seq<Server>, events: seq<Event>, i: nat, p: PlayerID)
    requires IsRun(cfg, states, events) && i < |events| && Inv(states[0]) && states[0].players.Keys == {}
    ensures Completes(states, events, i, p) <==> LastToReport(states[i], events[i], p)
  {
    hide Step, Inv, EverReported, JoinedAt, Reports, IsRun;
    RunLength(cfg, states, events);
    forall q | q in states[i].players
      ensures states[i].players[q].isReady <==> EverReported(states, events, JoinedAt(states, i, q), i, q)
    {
      ReadyMeansReported(cfg, states, events, i, q);
    }
  }

  lemma RunLength(cfg: Config, states: seq<Server>, events: seq<Event>)
    requires IsRun(cfg, states, events)
    ensures |states| == |events| + 1
  {}

  lemma AnnouncedByLast(cfg: Config, s: Server, e: Event)
    requires Inv(s) && Enabled(s, e)
    ensures Announces(Step(cfg, s, e).sends) <==> exists p :: LastToReport(s, e, p)
  {
    hide Step, Announces, LastToReport;
    if e.Packets? && e.peer in s.peers && e.pkt.Ready? {
      ReadyAnnounced(cfg, s, e, s.peers[e.peer]);
      AnnounceOne();
      forall p | LastToReport(s, e, p) ensures p == s.peers[e.peer] {
        LastReports(s, e, p);
      }
    } else {
      OthersSilent(cfg, s, e);
      forall p ensures !LastToReport(s, e, p) {
        if LastToReport(s, e, p) { LastReports(s, e, p); }
      }
    }
  }

  lemma LastReports(s: Server, e: Event, p: PlayerID)
    requires LastToReport(s, e, p)
    ensures e.Packets? && e.pkt.Ready? && e.peer in s.peers && s.peers[e.peer] == p
  {}

  /** Over every run: all players are declared ready by an event exactly when that event is the
      first report of a player who is not alone, and everybody else connected has reported since
      joining. */
  lemma DeclaredReady(cfg: Config, states: seq<Server>, events: seq<Event>, i: nat)
    requires IsRun(cfg, states, events) && i < |events| && Inv(states[0]) && states[0].players.Keys == {}
    ensures PeersOk(states[i]) && Enabled(states[i], events[i])
    ensures Announces(Step(cfg, states[i], events[i]).sends) <==> exists p :: Completes(states, events, i, p)
  {
    hide Step, Inv, Completes, LastToReport, Announces;
    var e := events[i];
    RunKeepsInv(cfg, states, events, i);
    AnnouncedByLast(cfg, states[i], e);
    forall p ensures Completes(states, events, i, p) <==> LastToReport(states[i], e, p) {
      CompletesIsLast(cfg, states, events, i, p);
    }
  }

  lemma PeersArePlayers(s: Server, peer: Peer)
    requires Inv(s) && peer in s.peers
    ensures s.peers[peer] in s.players
  {}

  lemma AnnounceOne()
    ensures Announces([ToAll(AllPlayersReady)]) && !Announces([])
  {
    assert [ToAll(AllPlayersReady)][0].msg.AllPlayersReady?;
  }

  // ----- zones

  predicate Filed(s: Server) { forall id :: id in s.entities ==> s.entities[id].zone == ZoneOf(s.entities[id].position) }

  lemma {:induction false} MovedFiled(entities: Entities, pid: PlayerID, updates: seq<Placement>)
    requires forall id :: id in entities ==> entities[id].zone == ZoneOf(entities[id].position)
    ensures forall id :: id in Moved(entities, pid, updates) ==>
              Moved(entities, pid, updates)[id].zone == ZoneOf(Moved(entities, pid, updates)[id].position)
  {
    hide ZoneOf, InRange;
    if updates != [] {
      MovedFiled(entities, pid, updates[..|updates| - 1]);
    }
  }

  lemma AmendedFiles(cfg: Config, s: Server, pid: PlayerID, pkt: Packet)
    requires PeersOk(s) && pid in s.players && WellOrdered(s, pkt) && Filed(s)
    requires pkt.Equip? || pkt.ReportLimbs? || pkt.ReportStatus? || pkt.Repair? || pkt.Dismantle? || pkt.DespawnRequest?
    ensures Filed(Act(cfg, s, pid, pkt).server)
  {
    hide ZoneOf;
  }

  lemma OthersFile(cfg: Config, s: Server, pid: PlayerID, pkt: Packet)
    requires PeersOk(s) && pid in s.players && WellOrdered(s, pkt) && Filed(s) && !pkt.PositionUpdate?
    requires !pkt.Equip? && !pkt.ReportLimbs? && !pkt.ReportStatus? && !pkt.Repair? && !pkt.Dismantle? && !pkt.DespawnRequest?
    ensures Filed(Act(cfg, s, pid, pkt).server)
  {
    hide ZoneOf, InRange, DistSq, KnockedOut, Fatal, Struck, SpawnMsg;
  }

  lemma PacketFiles(cfg: Config, s: Server, pid: PlayerID, pkt: Packet)
    requires PeersOk(s) && pid in s.players && WellOrdered(s, pkt) && Filed(s)
    ensures Filed(Act(cfg, s, pid, pkt).server)
  {
    hide ZoneOf, Moved, Tracked, Strike, Build, Spawn, Mend, ZoneReply, Kill, KnockOut, Amend, Demolish, Despawn, OrderMove, MarkReady;
    if pkt.PositionUpdate? {
      MovedFiled(s.entities, pid, pkt.updates);
    } else if pkt.Equip? || pkt.ReportLimbs? || pkt.ReportStatus? || pkt.Repair? || pkt.Dismantle? || pkt.DespawnRequest? {
      AmendedFiles(cfg, s, pid, pkt);
    } else {
      OthersFile(cfg, s, pid, pkt);
    }
  }

  lemma {:induction false} LoadedFiled(cfg: Config, rs: seq<Record>)
    ensures forall id :: id in LoadRecords(cfg, rs).entities ==>
              LoadRecords(cfg, rs).entities[id].zone == ZoneOf(LoadRecords(cfg, rs).entities[id].position)
  {
    hide ZoneOf, InRange;
    if rs != [] {
      LoadedFiled(cfg, rs[..|rs| - 1]);
    }
  }

  lemma StepFiles(cfg: Config, s: Server, e: Event)
    requires Inv(s) && Enabled(s, e) && Filed(s)
    ensures Filed(Step(cfg, s, e).server)
  {
    hide Handshake, Disconnect, Act, LoadRecords, ZoneOf;
    match e
    case Joins(peer, version, _, _, _, _) =>
      if Admits(cfg, s, peer, version) {
        JoinStep(cfg, s, e);
      } else {
        RejectStep(cfg, s, e);
      }
    case Leaves(peer, es, heir) =>
      if peer in s.peers {
        LeaveStep(cfg, s, e);
      } else {
        IdleStep(cfg, s, e);
      }
    case Packets(peer, pkt) =>
      if peer in s.peers {
        PacketFiles(cfg, s, s.peers[peer], pkt);
      }
    case Sweeps(es) => SweepRemovesNothing(s, es);
    case Restarts(es, ps) => LoadedFiled(cfg, Records(es, s.entities));
  }

  /** In every state of every run each entity is filed under the zone its position is in. */
  lemma {:induction false} RunFiles(cfg: Config, states: seq<Server>, events: seq<Event>, i: nat)
    requires IsRun(cfg, states, events) && i < |states| && Inv(states[0]) && Filed(states[0])
    ensures Filed(states[i])
  {
    hide Step, Inv, Filed;
    if i > 0 {
      RunFiles(cfg, states, events, i - 1);
      RunKeepsInv(cfg, states, events, i - 1);
      var e := events[i - 1];
      StepFiles(cfg, states[i - 1], e);
    }
  }
}
