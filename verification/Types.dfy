/** The values the multiplayer server keeps and sends: entities, players, and the
    messages that go out to the clients. Floats are idealised as reals and the
    32-bit identifiers as naturals that do not wrap. */
module Types {

  datatype Option<T> = None | Some(value: T)

  type EntityID = nat
  type PlayerID = nat

  /** A transport-level connection, which may or may not have shaken hands. */
  type Peer = nat

  const PROTOCOL_VERSION := 1
  const MAX_NAME_LENGTH := 31
  const MAX_SYNC_ENTITIES := 2048
  const ZONE_SIZE := 750.0
  const POSITION_LIMIT := 1000000.0
  const PARTS := 7
  const EFFECTS := 5
  const SLOTS := 14

  // Indices of the two vital body parts.
  const HEAD := 0
  const CHEST := 1

  datatype Vec3 = Vec3(x: real, y: real, z: real)
  datatype Quat = Quat(w: real, x: real, y: real, z: real)
  datatype Zone = Zone(x: int, y: int)

  const ORIGIN := Vec3(0.0, 0.0, 0.0)

  type Parts = s: seq<real> | |s| == PARTS witness seq(PARTS, _ => 100.0)
  type Effects = s: seq<nat> | |s| == EFFECTS witness seq(EFFECTS, _ => 0)
  type Slots = s: seq<nat> | |s| == SLOTS witness seq(SLOTS, _ => 0)

  const FULL_HEALTH: Parts := [100.0, 100.0, 100.0, 100.0, 100.0, 100.0, 100.0]
  const NO_EFFECTS: Effects := [0, 0, 0, 0, 0]
  const NO_ITEMS: Slots := [0, 0, 0, 0, 0, 0, 0, 0, 0, 0, 0, 0, 0, 0]

  function Abs(r: real): real { if r < 0.0 then -r else r }

  /** The coordinate check that updates, builds, snapshots and loads all apply. */
  predicate InRange(v: Vec3) {
    Abs(v.x) <= POSITION_LIMIT && Abs(v.y) <= POSITION_LIMIT && Abs(v.z) <= POSITION_LIMIT
  }

  function DistSq(a: Vec3, b: Vec3): real {
    (a.x - b.x) * (a.x - b.x) + (a.y - b.y) * (a.y - b.y) + (a.z - b.z) * (a.z - b.z)
  }

  function ZoneOf(v: Vec3): Zone {
    Zone((v.x / ZONE_SIZE).Floor, (v.z / ZONE_SIZE).Floor)
  }

  predicate Adjacent(a: Zone, b: Zone) {
    -1 <= a.x - b.x <= 1 && -1 <= a.y - b.y <= 1
  }

  datatype Authority = Nobody | ServerSide | PlayerSide | Transferring

  const BUILDING := 3
  const TURRET := 6

  /** The fields of an entity that no ownership, host or combat rule depends on. */
  datatype Detail = Detail(
    kind: nat, templateId: nat, factionId: nat, templateName: string,
    limbHealth: Parts, statusEffects: Effects, equipment: Slots,
    animState: nat, moveSpeed: nat, flags: nat, buildProgress: real)

  datatype Entity = Entity(
    id: EntityID, owner: PlayerID, authority: Authority, alive: bool,
    position: Vec3, rotation: Quat, zone: Zone, health: Parts, detail: Detail)

  type Entities = map<EntityID, Entity>

  datatype Player = Player(
    id: PlayerID, name: string, peer: Peer, position: Vec3, zone: Zone,
    isLoopback: bool, isReady: bool)

  type Players = map<PlayerID, Player>

  /** What the environment fixes before a run: the player limit and the authority
      that a newly constructed entity starts with. */
  datatype Config = Config(maxPlayers: nat, authority: Authority)

  datatype Msg =
    | HandshakeAck(playerId: PlayerID)
    | HandshakeReject(code: nat)
    | HostAssignment(host: PlayerID)
    | FactionAssignment(slot: nat)
    | PlayerJoined(playerId: PlayerID, name: string)
    | PlayerLeft(playerId: PlayerID)
    | SystemMessage(text: string)
    | AllPlayersReady
    | EntitySpawn(id: EntityID, owner: PlayerID, alive: bool, kind: nat, templateId: nat,
                  factionId: nat, templateName: string, position: Vec3, rotation: Quat, health: Parts)
    | EntityDespawn(id: EntityID, reason: nat)
    | BuildPlaced(id: EntityID, templateId: nat, position: Vec3, rotation: Quat, builder: PlayerID)
    | BuildDestroyed(id: EntityID, reason: nat)
    | BuildProgress(id: EntityID, progress: real)
    | EquipmentUpdate(id: EntityID, slot: nat, item: nat)
    | LimbHealth(id: EntityID, limbs: Parts)
    | StatusEffect(id: EntityID, effect: nat, active: nat)
    | MoveCommand(id: EntityID, target: Vec3)
    | CombatHit(attacker: EntityID, victim: EntityID, part: nat, cut: real, blunt: real,
                resultHealth: real, wasBlocked: bool, wasKO: bool)
    | CombatKO(victim: EntityID, attacker: EntityID, part: nat, resultHealth: real)
    | CombatDeath(victim: EntityID, killer: EntityID)

  /** One send: to every client, to every client but one, to one client, or to a
      peer that has not shaken hands. */
  datatype Send =
    | ToAll(msg: Msg)
    | ToOthers(except: PlayerID, msg: Msg)
    | ToOne(to: PlayerID, msg: Msg)
    | ToPeer(peer: Peer, msg: Msg)

  predicate Receives(p: PlayerID, s: Send) {
    s.ToAll? || (s.ToOthers? && s.except != p) || (s.ToOne? && s.to == p)
  }

  /** The messages of a list of sends that one client receives, in order. */
  function MessagesFor(p: PlayerID, sends: seq<Send>): seq<Msg> {
    if sends == [] then []
    else
      var rest := MessagesFor(p, sends[..|sends| - 1]);
      var last := sends[|sends| - 1];
      if Receives(p, last) then rest + [last.msg] else rest
  }

  lemma {:induction false} MessagesForConcat(p: PlayerID, a: seq<Send>, b: seq<Send>)
    ensures MessagesFor(p, a + b) == MessagesFor(p, a) + MessagesFor(p, b)
  {
    if b == [] {
      assert a + b == a;
    } else {
      var front := b[..|b| - 1];
      assert (a + b)[..|a + b| - 1] == a + front;
      MessagesForConcat(p, a, front);
    }
  }

  /** An iteration order of an unordered map: every key once. */
  predicate Enumerates<K(==)>(order: seq<K>, keys: set<K>) {
    && (forall i :: 0 <= i < |order| ==> order[i] in keys)
    && (forall k :: k in keys ==> k in order)
    && (forall i, j :: 0 <= i < j < |order| ==> order[i] != order[j])
  }

  /** The keys of an iteration order that satisfy a test, in that order. */
  function Select<K(!new)>(order: seq<K>, test: K -> bool): (r: seq<K>)
    ensures forall k :: k in r <==> k in order && test(k)
  {
    if order == [] then []
    else
      var rest := Select(order[..|order| - 1], test);
      var last := order[|order| - 1];
      assert order == order[..|order| - 1] + [last];
      if test(last) then rest + [last] else rest
  }

  lemma {:induction false} SelectNone<K(!new)>(order: seq<K>, test: K -> bool)
    requires forall k :: k in order ==> !test(k)
    ensures Select(order, test) == []
  {
    if order != [] {
      var front := order[..|order| - 1];
      assert forall k :: k in front ==> k in order;
      SelectNone(front, test);
    }
  }

  lemma {:induction false} SelectDistinct<K(!new)>(order: seq<K>, test: K -> bool)
    requires forall i, j :: 0 <= i < j < |order| ==> order[i] != order[j]
    ensures forall i, j :: 0 <= i < j < |Select(order, test)| ==>
      Select(order, test)[i] != Select(order, test)[j]
  {
    if order != [] {
      SelectDistinct(order[..|order| - 1], test);
      var rest := Select(order[..|order| - 1], test);
      var last := order[|order| - 1];
      assert last !in order[..|order| - 1];
      assert last !in rest;
    }
  }

  /** These positions, in order, are exactly the ones below a bound that pass a test. */
  ghost predicate Lists(idx: seq<nat>, bound: nat, test: nat -> bool) {
    && (forall i, j :: 0 <= i < j < |idx| ==> idx[i] < idx[j])
    && (forall i :: 0 <= i < |idx| ==> idx[i] < bound && test(idx[i]))
    && (forall n: nat :: n < bound && test(n) ==> n in idx)
  }

  /** The elements of a list at these positions. */
  ghost predicate Reads<T>(part: seq<T>, whole: seq<T>, idx: seq<nat>) {
    |part| == |idx| && forall k :: 0 <= k < |idx| ==> idx[k] < |whole| && part[k] == whole[idx[k]]
  }

  /** This part of a list is what passes a test, by position, in order. */
  ghost predicate Picks<T>(part: seq<T>, whole: seq<T>, test: nat -> bool) {
    exists idx: seq<nat> :: Lists(idx, |whole|, test) && Reads(part, whole, idx)
  }

  lemma PicksMore<T>(part: seq<T>, whole: seq<T>, test: nat -> bool, x: T)
    requires Picks(part, whole, test)
    ensures Picks(if test(|whole|) then part + [x] else part, whole + [x], test)
  {
    var idx: seq<nat> :| Lists(idx, |whole|, test) && Reads(part, whole, idx);
    var n: nat := |whole|;
    if test(n) {
      ListsMore(idx, n, test);
      assert Reads(part + [x], whole + [x], idx + [n]);
      assert Lists(idx + [n], |whole + [x]|, test);
    } else {
      ListsNoMore(idx, n, test);
      assert Reads(part, whole + [x], idx) && Lists(idx, |whole + [x]|, test);
    }
  }

  lemma ListsMore(idx: seq<nat>, n: nat, test: nat -> bool)
    requires Lists(idx, n, test) && test(n)
    ensures Lists(idx + [n], n + 1, test)
  {
    forall m: nat | m < n + 1 && test(m) ensures m in idx + [n] {
      assert m < n ==> m in idx;
    }
  }

  lemma ListsNoMore(idx: seq<nat>, n: nat, test: nat -> bool)
    requires Lists(idx, n, test) && !test(n)
    ensures Lists(idx, n + 1, test)
  {}

  lemma PicksNothing<T>(test: nat -> bool)
    ensures Picks<T>([], [], test)
  {
    assert Lists([], 0, test) && Reads<T>([], [], []);
  }
}
