/** The dedicated server as a step function. Every connect, packet, disconnect and
    sweep runs under one lock, so each is one atomic step that yields the next
    server state and the list of sends it made. The choices the code leaves to
    its environment (hash-map iteration order, random draws) are arguments. */
module ServerModel {
  import opened Types
  import opened Combat

  datatype Server = Server(
    players: Players,
    peers: map<Peer, PlayerID>,
    entities: Entities,
    saved: map<string, seq<EntityID>>,
    nextPlayerId: PlayerID,
    nextEntityId: EntityID,
    host: PlayerID)

  const FRESH := Server(map[], map[], map[], map[], 1, 1, 0)

  datatype Effect = Effect(server: Server, sends: seq<Send>)

  // ----- authority

  /** Whether a client may command an entity: it exists, lives, is under player
      authority, and is the client's own. */
  predicate CanCommand(pid: PlayerID, id: EntityID, entities: Entities) {
    && id in entities
    && entities[id].alive
    && entities[id].authority == PlayerSide
    && entities[id].owner == pid
  }

  // ----- joining

  predicate Printable(c: char) { 32 as char <= c < 127 as char }

  /** Where a raw name ends: at the length limit or the first NUL. */
  function NameEnd(raw: string, i: nat): (n: nat)
    requires i <= |raw|
    ensures i <= n <= |raw|
    decreases |raw| - i
  {
    if i == |raw| || i >= MAX_NAME_LENGTH || raw[i] == 0 as char then i else NameEnd(raw, i + 1)
  }

  function Filtered(s: string): string {
    if s == "" then ""
    else Filtered(s[..|s| - 1]) + (if Printable(s[|s| - 1]) then [s[|s| - 1]] else "")
  }

  /** The name a player gets: the printable part of what it sent, or a default. */
  function Sanitized(raw: string): string {
    var s := Filtered(raw[..NameEnd(raw, 0)]);
    if s == "" then "Player" else s
  }

  predicate Reclaimable(s: Server, name: string, id: EntityID) {
    name in s.saved && id in s.saved[name] && id in s.entities && s.entities[id].owner == 0
  }

  /** The entities after a player has taken back what its saved record lists. */
  function Reclaimed(s: Server, name: string, pid: PlayerID): Entities {
    map id | id in s.entities ::
      if Reclaimable(s, name, id) then s.entities[id].(owner := pid) else s.entities[id]
  }

  predicate TakesOverHost(s: Server, loopback: bool) {
    s.host == 0 || (loopback && s.host in s.players && !s.players[s.host].isLoopback)
  }

  function SpawnMsg(e: Entity): Msg {
    var d := e.detail;
    EntitySpawn(e.id, e.owner, e.alive, d.kind, d.templateId, d.factionId,
                if |d.templateName| <= 255 then d.templateName else d.templateName[..255],
                e.position, e.rotation, e.health)
  }

  function EquipmentSends(to: PlayerID, e: Entity, n: nat): seq<Send>
    requires n <= SLOTS
  {
    if n == 0 then []
    else EquipmentSends(to, e, n - 1) +
         (if e.detail.equipment[n - 1] != 0
          then [ToOne(to, EquipmentUpdate(e.id, n - 1, e.detail.equipment[n - 1]))] else [])
  }

  predicate InSnapshot(e: Entity, players: Players) {
    (e.owner == 0 || e.owner in players) && InRange(e.position)
  }

  /** The snapshot for a joining client: orphans and bad positions are skipped. */
  function Snapshot(to: PlayerID, order: seq<EntityID>, entities: Entities, players: Players): seq<Send>
    requires forall i :: 0 <= i < |order| ==> order[i] in entities
  {
    if order == [] then []
    else
      var rest := Snapshot(to, order[..|order| - 1], entities, players);
      var e := entities[order[|order| - 1]];
      if InSnapshot(e, players) then rest + [ToOne(to, SpawnMsg(e))] + EquipmentSends(to, e, SLOTS)
      else rest
  }

  /** An introduction has room for one character less than a name may have. */
  function NameOnWire(name: string): string {
    if |name| < MAX_NAME_LENGTH then name else name[..MAX_NAME_LENGTH - 1]
  }

  function Introductions(to: PlayerID, order: seq<PlayerID>, players: Players): seq<Send>
    requires forall i :: 0 <= i < |order| ==> order[i] in players
  {
    if order == [] then []
    else
      var rest := Introductions(to, order[..|order| - 1], players);
      var p := order[|order| - 1];
      if p == to then rest else rest + [ToOne(to, PlayerJoined(p, NameOnWire(players[p].name)))]
  }

  function NewPlayer(s: Server, peer: Peer, name: string, loopback: bool): Player {
    Player(s.nextPlayerId, name, peer, ORIGIN, Zone(0, 0), loopback, false)
  }

  function Joined(s: Server, peer: Peer, name: string, loopback: bool): Server {
    var id := s.nextPlayerId;
    Server(
      s.players[id := NewPlayer(s, peer, name, loopback)],
      s.peers[peer := id],
      Reclaimed(s, name, id),
      s.saved - {name},
      id + 1, s.nextEntityId,
      if TakesOverHost(s, loopback) then id else s.host)
  }

  predicate Admits(cfg: Config, s: Server, peer: Peer, version: nat) {
    peer !in s.peers && |s.players| < cfg.maxPlayers && version == PROTOCOL_VERSION
  }

  function Handshake(cfg: Config, s: Server, peer: Peer, version: nat, raw: string, loopback: bool,
                     entityOrder: seq<EntityID>, playerOrder: seq<PlayerID>): Effect
    requires Enumerates(entityOrder, s.entities.Keys)
    requires Enumerates(playerOrder, s.players.Keys + {s.nextPlayerId})
  {
    if peer in s.peers then Effect(s, [])
    else if |s.players| >= cfg.maxPlayers then Effect(s, [ToPeer(peer, HandshakeReject(0))])
    else if version != PROTOCOL_VERSION then Effect(s, [ToPeer(peer, HandshakeReject(1))])
    else
      var name := Sanitized(raw);
      var id := s.nextPlayerId;
      var s' := Joined(s, peer, name, loopback);
      Effect(s', Greeting(id, TakesOverHost(s, loopback)) + Welcome(s', id, entityOrder, playerOrder))
  }

  /** The ack to a new player and, if it takes over as host, the news to everybody. */
  function Greeting(id: PlayerID, takesOver: bool): seq<Send> {
    [ToOne(id, HandshakeAck(id))] + (if takesOver then [ToAll(HostAssignment(id))] else [])
  }

  /** The rest of a handshake: faction, introductions both ways, the snapshot. */
  function Welcome(s: Server, id: PlayerID, entityOrder: seq<EntityID>, playerOrder: seq<PlayerID>): seq<Send>
    requires id in s.players
    requires forall i :: 0 <= i < |entityOrder| ==> entityOrder[i] in s.entities
    requires forall i :: 0 <= i < |playerOrder| ==> playerOrder[i] in s.players
  {
    [ToOne(id, FactionAssignment(FactionSlot(id))), ToOthers(id, PlayerJoined(id, NameOnWire(s.players[id].name)))]
    + Introductions(id, playerOrder, s.players)
    + Snapshot(id, entityOrder, s.entities, s.players)
    + [ToAll(SystemMessage(s.players[id].name + " joined the game"))]
  }

  function FactionSlot(id: PlayerID): nat { if id == 0 then 0 else (id - 1) % 2 }

  // ----- leaving

  /** The entities after everything a player owned has been set unowned. */
  function Released(entities: Entities, pid: PlayerID): Entities {
    map id | id in entities ::
      if entities[id].owner == pid then entities[id].(owner := 0) else entities[id]
  }

  function OwnedBy(entities: Entities, pid: PlayerID): (r: set<EntityID>) {
    set id | id in entities && entities[id].owner == pid
  }

  function OwnedIn(order: seq<EntityID>, entities: Entities, pid: PlayerID): (r: seq<EntityID>)
    ensures forall id :: id in r <==> id in order && id in entities && entities[id].owner == pid
  {
    Select(order, id => id in entities && entities[id].owner == pid)
  }

  function Left(s: Server, pid: PlayerID, entityOrder: seq<EntityID>, heir: PlayerID): Server
    requires pid in s.players
  {
    var owned := OwnedIn(entityOrder, s.entities, pid);
    var rest := s.players - {pid};
    Server(
      rest,
      s.peers - {s.players[pid].peer},
      Released(s.entities, pid),
      if owned == [] then s.saved else s.saved[s.players[pid].name := owned],
      s.nextPlayerId, s.nextEntityId,
      if pid != s.host then s.host else if rest.Keys == {} then 0 else heir)
  }

  /** A disconnect. `heir` is the first remaining player in iteration order. */
  function Disconnect(s: Server, peer: Peer, entityOrder: seq<EntityID>, heir: PlayerID): Effect
    requires Enumerates(entityOrder, s.entities.Keys)
    requires peer in s.peers && s.peers[peer] in s.players ==>
      s.players[s.peers[peer]].peer == peer &&
      (s.players.Keys - {s.peers[peer]} != {} ==> heir in s.players.Keys - {s.peers[peer]})
  {
    if peer !in s.peers then Effect(s, [])
    else if s.peers[peer] !in s.players then Effect(s.(peers := s.peers - {peer}), [])
    else
      var pid := s.peers[peer];
      var s' := Left(s, pid, entityOrder, heir);
      Effect(s', Farewell(pid, s.players[pid].name,
                          if pid == s.host && s'.players.Keys != {} then Succession(heir, s'.players[heir].name) else []))
  }

  function Farewell(pid: PlayerID, name: string, succession: seq<Send>): seq<Send> {
    [ToOthers(pid, PlayerLeft(pid))] + succession + [ToAll(SystemMessage(name + " left the game"))]
  }

  function Succession(heir: PlayerID, name: string): seq<Send> {
    [ToAll(SystemMessage(name + " is now the host")), ToAll(HostAssignment(heir))]
  }

  // ----- the orphan sweep

  predicate Orphan(s: Server, id: EntityID) {
    id in s.entities && s.entities[id].owner != 0 && s.entities[id].owner !in s.players
  }

  function DespawnSends(ids: seq<EntityID>, reason: nat): seq<Send> {
    seq(|ids|, i requires 0 <= i < |ids| => ToAll(EntityDespawn(ids[i], reason)))
  }

  function Orphans(s: Server, order: seq<EntityID>): (r: seq<EntityID>)
    ensures forall id :: id in r <==> id in order && Orphan(s, id)
  {
    Select(order, id => Orphan(s, id))
  }

  function Sweep(s: Server, order: seq<EntityID>): Effect
    requires Enumerates(order, s.entities.Keys)
  {
    Effect(s.(entities := s.entities - set id | id in s.entities && Orphan(s, id)),
           DespawnSends(Orphans(s, order), 2))
  }

  // ----- packets from a connected player

  datatype Placement = Placement(
    id: EntityID, position: Vec3, rotation: Quat, animState: nat, moveSpeed: nat, flags: nat)

  datatype Packet =
    | PositionUpdate(updates: seq<Placement>)
    | MoveOrder(entity: EntityID, destination: Vec3)
    | AttackIntent(attacker: EntityID, target: EntityID, attackType: nat, roll: Roll)
    | BuildRequest(templateId: nat, position: Vec3, rotation: Quat)
    | SpawnRequest(kind: nat, templateId: nat, position: Vec3, rotation: Quat, factionId: nat,
                   templateName: string, health: Parts, alive: bool)
    | DespawnRequest(entity: EntityID, reason: nat)
    | Equip(entity: EntityID, slot: nat, item: nat)
    | ZoneRequest(zone: Zone, order: seq<EntityID>)
    | Dismantle(building: EntityID)
    | Repair(building: EntityID, amount: real)
    | ReportKO(victim: EntityID, attacker: EntityID, reason: nat, chestHealth: real)
    | ReportDeath(victim: EntityID, killer: EntityID)
    | ReportLimbs(entity: EntityID, limbs: Parts)
    | ReportStatus(entity: EntityID, effect: nat, active: nat)
    | Ready

  function Placed(e: Entity, u: Placement): Entity {
    e.(position := u.position, rotation := u.rotation, zone := ZoneOf(u.position),
       detail := e.detail.(animState := u.animState, moveSpeed := u.moveSpeed, flags := u.flags))
  }

  predicate Accepted(entities: Entities, pid: PlayerID, u: Placement) {
    InRange(u.position) && CanCommand(pid, u.id, entities)
  }

  /** The entities after a batch of position updates. */
  function Moved(entities: Entities, pid: PlayerID, updates: seq<Placement>): Entities {
    if updates == [] then entities
    else
      var before := Moved(entities, pid, updates[..|updates| - 1]);
      var u := updates[|updates| - 1];
      if Accepted(before, pid, u) then before[u.id := Placed(before[u.id], u)] else before
  }

  /** The player after a batch: the first accepted update fixes its position. */
  function Tracked(entities: Entities, player: Player, updates: seq<Placement>): Player {
    if updates == [] then player
    else if Accepted(entities, player.id, updates[0])
    then player.(position := updates[0].position, zone := ZoneOf(updates[0].position))
    else Tracked(entities, player, updates[1..])
  }

  function MoveEntities(s: Server, pid: PlayerID, updates: seq<Placement>): Effect
    requires pid in s.players && s.players[pid].id == pid
  {
    Effect(s.(entities := Moved(s.entities, pid, updates),
              players := s.players[pid := Tracked(s.entities, s.players[pid], updates)]), [])
  }

  function OrderMove(s: Server, pid: PlayerID, id: EntityID, target: Vec3): Effect {
    Effect(s, if CanCommand(pid, id, s.entities) then [ToOthers(pid, MoveCommand(id, target))] else [])
  }

  function Reach(attackType: nat): real { if attackType == 1 then 150.0 else 15.0 }

  predicate CanStrike(s: Server, pid: PlayerID, attacker: EntityID, target: EntityID, attackType: nat) {
    && CanCommand(pid, attacker, s.entities)
    && target in s.entities && s.entities[target].alive
    && DistSq(s.entities[attacker].position, s.entities[target].position)
       <= Reach(attackType) * Reach(attackType)
  }

  function Hit(e: Entity, roll: Roll): Entity {
    e.(health := Struck(e.health, roll), alive := e.alive && !Fatal(Struck(e.health, roll)))
  }

  function Strike(s: Server, pid: PlayerID, attacker: EntityID, target: EntityID,
                  attackType: nat, roll: Roll): Effect
  {
    if !CanStrike(s, pid, attacker, target, attackType) then Effect(s, [])
    else
      var t := Hit(s.entities[target], roll);
      var part := BodyPart(roll.part);
      Effect(s.(entities := s.entities[target := t]),
        [ToAll(CombatHit(attacker, target, part, Damage(roll) * 0.5, Damage(roll) * 0.5,
                         t.health[part], roll.block < 0.2, KnockedOut(t.health)))]
        + (if Fatal(t.health) then [ToAll(CombatDeath(target, attacker))]
           else if KnockedOut(t.health) then [ToAll(CombatKO(target, attacker, part, t.health[part]))]
           else []))
  }

  const BLANK := Detail(0, 0, 0, "", FULL_HEALTH, NO_EFFECTS, NO_ITEMS, 0, 0, 0, 0.0)

  predicate CanBuild(s: Server, pid: PlayerID, position: Vec3) {
    pid in s.players && InRange(position) && DistSq(position, s.players[pid].position) <= 500.0 * 500.0
  }

  function NewBuilding(cfg: Config, s: Server, pid: PlayerID, templateId: nat, position: Vec3, rotation: Quat): Entity {
    Entity(s.nextEntityId, pid, cfg.authority, true, position, rotation, ZoneOf(position), FULL_HEALTH,
           BLANK.(kind := BUILDING, templateId := templateId))
  }

  function Build(cfg: Config, s: Server, pid: PlayerID, templateId: nat, position: Vec3, rotation: Quat): Effect {
    if !CanBuild(s, pid, position) then Effect(s, [])
    else
      var id := s.nextEntityId;
      Effect(s.(entities := s.entities[id := NewBuilding(cfg, s, pid, templateId, position, rotation)],
                nextEntityId := id + 1),
             [ToOthers(pid, BuildPlaced(id, templateId, position, rotation, pid))])
  }

  function NewEntity(cfg: Config, s: Server, pid: PlayerID, r: Packet): Entity
    requires r.SpawnRequest?
  {
    Entity(s.nextEntityId, pid, cfg.authority, r.alive, r.position, r.rotation, ZoneOf(r.position), r.health,
           BLANK.(kind := r.kind, templateId := r.templateId, factionId := r.factionId,
                  templateName := if |r.templateName| <= 255 then r.templateName else ""))
  }

  predicate CanSpawn(s: Server, r: Packet)
    requires r.SpawnRequest?
  {
    r.kind <= TURRET && |s.entities| < MAX_SYNC_ENTITIES
  }

  function Spawn(cfg: Config, s: Server, pid: PlayerID, r: Packet): Effect
    requires r.SpawnRequest? && pid in s.players
  {
    if !CanSpawn(s, r) then Effect(s, [])
    else
      var e := NewEntity(cfg, s, pid, r);
      var p := s.players[pid];
      Effect(s.(entities := s.entities[e.id := e], nextEntityId := e.id + 1,
                players := if p.zone == Zone(0, 0)
                           then s.players[pid := p.(position := e.position, zone := e.zone)] else s.players),
             [ToAll(SpawnMsg(e))])
  }

  function Despawn(s: Server, pid: PlayerID, id: EntityID, reason: nat): Effect {
    if id !in s.entities || s.entities[id].owner != pid then Effect(s, [])
    else Effect(s.(entities := s.entities - {id}), [ToAll(EntityDespawn(id, reason))])
  }

  /** Replaces the details of one entity of the player's own and tells the others. */
  function Amend(s: Server, pid: PlayerID, id: EntityID, ok: bool, detail: Detail, msg: Msg): Effect {
    if id !in s.entities || s.entities[id].owner != pid || !ok then Effect(s, [])
    else Effect(s.(entities := s.entities[id := s.entities[id].(detail := detail)]), [ToOthers(pid, msg)])
  }

  function DetailOf(s: Server, id: EntityID): Detail {
    if id in s.entities then s.entities[id].detail else BLANK
  }

  predicate ZoneInBounds(z: Zone) { -500 <= z.x <= 500 && -500 <= z.y <= 500 }

  predicate InZoneReply(e: Entity, pid: PlayerID, zone: Zone) {
    e.owner != pid && (Adjacent(zone, e.zone) || e.zone == zone)
  }

  function ZoneReply(pid: PlayerID, zone: Zone, order: seq<EntityID>, entities: Entities): seq<Send>
    requires forall i :: 0 <= i < |order| ==> order[i] in entities
  {
    if order == [] then []
    else
      var rest := ZoneReply(pid, zone, order[..|order| - 1], entities);
      var e := entities[order[|order| - 1]];
      if InZoneReply(e, pid, zone) then rest + [ToOne(pid, SpawnMsg(e))] else rest
  }

  predicate MayManage(s: Server, pid: PlayerID, id: EntityID) {
    id in s.entities && (s.entities[id].owner == pid || pid == s.host)
  }

  function Demolish(s: Server, pid: PlayerID, id: EntityID): Effect {
    if !MayManage(s, pid, id) then Effect(s, [])
    else Effect(s.(entities := s.entities - {id}), [ToOthers(pid, BuildDestroyed(id, 2))])
  }

  function Clamped(r: real): real { if r < 0.0 then 0.0 else if r > 1.0 then 1.0 else r }

  function Mend(s: Server, pid: PlayerID, id: EntityID, amount: real): Effect {
    if !MayManage(s, pid, id) || amount <= 0.0 || amount > 1.0 then Effect(s, [])
    else
      var e := s.entities[id];
      var progress := Clamped(e.detail.buildProgress + amount);
      Effect(s.(entities := s.entities[id := e.(detail := e.detail.(buildProgress := progress))]),
             [ToOthers(pid, BuildProgress(id, progress))])
  }

  /** A KO or death report is accepted from the victim's or the attacker's owner. */
  predicate MayReport(s: Server, pid: PlayerID, victim: EntityID, attacker: EntityID) {
    && victim in s.entities && s.entities[victim].alive
    && (s.entities[victim].owner == pid
        || (attacker != 0 && attacker in s.entities && s.entities[attacker].owner == pid))
  }

  function KnockOut(s: Server, pid: PlayerID, victim: EntityID, attacker: EntityID, reason: nat, chest: real): Effect {
    if !MayReport(s, pid, victim, attacker) then Effect(s, [])
    else
      var e := s.entities[victim];
      Effect(s.(entities := s.entities[victim := e.(health := e.health[0 := chest])]),
             [ToAll(CombatKO(victim, attacker, reason, chest))])
  }

  function Kill(s: Server, pid: PlayerID, victim: EntityID, killer: EntityID): Effect {
    if !MayReport(s, pid, victim, killer) then Effect(s, [])
    else Effect(s.(entities := s.entities[victim := s.entities[victim].(alive := false)]),
                [ToAll(CombatDeath(victim, killer))])
  }

  predicate AllReady(players: Players) { forall p :: p in players ==> players[p].isReady }

  function MarkReady(s: Server, pid: PlayerID): Effect
    requires pid in s.players
  {
    if s.players[pid].isReady then Effect(s, [])
    else
      var players := s.players[pid := s.players[pid].(isReady := true)];
      Effect(s.(players := players),
             if |players| > 1 && AllReady(players)
             then [ToAll(AllPlayersReady)] else [])
  }

  predicate WellOrdered(s: Server, pkt: Packet) {
    pkt.ZoneRequest? ==> Enumerates(pkt.order, s.entities.Keys)
  }

  /** The step of one packet from a connected player. */
  function Act(cfg: Config, s: Server, pid: PlayerID, pkt: Packet): Effect
    requires pid in s.players && s.players[pid].id == pid
    requires WellOrdered(s, pkt)
  {
    match pkt
    case PositionUpdate(updates) => MoveEntities(s, pid, updates)
    case MoveOrder(id, target) => OrderMove(s, pid, id, target)
    case AttackIntent(attacker, target, attackType, roll) => Strike(s, pid, attacker, target, attackType, roll)
    case BuildRequest(templateId, position, rotation) => Build(cfg, s, pid, templateId, position, rotation)
    case SpawnRequest(_, _, _, _, _, _, _, _) => Spawn(cfg, s, pid, pkt)
    case DespawnRequest(id, reason) => Despawn(s, pid, id, reason)
    case Equip(id, slot, item) =>
      var d := DetailOf(s, id);
      Amend(s, pid, id, slot < SLOTS,
            if slot < SLOTS then d.(equipment := d.equipment[slot := item]) else d,
            EquipmentUpdate(id, slot, item))
    case ZoneRequest(zone, order) =>
      Effect(s, if ZoneInBounds(zone) then ZoneReply(pid, zone, order, s.entities) else [])
    case Dismantle(id) => Demolish(s, pid, id)
    case Repair(id, amount) => Mend(s, pid, id, amount)
    case ReportKO(victim, attacker, reason, chest) => KnockOut(s, pid, victim, attacker, reason, chest)
    case ReportDeath(victim, killer) => Kill(s, pid, victim, killer)
    case ReportLimbs(id, limbs) =>
      Amend(s, pid, id, true, DetailOf(s, id).(limbHealth := limbs), LimbHealth(id, limbs))
    case ReportStatus(id, effect, active) =>
      var d := DetailOf(s, id);
      Amend(s, pid, id, effect < EFFECTS,
            if effect < EFFECTS then d.(statusEffects := d.statusEffects[effect := active]) else d,
            StatusEffect(id, effect, active))
    case Ready => MarkReady(s, pid)
  }
}
