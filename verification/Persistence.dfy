/** World persistence: the projection of the server onto a saved document, and the
    load that rebuilds entities and player records from one. The document stands
    for the JSON text; a record the parser would throw on is `Malformed`. */
module Persistence {
  import opened Types
  import opened ServerModel

  datatype Record =
    | Malformed
    | Record(id: EntityID, kind: nat, owner: PlayerID, templateId: nat, factionId: nat,
             position: Vec3, rotation: Quat, alive: Option<bool>, health: seq<real>,
             templateName: Option<string>, equipment: Option<seq<nat>>)

  /** The player records: absent, complete, or readable only up to an entry that throws. */
  datatype Section =
    | NoPlayers
    | Players(records: map<string, seq<EntityID>>)
    | BrokenAfter(records: map<string, seq<EntityID>>)

  datatype Document = Document(entities: seq<Record>, players: Section)

  /** A file that is not there, one whose text does not parse, and one that does. */
  datatype File = Missing | Unreadable | Readable(doc: Document)

  // ----- saving

  function RecordOf(e: Entity): Record {
    var d := e.detail;
    Record(e.id, d.kind, e.owner, d.templateId, d.factionId, e.position, e.rotation,
           Some(e.alive), e.health, Some(d.templateName), Some(d.equipment))
  }

  function Records(order: seq<EntityID>, entities: Entities): seq<Record>
    requires forall i :: 0 <= i < |order| ==> order[i] in entities
  {
    seq(|order|, i requires 0 <= i < |order| => RecordOf(entities[order[i]]))
  }

  /** The player records written out: the offline ones, overwritten by name with what
      each connected player owns now. */
  function RecordsToWrite(s: Server, playerOrder: seq<PlayerID>, entityOrder: seq<EntityID>): map<string, seq<EntityID>>
    requires forall i :: 0 <= i < |playerOrder| ==> playerOrder[i] in s.players
  {
    if playerOrder == [] then s.saved
    else
      var rest := RecordsToWrite(s, playerOrder[..|playerOrder| - 1], entityOrder);
      var p := playerOrder[|playerOrder| - 1];
      var owned := OwnedIn(entityOrder, s.entities, p);
      if owned == [] then rest else rest[s.players[p].name := owned]
  }

  function Save(s: Server, entityOrder: seq<EntityID>, playerOrder: seq<PlayerID>): Document
    requires Enumerates(entityOrder, s.entities.Keys) && Enumerates(playerOrder, s.players.Keys)
  {
    Document(Records(entityOrder, s.entities), Players(RecordsToWrite(s, playerOrder, entityOrder)))
  }

  // ----- loading

  datatype Status = Running | Full | Threw
  datatype Loading = Loading(entities: Entities, maxId: EntityID, loaded: nat, status: Status)

  function Max(a: nat, b: nat): nat { if a > b then a else b }

  /** A default part value wherever the stored array is too short. */
  function HealthFrom(h: seq<real>): Parts {
    seq(PARTS, i requires 0 <= i < PARTS => if i < |h| then h[i] else 100.0)
  }

  function EquipmentFrom(q: Option<seq<nat>>): Slots {
    seq(SLOTS, i requires 0 <= i < SLOTS => if q.Some? && i < |q.value| then q.value[i] else 0)
  }

  function Restored(cfg: Config, r: Record): Entity
    requires r.Record?
  {
    Entity(r.id, 0, cfg.authority, if r.alive.Some? then r.alive.value else true,
           r.position, r.rotation, ZoneOf(r.position), HealthFrom(r.health),
           BLANK.(kind := r.kind, templateId := r.templateId, factionId := r.factionId,
                  templateName := if r.templateName.Some? then r.templateName.value else "",
                  equipment := EquipmentFrom(r.equipment)))
  }

  function LoadOne(cfg: Config, before: Loading, r: Record): Loading {
    if before.status != Running then before
    else if before.loaded >= MAX_SYNC_ENTITIES then before.(status := Full)
    else if r.Malformed? then before.(status := Threw)
    else if !InRange(r.position) then before.(maxId := Max(before.maxId, r.id))
    else Loading(before.entities[r.id := Restored(cfg, r)], Max(before.maxId, r.id), before.loaded + 1, Running)
  }

  function LoadRecords(cfg: Config, rs: seq<Record>): Loading {
    if rs == [] then Loading(map[], 0, 0, Running)
    else LoadOne(cfg, LoadRecords(cfg, rs[..|rs| - 1]), rs[|rs| - 1])
  }

  function Kept(ids: seq<EntityID>, entities: Entities): (r: seq<EntityID>)
    ensures forall id :: id in r <==> id in ids && id in entities
  {
    Select(ids, id => id in entities)
  }

  function PlayersFrom(players: map<string, seq<EntityID>>, entities: Entities): map<string, seq<EntityID>> {
    map n | n in players && Kept(players[n], entities) != [] :: Kept(players[n], entities)
  }

  predicate Fails(cfg: Config, doc: Document) {
    LoadRecords(cfg, doc.entities).status == Threw || doc.players.BrokenAfter?
  }

  function SavedFrom(cfg: Config, doc: Document): map<string, seq<EntityID>> {
    if LoadRecords(cfg, doc.entities).status == Threw || doc.players.NoPlayers? then map[]
    else PlayersFrom(doc.players.records, LoadRecords(cfg, doc.entities).entities)
  }

  /** The server after `LoadWorld`. A file that does not parse leaves it alone; a load that
      fails later leaves what was read so far, without moving the id counter. */
  function Load(cfg: Config, s: Server, file: File): Server {
    if !file.Readable? then s
    else
      var l := LoadRecords(cfg, file.doc.entities);
      s.(entities := l.entities, saved := SavedFrom(cfg, file.doc),
         nextEntityId := if Fails(cfg, file.doc) then s.nextEntityId else l.maxId + 1)
  }

  /** Shutdown and restart: save, then load into a fresh process. */
  function Restart(cfg: Config, s: Server, entityOrder: seq<EntityID>, playerOrder: seq<PlayerID>): Server
    requires Enumerates(entityOrder, s.entities.Keys) && Enumerates(playerOrder, s.players.Keys)
  {
    Load(cfg, FRESH, Readable(Save(s, entityOrder, playerOrder)))
  }
}
