/** Saving and loading as the code does it, with loops over maps and records, and what a
    load that fails midway leaves behind. */
module WorldFile {
  import opened Types
  import opened ServerModel
  import opened Persistence
  import opened Runs

  /** The records of all entities, in iteration order. */
  method WriteEntities(entities: Entities, order: seq<EntityID>) returns (rs: seq<Record>)
    requires Enumerates(order, entities.Keys)
    ensures rs == Records(order, entities)
  {
    rs := [];
    for i := 0 to |order|
      invariant rs == Records(order[..i], entities)
    {
      var e := entities[order[i]];
      var d := e.detail;
      rs := rs + [Record(e.id, d.kind, e.owner, d.templateId, d.factionId, e.position, e.rotation,
                         Some(e.alive), e.health, Some(d.templateName), Some(d.equipment))];
    }
    assert order[..|order|] == order;
  }

  method EntitiesOf(entities: Entities, pid: PlayerID, order: seq<EntityID>) returns (ids: seq<EntityID>)
    requires Enumerates(order, entities.Keys)
    ensures ids == OwnedIn(order, entities, pid)
  {
    ids := [];
    for i := 0 to |order|
      invariant ids == OwnedIn(order[..i], entities, pid)
    {
      assert order[..i + 1][..i] == order[..i];
      if entities[order[i]].owner == pid {
        ids := ids + [order[i]];
      }
    }
    assert order[..|order|] == order;
  }

  /** Offline records merged with what each connected player owns now. */
  method MergePlayers(s: Server, entityOrder: seq<EntityID>, playerOrder: seq<PlayerID>)
    returns (w: map<string, seq<EntityID>>)
    requires Enumerates(entityOrder, s.entities.Keys) && Enumerates(playerOrder, s.players.Keys)
    ensures w == RecordsToWrite(s, playerOrder, entityOrder)
  {
    hide OwnedIn;
    w := s.saved;
    for i := 0 to |playerOrder|
      invariant w == RecordsToWrite(s, playerOrder[..i], entityOrder)
    {
      assert playerOrder[..i + 1][..i] == playerOrder[..i];
      var p := playerOrder[i];
      var ids := EntitiesOf(s.entities, p, entityOrder);
      if ids != [] {
        w := w[s.players[p].name := ids];
      }
    }
    assert playerOrder[..|playerOrder|] == playerOrder;
  }

  method SaveWorld(s: Server, entityOrder: seq<EntityID>, playerOrder: seq<PlayerID>) returns (doc: Document)
    requires Enumerates(entityOrder, s.entities.Keys) && Enumerates(playerOrder, s.players.Keys)
    ensures doc == Save(s, entityOrder, playerOrder)
  {
    var w := MergePlayers(s, entityOrder, playerOrder);
    var rs := WriteEntities(s.entities, entityOrder);
    doc := Document(rs, Players(w));
  }

  lemma {:induction false} LoadStopped(cfg: Config, rs: seq<Record>, i: nat)
    requires i <= |rs| && LoadRecords(cfg, rs[..i]).status != Running
    ensures LoadRecords(cfg, rs) == LoadRecords(cfg, rs[..i])
  {
    if i < |rs| {
      assert rs[..|rs| - 1][..i] == rs[..i];
      LoadStopped(cfg, rs[..|rs| - 1], i);
    } else {
      assert rs[..i] == rs;
    }
  }

  /** Reads the records until the cap stops it or one of them throws. */
  method ReadEntities(cfg: Config, rs: seq<Record>) returns (l: Loading)
    ensures l == LoadRecords(cfg, rs)
  {
    hide InRange, Restored;
    l := Loading(map[], 0, 0, Running);
    for i := 0 to |rs|
      invariant l == LoadRecords(cfg, rs[..i]) && l.status == Running
    {
      assert rs[..i + 1][..i] == rs[..i];
      var r := rs[i];
      if l.loaded >= MAX_SYNC_ENTITIES {
        l := l.(status := Full);
        LoadStopped(cfg, rs, i + 1);
        return;
      }
      if r.Malformed? {
        l := l.(status := Threw);
        LoadStopped(cfg, rs, i + 1);
        return;
      }
      if !InRange(r.position) {
        l := l.(maxId := Max(l.maxId, r.id));
      } else {
        l := Loading(l.entities[r.id := Restored(cfg, r)], Max(l.maxId, r.id), l.loaded + 1, Running);
      }
    }
    assert rs[..|rs|] == rs;
  }

  /** Keeps the references to entities that were loaded, record by record. */
  method ReadPlayers(players: map<string, seq<EntityID>>, entities: Entities) returns (saved: map<string, seq<EntityID>>)
    ensures saved == PlayersFrom(players, entities)
  {
    saved := map[];
    var rest := players.Keys;
    while rest != {}
      invariant rest <= players.Keys
      invariant saved == map n | n in players && n !in rest && Kept(players[n], entities) != [] :: Kept(players[n], entities)
    {
      var n :| n in rest;
      var ids := KeepLoaded(players[n], entities);
      if ids != [] {
        saved := saved[n := ids];
      }
      rest := rest - {n};
    }
  }

  method KeepLoaded(ids: seq<EntityID>, entities: Entities) returns (kept: seq<EntityID>)
    ensures kept == Kept(ids, entities)
  {
    kept := [];
    for i := 0 to |ids|
      invariant kept == Kept(ids[..i], entities)
    {
      assert ids[..i + 1][..i] == ids[..i];
      if ids[i] in entities {
        kept := kept + [ids[i]];
      }
    }
    assert ids[..|ids|] == ids;
  }

  /** The server after `LoadWorld`, and whether the load succeeded. */
  method LoadWorld(cfg: Config, s: Server, file: File) returns (ok: bool, s': Server)
    ensures s' == Load(cfg, s, file)
    ensures ok <==> file.Readable? && !Fails(cfg, file.doc)
  {
    hide LoadRecords, PlayersFrom;
    if !file.Readable? {
      return false, s;
    }
    var l := ReadEntities(cfg, file.doc.entities);
    if l.status == Threw {
      return false, s.(entities := l.entities, saved := map[]);
    }
    var saved: map<string, seq<EntityID>> := map[];
    if !file.doc.players.NoPlayers? {
      saved := ReadPlayers(file.doc.players.records, l.entities);
    }
    if file.doc.players.BrokenAfter? {
      return false, s.(entities := l.entities, saved := saved);
    }
    return true, s.(entities := l.entities, saved := saved, nextEntityId := l.maxId + 1);
  }

  /** What is written of an entity. */
  lemma RecordFields(e: Entity)
    ensures var r := RecordOf(e);
            && r.Record? && r.id == e.id && r.owner == e.owner && r.kind == e.detail.kind && r.templateId == e.detail.templateId
            && r.factionId == e.detail.factionId && r.position == e.position && r.rotation == e.rotation
            && r.alive == Some(e.alive) && r.health == e.health && r.templateName == Some(e.detail.templateName)
            && r.equipment.Some? && r.equipment.value == e.detail.equipment
  {}

  /** What a record becomes: nobody's, with every stored field as written, full health and empty
      slots where the arrays are short, alive and nameless where nothing is written. */
  lemma RestoredFields(cfg: Config, r: Record)
    requires r.Record?
    ensures var e := Restored(cfg, r);
            && e.id == r.id && e.owner == 0 && e.authority == cfg.authority && e.position == r.position && e.rotation == r.rotation
            && e.alive == (r.alive == None || r.alive == Some(true))
            && e.detail.kind == r.kind && e.detail.templateId == r.templateId && e.detail.factionId == r.factionId
            && e.detail.templateName == (if r.templateName == None then "" else r.templateName.value)
            && (forall i :: 0 <= i < 7 ==> e.health[i] == if i < |r.health| then r.health[i] else 100.0)
            && (forall i :: 0 <= i < 14 ==>
                  e.detail.equipment[i] == if r.equipment.Some? && i < |r.equipment.value| then r.equipment.value[i] else 0)
  {}

  // ----- a load that fails midway

  predicate AllReadable(rs: seq<Record>) { forall k :: 0 <= k < |rs| ==> rs[k].Record? }

  /** Some record in range comes with none before it unreadable, and so gets loaded. */
  predicate LoadsSomething(rs: seq<Record>) {
    rs != [] &&
    var front, last := rs[..|rs| - 1], rs[|rs| - 1];
    LoadsSomething(front) || (AllReadable(front) && last.Record? && InRange(last.position))
  }

  lemma {:induction false} LoadsNothing(cfg: Config, rs: seq<Record>)
    ensures LoadRecords(cfg, rs).status == Running ==> AllReadable(rs)
    ensures LoadRecords(cfg, rs).entities.Keys == {} <==> !LoadsSomething(rs)
  {
    hide InRange, Restored;
    if rs != [] {
      var front, r := rs[..|rs| - 1], rs[|rs| - 1];
      LoadsNothing(cfg, front);
      LoadedOnlyGrows(cfg, rs);
      if AllReadable(front) {
        AllReadableRuns(cfg, front);
        var before, after := LoadRecords(cfg, front), LoadRecords(cfg, rs);
        assert before.entities.Keys == {} && r.Record? && InRange(r.position) ==> r.id in after.entities;
      }
    }
  }

  lemma LoadedOnlyGrows(cfg: Config, rs: seq<Record>)
    requires rs != []
    ensures LoadRecords(cfg, rs[..|rs| - 1]).entities.Keys <= LoadRecords(cfg, rs).entities.Keys
  {}

  /** Readable records alone never throw, and nothing loaded means the cap is far. */
  lemma {:induction false} AllReadableRuns(cfg: Config, rs: seq<Record>)
    requires forall k :: 0 <= k < |rs| ==> rs[k].Record?
    ensures LoadRecords(cfg, rs).status != Threw
    ensures LoadRecords(cfg, rs).entities.Keys == {} ==>
      LoadRecords(cfg, rs).status == Running && LoadRecords(cfg, rs).loaded == 0
  {
    hide InRange, Restored;
    if rs != [] {
      AllReadableRuns(cfg, rs[..|rs| - 1]);
      LoadedOnlyGrows(cfg, rs);
      var before, r, after := LoadRecords(cfg, rs[..|rs| - 1]), rs[|rs| - 1], LoadRecords(cfg, rs);
      assert before.entities.Keys == {} && InRange(r.position) ==> r.id in after.entities;
    }
  }

  lemma NothingKept(players: map<string, seq<EntityID>>, entities: Entities)
    requires entities.Keys == {}
    ensures PlayersFrom(players, entities) == map[]
  {
    forall n | n in players ensures Kept(players[n], entities) == [] {
      SelectNone(players[n], id => id in entities);
    }
  }

  /** After a load that failed, among the entities or among the player records, a fresh server
      is sound if and only if no entity had been loaded: leftovers sit at or above the id
      counter. */
  lemma FailedLoad(cfg: Config, doc: Document)
    requires Fails(cfg, doc)
    ensures Inv(Load(cfg, FRESH, Readable(doc))) <==> !LoadsSomething(doc.entities)
  {
    hide InRange, LoadsSomething, LoadRecords, PlayersFrom;
    LoadsNothing(cfg, doc.entities);
    var s := Load(cfg, FRESH, Readable(doc));
    if s.entities.Keys != {} {
      var id :| id in s.entities;
      assert !(0 < id < s.nextEntityId);
    } else if !doc.players.NoPlayers? {
      NothingKept(doc.players.records, s.entities);
    }
  }
}
