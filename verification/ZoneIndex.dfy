/** The zone population index: entity counts under a packed 64-bit key, against the plain
    scan of the entity map that it stands for. */
module ZoneIndex {
  import opened Types

  const B32 := 0x1_0000_0000
  const HALF := 0x8000_0000

  predicate Signed32(x: int) { -HALF <= x < HALF }
  predicate ZoneFits(z: Zone) { Signed32(z.x) && Signed32(z.y) }

  /** Reading a signed 32-bit value as unsigned, and back. */
  function Unsigned(x: int): (u: nat) ensures u < B32 { x % B32 }
  function Signed(u: nat): int { var w := u % B32; if w >= HALF then w - B32 else w }

  function ZoneKey(z: Zone): nat { Unsigned(z.x) * B32 + Unsigned(z.y) }
  function KeyZone(key: nat): Zone { Zone(Signed(key / B32), Signed(key % B32)) }

  lemma HalvesApart(a: nat, b: nat)
    requires b < B32
    ensures (a * B32 + b) / B32 == a && (a * B32 + b) % B32 == b
  {}

  lemma SignedUnsigned(x: int)
    requires Signed32(x)
    ensures Signed(Unsigned(x)) == x
  {
    assert Unsigned(x) == if x < 0 then x + B32 else x;
  }

  /** Packing a pair of signed 32-bit coordinates and unpacking it is the identity. */
  lemma KeyRoundTrip(z: Zone)
    requires ZoneFits(z)
    ensures KeyZone(ZoneKey(z)) == z
  {
    HalvesApart(Unsigned(z.x), Unsigned(z.y));
    SignedUnsigned(z.x);
    SignedUnsigned(z.y);
  }

  // ----- the index and the scan

  function At(population: map<nat, nat>, key: nat): nat {
    if key in population then population[key] else 0
  }

  function Counted(entities: Entities, order: seq<EntityID>): map<nat, nat>
    requires forall i :: 0 <= i < |order| ==> order[i] in entities
  {
    if order == [] then map[]
    else
      var rest, key := Counted(entities, order[..|order| - 1]), ZoneKey(entities[order[|order| - 1]].zone);
      rest[key := At(rest, key) + 1]
  }

  predicate InZone(entities: Entities, zone: Zone, id: EntityID) {
    id in entities && entities[id].zone == zone
  }

  function Scan(entities: Entities, order: seq<EntityID>, zone: Zone): seq<EntityID> {
    Select(order, id => InZone(entities, zone, id))
  }

  ghost predicate ZonesFit(entities: Entities) {
    forall id :: id in entities ==> ZoneFits(entities[id].zone)
  }

  lemma {:induction false} CountedIsScan(entities: Entities, order: seq<EntityID>, zone: Zone)
    requires ZonesFit(entities) && ZoneFits(zone)
    requires forall i :: 0 <= i < |order| ==> order[i] in entities
    ensures At(Counted(entities, order), ZoneKey(zone)) == |Scan(entities, order, zone)|
  {
    if order != [] {
      CountedIsScan(entities, order[..|order| - 1], zone);
      var z := entities[order[|order| - 1]].zone;
      KeyRoundTrip(z);
      KeyRoundTrip(zone);
      hide ZoneKey, KeyZone;
    }
  }

  function Elements(s: seq<EntityID>): set<EntityID> {
    set k | k in s
  }

  lemma {:induction false} DistinctSize(s: seq<EntityID>)
    requires forall i, j :: 0 <= i < j < |s| ==> s[i] != s[j]
    ensures |Elements(s)| == |s|
  {
    if s != [] {
      var front, last := s[..|s| - 1], s[|s| - 1];
      DistinctSize(front);
      assert s == front + [last];
      assert Elements(s) == Elements(front) + {last};
      assert last !in Elements(front);
    }
  }

  ghost function Residents(entities: Entities, zone: Zone): set<EntityID> {
    set id | id in entities && entities[id].zone == zone
  }

  /** The size of the scan does not depend on the iteration order. */
  lemma ScanSize(entities: Entities, order: seq<EntityID>, zone: Zone)
    requires Enumerates(order, entities.Keys)
    ensures |Scan(entities, order, zone)| == |Residents(entities, zone)|
  {
    var scan := Scan(entities, order, zone);
    SelectDistinct(order, id => InZone(entities, zone, id));
    DistinctSize(scan);
    assert Elements(scan) == Residents(entities, zone);
  }

  ghost predicate Indexes(population: map<nat, nat>, entities: Entities) {
    && (forall zone :: ZoneFits(zone) ==> At(population, ZoneKey(zone)) == |Residents(entities, zone)|)
    && (forall key :: key in population ==>
          population[key] > 0 && ZoneFits(KeyZone(key)) && ZoneKey(KeyZone(key)) == key)
  }

  lemma {:induction false} CountedKeys(entities: Entities, order: seq<EntityID>, key: nat)
    requires ZonesFit(entities)
    requires forall i :: 0 <= i < |order| ==> order[i] in entities
    requires key in Counted(entities, order)
    ensures Counted(entities, order)[key] > 0 && ZoneFits(KeyZone(key)) && ZoneKey(KeyZone(key)) == key
  {
    var front := order[..|order| - 1];
    var z := entities[order[|order| - 1]].zone;
    KeyRoundTrip(z);
    if key in Counted(entities, front) {
      CountedKeys(entities, front, key);
    }
    hide ZoneKey, KeyZone;
  }

  lemma CountedIndexes(entities: Entities, order: seq<EntityID>)
    requires ZonesFit(entities) && Enumerates(order, entities.Keys)
    ensures Indexes(Counted(entities, order), entities)
  {
    var population := Counted(entities, order);
    hide ZoneKey, KeyZone, Counted, Residents;
    forall zone | ZoneFits(zone) ensures At(population, ZoneKey(zone)) == |Residents(entities, zone)| {
      CountedIsScan(entities, order, zone);
      ScanSize(entities, order, zone);
    }
    forall key | key in population
      ensures population[key] > 0 && ZoneFits(KeyZone(key)) && ZoneKey(KeyZone(key)) == key
    {
      CountedKeys(entities, order, key);
    }
  }

  // ----- the manager

  function ZonesOf(population: map<nat, nat>, order: seq<nat>): seq<Zone>
    requires forall i :: 0 <= i < |order| ==> order[i] in population
  {
    if order == [] then []
    else
      var rest, key := ZonesOf(population, order[..|order| - 1]), order[|order| - 1];
      if population[key] > 0 then rest + [KeyZone(key)] else rest
  }

  ghost predicate ListsOnce(zones: seq<Zone>, entities: Entities) {
    && (forall i, j :: 0 <= i < j < |zones| ==> zones[i] != zones[j])
    && (forall zone :: ZoneFits(zone) ==> (zone in zones <==> exists id :: InZone(entities, zone, id)))
  }

  class ZoneManager {
    var population: map<nat, nat>

    constructor ()
      ensures population == map[]
    {
      population := map[];
    }

    method RebuildIndex(entities: Entities, order: seq<EntityID>)
      requires ZonesFit(entities) && Enumerates(order, entities.Keys)
      modifies this
      ensures Indexes(population, entities)
    {
      hide ZoneKey;
      population := map[];
      for i := 0 to |order|
        invariant population == Counted(entities, order[..i])
      {
        assert order[..i + 1][..i] == order[..i];
        var key := ZoneKey(entities[order[i]].zone);
        population := population[key := At(population, key) + 1];
      }
      assert order[..|order|] == order;
      CountedIndexes(entities, order);
    }

    method GetZonePopulation(zone: Zone, ghost entities: Entities) returns (count: nat)
      requires Indexes(population, entities) && ZoneFits(zone)
      ensures count == |Residents(entities, zone)|
    {
      hide ZoneKey;
      var key := ZoneKey(zone);
      count := if key in population then population[key] else 0;
    }

    method GetPopulatedZones(order: seq<nat>, ghost entities: Entities) returns (zones: seq<Zone>)
      requires ZonesFit(entities) && Indexes(population, entities) && Enumerates(order, population.Keys)
      ensures ListsOnce(zones, entities)
    {
      zones := [];
      for i := 0 to |order|
        invariant zones == ZonesOf(population, order[..i])
      {
        assert order[..i + 1][..i] == order[..i];
        if population[order[i]] > 0 {
          zones := zones + [KeyZone(order[i])];
        }
      }
      assert order[..|order|] == order;
      PopulatedZones(population, order, entities);
    }
  }

  lemma {:induction false} ZonesOfAll(population: map<nat, nat>, order: seq<nat>)
    requires forall i :: 0 <= i < |order| ==> order[i] in population
    requires forall key :: key in population ==> population[key] > 0
    ensures |ZonesOf(population, order)| == |order|
    ensures forall i :: 0 <= i < |order| ==> ZonesOf(population, order)[i] == KeyZone(order[i])
  {
    hide KeyZone;
    if order != [] {
      ZonesOfAll(population, order[..|order| - 1]);
    }
  }

  /** The list holds every populated zone exactly once, and no other. */
  lemma PopulatedZones(population: map<nat, nat>, order: seq<nat>, entities: Entities)
    requires ZonesFit(entities) && Indexes(population, entities) && Enumerates(order, population.Keys)
    ensures ListsOnce(ZonesOf(population, order), entities)
  {
    hide ZoneKey, KeyZone, Residents;
    ZonesOfAll(population, order);
    var zones := ZonesOf(population, order);
    forall zone | ZoneFits(zone) ensures zone in zones <==> exists id :: InZone(entities, zone, id) {
      KeyRoundTrip(zone);
      ListedIffKey(population, order, zone);
      ResidentsExist(entities, zone);
    }
  }

  lemma ListedIffKey(population: map<nat, nat>, order: seq<nat>, zone: Zone)
    requires forall i :: 0 <= i < |order| ==> order[i] in population
    requires forall key :: key in population ==> key in order
    requires forall key :: key in population ==> population[key] > 0 && ZoneKey(KeyZone(key)) == key
    requires KeyZone(ZoneKey(zone)) == zone
    ensures zone in ZonesOf(population, order) <==> ZoneKey(zone) in population
  {
    hide ZoneKey, KeyZone;
    ZonesOfAll(population, order);
    if ZoneKey(zone) in population {
      var i :| 0 <= i < |order| && order[i] == ZoneKey(zone);
      assert ZonesOf(population, order)[i] == zone;
    }
  }

  lemma ResidentsExist(entities: Entities, zone: Zone)
    ensures |Residents(entities, zone)| > 0 <==> exists id :: InZone(entities, zone, id)
  {
    if id :| InZone(entities, zone, id) {
      assert id in Residents(entities, zone);
    }
    if |Residents(entities, zone)| > 0 {
      var id :| id in Residents(entities, zone);
      assert InZone(entities, zone, id);
    }
  }
}
