/**
 * collect_osm_data.py: turning the Overpass `elements` list into facility
 * records, and the completeness confidence score attached to each.
 *
 * The polygon area (a shoelace sum scaled by a cosine) is the parameter
 * `area`; the `last_updated` timestamp is the parameter `now`.
 */
module CollectOsmData {
  import opened Common
  import opened Osm
  import opened Records

  /** The amenity tags copied into `amenities`, in the order the source lists them. */
  const AmenityKeys: seq<string> :=
    ["fuel", "restaurant", "cafe", "toilets", "shower", "drinking_water", "wifi", "atm", "shop", "parking:fee"]

  /** The name fallbacks: `name`, then `name:nl`, then `ref`. */
  const NameKeys: seq<string> := ["name", "name:nl", "ref"]

  // ---------------------------------------------------------------------
  // calculate_confidence_score
  // ---------------------------------------------------------------------

  predicate IsNamed(f: Facility) {
    Truthy(f.name) && f.name.value != "Unnamed"
  }

  predicate IsHgvDesignated(f: Facility) {
    f.hgv == Some("yes") || f.hgv == Some("designated")
  }

  /** 0.5 plus one fixed bonus per attribute present, before the `min(…, 1.0)` cap. */
  function UncappedScore(f: Facility): int {
    50
    + (if IsNamed(f) then 10 else 0)
    + (if f.capacity != map[] then 15 else 0)
    + (if HasPolygon(f.geometry) then 10 else 0)
    + (if f.amenities != map[] then 5 else 0)
    + (if Truthy(f.operator) then 5 else 0)
    + (if IsHgvDesignated(f) then 5 else 0)
  }

  /** `calculate_confidence_score`, in hundredths; the cap at 1.0 never binds. */
  function ConfidenceScore(f: Facility): (s: int)
    ensures 50 <= s <= 100
    ensures s == UncappedScore(f)
  {
    Min(UncappedScore(f), 100)
  }

  /** A facility with none of the scored attributes gets exactly the base score. */
  lemma ConfidenceBase(f: Facility)
    requires !IsNamed(f) && f.capacity == map[] && !HasPolygon(f.geometry)
    requires f.amenities == map[] && !Truthy(f.operator) && !IsHgvDesignated(f)
    ensures ConfidenceScore(f) == 50
  {
  }

  /** Having every scored attribute that another facility has never gives a lower score. */
  lemma ConfidenceMonotone(f: Facility, g: Facility)
    requires IsNamed(f) ==> IsNamed(g)
    requires f.capacity != map[] ==> g.capacity != map[]
    requires HasPolygon(f.geometry) ==> HasPolygon(g.geometry)
    requires f.amenities != map[] ==> g.amenities != map[]
    requires Truthy(f.operator) ==> Truthy(g.operator)
    requires IsHgvDesignated(f) ==> IsHgvDesignated(g)
    ensures ConfidenceScore(f) <= ConfidenceScore(g)
  {
  }

  /** The name `Unnamed` earns no name bonus, and for an `hgv` value other than yes/designated there is no HGV bonus. */
  lemma ConfidenceNoBonus(f: Facility)
    requires f.name == Some("Unnamed")
    requires f.hgv != Some("yes") && f.hgv != Some("designated")
    ensures ConfidenceScore(f) == ConfidenceScore(f.(name := None, hgv := None))
  {
  }

  // ---------------------------------------------------------------------
  // Tag translation
  // ---------------------------------------------------------------------

  /** `f"osm_{element['type']}_{element_id}"`. */
  function FacilityId(t: string, id: int): string {
    "osm_" + t + "_" + IntToString(id)
  }

  lemma NoUnderscore(n: int)
    ensures '_' !in IntToString(n)
  {
  }

  /** Distinct element types or ids give distinct facility ids (the printed id holds no underscore). */
  lemma FacilityIdInjective(t1: string, n1: int, t2: string, n2: int)
    requires FacilityId(t1, n1) == FacilityId(t2, n2)
    ensures t1 == t2 && n1 == n2
  {
    var a, b := IntToString(n1), IntToString(n2);
    var s := FacilityId(t1, n1);
    NoUnderscore(n1);
    NoUnderscore(n2);
    assert s == ("osm_" + t1 + "_") + a;
    assert s == ("osm_" + t2 + "_") + b;
    assert s[|s| - |a| - 1] == '_';
    assert s[|s| - |b| - 1] == '_';
    assert |a| == |b|;
    assert a == s[|s| - |a|..] == b;
    assert "osm_" + t1 == s[..|s| - |a| - 1] == "osm_" + t2;
    assert t1 == ("osm_" + t1)[4..] == ("osm_" + t2)[4..] == t2;
    IntToStringInjective(n1, n2);
  }

  /** The `capacity` dictionary: `truck_spots` from `capacity:hgv`, `total_spots` from `capacity`. */
  function CapacityOf(tags: map<string, string>): map<string, string> {
    var c := if "capacity:hgv" in tags then map["truck_spots" := tags["capacity:hgv"]] else map[];
    if "capacity" in tags then c["total_spots" := tags["capacity"]] else c
  }

  /** The `location` dictionary: `ref`, and `highway_type` from `highway`. */
  function LocationOf(tags: map<string, string>): map<string, string> {
    var l := if "ref" in tags then map["ref" := tags["ref"]] else map[];
    if "highway" in tags then l["highway_type" := tags["highway"]] else l
  }

  function ElectricityOf(tags: map<string, string>): Option<Electricity> {
    if "charging_station" in tags || "socket:type2" in tags then
      Some(Electricity(Lookup(tags, "socket:type2")))
    else None
  }

  /** A closed ring of more than two positions is a Polygon, anything else a LineString. */
  function WayGeometry(coords: seq<Position>): Geometry
    requires coords != []
  {
    if |coords| > 2 && coords[0] == coords[|coords| - 1] then Polygon(coords) else LineString(coords)
  }

  /** The resolved coordinates of a way; other kinds have none. */
  function WayCoordinates(index: map<int, Position>, e: Element): seq<Position> {
    if e.kind == Way then Resolve(index, e.nodes) else []
  }

  function GeometryOf(e: Element, coords: seq<Position>): Option<Geometry> {
    if e.kind == Node then Some(Point(Position(e.lon, e.lat)))
    else if e.kind == Way && coords != [] then Some(WayGeometry(coords))
    else None
  }

  function LatitudeOf(e: Element, coords: seq<Position>): Option<real> {
    if e.kind == Node then Some(e.lat)
    else if e.kind == Way && coords != [] then Some(Mean(Lats(coords)))
    else None
  }

  function LongitudeOf(e: Element, coords: seq<Position>): Option<real> {
    if e.kind == Node then Some(e.lon)
    else if e.kind == Way && coords != [] then Some(Mean(Lons(coords)))
    else None
  }

  /** The facility record for one tagged element, given its resolved way coordinates and its amenities. */
  function Assemble(e: Element, coords: seq<Position>, amenities: map<string, string>,
                    area: seq<Position> -> real, now: string): Facility
  {
    var t := e.tags;
    var g := GeometryOf(e, coords);
    var f := Facility(
      id := Some(FacilityId(KindName(e.kind), e.id)),
      name := Some(FirstPresent(t, NameKeys, "Unnamed")),
      osmId := Some(e.id),
      osmType := Some(KindName(e.kind)),
      dataSource := Some("OpenStreetMap"),
      lastUpdated := Some(now),
      tags := t,
      geometry := g,
      latitude := LatitudeOf(e, coords),
      longitude := LongitudeOf(e, coords),
      capacity := CapacityOf(t),
      location := LocationOf(t),
      amenities := amenities,
      hgv := Lookup(t, "hgv"),
      operator := Lookup(t, "operator"),
      openingHours := Lookup(t, "opening_hours"),
      surface := Lookup(t, "surface"),
      parkingType := Lookup(t, "parking"),
      electricity := ElectricityOf(t),
      areaM2 := if HasPolygon(g) then Some(area(g.value.ring)) else None,
      confidenceScore := None,
      classification := None);
    f.(confidenceScore := Some(ConfidenceScore(f)))
  }

  /** The record the second pass builds for element `e`. */
  function FacilityFor(index: map<int, Position>, e: Element, area: seq<Position> -> real, now: string): Facility {
    Assemble(e, WayCoordinates(index, e), Select(e.tags, AmenityKeys), area, now)
  }

  /** Builds the record for one element: resolves the way's nodes and copies the amenity tags. */
  method BuildFacility(index: map<int, Position>, e: Element, area: seq<Position> -> real, now: string)
    returns (f: Facility)
    ensures f == FacilityFor(index, e, area, now)
  {
    var coords: seq<Position> := [];
    if e.kind == Way && |e.nodes| > 0 {
      coords := ResolveWay(index, e.nodes);
    }
    var amenities := SelectKeys(e.tags, AmenityKeys);
    f := Assemble(e, coords, amenities, area, now);
  }

  // Properties of one record

  /** The record keeps the element's id and type, and its id is `osm_<type>_<id>`. */
  lemma FacilityIdentity(index: map<int, Position>, e: Element, area: seq<Position> -> real, now: string)
    ensures var f := FacilityFor(index, e, area, now);
            f.osmId == Some(e.id) && f.osmType == Some(KindName(e.kind)) &&
            f.id == Some("osm_" + KindName(e.kind) + "_" + IntToString(e.id))
  {
  }

  /** The name is the first of name, name:nl, ref that is tagged, and `Unnamed` iff none is. */
  lemma NameFallback(index: map<int, Position>, e: Element, area: seq<Position> -> real, now: string)
    ensures var n := FacilityFor(index, e, area, now).name.value;
            && ("name" in e.tags ==> n == e.tags["name"])
            && ("name" !in e.tags && "name:nl" in e.tags ==> n == e.tags["name:nl"])
            && ("name" !in e.tags && "name:nl" !in e.tags && "ref" in e.tags ==> n == e.tags["ref"])
            && ("name" !in e.tags && "name:nl" !in e.tags && "ref" !in e.tags ==> n == "Unnamed")
  {
    var t := e.tags;
    var n := FirstPresent(t, NameKeys, "Unnamed");
    assert NameKeys[0] == "name" && NameKeys[1] == "name:nl" && NameKeys[2] == "ref";
    if "name" !in t && "name:nl" !in t && "ref" !in t {
      assert forall j :: 0 <= j < |NameKeys| ==> NameKeys[j] !in t;
    }
  }

  /** A way is a Polygon iff more than two of its nodes resolve and the first equals the last; with some resolved node and no polygon it is a LineString over all of them. */
  lemma WayShape(index: map<int, Position>, e: Element, area: seq<Position> -> real, now: string)
    requires e.kind == Way
    ensures var f := FacilityFor(index, e, area, now);
            var coords := Resolve(index, e.nodes);
            && (HasPolygon(f.geometry) <==> |coords| > 2 && coords[0] == coords[|coords| - 1])
            && (f.geometry.Some? <==> coords != [])
            && (f.geometry.Some? && !HasPolygon(f.geometry) ==> f.geometry.value == LineString(coords))
            && (HasPolygon(f.geometry) ==> f.geometry.value.ring == coords && f.areaM2 == Some(area(coords)))
  {
  }

  /** A node is a Point at `[lon, lat]` whose coordinates equal the record's latitude and longitude. */
  lemma NodePoint(index: map<int, Position>, e: Element, area: seq<Position> -> real, now: string)
    requires e.kind == Node
    ensures var f := FacilityFor(index, e, area, now);
            && f.geometry == Some(Point(Position(e.lon, e.lat)))
            && Coordinates(f.geometry.value.at) == [e.lon, e.lat]
            && f.latitude == Some(e.lat) && f.longitude == Some(e.lon)
  {
  }

  /** A way's latitude and longitude lie between the least and greatest of its resolved coordinates. */
  lemma WayCentroidWithin(index: map<int, Position>, e: Element, area: seq<Position> -> real, now: string)
    requires e.kind == Way && Resolve(index, e.nodes) != []
    ensures var f := FacilityFor(index, e, area, now);
            var coords := Resolve(index, e.nodes);
            && f.latitude.Some? && SeqMin(Lats(coords)) <= f.latitude.value <= SeqMax(Lats(coords))
            && f.longitude.Some? && SeqMin(Lons(coords)) <= f.longitude.value <= SeqMax(Lons(coords))
  {
    var coords := Resolve(index, e.nodes);
    MeanWithin(Lats(coords));
    MeanWithin(Lons(coords));
  }

  /** `capacity` is non-empty iff `capacity:hgv` or `capacity` is tagged, and maps them to `truck_spots` and `total_spots`. */
  lemma CapacityMapping(index: map<int, Position>, e: Element, area: seq<Position> -> real, now: string)
    ensures var c := FacilityFor(index, e, area, now).capacity;
            && (c != map[] <==> "capacity:hgv" in e.tags || "capacity" in e.tags)
            && c.Keys <= {"truck_spots", "total_spots"}
            && ("truck_spots" in c <==> "capacity:hgv" in e.tags)
            && ("total_spots" in c <==> "capacity" in e.tags)
            && ("truck_spots" in c ==> c["truck_spots"] == e.tags["capacity:hgv"])
            && ("total_spots" in c ==> c["total_spots"] == e.tags["capacity"])
  {
    var c := CapacityOf(e.tags);
    if "capacity" in e.tags {
      assert "total_spots" in c;
    } else if "capacity:hgv" in e.tags {
      assert "truck_spots" in c;
    }
  }

  /** `amenities` holds exactly those of the ten amenity keys that are tagged, with their tag values. */
  lemma AmenityMapping(index: map<int, Position>, e: Element, area: seq<Position> -> real, now: string)
    ensures var a := FacilityFor(index, e, area, now).amenities;
            && (forall k :: k in a <==> k in e.tags && k in AmenityKeys)
            && (forall k :: k in a ==> a[k] == e.tags[k])
  {
  }

  /** The record's confidence score is the completeness score of the record itself and lies in [0.5, 1.0]. */
  lemma FacilityConfidence(index: map<int, Position>, e: Element, area: seq<Position> -> real, now: string)
    ensures var f := FacilityFor(index, e, area, now);
            && f.confidenceScore.Some?
            && 50 <= f.confidenceScore.value <= 100
            && f.confidenceScore.value == ConfidenceScore(f.(confidenceScore := None))
  {
  }

  // ---------------------------------------------------------------------
  // The second pass: de-duplication and record emission
  // ---------------------------------------------------------------------

  /**
   * The state of the second pass: the elements a record was emitted for, in
   * order, and the `processed_ids` set. The records themselves are
   * `Records` of the emitted elements, so that the bookkeeping can be reasoned
   * about on elements alone.
   */
  datatype Progress = Progress(emitted: seq<Element>, processed: set<int>)

  /** One iteration of the second pass. */
  function Step(p: Progress, e: Element): Progress {
    if e.id in p.processed || e.tags == map[] then p
    else Progress(p.emitted + [e], p.processed + {e.id})
  }

  /** The state after the second pass has seen `es`. */
  function Collected(es: seq<Element>): Progress {
    if es == [] then Progress([], {})
    else Step(Collected(es[..|es| - 1]), es[|es| - 1])
  }

  /** The record of each emitted element, in order. */
  function FacilitiesOf(index: map<int, Position>, area: seq<Position> -> real, now: string, em: seq<Element>): (r: seq<Facility>)
    ensures |r| == |em| && forall i :: 0 <= i < |em| ==> r[i] == FacilityFor(index, em[i], area, now)
  {
    seq(|em|, i requires 0 <= i < |em| => FacilityFor(index, em[i], area, now))
  }

  lemma FacilitiesOfSnoc(index: map<int, Position>, area: seq<Position> -> real, now: string, em: seq<Element>, e: Element)
    ensures FacilitiesOf(index, area, now, em + [e]) == FacilitiesOf(index, area, now, em) + [FacilityFor(index, e, area, now)]
  {
    var r, s := FacilitiesOf(index, area, now, em + [e]), FacilitiesOf(index, area, now, em) + [FacilityFor(index, e, area, now)];
    forall i | 0 <= i < |r|
      ensures r[i] == s[i]
    {
      if i < |em| {
        assert (em + [e])[i] == em[i];
      }
    }
  }

  /** The processed set is exactly the set of emitted ids, no id is emitted twice, and every emitted element has tags. */
  ghost predicate WellCollected(p: Progress) {
    && p.processed == (set e | e in p.emitted :: e.id)
    && (forall i, j :: 0 <= i < j < |p.emitted| ==> p.emitted[i].id != p.emitted[j].id)
    && (forall e :: e in p.emitted ==> e.tags != map[])
  }

  /** Some element of `es` with id `x` has tags. */
  ghost predicate TaggedId(es: seq<Element>, x: int) {
    exists i :: 0 <= i < |es| && es[i].id == x && es[i].tags != map[]
  }

  /** `es[i]` is the first element with its id that has tags. */
  ghost predicate FirstTagged(es: seq<Element>, i: int) {
    0 <= i < |es| && es[i].tags != map[] &&
    forall j :: 0 <= j < i && es[j].id == es[i].id ==> es[j].tags == map[]
  }

  lemma {:induction false} CollectedWell(es: seq<Element>)
    ensures WellCollected(Collected(es))
  {
    if es != [] {
      var init := es[..|es| - 1];
      var e := es[|es| - 1];
      var p := Collected(init);
      CollectedWell(init);
      var q := Step(p, e);
      if e.id !in p.processed && e.tags != map[] {
        assert q.emitted == p.emitted + [e];
        assert q.processed == (set g | g in q.emitted :: g.id);
        forall i, j | 0 <= i < j < |q.emitted|
          ensures q.emitted[i].id != q.emitted[j].id
        {
          if j == |p.emitted| {
            assert q.emitted[i] in p.emitted;
          }
        }
      }
    }
  }

  /** An id is processed exactly when some element seen so far with that id has tags. */
  lemma {:induction false} CollectedProcessed(es: seq<Element>, x: int)
    ensures x in Collected(es).processed <==> TaggedId(es, x)
  {
    if es != [] {
      var init := es[..|es| - 1];
      var e := es[|es| - 1];
      CollectedProcessed(init, x);
      if TaggedId(es, x) {
        var i :| 0 <= i < |es| && es[i].id == x && es[i].tags != map[];
        if i < |init| {
          assert init[i] == es[i];
        }
      }
      if TaggedId(init, x) {
        var i :| 0 <= i < |init| && init[i].id == x && init[i].tags != map[];
        assert es[i] == init[i];
      }
    }
  }

  /** Every emitted element is the first tagged element with its id. */
  lemma {:induction false} CollectedOrigin(es: seq<Element>, e: Element)
    requires e in Collected(es).emitted
    ensures exists i :: FirstTagged(es, i) && e == es[i]
  {
    var init := es[..|es| - 1];
    var last := es[|es| - 1];
    var p := Collected(init);
    if e in p.emitted {
      CollectedOrigin(init, e);
      var i :| FirstTagged(init, i) && e == init[i];
      assert forall j :: 0 <= j <= i ==> es[j] == init[j];
      assert FirstTagged(es, i);
    } else {
      var k := |es| - 1;
      assert last.id !in p.processed && last.tags != map[];
      forall j | 0 <= j < k && es[j].id == es[k].id
        ensures es[j].tags == map[]
      {
        if es[j].tags != map[] {
          assert init[j] == es[j];
          assert TaggedId(init, last.id);
          CollectedProcessed(init, last.id);
        }
      }
      assert FirstTagged(es, k);
    }
  }

  /**
   * The element loop of `collect_osm_truck_parking`: a first pass builds the
   * node lookup; the second skips elements whose id was already emitted or
   * whose tags are empty, and appends one record per remaining element.
   */
  method CollectOsmTruckParking(elements: seq<Element>, area: seq<Position> -> real, now: string)
    returns (facilities: seq<Facility>)
    ensures facilities == FacilitiesOf(NodeIndex(elements), area, now, Collected(elements).emitted)
    ensures forall i, j :: 0 <= i < j < |facilities| ==> facilities[i].osmId != facilities[j].osmId
    ensures forall x :: (exists f :: f in facilities && f.osmId == Some(x)) <==> TaggedId(elements, x)
    ensures forall f :: f in facilities ==>
              exists i :: FirstTagged(elements, i) && f == FacilityFor(NodeIndex(elements), elements[i], area, now)
  {
    var index := BuildNodeIndex(elements);
    facilities := [];
    var processed: set<int> := {};
    var i := 0;
    while i < |elements|
      invariant 0 <= i <= |elements|
      invariant processed == Collected(elements[..i]).processed
      invariant facilities == FacilitiesOf(index, area, now, Collected(elements[..i]).emitted)
    {
      var e := elements[i];
      assert elements[..i + 1][..i] == elements[..i];
      if e.id !in processed && e.tags != map[] {
        var f := BuildFacility(index, e, area, now);
        FacilitiesOfSnoc(index, area, now, Collected(elements[..i]).emitted, e);
        facilities := facilities + [f];
        processed := processed + {e.id};
      }
      i := i + 1;
    }
    assert elements[..i] == elements;
    CollectedDistinct(index, area, now, elements);
    forall x
      ensures (exists f :: f in facilities && f.osmId == Some(x)) <==> TaggedId(elements, x)
    {
      CollectedIds(index, area, now, elements, x);
    }
    CollectedRecords(index, area, now, elements);
  }

  /** Each record carries the OSM id of the element it was built from. */
  lemma FacilitiesOfIds(index: map<int, Position>, area: seq<Position> -> real, now: string, em: seq<Element>)
    ensures forall k :: 0 <= k < |em| ==> FacilitiesOf(index, area, now, em)[k].osmId == Some(em[k].id)
  {
    forall k | 0 <= k < |em|
      ensures FacilitiesOf(index, area, now, em)[k].osmId == Some(em[k].id)
    {
      FacilityIdentity(index, em[k], area, now);
    }
  }

  /** No two records of the pass share an OSM id. */
  lemma CollectedDistinct(index: map<int, Position>, area: seq<Position> -> real, now: string, es: seq<Element>)
    ensures var fs := FacilitiesOf(index, area, now, Collected(es).emitted);
            forall i, j :: 0 <= i < j < |fs| ==> fs[i].osmId != fs[j].osmId
  {
    CollectedWell(es);
    FacilitiesOfIds(index, area, now, Collected(es).emitted);
  }

  /** The pass emits an element with id `x` exactly when some element with id `x` has tags. */
  lemma EmittedIds(es: seq<Element>, x: int)
    ensures (exists k :: 0 <= k < |Collected(es).emitted| && Collected(es).emitted[k].id == x) <==> TaggedId(es, x)
  {
    var em := Collected(es).emitted;
    CollectedWell(es);
    CollectedProcessed(es, x);
    if x in Collected(es).processed {
      var e :| e in em && e.id == x;
      var k :| 0 <= k < |em| && em[k] == e;
    }
    if exists k :: 0 <= k < |em| && em[k].id == x {
      var k :| 0 <= k < |em| && em[k].id == x;
      assert em[k] in em;
    }
  }

  /** The pass emits a record with OSM id `x` exactly when some element with id `x` has tags. */
  lemma CollectedIds(index: map<int, Position>, area: seq<Position> -> real, now: string, es: seq<Element>, x: int)
    ensures var fs := FacilitiesOf(index, area, now, Collected(es).emitted);
            (exists f :: f in fs && f.osmId == Some(x)) <==> TaggedId(es, x)
  {
    var em := Collected(es).emitted;
    var fs := FacilitiesOf(index, area, now, em);
    EmittedIds(es, x);
    FacilitiesOfIds(index, area, now, em);
    if exists f :: f in fs && f.osmId == Some(x) {
      var f :| f in fs && f.osmId == Some(x);
      var k :| 0 <= k < |fs| && fs[k] == f;
    }
    if exists k :: 0 <= k < |em| && em[k].id == x {
      var k :| 0 <= k < |em| && em[k].id == x;
      assert fs[k] in fs;
    }
  }

  /** Every record of the pass is the record of the first tagged element with its id. */
  lemma CollectedRecords(index: map<int, Position>, area: seq<Position> -> real, now: string, es: seq<Element>)
    ensures var fs := FacilitiesOf(index, area, now, Collected(es).emitted);
            forall f :: f in fs ==> exists i :: FirstTagged(es, i) && f == FacilityFor(index, es[i], area, now)
  {
    var em := Collected(es).emitted;
    var fs := FacilitiesOf(index, area, now, em);
    forall f | f in fs
      ensures exists i :: FirstTagged(es, i) && f == FacilityFor(index, es[i], area, now)
    {
      var k :| 0 <= k < |fs| && fs[k] == f;
      CollectedOrigin(es, em[k]);
    }
  }
}
