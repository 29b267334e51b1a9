/**
 * osm_parking_extractor.py: the parking areas, individual parking spaces and
 * parking aisles Overpass reports around Maasvlakte Plaza, the declared
 * capacity they add up to, and the GeoJSON features drawn from the ones
 * that have a geometry. The Overpass query and the radius retries of the
 * driver are not part of this model.
 */
module OsmParkingExtractor {
  import opened Common
  import opened Counters
  import opened Osm
  import opened Records

  datatype ParkingArea = ParkingArea(id: int, kind: string, name: string, capacity: int, capacityHgv: string,
                                     parkingType: string, operator: string, fee: string,
                                     tags: map<string, string>, geometry: Option<Geometry>)

  datatype ParkingSpace = ParkingSpace(id: int, kind: string, geometry: Option<Geometry>)

  datatype ParkingAisle = ParkingAisle(id: int, kind: string)

  datatype ParkingStats = ParkingStats(areas: seq<ParkingArea>, spaces: seq<ParkingSpace>, aisles: seq<ParkingAisle>,
                                       totalCapacity: int, hgvCapacity: int)

  // ---------------------------------------------------------------------
  // What each element is
  // ---------------------------------------------------------------------

  predicate IsArea(e: Element) {
    Lookup(e.tags, "amenity") == Some("parking")
  }

  predicate IsSpace(e: Element) {
    !IsArea(e) && Lookup(e.tags, "amenity") == Some("parking_space")
  }

  predicate IsAisle(e: Element) {
    !IsArea(e) && !IsSpace(e) && Lookup(e.tags, "service") == Some("parking_aisle")
  }

  /** `int(tags.get('capacity', tags.get('capacity:hgv', 0)))`, with 0 when the conversion raises. */
  function Capacity(tags: map<string, string>): (n: int)
    ensures "capacity" in tags ==> n == ParseIntOrZero(tags["capacity"])
    ensures "capacity" !in tags && "capacity:hgv" in tags ==> n == ParseIntOrZero(tags["capacity:hgv"])
    ensures "capacity" !in tags && "capacity:hgv" !in tags ==> n == 0
  {
    if "capacity" in tags then ParseIntOrZero(tags["capacity"])
    else if "capacity:hgv" in tags then ParseIntOrZero(tags["capacity:hgv"])
    else 0
  }

  /** An area counts towards `hgv_capacity` when `hgv` is exactly `designated` or its name mentions trucks. */
  predicate HgvArea(tags: map<string, string>) {
    Lookup(tags, "hgv") == Some("designated") || Contains(Lower(GetOr(tags, "name", "")), "truck")
  }

  function AreaCapacity(e: Element): int {
    Capacity(e.tags)
  }

  predicate IsHgvArea(e: Element) {
    IsArea(e) && HgvArea(e.tags)
  }

  // ---------------------------------------------------------------------
  // Records
  // ---------------------------------------------------------------------

  /** A way's Polygon, whatever the number of its node ids that resolve. */
  function WayPolygon(index: map<int, Position>, e: Element): Geometry {
    Polygon(Resolve(index, e.nodes))
  }

  /** Only ways get an area geometry: a Polygon of every resolved node, even fewer than three. */
  function AreaGeometry(index: map<int, Position>, e: Element): (g: Option<Geometry>)
    ensures g.Some? <==> e.kind == Way
    ensures g.Some? ==> g.value.Polygon? && g.value.ring == Resolve(index, e.nodes)
  {
    if e.kind == Way then Some(WayPolygon(index, e)) else None
  }

  /** A node space is a Point at `[lon, lat]`, a way space a Polygon, anything else has no geometry. */
  function SpaceGeometry(index: map<int, Position>, e: Element): (g: Option<Geometry>)
    ensures e.kind == Node ==> g == Some(Point(Position(e.lon, e.lat)))
    ensures e.kind == Way ==> g.Some? && g.value.Polygon? && g.value.ring == Resolve(index, e.nodes)
    ensures e.kind != Node && e.kind != Way ==> g.None?
  {
    if e.kind == Node then Some(Point(Position(e.lon, e.lat)))
    else if e.kind == Way then Some(WayPolygon(index, e))
    else None
  }

  function AreaOf(index: map<int, Position>, e: Element): ParkingArea {
    var tags := e.tags;
    ParkingArea(e.id, KindName(e.kind), GetOr(tags, "name", "Unnamed"), Capacity(tags),
                FirstPresent(tags, ["capacity:hgv", "capacity:truck"], "N/A"),
                GetOr(tags, "parking", "surface"), GetOr(tags, "operator", "Unknown"),
                GetOr(tags, "fee", "Unknown"), tags, AreaGeometry(index, e))
  }

  function SpaceOf(index: map<int, Position>, e: Element): ParkingSpace {
    ParkingSpace(e.id, KindName(e.kind), SpaceGeometry(index, e))
  }

  function AisleOf(e: Element): ParkingAisle {
    ParkingAisle(e.id, KindName(e.kind))
  }

  /**
   * The displayed truck capacity is `capacity:hgv`, else `capacity:truck`,
   * else `N/A`; the name defaults to `Unnamed` and the operator to `Unknown`.
   */
  lemma AreaDefaults(index: map<int, Position>, e: Element)
    ensures var a := AreaOf(index, e);
            && ("capacity:hgv" in e.tags ==> a.capacityHgv == e.tags["capacity:hgv"])
            && ("capacity:hgv" !in e.tags && "capacity:truck" in e.tags ==> a.capacityHgv == e.tags["capacity:truck"])
            && ("capacity:hgv" !in e.tags && "capacity:truck" !in e.tags ==> a.capacityHgv == "N/A")
            && ("name" !in e.tags ==> a.name == "Unnamed")
            && ("operator" !in e.tags ==> a.operator == "Unknown")
            && a.capacity == Capacity(e.tags)
  {
    var keys := ["capacity:hgv", "capacity:truck"];
    assert keys[0] == "capacity:hgv" && keys[1] == "capacity:truck";
  }

  // ---------------------------------------------------------------------
  // The lists and sums over the element sequence
  // ---------------------------------------------------------------------

  function Areas(index: map<int, Position>, es: seq<Element>): (r: seq<ParkingArea>)
    ensures |r| == CountIf(es, IsArea)
  {
    if es == [] then []
    else
      var e := es[|es| - 1];
      Areas(index, es[..|es| - 1]) + (if IsArea(e) then [AreaOf(index, e)] else [])
  }

  function Spaces(index: map<int, Position>, es: seq<Element>): (r: seq<ParkingSpace>)
    ensures |r| == CountIf(es, IsSpace)
  {
    if es == [] then []
    else
      var e := es[|es| - 1];
      Spaces(index, es[..|es| - 1]) + (if IsSpace(e) then [SpaceOf(index, e)] else [])
  }

  function Aisles(es: seq<Element>): (r: seq<ParkingAisle>)
    ensures |r| == CountIf(es, IsAisle)
  {
    if es == [] then []
    else
      var e := es[|es| - 1];
      Aisles(es[..|es| - 1]) + (if IsAisle(e) then [AisleOf(e)] else [])
  }

  /** The sum of the `capacity` fields of a list of areas. */
  function CapacitySum(areas: seq<ParkingArea>): int {
    if areas == [] then 0 else CapacitySum(areas[..|areas| - 1]) + areas[|areas| - 1].capacity
  }

  lemma CapacitySumAppend(areas: seq<ParkingArea>, a: ParkingArea)
    ensures CapacitySum(areas + [a]) == CapacitySum(areas) + a.capacity
  {
    assert (areas + [a])[..|areas|] == areas;
  }

  /** `total_capacity` is the sum of the capacities of the listed areas. */
  lemma {:induction false} TotalIsAreaSum(index: map<int, Position>, es: seq<Element>)
    ensures SumIf(es, IsArea, AreaCapacity) == CapacitySum(Areas(index, es))
  {
    if es != [] {
      var init := es[..|es| - 1];
      var e := es[|es| - 1];
      TotalIsAreaSum(index, init);
      if IsArea(e) {
        CapacitySumAppend(Areas(index, init), AreaOf(index, e));
      } else {
        assert Areas(index, init) + [] == Areas(index, init);
        assert SumIf(es, IsArea, AreaCapacity) == SumIf(init, IsArea, AreaCapacity);
      }
    }
  }

  /** With non-negative capacities the truck capacity is part of the total capacity. */
  lemma HgvWithinTotal(es: seq<Element>)
    requires forall e :: e in es && IsArea(e) ==> AreaCapacity(e) >= 0
    ensures SumIf(es, IsHgvArea, AreaCapacity) <= SumIf(es, IsArea, AreaCapacity)
  {
    SumIfMonotone(es, IsArea, IsHgvArea, AreaCapacity);
  }

  /** Each element lands in at most one of the three lists. */
  lemma {:induction false} ListsDisjoint(es: seq<Element>)
    ensures CountIf(es, IsArea) + CountIf(es, IsSpace) + CountIf(es, IsAisle) <= |es|
  {
    if es != [] {
      ListsDisjoint(es[..|es| - 1]);
    }
  }

  lemma StatsSnoc(index: map<int, Position>, es: seq<Element>, e: Element)
    ensures Areas(index, es + [e]) == Areas(index, es) + (if IsArea(e) then [AreaOf(index, e)] else [])
    ensures Spaces(index, es + [e]) == Spaces(index, es) + (if IsSpace(e) then [SpaceOf(index, e)] else [])
    ensures Aisles(es + [e]) == Aisles(es) + (if IsAisle(e) then [AisleOf(e)] else [])
    ensures SumIf(es + [e], IsArea, AreaCapacity) == SumIf(es, IsArea, AreaCapacity) + (if IsArea(e) then AreaCapacity(e) else 0)
    ensures SumIf(es + [e], IsHgvArea, AreaCapacity) == SumIf(es, IsHgvArea, AreaCapacity) + (if IsHgvArea(e) then AreaCapacity(e) else 0)
  {
    assert (es + [e])[..|es|] == es;
  }

  // ---------------------------------------------------------------------
  // extract_parking_info
  // ---------------------------------------------------------------------

  /** The coordinate loop of a way, wrapped as its Polygon. */
  method BuildWayPolygon(index: map<int, Position>, e: Element) returns (g: Geometry)
    ensures g == WayPolygon(index, e)
  {
    var coords := ResolveWay(index, e.nodes);
    g := Polygon(coords);
  }

  /** One pass of the element loop body, updating `stats`. */
  method VisitElement(index: map<int, Position>, e: Element, st: ParkingStats) returns (st': ParkingStats)
    ensures st'.areas == st.areas + (if IsArea(e) then [AreaOf(index, e)] else [])
    ensures st'.spaces == st.spaces + (if IsSpace(e) then [SpaceOf(index, e)] else [])
    ensures st'.aisles == st.aisles + (if IsAisle(e) then [AisleOf(e)] else [])
    ensures st'.totalCapacity == st.totalCapacity + (if IsArea(e) then AreaCapacity(e) else 0)
    ensures st'.hgvCapacity == st.hgvCapacity + (if IsHgvArea(e) then AreaCapacity(e) else 0)
  {
    st' := st;
    var tags := e.tags;
    if Lookup(tags, "amenity") == Some("parking") {
      var capacity := Capacity(tags);
      var geometry: Option<Geometry> := None;
      if e.kind == Way {
        var g := BuildWayPolygon(index, e);
        geometry := Some(g);
      }
      var area := ParkingArea(e.id, KindName(e.kind), GetOr(tags, "name", "Unnamed"), capacity,
                              FirstPresent(tags, ["capacity:hgv", "capacity:truck"], "N/A"),
                              GetOr(tags, "parking", "surface"), GetOr(tags, "operator", "Unknown"),
                              GetOr(tags, "fee", "Unknown"), tags, geometry);
      st' := st'.(areas := st'.areas + [area], totalCapacity := st'.totalCapacity + capacity);
      if Lookup(tags, "hgv") == Some("designated") || Contains(Lower(GetOr(tags, "name", "")), "truck") {
        st' := st'.(hgvCapacity := st'.hgvCapacity + capacity);
      }
    } else if Lookup(tags, "amenity") == Some("parking_space") {
      var geometry: Option<Geometry> := None;
      if e.kind == Node {
        geometry := Some(Point(Position(e.lon, e.lat)));
      } else if e.kind == Way {
        var g := BuildWayPolygon(index, e);
        geometry := Some(g);
      }
      st' := st'.(spaces := st'.spaces + [ParkingSpace(e.id, KindName(e.kind), geometry)]);
    } else if Lookup(tags, "service") == Some("parking_aisle") {
      st' := st'.(aisles := st'.aisles + [ParkingAisle(e.id, KindName(e.kind))]);
    }
  }

  method ExtractParkingInfo(elements: seq<Element>) returns (st: ParkingStats)
    ensures st.areas == Areas(NodeIndex(elements), elements)
    ensures st.spaces == Spaces(NodeIndex(elements), elements)
    ensures st.aisles == Aisles(elements)
    ensures st.totalCapacity == SumIf(elements, IsArea, AreaCapacity) == CapacitySum(st.areas)
    ensures st.hgvCapacity == SumIf(elements, IsHgvArea, AreaCapacity)
    ensures |st.areas| + |st.spaces| + |st.aisles| <= |elements|
  {
    st := ParkingStats([], [], [], 0, 0);
    var index := BuildNodeIndex(elements);
    var i := 0;
    while i < |elements|
      invariant 0 <= i <= |elements|
      invariant st.areas == Areas(index, elements[..i])
      invariant st.spaces == Spaces(index, elements[..i])
      invariant st.aisles == Aisles(elements[..i])
      invariant st.totalCapacity == SumIf(elements[..i], IsArea, AreaCapacity)
      invariant st.hgvCapacity == SumIf(elements[..i], IsHgvArea, AreaCapacity)
    {
      TakeSnoc(elements, i);
      StatsSnoc(index, elements[..i], elements[i]);
      st := VisitElement(index, elements[i], st);
      i := i + 1;
    }
    assert elements[..i] == elements;
    TotalIsAreaSum(index, elements);
    ListsDisjoint(elements);
  }

  // ---------------------------------------------------------------------
  // create_parking_geojson
  // ---------------------------------------------------------------------

  datatype Feature = Feature(geometry: Geometry, properties: map<string, Value>)

  function AreaFeature(a: ParkingArea): Feature
    requires a.geometry.Some?
  {
    Feature(a.geometry.value,
            map["type" := Str("parking_area"), "name" := Str(a.name), "capacity" := Int(a.capacity),
                "capacity_hgv" := Str(a.capacityHgv), "parking_type" := Str(a.parkingType),
                "operator" := Str(a.operator), "fee" := Str(a.fee)])
  }

  function SpaceFeature(s: ParkingSpace): Feature
    requires s.geometry.Some?
  {
    Feature(s.geometry.value, map["type" := Str("parking_space")])
  }

  predicate AreaHasGeometry(a: ParkingArea) {
    a.geometry.Some?
  }

  predicate SpaceHasGeometry(s: ParkingSpace) {
    s.geometry.Some?
  }

  function AreaFeatures(areas: seq<ParkingArea>): (r: seq<Feature>)
    ensures |r| == CountIf(areas, AreaHasGeometry)
  {
    if areas == [] then []
    else
      var a := areas[|areas| - 1];
      AreaFeatures(areas[..|areas| - 1]) + (if a.geometry.Some? then [AreaFeature(a)] else [])
  }

  function SpaceFeatures(spaces: seq<ParkingSpace>): (r: seq<Feature>)
    ensures |r| == CountIf(spaces, SpaceHasGeometry)
  {
    if spaces == [] then []
    else
      var s := spaces[|spaces| - 1];
      SpaceFeatures(spaces[..|spaces| - 1]) + (if s.geometry.Some? then [SpaceFeature(s)] else [])
  }

  /** Every area feature carries the geometry of an area it was drawn from. */
  lemma {:induction false} AreaFeatureOrigin(areas: seq<ParkingArea>, f: Feature)
    requires f in AreaFeatures(areas)
    ensures exists a :: a in areas && a.geometry == Some(f.geometry) && f == AreaFeature(a)
  {
    var init := areas[..|areas| - 1];
    if f in AreaFeatures(init) {
      AreaFeatureOrigin(init, f);
      var a :| a in init && a.geometry == Some(f.geometry) && f == AreaFeature(a);
      assert a in areas;
    } else {
      assert areas[|areas| - 1] in areas;
    }
  }

  /**
   * Every way area has a geometry, so the GeoJSON has one area feature per
   * parking area that is a way.
   */
  lemma {:induction false} WayAreasDrawn(index: map<int, Position>, es: seq<Element>)
    ensures |AreaFeatures(Areas(index, es))| == CountIf(es, (e: Element) => IsArea(e) && e.kind == Way)
  {
    if es != [] {
      var init := es[..|es| - 1];
      var e := es[|es| - 1];
      WayAreasDrawn(index, init);
      var before := Areas(index, init);
      if IsArea(e) {
        var a := AreaOf(index, e);
        CountIfSnoc(before, a, AreaHasGeometry);
      } else {
        assert Areas(index, es) == before;
      }
    }
  }

  method AppendAreaFeatures(features: seq<Feature>, areas: seq<ParkingArea>) returns (out: seq<Feature>)
    ensures out == features + AreaFeatures(areas)
  {
    out := features;
    var i := 0;
    while i < |areas|
      invariant 0 <= i <= |areas|
      invariant out == features + AreaFeatures(areas[..i])
    {
      TakeSnoc(areas, i);
      assert areas[..i + 1][..i] == areas[..i];
      if areas[i].geometry.Some? {
        out := out + [AreaFeature(areas[i])];
      }
      i := i + 1;
    }
    assert areas[..i] == areas;
  }

  method AppendSpaceFeatures(features: seq<Feature>, spaces: seq<ParkingSpace>) returns (out: seq<Feature>)
    ensures out == features + SpaceFeatures(spaces)
  {
    out := features;
    var i := 0;
    while i < |spaces|
      invariant 0 <= i <= |spaces|
      invariant out == features + SpaceFeatures(spaces[..i])
    {
      TakeSnoc(spaces, i);
      assert spaces[..i + 1][..i] == spaces[..i];
      if spaces[i].geometry.Some? {
        out := out + [SpaceFeature(spaces[i])];
      }
      i := i + 1;
    }
    assert spaces[..i] == spaces;
  }

  /** The features: one per area with a geometry, then one per space with a geometry. */
  method CreateParkingGeojson(info: ParkingStats) returns (features: seq<Feature>)
    ensures features == AreaFeatures(info.areas) + SpaceFeatures(info.spaces)
    ensures |features| == CountIf(info.areas, AreaHasGeometry) + CountIf(info.spaces, SpaceHasGeometry)
  {
    features := AppendAreaFeatures([], info.areas);
    features := AppendSpaceFeatures(features, info.spaces);
  }
}
