/**
 * extract_all_osm_parking.py: for each truck-parking facility the Overpass
 * elements around it are split into parking areas (`amenity=parking`) and
 * individual parking spaces (`amenity=parking_space`); every area is
 * classified as truck, LZV (long heavy vehicle combination) or car parking
 * from its tags, and its capacity is added to the per-vehicle-type totals.
 * The overlay then collects every area and space that has a polygon. The
 * Overpass query itself is not part of this model.
 */
module ExtractAllOsmParking {
  import opened Common
  import opened Counters
  import opened Osm
  import opened Records

  // ---------------------------------------------------------------------
  // classify_parking_from_osm
  // ---------------------------------------------------------------------

  datatype VehicleType = Truck | Lzv | Car

  /** The `vehicle_type` string. */
  function VehicleTypeName(v: VehicleType): (s: string)
    ensures s in {"truck", "lzv", "car"}
  {
    match v
    case Truck => "truck"
    case Lzv => "lzv"
    case Car => "car"
  }

  /** The display label each vehicle type is given. */
  function Label(v: VehicleType): string {
    match v
    case Truck => "Truck Parking"
    case Lzv => "LZV Parking"
    case Car => "Car/Van Parking"
  }

  /** The map colour each vehicle type is given. */
  function Color(v: VehicleType): string {
    match v
    case Truck => "#ef4444"
    case Lzv => "#7c2d12"
    case Car => "#3b82f6"
  }

  /**
   * The classification dictionary. `is_hgv` holds the truthiness of the
   * signal expression (the source stores the value of the `or` chain).
   */
  datatype ParkingClass = ParkingClass(vehicleType: VehicleType, vehicleLabel: string, color: string,
                                       capacityTotal: int, capacityHgv: int, capacityCar: int,
                                       isHgv: bool)

  /** `int(tags.get(k, 0))`, with 0 when the conversion raises. */
  function TagInt(tags: map<string, string>, k: string): int {
    if k in tags then ParseIntOrZero(tags[k]) else 0
  }

  /** `int(tags.get('capacity:hgv', tags.get('capacity:truck', 0)))`, with 0 when the conversion raises. */
  function HgvCapacity(tags: map<string, string>): int {
    if "capacity:hgv" in tags then ParseIntOrZero(tags["capacity:hgv"]) else TagInt(tags, "capacity:truck")
  }

  /** `tags.get('name', '').lower()`. */
  function LowerName(tags: map<string, string>): string {
    Lower(GetOr(tags, "name", ""))
  }

  /** The truck signals: an `hgv` tag of `designated` or `yes`, a capacity tag for trucks, or a truck word in the name. */
  predicate HgvSignal(tags: map<string, string>) {
    || Lookup(tags, "hgv") == Some("designated")
    || Lookup(tags, "hgv") == Some("yes")
    || Truthy(Lookup(tags, "capacity:hgv"))
    || Truthy(Lookup(tags, "capacity:truck"))
    || Contains(LowerName(tags), "truck")
    || Contains(LowerName(tags), "hgv")
    || Contains(LowerName(tags), "vrachtwagen")
  }

  /** The LZV signals: `lzv` or `lang zwaar` in the name, or a `maxlength` of exactly `25.25`. */
  predicate LzvSignal(tags: map<string, string>) {
    || Contains(LowerName(tags), "lzv")
    || Contains(LowerName(tags), "lang zwaar")
    || GetOr(tags, "maxlength", "0") == "25.25"
  }

  function ClassifyParkingFromOsm(tags: map<string, string>): (r: ParkingClass)
    ensures r.vehicleLabel == Label(r.vehicleType) && r.color == Color(r.vehicleType)
    ensures r.capacityTotal == TagInt(tags, "capacity")
    ensures r.capacityHgv == HgvCapacity(tags)
    ensures r.capacityCar == TagInt(tags, "capacity:car")
    ensures r.isHgv == HgvSignal(tags)
  {
    var isHgv := HgvSignal(tags);
    var capacity := TagInt(tags, "capacity");
    var capacityHgv := HgvCapacity(tags);
    var capacityCar := TagInt(tags, "capacity:car");
    if isHgv || capacityHgv > 0 then
      if LzvSignal(tags) then ParkingClass(Lzv, "LZV Parking", "#7c2d12", capacity, capacityHgv, capacityCar, isHgv)
      else ParkingClass(Truck, "Truck Parking", "#ef4444", capacity, capacityHgv, capacityCar, isHgv)
    else if capacityCar > 0 then ParkingClass(Car, "Car/Van Parking", "#3b82f6", capacity, capacityHgv, capacityCar, isHgv)
    else ParkingClass(Truck, "Truck Parking", "#ef4444", capacity, capacityHgv, capacityCar, isHgv)
  }

  /**
   * The vehicle type in both directions: LZV exactly when a truck signal or
   * a positive truck capacity meets an LZV signal; car exactly when there is
   * neither truck signal nor positive truck capacity but a positive car
   * capacity; truck in every other case, including when nothing is tagged.
   */
  lemma VehicleTypeIff(tags: map<string, string>)
    ensures var v := ClassifyParkingFromOsm(tags).vehicleType;
            && (v == Lzv <==> (HgvSignal(tags) || HgvCapacity(tags) > 0) && LzvSignal(tags))
            && (v == Car <==> !HgvSignal(tags) && HgvCapacity(tags) <= 0 && TagInt(tags, "capacity:car") > 0)
            && (v == Truck <==> ((HgvSignal(tags) || HgvCapacity(tags) > 0) && !LzvSignal(tags)) ||
                                (!HgvSignal(tags) && HgvCapacity(tags) <= 0 && TagInt(tags, "capacity:car") <= 0))
  {
  }

  /** A capacity tag that is absent or does not parse as an integer counts as 0; one that parses counts as its value. */
  lemma CapacityParsing(tags: map<string, string>, k: string)
    ensures k !in tags ==> TagInt(tags, k) == 0
    ensures k in tags && ParseInt(tags[k]).None? ==> TagInt(tags, k) == 0
    ensures k in tags && ParseInt(tags[k]).Some? ==> TagInt(tags, k) == ParseInt(tags[k]).value
  {
  }

  /**
   * `capacity:hgv` wins whenever it is tagged, even when it does not parse;
   * `capacity:truck` is read only in its absence, and with neither the
   * truck capacity is 0.
   */
  lemma HgvCapacityFallback(tags: map<string, string>)
    ensures "capacity:hgv" in tags ==> ClassifyParkingFromOsm(tags).capacityHgv == ParseIntOrZero(tags["capacity:hgv"])
    ensures "capacity:hgv" !in tags ==> ClassifyParkingFromOsm(tags).capacityHgv == TagInt(tags, "capacity:truck")
    ensures "capacity:hgv" !in tags && "capacity:truck" !in tags ==> ClassifyParkingFromOsm(tags).capacityHgv == 0
  {
  }

  /** Distinct vehicle types get distinct labels and colours. */
  lemma LabelsDistinct(v: VehicleType, w: VehicleType)
    ensures Label(v) == Label(w) <==> v == w
    ensures Color(v) == Color(w) <==> v == w
    ensures VehicleTypeName(v) == VehicleTypeName(w) <==> v == w
  {
  }

  // ---------------------------------------------------------------------
  // extract_parking_from_osm
  // ---------------------------------------------------------------------

  /** A parking area; `geometry` is the single ring of its Polygon when it has one. */
  datatype ParkingArea = ParkingArea(osmId: int, osmType: string, name: string, operator: string,
                                     fee: string, openingHours: string, surface: string,
                                     classification: ParkingClass, tags: map<string, string>,
                                     geometry: Option<seq<Position>>)

  datatype ParkingSpace = ParkingSpace(osmId: int, osmType: string, geometry: Option<seq<Position>>)

  datatype ParkingData = ParkingData(facilityId: string, areas: seq<ParkingArea>, spaces: seq<ParkingSpace>,
                                     totalCapacity: int, truckCapacity: int, carCapacity: int,
                                     lzvCapacity: int, hasOsmData: bool)

  /** `tags.get('amenity') == 'parking'`. */
  predicate IsArea(e: Element) {
    Lookup(e.tags, "amenity") == Some("parking")
  }

  /** The `elif tags.get('amenity') == 'parking_space'` branch. */
  predicate IsSpace(e: Element) {
    !IsArea(e) && Lookup(e.tags, "amenity") == Some("parking_space")
  }

  /** The Polygon ring of an element: only ways get one, and only when at least 3 of their node ids resolve. */
  function Ring(index: map<int, Position>, e: Element): (g: Option<seq<Position>>)
    ensures g.Some? <==> e.kind == Way && |Resolve(index, e.nodes)| >= 3
    ensures g.Some? ==> g.value == Resolve(index, e.nodes)
  {
    if e.kind == Way then
      var coords := Resolve(index, e.nodes);
      if |coords| >= 3 then Some(coords) else None
    else None
  }

  function AreaOf(index: map<int, Position>, e: Element): ParkingArea {
    ParkingArea(e.id, KindName(e.kind), GetOr(e.tags, "name", "Unnamed Parking"),
                GetOr(e.tags, "operator", "Unknown"), GetOr(e.tags, "fee", "unknown"),
                GetOr(e.tags, "opening_hours", "24/7"), GetOr(e.tags, "surface", "paved"),
                ClassifyParkingFromOsm(e.tags), e.tags, Ring(index, e))
  }

  function SpaceOf(index: map<int, Position>, e: Element): ParkingSpace {
    ParkingSpace(e.id, KindName(e.kind), Ring(index, e))
  }

  /** The parking areas among `es`, in element order. */
  function Areas(index: map<int, Position>, es: seq<Element>): (r: seq<ParkingArea>)
    ensures |r| == CountIf(es, IsArea)
  {
    if es == [] then []
    else
      var e := es[|es| - 1];
      Areas(index, es[..|es| - 1]) + (if IsArea(e) then [AreaOf(index, e)] else [])
  }

  /** The parking spaces among `es`, in element order. */
  function Spaces(index: map<int, Position>, es: seq<Element>): (r: seq<ParkingSpace>)
    ensures |r| == CountIf(es, IsSpace)
  {
    if es == [] then []
    else
      var e := es[|es| - 1];
      Spaces(index, es[..|es| - 1]) + (if IsSpace(e) then [SpaceOf(index, e)] else [])
  }

  function AreaCapacity(e: Element): int {
    ClassifyParkingFromOsm(e.tags).capacityTotal
  }

  function AreaType(e: Element): VehicleType {
    ClassifyParkingFromOsm(e.tags).vehicleType
  }

  /** `total_capacity`: the capacity of every parking area. */
  function TotalCapacity(es: seq<Element>): int {
    if es == [] then 0
    else
      var e := es[|es| - 1];
      TotalCapacity(es[..|es| - 1]) + (if IsArea(e) then AreaCapacity(e) else 0)
  }

  /** The capacity of the parking areas whose vehicle type is in `ts`. */
  function TypeCapacity(es: seq<Element>, ts: set<VehicleType>): int {
    if es == [] then 0
    else
      var e := es[|es| - 1];
      TypeCapacity(es[..|es| - 1], ts) + (if IsArea(e) && AreaType(e) in ts then AreaCapacity(e) else 0)
  }

  /** `has_osm_data`: some element seen is a parking area or a parking space. */
  function AnyParking(es: seq<Element>): bool {
    if es == [] then false else AnyParking(es[..|es| - 1]) || IsArea(es[|es| - 1]) || IsSpace(es[|es| - 1])
  }

  lemma {:induction false} AnyParkingIff(es: seq<Element>)
    ensures AnyParking(es) <==> exists i :: 0 <= i < |es| && (IsArea(es[i]) || IsSpace(es[i]))
  {
    if es != [] {
      var init := es[..|es| - 1];
      AnyParkingIff(init);
      if exists i :: 0 <= i < |init| && (IsArea(init[i]) || IsSpace(init[i])) {
        var i :| 0 <= i < |init| && (IsArea(init[i]) || IsSpace(init[i]));
        assert es[i] == init[i];
      }
      if exists i :: 0 <= i < |es| && (IsArea(es[i]) || IsSpace(es[i])) {
        var i :| 0 <= i < |es| && (IsArea(es[i]) || IsSpace(es[i]));
        if i < |init| {
          assert init[i] == es[i];
        }
      }
    }
  }

  /** The capacity of the areas of two disjoint sets of vehicle types adds up. */
  lemma {:induction false} TypeCapacityUnion(es: seq<Element>, s: set<VehicleType>, t: set<VehicleType>)
    requires s !! t
    ensures TypeCapacity(es, s + t) == TypeCapacity(es, s) + TypeCapacity(es, t)
  {
    if es != [] {
      TypeCapacityUnion(es[..|es| - 1], s, t);
    }
  }

  /** Every area has one of the three vehicle types, so their capacities make up the total. */
  lemma {:induction false} TypeCapacityAll(es: seq<Element>)
    ensures TypeCapacity(es, {Truck, Lzv, Car}) == TotalCapacity(es)
  {
    if es != [] {
      TypeCapacityAll(es[..|es| - 1]);
      var v := AreaType(es[|es| - 1]);
      assert v == Truck || v == Lzv || v == Car;
    }
  }

  /**
   * The per-type totals: LZV capacity is counted as truck capacity too, so
   * the truck and car capacities together are the total capacity.
   */
  lemma CapacityTotals(es: seq<Element>)
    ensures TypeCapacity(es, {Truck, Lzv}) == TypeCapacity(es, {Truck}) + TypeCapacity(es, {Lzv})
    ensures TypeCapacity(es, {Truck, Lzv}) + TypeCapacity(es, {Car}) == TotalCapacity(es)
  {
    TypeCapacityUnion(es, {Truck}, {Lzv});
    TypeCapacityUnion(es, {Truck, Lzv}, {Car});
    assert {Truck, Lzv} + {Car} == {Truck, Lzv, Car};
    TypeCapacityAll(es);
  }

  /** No element is both an area and a space, so the two lists together are no longer than the elements. */
  lemma AreasAndSpaces(index: map<int, Position>, es: seq<Element>)
    ensures |Areas(index, es)| + |Spaces(index, es)| <= |es|
  {
    CountIfDisjoint(es, IsArea, IsSpace);
  }

  /** Every area listed is the record of a parking-area element. */
  lemma {:induction false} AreaOrigin(index: map<int, Position>, es: seq<Element>, a: ParkingArea)
    requires a in Areas(index, es)
    ensures exists i :: 0 <= i < |es| && IsArea(es[i]) && a == AreaOf(index, es[i])
  {
    var init := es[..|es| - 1];
    if a in Areas(index, init) {
      AreaOrigin(index, init, a);
      var i :| 0 <= i < |init| && IsArea(init[i]) && a == AreaOf(index, init[i]);
      assert es[i] == init[i];
    }
  }

  lemma AreasSnoc(index: map<int, Position>, es: seq<Element>, e: Element)
    ensures Areas(index, es + [e]) == Areas(index, es) + (if IsArea(e) then [AreaOf(index, e)] else [])
    ensures Spaces(index, es + [e]) == Spaces(index, es) + (if IsSpace(e) then [SpaceOf(index, e)] else [])
    ensures AnyParking(es + [e]) == (AnyParking(es) || IsArea(e) || IsSpace(e))
  {
    assert (es + [e])[..|es|] == es;
  }

  /** The capacity bookkeeping of one more area. */
  lemma CapacitySnoc(es: seq<Element>, e: Element, ts: set<VehicleType>)
    ensures TotalCapacity(es + [e]) == TotalCapacity(es) + (if IsArea(e) then AreaCapacity(e) else 0)
    ensures TypeCapacity(es + [e], ts) == TypeCapacity(es, ts) + (if IsArea(e) && AreaType(e) in ts then AreaCapacity(e) else 0)
  {
    assert (es + [e])[..|es|] == es;
  }

  /** The record of one parking area. */
  method BuildArea(index: map<int, Position>, e: Element, c: ParkingClass) returns (a: ParkingArea)
    requires c == ClassifyParkingFromOsm(e.tags)
    ensures a == AreaOf(index, e)
  {
    var tags := e.tags;
    var geometry := ElementRing(index, e);
    a := ParkingArea(e.id, KindName(e.kind), GetOr(tags, "name", "Unnamed Parking"),
                     GetOr(tags, "operator", "Unknown"), GetOr(tags, "fee", "unknown"),
                     GetOr(tags, "opening_hours", "24/7"), GetOr(tags, "surface", "paved"),
                     c, tags, geometry);
  }

  /**
   * The capacity bookkeeping for one area of type `v` and capacity `n`: LZV
   * capacity counts towards the truck capacity too.
   */
  method AddCapacity(total: int, truck: int, lzv: int, car: int, v: VehicleType, n: int)
    returns (total': int, truck': int, lzv': int, car': int)
    ensures total' == total + n
    ensures truck' == truck + (if v in {Truck, Lzv} then n else 0)
    ensures lzv' == lzv + (if v in {Lzv} then n else 0)
    ensures car' == car + (if v in {Car} then n else 0)
  {
    total', truck', lzv', car' := total + n, truck, lzv, car;
    if v == Truck {
      truck' := truck' + n;
    } else if v == Lzv {
      lzv' := lzv' + n;
      truck' := truck' + n;
    } else if v == Car {
      car' := car' + n;
    }
  }

  /** The element loop: one Polygon ring per way with at least 3 resolved nodes. */
  method ElementRing(index: map<int, Position>, e: Element) returns (g: Option<seq<Position>>)
    ensures g == Ring(index, e)
  {
    g := None;
    if e.kind == Way {
      var coords := ResolveWay(index, e.nodes);
      if |coords| >= 3 {
        g := Some(coords);
      }
    }
  }

  /** One pass of the element loop body, updating the `result` dictionary. */
  method VisitElement(index: map<int, Position>, e: Element, r: ParkingData) returns (r': ParkingData)
    ensures r'.facilityId == r.facilityId
    ensures r'.areas == r.areas + (if IsArea(e) then [AreaOf(index, e)] else [])
    ensures r'.spaces == r.spaces + (if IsSpace(e) then [SpaceOf(index, e)] else [])
    ensures r'.hasOsmData == (r.hasOsmData || IsArea(e) || IsSpace(e))
    ensures r'.totalCapacity == r.totalCapacity + (if IsArea(e) then AreaCapacity(e) else 0)
    ensures r'.truckCapacity == r.truckCapacity + (if IsArea(e) && AreaType(e) in {Truck, Lzv} then AreaCapacity(e) else 0)
    ensures r'.lzvCapacity == r.lzvCapacity + (if IsArea(e) && AreaType(e) in {Lzv} then AreaCapacity(e) else 0)
    ensures r'.carCapacity == r.carCapacity + (if IsArea(e) && AreaType(e) in {Car} then AreaCapacity(e) else 0)
  {
    r' := r;
    var tags := e.tags;
    if Lookup(tags, "amenity") == Some("parking") {
      r' := r'.(hasOsmData := true);
      var c := ClassifyParkingFromOsm(tags);
      var area := BuildArea(index, e, c);
      r' := r'.(areas := r'.areas + [area]);
      var total, truck, lzv, car :=
        AddCapacity(r'.totalCapacity, r'.truckCapacity, r'.lzvCapacity, r'.carCapacity, c.vehicleType, c.capacityTotal);
      r' := r'.(totalCapacity := total, truckCapacity := truck, lzvCapacity := lzv, carCapacity := car);
    } else if Lookup(tags, "amenity") == Some("parking_space") {
      r' := r'.(hasOsmData := true);
      var geometry := ElementRing(index, e);
      r' := r'.(spaces := r'.spaces + [ParkingSpace(e.id, KindName(e.kind), geometry)]);
    }
  }

  method ExtractParkingFromOsm(elements: seq<Element>, facilityId: string) returns (r: ParkingData)
    ensures r.facilityId == facilityId
    ensures r.areas == Areas(NodeIndex(elements), elements)
    ensures r.spaces == Spaces(NodeIndex(elements), elements)
    ensures r.totalCapacity == TotalCapacity(elements)
    ensures r.truckCapacity == TypeCapacity(elements, {Truck, Lzv})
    ensures r.lzvCapacity == TypeCapacity(elements, {Lzv})
    ensures r.carCapacity == TypeCapacity(elements, {Car})
    ensures r.truckCapacity + r.carCapacity == r.totalCapacity
    ensures r.hasOsmData <==> exists i :: 0 <= i < |elements| && (IsArea(elements[i]) || IsSpace(elements[i]))
  {
    r := ParkingData(facilityId, [], [], 0, 0, 0, 0, false);
    var index := BuildNodeIndex(elements);
    var i := 0;
    while i < |elements|
      invariant 0 <= i <= |elements|
      invariant r.facilityId == facilityId
      invariant r.areas == Areas(index, elements[..i])
      invariant r.spaces == Spaces(index, elements[..i])
      invariant r.hasOsmData == AnyParking(elements[..i])
      invariant r.totalCapacity == TotalCapacity(elements[..i])
      invariant r.truckCapacity == TypeCapacity(elements[..i], {Truck, Lzv})
      invariant r.lzvCapacity == TypeCapacity(elements[..i], {Lzv})
      invariant r.carCapacity == TypeCapacity(elements[..i], {Car})
    {
      TakeSnoc(elements, i);
      AreasSnoc(index, elements[..i], elements[i]);
      CapacitySnoc(elements[..i], elements[i], {Truck, Lzv});
      CapacitySnoc(elements[..i], elements[i], {Lzv});
      CapacitySnoc(elements[..i], elements[i], {Car});
      r := VisitElement(index, elements[i], r);
      i := i + 1;
    }
    assert elements[..i] == elements;
    AnyParkingIff(elements);
    CapacityTotals(elements);
  }

  // ---------------------------------------------------------------------
  // create_comprehensive_geojson
  // ---------------------------------------------------------------------

  /** One facility's entry of the results list: its parking data with `facility_name` added. */
  datatype FacilityResult = FacilityResult(name: string, parking: ParkingData)

  /** A feature of the overlay: a polygon and its properties. */
  datatype OverlayFeature = OverlayFeature(ring: seq<Position>, properties: map<string, Value>)

  function AreaProperties(res: FacilityResult, a: ParkingArea): map<string, Value> {
    var c := a.classification;
    map["feature_type" := Str("parking_area"), "facility_id" := Str(res.parking.facilityId),
        "facility_name" := Str(res.name), "osm_id" := Int(a.osmId), "osm_type" := Str(a.osmType),
        "name" := Str(a.name), "operator" := Str(a.operator), "fee" := Str(a.fee),
        "opening_hours" := Str(a.openingHours), "surface" := Str(a.surface),
        "vehicle_type" := Str(VehicleTypeName(c.vehicleType)), "vehicle_label" := Str(c.vehicleLabel),
        "color" := Str(c.color), "capacity_total" := Int(c.capacityTotal),
        "capacity_hgv" := Int(c.capacityHgv), "capacity_car" := Int(c.capacityCar),
        "is_hgv" := Bool(c.isHgv)]
  }

  function SpaceProperties(res: FacilityResult, s: ParkingSpace): map<string, Value> {
    map["feature_type" := Str("parking_space"), "facility_id" := Str(res.parking.facilityId),
        "facility_name" := Str(res.name), "osm_id" := Int(s.osmId), "osm_type" := Str(s.osmType),
        "color" := Str("#10b981")]
  }

  /** The features of a facility's areas that have a polygon, in order. */
  function AreaFeatures(res: FacilityResult, areas: seq<ParkingArea>): (r: seq<OverlayFeature>)
    ensures |r| == CountIf(areas, (a: ParkingArea) => a.geometry.Some?)
  {
    if areas == [] then []
    else
      var a := areas[|areas| - 1];
      AreaFeatures(res, areas[..|areas| - 1]) +
        (if a.geometry.Some? then [OverlayFeature(a.geometry.value, AreaProperties(res, a))] else [])
  }

  /** The features of a facility's spaces that have a polygon, in order. */
  function SpaceFeatures(res: FacilityResult, spaces: seq<ParkingSpace>): (r: seq<OverlayFeature>)
    ensures |r| == CountIf(spaces, (s: ParkingSpace) => s.geometry.Some?)
  {
    if spaces == [] then []
    else
      var s := spaces[|spaces| - 1];
      SpaceFeatures(res, spaces[..|spaces| - 1]) +
        (if s.geometry.Some? then [OverlayFeature(s.geometry.value, SpaceProperties(res, s))] else [])
  }

  /** The features one facility contributes: none without OSM data, else its areas' features before its spaces'. */
  function FacilityFeatures(res: FacilityResult): seq<OverlayFeature> {
    if res.parking.hasOsmData then AreaFeatures(res, res.parking.areas) + SpaceFeatures(res, res.parking.spaces)
    else []
  }

  /** The overlay: every facility's features, in facility order. */
  function Overlay(results: seq<FacilityResult>): seq<OverlayFeature> {
    if results == [] then []
    else Overlay(results[..|results| - 1]) + FacilityFeatures(results[|results| - 1])
  }

  /** The number of features with a polygon that one facility contributes. */
  function FeatureCount(res: FacilityResult): nat {
    if res.parking.hasOsmData
    then CountIf(res.parking.areas, (a: ParkingArea) => a.geometry.Some?) +
         CountIf(res.parking.spaces, (s: ParkingSpace) => s.geometry.Some?)
    else 0
  }

  function TotalFeatureCount(results: seq<FacilityResult>): nat {
    if results == [] then 0 else TotalFeatureCount(results[..|results| - 1]) + FeatureCount(results[|results| - 1])
  }

  /** The overlay has exactly one feature per area or space with a polygon of a facility with OSM data. */
  lemma {:induction false} OverlayCount(results: seq<FacilityResult>)
    ensures |Overlay(results)| == TotalFeatureCount(results)
  {
    if results != [] {
      OverlayCount(results[..|results| - 1]);
    }
  }

  /** Every area feature comes from an area of the facility that has a polygon, and carries it. */
  lemma {:induction false} AreaFeatureOrigin(res: FacilityResult, areas: seq<ParkingArea>, f: OverlayFeature)
    requires f in AreaFeatures(res, areas)
    ensures exists a :: a in areas && a.geometry == Some(f.ring) && f.properties == AreaProperties(res, a)
  {
    var init := areas[..|areas| - 1];
    if f in AreaFeatures(res, init) {
      AreaFeatureOrigin(res, init, f);
      var a :| a in init && a.geometry == Some(f.ring) && f.properties == AreaProperties(res, a);
      assert a in areas;
    } else {
      assert areas[|areas| - 1] in areas;
    }
  }

  /** Every space feature comes from a space of the facility that has a polygon, and carries it. */
  lemma {:induction false} SpaceFeatureOrigin(res: FacilityResult, spaces: seq<ParkingSpace>, f: OverlayFeature)
    requires f in SpaceFeatures(res, spaces)
    ensures exists s :: s in spaces && s.geometry == Some(f.ring) && f.properties == SpaceProperties(res, s)
  {
    var init := spaces[..|spaces| - 1];
    if f in SpaceFeatures(res, init) {
      SpaceFeatureOrigin(res, init, f);
      var s :| s in init && s.geometry == Some(f.ring) && f.properties == SpaceProperties(res, s);
      assert s in spaces;
    } else {
      assert spaces[|spaces| - 1] in spaces;
    }
  }

  /** Every overlay feature belongs to a facility with OSM data. */
  lemma {:induction false} OverlayOrigin(results: seq<FacilityResult>, f: OverlayFeature)
    requires f in Overlay(results)
    ensures exists k :: 0 <= k < |results| && results[k].parking.hasOsmData && f in FacilityFeatures(results[k])
  {
    var init := results[..|results| - 1];
    if f in Overlay(init) {
      OverlayOrigin(init, f);
      var k :| 0 <= k < |init| && init[k].parking.hasOsmData && f in FacilityFeatures(init[k]);
      assert results[k] == init[k];
    }
  }

  /** The loop over one facility's areas. */
  method AppendAreaFeatures(features: seq<OverlayFeature>, res: FacilityResult, areas: seq<ParkingArea>)
    returns (out: seq<OverlayFeature>)
    ensures out == features + AreaFeatures(res, areas)
  {
    out := features;
    var j := 0;
    while j < |areas|
      invariant 0 <= j <= |areas|
      invariant out == features + AreaFeatures(res, areas[..j])
    {
      TakeSnoc(areas, j);
      assert areas[..j + 1][..j] == areas[..j];
      var a := areas[j];
      if a.geometry.Some? {
        out := out + [OverlayFeature(a.geometry.value, AreaProperties(res, a))];
      }
      j := j + 1;
    }
    assert areas[..j] == areas;
  }

  /** The loop over one facility's spaces. */
  method AppendSpaceFeatures(features: seq<OverlayFeature>, res: FacilityResult, spaces: seq<ParkingSpace>)
    returns (out: seq<OverlayFeature>)
    ensures out == features + SpaceFeatures(res, spaces)
  {
    out := features;
    var k := 0;
    while k < |spaces|
      invariant 0 <= k <= |spaces|
      invariant out == features + SpaceFeatures(res, spaces[..k])
    {
      TakeSnoc(spaces, k);
      assert spaces[..k + 1][..k] == spaces[..k];
      var s := spaces[k];
      if s.geometry.Some? {
        out := out + [OverlayFeature(s.geometry.value, SpaceProperties(res, s))];
      }
      k := k + 1;
    }
    assert spaces[..k] == spaces;
  }

  /** One iteration of the facility loop: skip a facility without OSM data, else add its areas' and spaces' features. */
  method AppendFacilityFeatures(features: seq<OverlayFeature>, res: FacilityResult) returns (out: seq<OverlayFeature>)
    ensures out == features + FacilityFeatures(res)
  {
    out := features;
    if res.parking.hasOsmData {
      out := AppendAreaFeatures(out, res, res.parking.areas);
      out := AppendSpaceFeatures(out, res, res.parking.spaces);
    }
  }

  method CreateComprehensiveGeojson(results: seq<FacilityResult>) returns (features: seq<OverlayFeature>)
    ensures features == Overlay(results)
    ensures |features| == TotalFeatureCount(results)
  {
    features := [];
    var i := 0;
    while i < |results|
      invariant 0 <= i <= |results|
      invariant features == Overlay(results[..i])
    {
      var res := results[i];
      TakeSnoc(results, i);
      assert results[..i + 1][..i] == results[..i];
      features := AppendFacilityFeatures(features, res);
      i := i + 1;
    }
    assert results[..i] == results;
    OverlayCount(results);
  }
}
