/**
 * The facility record that collect_osm_data.py produces and that the
 * enrichment, output and report scripts read back, plus the loosely typed
 * values the output scripts put into GeoJSON properties and CSV rows.
 *
 * A dictionary key the producer may leave out is an `Option`; the nested
 * `capacity`, `location` and `amenities` dictionaries are string maps, where
 * an absent dictionary and an empty one behave alike in every reader
 * (`facility.get('capacity', {})` and truthiness). Confidence scores are in
 * hundredths.
 */
module Records {
  import opened Common
  import opened Osm

  datatype Geometry =
    | Point(at: Position)
    | LineString(path: seq<Position>)
    | Polygon(ring: seq<Position>)

  /** The GeoJSON `type` member of a geometry. */
  function GeometryType(g: Geometry): string {
    match g
    case Point(_) => "Point"
    case LineString(_) => "LineString"
    case Polygon(_) => "Polygon"
  }

  /** `facility.get('geometry', {}).get('type') == 'Polygon'`. */
  predicate HasPolygon(g: Option<Geometry>) {
    g.Some? && g.value.Polygon?
  }

  /** The `classification` dictionary written by enrich_data.py. */
  datatype Classification = Classification(isTruckParking: bool, isRestArea: bool,
                                           isServiceArea: bool, confidence: int)

  /** The `electricity` dictionary: `charging_available` is always True. */
  datatype Electricity = Electricity(socketType2: Option<string>)

  datatype Facility = Facility(
    id: Option<string>,
    name: Option<string>,
    osmId: Option<int>,
    osmType: Option<string>,
    dataSource: Option<string>,
    lastUpdated: Option<string>,
    tags: map<string, string>,
    geometry: Option<Geometry>,
    latitude: Option<real>,
    longitude: Option<real>,
    capacity: map<string, string>,
    location: map<string, string>,
    amenities: map<string, string>,
    hgv: Option<string>,
    operator: Option<string>,
    openingHours: Option<string>,
    surface: Option<string>,
    parkingType: Option<string>,
    electricity: Option<Electricity>,
    areaM2: Option<real>,
    confidenceScore: Option<int>,
    classification: Option<Classification>)

  /** Python truthiness of an optional number: present and non-zero. */
  predicate TruthyReal(o: Option<real>) {
    o.Some? && o.value != 0.0
  }

  /** `f.get('latitude') and f.get('longitude')`. */
  predicate HasCoordinates(f: Facility) {
    TruthyReal(f.latitude) && TruthyReal(f.longitude)
  }

  /** `f.get('capacity', {}).get('truck_spots')` is truthy. */
  predicate HasTruckSpots(f: Facility) {
    Truthy(Lookup(f.capacity, "truck_spots"))
  }

  /** `f.get('classification', {}).get('is_truck_parking')` is truthy. */
  predicate IsDesignatedTruck(f: Facility) {
    f.classification.Some? && f.classification.value.isTruckParking
  }

  /** `f.get('confidence_score', 0)` in hundredths. */
  function Score(f: Facility): int {
    f.confidenceScore.GetOr(0)
  }

  /** `f.get('location', {}).get('province', 'Unknown')`. */
  function Province(f: Facility): string {
    GetOr(f.location, "province", "Unknown")
  }

  /** A value of a GeoJSON properties dictionary or a CSV row. */
  datatype Value =
    | Null
    | Bool(b: bool)
    | Int(i: int)
    | Real(r: real)
    | Hundredths(h: int)
    | Str(s: string)

  function OptStr(o: Option<string>): Value {
    match o
    case Some(s) => Str(s)
    case None => Null
  }

  function OptInt(o: Option<int>): Value {
    match o
    case Some(i) => Int(i)
    case None => Null
  }

  function OptReal(o: Option<real>): Value {
    match o
    case Some(r) => Real(r)
    case None => Null
  }

  /** Keeps exactly the listed keys of `d` that it has: `{k: d[k] for k in keys if k in d}`. */
  function Select(d: map<string, string>, keys: seq<string>): (r: map<string, string>)
    ensures r.Keys == d.Keys * (set k | k in keys)
    ensures forall k :: k in r ==> r[k] == d[k]
  {
    map k | k in d && k in keys :: d[k]
  }

  /** The loop `for k in keys: if k in d: r[k] = d[k]`. */
  method SelectKeys(d: map<string, string>, keys: seq<string>) returns (r: map<string, string>)
    ensures r == Select(d, keys)
  {
    r := map[];
    var i := 0;
    while i < |keys|
      invariant 0 <= i <= |keys|
      invariant r == Select(d, keys[..i])
    {
      if keys[i] in d {
        r := r[keys[i] := d[keys[i]]];
      }
      assert forall k :: k in keys[..i + 1] <==> k in keys[..i] || k == keys[i];
      i := i + 1;
    }
    assert keys[..i] == keys;
  }
}
