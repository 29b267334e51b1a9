/**
 * generate_outputs.py: the three exports of the enriched facility list, a
 * GeoJSON FeatureCollection, a CSV table and a JSON database summary.
 *
 * Each generator returns the document it would write; the files themselves
 * and the generation timestamp (`datetime.utcnow()`) are outside the model,
 * the timestamp being a parameter.
 */
module GenerateOutputs {
  import opened Common
  import opened Counters
  import opened Osm
  import opened Records

  // ---------------------------------------------------------------------
  // GeoJSON (generate_geojson)
  // ---------------------------------------------------------------------

  /**
   * The geometry a facility is exported with: its own geometry when it has
   * one, otherwise a Point built from a truthy latitude and longitude.
   */
  function GeometryOf(f: Facility): (g: Option<Geometry>)
    ensures f.geometry.Some? ==> g == f.geometry
    ensures f.geometry.None? ==> (g.Some? <==> HasCoordinates(f))
    ensures g.Some? && g.value.Point? && f.geometry.None? ==>
              g.value.at.lon == f.longitude.value && g.value.at.lat == f.latitude.value
  {
    if f.geometry.Some? then f.geometry
    else if HasCoordinates(f) then Some(Point(Position(f.longitude.value, f.latitude.value)))
    else None
  }

  /** A facility appears in the FeatureCollection exactly when it has a geometry to show. */
  predicate Mappable(f: Facility) {
    GeometryOf(f).Some?
  }

  /** The fallback Point lists longitude before latitude, as section 3.1.1 of RFC 7946 requires. */
  lemma FallbackPointOrder(f: Facility)
    requires f.geometry.None? && HasCoordinates(f)
    ensures GeometryOf(f).Some? && GeometryOf(f).value.Point?
    ensures Coordinates(GeometryOf(f).value.at) == [f.longitude.value, f.latitude.value]
  {
  }

  /** A facility is skipped exactly when it has no geometry and lacks a truthy latitude or longitude. */
  lemma SkippedIff(f: Facility)
    ensures !Mappable(f) <==> f.geometry.None? && !(TruthyReal(f.latitude) && TruthyReal(f.longitude))
  {
  }

  /** `amenities.get(name) == 'yes'`: only the exact value 'yes' counts. */
  predicate Offers(amenities: map<string, string>, name: string) {
    Lookup(amenities, name) == Some("yes")
  }

  function StrOr(o: Option<string>, default: string): Value {
    Str(o.GetOr(default))
  }

  /*
   * The `properties` dictionary of a feature. Its keys come in groups that
   * are written together or not at all; each group is a record here, and a
   * group left out of the dictionary is `None`.
   */
  datatype LocationProps = LocationProps(municipality: string, province: string, highway: string,
                                         road: string, postcode: string)
  datatype CapacityProps = CapacityProps(truckSpots: string, totalSpots: string)
  datatype ClassificationProps = ClassificationProps(isTruckParking: bool, isRestArea: bool,
                                                     isServiceArea: bool)
  datatype AmenityProps = AmenityProps(hasFuel: bool, hasRestaurant: bool, hasToilets: bool,
                                       hasWifi: bool)
  datatype Properties = Properties(
    id: Option<string>,
    name: string,
    osmId: Option<int>,
    dataSource: string,
    lastUpdated: Option<string>,
    confidence: int,
    location: Option<LocationProps>,
    capacity: Option<CapacityProps>,
    classification: Option<ClassificationProps>,
    amenities: Option<AmenityProps>,
    hasCharging: Option<bool>,
    areaM2: Option<real>,
    operator: Option<string>,
    openingHours: Option<string>,
    hgv: Option<string>)

  /** The location details: `location.get(key, '')` for each key. */
  function LocationPropsOf(location: map<string, string>): LocationProps {
    LocationProps(GetOr(location, "municipality", ""), GetOr(location, "province", ""),
                  GetOr(location, "highway", ""), GetOr(location, "road", ""),
                  GetOr(location, "postcode", ""))
  }

  /** The four amenity flags: each is true exactly for the value 'yes'. */
  function AmenityPropsOf(amenities: map<string, string>): (a: AmenityProps)
    ensures a.hasFuel <==> Lookup(amenities, "fuel") == Some("yes")
    ensures a.hasRestaurant <==> Lookup(amenities, "restaurant") == Some("yes")
    ensures a.hasToilets <==> Lookup(amenities, "toilets") == Some("yes")
    ensures a.hasWifi <==> Lookup(amenities, "wifi") == Some("yes")
  {
    AmenityProps(Offers(amenities, "fuel"), Offers(amenities, "restaurant"),
                 Offers(amenities, "toilets"), Offers(amenities, "wifi"))
  }

  /** `value if truthy else absent`, for the optional string properties. */
  function IfTruthy(o: Option<string>): (r: Option<string>)
    ensures r.Some? <==> Truthy(o)
    ensures r.Some? ==> r == o
  {
    if Truthy(o) then o else None
  }

  /**
   * The properties of one feature. The name falls back to 'Unnamed' and the
   * score to 0; each group is present exactly when the dictionary it comes
   * from is non-empty. The single values are described by
   * `PropertiesOptional`.
   */
  function PropertiesOf(f: Facility): (p: Properties)
    ensures p.name == (if f.name.Some? then f.name.value else "Unnamed")
    ensures p.confidence == (if f.confidenceScore.Some? then f.confidenceScore.value else 0)
    ensures p.dataSource == (if f.dataSource.Some? then f.dataSource.value else "OpenStreetMap")
    ensures p.location.Some? <==> f.location != map[]
    ensures p.capacity.Some? <==> f.capacity != map[]
    ensures p.classification.Some? <==> f.classification.Some?
    ensures p.amenities.Some? <==> f.amenities != map[]
  {
    Properties(
      f.id,
      f.name.GetOr("Unnamed"),
      f.osmId,
      f.dataSource.GetOr("OpenStreetMap"),
      f.lastUpdated,
      Score(f),
      if f.location != map[] then Some(LocationPropsOf(f.location)) else None,
      if f.capacity != map[] then
        Some(CapacityProps(GetOr(f.capacity, "truck_spots", ""), GetOr(f.capacity, "total_spots", "")))
      else None,
      match f.classification
      case Some(c) => Some(ClassificationProps(c.isTruckParking, c.isRestArea, c.isServiceArea))
      case None => None,
      if f.amenities != map[] then Some(AmenityPropsOf(f.amenities)) else None,
      if f.electricity.Some? then Some(true) else None,
      if TruthyReal(f.areaM2) then f.areaM2 else None,
      IfTruthy(f.operator),
      IfTruthy(f.openingHours),
      IfTruthy(f.hgv))
  }

  /**
   * `has_charging` is present, and then true, exactly when the facility has
   * electricity information; the area, operator, opening hours and HGV
   * designation are present exactly when truthy.
   */
  lemma PropertiesOptional(f: Facility)
    ensures var p := PropertiesOf(f);
            && (p.hasCharging.Some? <==> f.electricity.Some?)
            && (p.hasCharging.Some? ==> p.hasCharging.value)
            && (p.areaM2.Some? <==> TruthyReal(f.areaM2))
            && (p.operator.Some? <==> Truthy(f.operator))
            && (p.openingHours.Some? <==> Truthy(f.openingHours))
            && (p.hgv.Some? <==> Truthy(f.hgv))
  {
  }

  datatype Feature = Feature(geometry: Geometry, properties: Properties)

  function FeatureOf(f: Facility): Feature
    requires Mappable(f)
  {
    Feature(GeometryOf(f).value, PropertiesOf(f))
  }

  /** The features of the collection, one per mappable facility, in input order. */
  function Features(fs: seq<Facility>): (r: seq<Feature>)
    ensures |r| <= |fs|
  {
    MapFilter(fs, Mappable, FeatureOf)
  }

  /**
   * The collection is the mappable facilities, in their input order, each
   * turned into its feature: nothing is reordered, and a facility is dropped
   * only for want of a geometry; so the feature count is the number of
   * mappable facilities.
   */
  lemma FeaturesFiltered(fs: seq<Facility>)
    ensures |Features(fs)| == |Filter(fs, Mappable)| == CountIf(fs, Mappable)
    ensures forall i :: 0 <= i < |Features(fs)| ==>
              Mappable(Filter(fs, Mappable)[i]) && Features(fs)[i] == FeatureOf(Filter(fs, Mappable)[i])
  {
    MapFilterMeaning(fs, Mappable, FeatureOf);
    CountIfFilter(fs, Mappable);
  }

  datatype CollectionMetadata = CollectionMetadata(title: string, description: string,
                                                   generated: string, source: string, count: nat)

  datatype FeatureCollection = FeatureCollection(metadata: CollectionMetadata, features: seq<Feature>)

  /** generate_geojson: the loop that skips facilities without a geometry and appends the others. */
  method GenerateGeoJson(facilities: seq<Facility>, generated: string) returns (doc: FeatureCollection)
    ensures doc.features == Features(facilities)
    ensures doc.metadata.count == |doc.features| <= |facilities|
    ensures doc.metadata.generated == generated && doc.metadata.source == "OpenStreetMap"
  {
    var features: seq<Feature> := [];
    var i := 0;
    while i < |facilities|
      invariant 0 <= i <= |facilities|
      invariant features == Features(facilities[..i])
    {
      var facility := facilities[i];
      assert facilities[..i + 1] == facilities[..i] + [facility];
      MapFilterSnoc(facilities[..i], facility, Mappable, FeatureOf);
      var geometry := facility.geometry;
      if geometry.None? && TruthyReal(facility.latitude) && TruthyReal(facility.longitude) {
        geometry := Some(Point(Position(facility.longitude.value, facility.latitude.value)));
      }
      if geometry.Some? {
        features := features + [Feature(geometry.value, PropertiesOf(facility))];
      }
      i := i + 1;
    }
    assert facilities[..i] == facilities;
    doc := FeatureCollection(
      CollectionMetadata("Truck Parking Facilities in the Netherlands",
                         "Comprehensive database of truck parking facilities, rest areas, and service areas",
                         generated, "OpenStreetMap", |features|),
      features);
  }

  // ---------------------------------------------------------------------
  // CSV (generate_csv)
  // ---------------------------------------------------------------------

  /** The CSV columns, in order. */
  const Fieldnames: seq<string> :=
    ["id", "name", "latitude", "longitude",
     "province", "municipality", "highway", "road", "postcode",
     "truck_spots", "total_spots", "area_m2",
     "is_truck_parking", "is_rest_area", "is_service_area",
     "has_fuel", "has_restaurant", "has_toilets", "has_wifi", "has_charging",
     "operator", "opening_hours", "hgv",
     "confidence_score", "osm_id", "data_source"]

  /** `facility.get(key, '')` on an optional number. */
  function RealOrBlank(o: Option<real>): Value {
    match o
    case Some(r) => Real(r)
    case None => Str("")
  }

  function IntOrBlank(o: Option<int>): Value {
    match o
    case Some(i) => Int(i)
    case None => Str("")
  }

  function HundredthsOrBlank(o: Option<int>): Value {
    match o
    case Some(h) => Hundredths(h)
    case None => Str("")
  }

  /** The row dictionary of one facility. */
  function CsvRow(f: Facility): (row: map<string, Value>)
    ensures "is_truck_parking" in row && "is_rest_area" in row && "is_service_area" in row
    ensures row["is_truck_parking"] == Bool(f.classification.Some? && f.classification.value.isTruckParking)
    ensures row["is_rest_area"] == Bool(f.classification.Some? && f.classification.value.isRestArea)
    ensures row["is_service_area"] == Bool(f.classification.Some? && f.classification.value.isServiceArea)
    ensures "has_charging" in row && row["has_charging"] == Bool(f.electricity.Some?)
  {
    map["id" := StrOr(f.id, ""),
        "name" := StrOr(f.name, ""),
        "latitude" := RealOrBlank(f.latitude),
        "longitude" := RealOrBlank(f.longitude),
        "osm_id" := IntOrBlank(f.osmId),
        "data_source" := StrOr(f.dataSource, ""),
        "confidence_score" := HundredthsOrBlank(f.confidenceScore),
        "hgv" := StrOr(f.hgv, ""),
        "operator" := StrOr(f.operator, ""),
        "opening_hours" := StrOr(f.openingHours, ""),
        "area_m2" := RealOrBlank(f.areaM2),
        "province" := Str(GetOr(f.location, "province", "")),
        "municipality" := Str(GetOr(f.location, "municipality", "")),
        "highway" := Str(GetOr(f.location, "highway", "")),
        "road" := Str(GetOr(f.location, "road", "")),
        "postcode" := Str(GetOr(f.location, "postcode", "")),
        "truck_spots" := Str(GetOr(f.capacity, "truck_spots", "")),
        "total_spots" := Str(GetOr(f.capacity, "total_spots", "")),
        "is_truck_parking" := Bool(f.classification.Some? && f.classification.value.isTruckParking),
        "is_rest_area" := Bool(f.classification.Some? && f.classification.value.isRestArea),
        "is_service_area" := Bool(f.classification.Some? && f.classification.value.isServiceArea),
        "has_fuel" := Bool(Offers(f.amenities, "fuel")),
        "has_restaurant" := Bool(Offers(f.amenities, "restaurant")),
        "has_toilets" := Bool(Offers(f.amenities, "toilets")),
        "has_wifi" := Bool(Offers(f.amenities, "wifi")),
        "has_charging" := Bool(f.electricity.Some?)]
  }

  /**
   * Every row fills exactly the CSV columns: no key is dropped by
   * `extrasaction='ignore'` and no column falls back to the writer's blank.
   */
  lemma RowMatchesFieldnames(f: Facility)
    ensures CsvRow(f).Keys == set k | k in Fieldnames
  {
  }

  /**
   * The two exports agree on the flags: where the GeoJSON properties carry
   * an amenity, classification or charging flag, the CSV column holds the
   * same value, and where they leave the flag out the CSV column is False.
   */
  lemma ExportsAgree(f: Facility)
    ensures "has_fuel" in CsvRow(f) && "has_wifi" in CsvRow(f)
    ensures CsvRow(f)["has_fuel"] ==
            Bool(PropertiesOf(f).amenities.Some? && PropertiesOf(f).amenities.value.hasFuel)
    ensures CsvRow(f)["has_wifi"] ==
            Bool(PropertiesOf(f).amenities.Some? && PropertiesOf(f).amenities.value.hasWifi)
    ensures CsvRow(f)["is_truck_parking"] ==
            Bool(PropertiesOf(f).classification.Some? && PropertiesOf(f).classification.value.isTruckParking)
    ensures CsvRow(f)["has_charging"] == Bool(PropertiesOf(f).hasCharging == Some(true))
  {
  }

  /** What `csv.DictWriter` writes for a row: its values in column order, blank where it has none. */
  function CsvLine(row: map<string, Value>): (line: seq<Value>)
    ensures |line| == |Fieldnames|
    ensures forall j :: 0 <= j < |Fieldnames| && Fieldnames[j] in row ==> line[j] == row[Fieldnames[j]]
  {
    seq(|Fieldnames|, j requires 0 <= j < |Fieldnames| =>
      if Fieldnames[j] in row then row[Fieldnames[j]] else Str(""))
  }

  datatype Table = Table(header: seq<string>, lines: seq<seq<Value>>)

  /** generate_csv: the header, then one line per facility in input order. */
  method GenerateCsv(facilities: seq<Facility>) returns (t: Table)
    ensures t.header == Fieldnames
    ensures |t.lines| == |facilities|
    ensures forall i :: 0 <= i < |facilities| ==> t.lines[i] == CsvLine(CsvRow(facilities[i]))
  {
    var lines: seq<seq<Value>> := [];
    var i := 0;
    while i < |facilities|
      invariant 0 <= i <= |facilities|
      invariant |lines| == i
      invariant forall k :: 0 <= k < i ==> lines[k] == CsvLine(CsvRow(facilities[k]))
    {
      lines := lines + [CsvLine(CsvRow(facilities[i]))];
      i := i + 1;
    }
    t := Table(Fieldnames, lines);
  }

  // ---------------------------------------------------------------------
  // JSON database (generate_json_summary)
  // ---------------------------------------------------------------------

  /** `f.get('confidence_score', 0) >= 0.7`, in hundredths. */
  predicate HighConfidence(f: Facility) {
    Score(f) >= 70
  }

  predicate HasCapacity(f: Facility) {
    f.capacity != map[]
  }

  predicate HasPolygonGeometry(f: Facility) {
    HasPolygon(f.geometry)
  }

  predicate HasAmenities(f: Facility) {
    f.amenities != map[]
  }

  predicate HasElectricity(f: Facility) {
    f.electricity.Some?
  }

  datatype Statistics = Statistics(total: nat, withCapacity: nat, withPolygons: nat,
                                   withAmenities: nat, withElectricity: nat, highConfidence: nat)

  /** The `statistics` block: each count is of facilities meeting its test, so none exceeds the total. */
  function StatisticsOf(fs: seq<Facility>): (s: Statistics)
    ensures s.total == |fs|
    ensures s.withCapacity <= s.total && s.withPolygons <= s.total && s.withAmenities <= s.total
    ensures s.withElectricity <= s.total && s.highConfidence <= s.total
  {
    Statistics(|fs|, CountIf(fs, HasCapacity), CountIf(fs, HasPolygonGeometry),
               CountIf(fs, HasAmenities), CountIf(fs, HasElectricity), CountIf(fs, HighConfidence))
  }

  /**
   * Every facility with a polygon is in the FeatureCollection too, so the
   * database never reports more polygons than the GeoJSON has features.
   */
  lemma PolygonsAreMapped(fs: seq<Facility>)
    ensures StatisticsOf(fs).withPolygons <= |Features(fs)|
  {
    FeaturesFiltered(fs);
    CountIfMonotone(fs, HasPolygonGeometry, Mappable);
  }

  datatype FacilityRecord = FacilityRecord(
    id: Option<string>,
    name: Option<string>,
    lat: Option<real>,
    lon: Option<real>,
    location: map<string, string>,
    capacity: map<string, string>,
    classification: Option<Classification>,
    amenities: map<string, string>,
    confidence: Option<int>,
    geometryType: Option<string>,
    areaM2: Option<real>)

  /** The simplified record of one facility. */
  function RecordOf(f: Facility): (r: FacilityRecord)
    ensures r.geometryType.Some? <==> f.geometry.Some?
    ensures f.geometry.Some? ==> r.geometryType == Some(GeometryType(f.geometry.value))
    ensures r.areaM2.Some? <==> TruthyReal(f.areaM2)
    ensures r.lat == f.latitude && r.lon == f.longitude && r.confidence == f.confidenceScore
  {
    FacilityRecord(
      f.id, f.name, f.latitude, f.longitude, f.location, f.capacity, f.classification,
      f.amenities, f.confidenceScore,
      if f.geometry.Some? then Some(GeometryType(f.geometry.value)) else None,
      if TruthyReal(f.areaM2) then f.areaM2 else None)
  }

  datatype DatabaseMetadata = DatabaseMetadata(title: string, generated: string, version: string,
                                               totalFacilities: nat)

  datatype Database = Database(metadata: DatabaseMetadata, statistics: Statistics,
                               facilities: seq<FacilityRecord>)

  /** generate_json_summary: the statistics, then one record per facility in input order. */
  method GenerateJsonSummary(facilities: seq<Facility>, generated: string) returns (db: Database)
    ensures db.metadata.totalFacilities == db.statistics.total == |facilities|
    ensures db.metadata.generated == generated
    ensures db.statistics == StatisticsOf(facilities)
    ensures |db.facilities| == |facilities|
    ensures forall i :: 0 <= i < |facilities| ==> db.facilities[i] == RecordOf(facilities[i])
  {
    var records: seq<FacilityRecord> := [];
    var i := 0;
    while i < |facilities|
      invariant 0 <= i <= |facilities|
      invariant |records| == i
      invariant forall k :: 0 <= k < i ==> records[k] == RecordOf(facilities[k])
    {
      var facility := facilities[i];
      var geometryType: Option<string> := None;
      if facility.geometry.Some? {
        geometryType := Some(GeometryType(facility.geometry.value));
      }
      var area: Option<real> := None;
      if TruthyReal(facility.areaM2) {
        area := facility.areaM2;
      }
      var record := FacilityRecord(
        facility.id, facility.name, facility.latitude, facility.longitude, facility.location,
        facility.capacity, facility.classification, facility.amenities, facility.confidenceScore,
        geometryType, area);
      records := records + [record];
      i := i + 1;
    }
    db := Database(
      DatabaseMetadata("Truck Parking Facilities in the Netherlands - Database", generated, "1.0", |facilities|),
      StatisticsOf(facilities),
      records);
  }
}
