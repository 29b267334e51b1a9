/**
 * generate_report.py: the data-quality metrics, the gap lists and the
 * improvement recommendations of the summary report. The Markdown text
 * itself, the timestamps and the file writes are outside the model; so is
 * the formatted `issue` text of a recommendation, whose only varying part is
 * a rendered percentage.
 */
module GenerateReport {
  import opened Common
  import opened Counters
  import opened Records

  // ---------------------------------------------------------------------
  // Data quality (analyze_data_quality)
  // ---------------------------------------------------------------------

  /** `f.get('name') and f['name'] != 'Unnamed'`. */
  predicate Named(f: Facility) {
    Truthy(f.name) && f.name.value != "Unnamed"
  }

  predicate HasPolygonGeometry(f: Facility) {
    HasPolygon(f.geometry)
  }

  predicate HasCapacity(f: Facility) {
    f.capacity != map[]
  }

  predicate HasAmenities(f: Facility) {
    f.amenities != map[]
  }

  predicate HasOperator(f: Facility) {
    Truthy(f.operator)
  }

  predicate HasHours(f: Facility) {
    Truthy(f.openingHours)
  }

  /** `f.get('location', {}).get('province', 'Unknown') != 'Unknown'`. */
  predicate HasProvince(f: Facility) {
    Province(f) != "Unknown"
  }

  predicate HasMunicipality(f: Facility) {
    Truthy(Lookup(f.location, "municipality"))
  }

  /** `f.get('confidence_score', 0) >= 0.7`, in hundredths. */
  predicate HighConfidence(f: Facility) {
    Score(f) >= 70
  }

  /** `f.get('confidence_score', 0) < 0.5`, in hundredths. */
  predicate LowConfidence(f: Facility) {
    Score(f) < 50
  }

  datatype QualityMetrics = QualityMetrics(
    totalFacilities: nat,
    withName: nat,
    withCoordinates: nat,
    withPolygons: nat,
    withCapacity: nat,
    withTruckCapacity: nat,
    withAmenities: nat,
    withOperator: nat,
    withHours: nat,
    withProvince: nat,
    withMunicipality: nat,
    highConfidence: nat,
    designatedTruck: nat)

  /** The metrics dictionary's entries, in its key order. */
  function Entries(m: QualityMetrics): (e: seq<(string, nat)>)
    ensures |e| == 13 && e[0] == ("total_facilities", m.totalFacilities)
  {
    [("total_facilities", m.totalFacilities), ("with_name", m.withName),
     ("with_coordinates", m.withCoordinates), ("with_polygons", m.withPolygons),
     ("with_capacity", m.withCapacity), ("with_truck_capacity", m.withTruckCapacity),
     ("with_amenities", m.withAmenities), ("with_operator", m.withOperator),
     ("with_hours", m.withHours), ("with_province", m.withProvince),
     ("with_municipality", m.withMunicipality), ("high_confidence", m.highConfidence),
     ("designated_truck", m.designatedTruck)]
  }

  /** Every metric is a count of facilities passing a test, so none exceeds the total. */
  predicate Bounded(m: QualityMetrics) {
    forall j :: 0 <= j < |Entries(m)| ==> Entries(m)[j].1 <= m.totalFacilities
  }

  /**
   * The quality metrics of a facility list. Each count is bounded by the
   * total, and a truthy `truck_spots` entry needs a non-empty capacity
   * dictionary, so there are never more facilities with truck capacity than
   * with capacity.
   */
  function QualityOf(fs: seq<Facility>): (m: QualityMetrics)
    ensures m.totalFacilities == |fs|
    ensures Bounded(m)
    ensures m.withTruckCapacity <= m.withCapacity
  {
    CountIfMonotone(fs, HasTruckSpots, HasCapacity);
    QualityMetrics(
      |fs|,
      CountIf(fs, Named),
      CountIf(fs, HasCoordinates),
      CountIf(fs, HasPolygonGeometry),
      CountIf(fs, HasCapacity),
      CountIf(fs, HasTruckSpots),
      CountIf(fs, HasAmenities),
      CountIf(fs, HasOperator),
      CountIf(fs, HasHours),
      CountIf(fs, HasProvince),
      CountIf(fs, HasMunicipality),
      CountIf(fs, HighConfidence),
      CountIf(fs, IsDesignatedTruck))
  }

  /** `value / total * 100 if total > 0 else 0`. */
  function Percent(value: nat, total: nat): (r: real)
    ensures total == 0 ==> r == 0.0
    ensures total > 0 ==> r * (total as real) == (value as real) * 100.0
  {
    if total > 0 then (value as real) / (total as real) * 100.0 else 0.0
  }

  /** A count bounded by a positive total is at most 100 percent of it. */
  lemma PercentRange(value: nat, total: nat)
    requires value <= total
    ensures 0.0 <= Percent(value, total) <= 100.0
  {
    if total > 0 {
      var t := total as real;
      var p := Percent(value, total);
      assert p * t == (value as real) * 100.0;
      var d := 100.0 - p;
      assert d * t == 100.0 * t - p * t;
      assert d * t >= 0.0;
      assert p * t >= 0.0;
    }
  }

  /** The percentage dictionary: one entry per metric, in the same key order. */
  function Percentages(m: QualityMetrics): (p: seq<(string, real)>)
    ensures |p| == |Entries(m)|
    ensures forall j :: 0 <= j < |p| ==>
              p[j].0 == Entries(m)[j].0 && p[j].1 == Percent(Entries(m)[j].1, m.totalFacilities)
  {
    var e := Entries(m);
    seq(|e|, j requires 0 <= j < |e| => (e[j].0, Percent(e[j].1, m.totalFacilities)))
  }

  /**
   * Every percentage is 0 when there are no facilities, and lies between 0
   * and 100 otherwise.
   */
  lemma PercentagesRange(fs: seq<Facility>)
    ensures |fs| == 0 ==> forall j :: 0 <= j < |Percentages(QualityOf(fs))| ==> Percentages(QualityOf(fs))[j].1 == 0.0
    ensures forall j :: 0 <= j < |Percentages(QualityOf(fs))| ==> 0.0 <= Percentages(QualityOf(fs))[j].1 <= 100.0
  {
    var m := QualityOf(fs);
    var e := Entries(m);
    forall j | 0 <= j < |Percentages(m)|
      ensures 0.0 <= Percentages(m)[j].1 <= 100.0
    {
      assert e[j].1 <= m.totalFacilities;
      PercentRange(e[j].1, m.totalFacilities);
    }
  }

  // ---------------------------------------------------------------------
  // Gaps (identify_gaps)
  // ---------------------------------------------------------------------

  /** `{'id': facility.get('id', 'unknown'), 'name': facility.get('name', 'Unnamed')}`. */
  datatype GapEntry = GapEntry(id: string, name: string)

  /** A low-confidence entry also carries the score. */
  datatype ScoredEntry = ScoredEntry(id: string, name: string, score: int)

  function EntryOf(f: Facility): GapEntry {
    GapEntry(f.id.GetOr("unknown"), f.name.GetOr("Unnamed"))
  }

  function ScoredEntryOf(f: Facility): ScoredEntry {
    ScoredEntry(f.id.GetOr("unknown"), f.name.GetOr("Unnamed"), Score(f))
  }

  predicate LacksCapacity(f: Facility) {
    f.capacity == map[]
  }

  predicate LacksProvince(f: Facility) {
    Province(f) == "Unknown"
  }

  predicate LacksPolygon(f: Facility) {
    !HasPolygon(f.geometry)
  }

  /** Designated truck parking without any amenities information. */
  predicate IncompleteAmenities(f: Facility) {
    IsDesignatedTruck(f) && f.amenities == map[]
  }

  datatype Gaps = Gaps(
    missingCapacity: seq<GapEntry>,
    missingLocation: seq<GapEntry>,
    lowConfidence: seq<ScoredEntry>,
    noPolygon: seq<GapEntry>,
    incompleteAmenities: seq<GapEntry>)

  /** Each gap list is the entries of the facilities with that gap, in input order. */
  function GapsOf(fs: seq<Facility>): Gaps {
    Gaps(MapFilter(fs, LacksCapacity, EntryOf),
         MapFilter(fs, LacksProvince, EntryOf),
         MapFilter(fs, LowConfidence, ScoredEntryOf),
         MapFilter(fs, LacksPolygon, EntryOf),
         MapFilter(fs, IncompleteAmenities, EntryOf))
  }

  /** identify_gaps: one pass that appends each facility to every gap list it belongs to. */
  method IdentifyGaps(facilities: seq<Facility>) returns (gaps: Gaps)
    ensures gaps == GapsOf(facilities)
  {
    var missingCapacity: seq<GapEntry> := [];
    var missingLocation: seq<GapEntry> := [];
    var lowConfidence: seq<ScoredEntry> := [];
    var noPolygon: seq<GapEntry> := [];
    var incompleteAmenities: seq<GapEntry> := [];
    var i := 0;
    while i < |facilities|
      invariant 0 <= i <= |facilities|
      invariant missingCapacity == MapFilter(facilities[..i], LacksCapacity, EntryOf)
      invariant missingLocation == MapFilter(facilities[..i], LacksProvince, EntryOf)
      invariant lowConfidence == MapFilter(facilities[..i], LowConfidence, ScoredEntryOf)
      invariant noPolygon == MapFilter(facilities[..i], LacksPolygon, EntryOf)
      invariant incompleteAmenities == MapFilter(facilities[..i], IncompleteAmenities, EntryOf)
    {
      var facility := facilities[i];
      assert facilities[..i + 1] == facilities[..i] + [facility];
      MapFilterSnoc(facilities[..i], facility, LacksCapacity, EntryOf);
      MapFilterSnoc(facilities[..i], facility, LacksProvince, EntryOf);
      MapFilterSnoc(facilities[..i], facility, LowConfidence, ScoredEntryOf);
      MapFilterSnoc(facilities[..i], facility, LacksPolygon, EntryOf);
      MapFilterSnoc(facilities[..i], facility, IncompleteAmenities, EntryOf);
      var facilityId := facility.id.GetOr("unknown");
      var name := facility.name.GetOr("Unnamed");
      if facility.capacity == map[] {
        missingCapacity := missingCapacity + [GapEntry(facilityId, name)];
      }
      if GetOr(facility.location, "province", "Unknown") == "Unknown" {
        missingLocation := missingLocation + [GapEntry(facilityId, name)];
      }
      if facility.confidenceScore.GetOr(0) < 50 {
        lowConfidence := lowConfidence + [ScoredEntry(facilityId, name, facility.confidenceScore.GetOr(0))];
      }
      if !(facility.geometry.Some? && facility.geometry.value.Polygon?) {
        noPolygon := noPolygon + [GapEntry(facilityId, name)];
      }
      if IsDesignatedTruck(facility) && facility.amenities == map[] {
        incompleteAmenities := incompleteAmenities + [GapEntry(facilityId, name)];
      }
      i := i + 1;
    }
    assert facilities[..i] == facilities;
    gaps := Gaps(missingCapacity, missingLocation, lowConfidence, noPolygon, incompleteAmenities);
  }

  /**
   * Each gap list is an order-preserving selection: its k-th entry is the
   * entry of the k-th facility with that gap. In particular every
   * incomplete-amenities entry comes from designated truck parking without
   * amenities.
   */
  lemma GapsAreSelections(fs: seq<Facility>)
    ensures |GapsOf(fs).missingCapacity| == |Filter(fs, LacksCapacity)|
    ensures forall k :: 0 <= k < |Filter(fs, LacksCapacity)| ==>
              Filter(fs, LacksCapacity)[k].capacity == map[] &&
              GapsOf(fs).missingCapacity[k] == EntryOf(Filter(fs, LacksCapacity)[k])
    ensures |GapsOf(fs).incompleteAmenities| == |Filter(fs, IncompleteAmenities)|
    ensures forall k :: 0 <= k < |Filter(fs, IncompleteAmenities)| ==>
              IsDesignatedTruck(Filter(fs, IncompleteAmenities)[k]) &&
              Filter(fs, IncompleteAmenities)[k].amenities == map[] &&
              GapsOf(fs).incompleteAmenities[k] == EntryOf(Filter(fs, IncompleteAmenities)[k])
    ensures forall f :: f in Filter(fs, LacksCapacity) <==> f in fs && f.capacity == map[]
  {
    MapFilterMeaning(fs, LacksCapacity, EntryOf);
    MapFilterMeaning(fs, IncompleteAmenities, EntryOf);
    forall f
      ensures f in Filter(fs, LacksCapacity) <==> f in fs && f.capacity == map[]
    {
      FilterMember(fs, LacksCapacity, f);
    }
  }

  /**
   * The gap lists complement the quality metrics: a facility is either
   * counted with capacity, province or polygon or listed as missing it; no
   * facility is both high- and low-confidence, so the report's medium count
   * `total - high - low` is never negative; and incomplete amenities are a
   * subset of designated truck parking.
   */
  lemma GapsComplementQuality(fs: seq<Facility>)
    ensures |GapsOf(fs).missingCapacity| + QualityOf(fs).withCapacity == |fs|
    ensures |GapsOf(fs).missingLocation| + QualityOf(fs).withProvince == |fs|
    ensures |GapsOf(fs).noPolygon| + QualityOf(fs).withPolygons == |fs|
    ensures |GapsOf(fs).lowConfidence| + QualityOf(fs).highConfidence <= |fs|
    ensures |GapsOf(fs).incompleteAmenities| <= QualityOf(fs).designatedTruck
  {
    MapFilterMeaning(fs, LacksCapacity, EntryOf);
    MapFilterMeaning(fs, LacksProvince, EntryOf);
    MapFilterMeaning(fs, LowConfidence, ScoredEntryOf);
    MapFilterMeaning(fs, LacksPolygon, EntryOf);
    MapFilterMeaning(fs, IncompleteAmenities, EntryOf);
    CountIfFilter(fs, LacksCapacity);
    CountIfFilter(fs, LacksProvince);
    CountIfFilter(fs, LowConfidence);
    CountIfFilter(fs, LacksPolygon);
    CountIfFilter(fs, IncompleteAmenities);
    CountIfComplement(fs, HasCapacity, LacksCapacity);
    CountIfComplement(fs, HasProvince, LacksProvince);
    CountIfComplement(fs, HasPolygonGeometry, LacksPolygon);
    CountIfDisjoint(fs, LowConfidence, HighConfidence);
    CountIfMonotone(fs, IncompleteAmenities, IsDesignatedTruck);
  }

  // ---------------------------------------------------------------------
  // Recommendations (generate_recommendations)
  // ---------------------------------------------------------------------

  datatype Priority = High | Medium | Low

  /** The recommendation categories, in the order the report lists them. */
  datatype Category =
    | CapacityData
    | LocationData
    | PolygonBoundaries
    | AdditionalDataSources
    | OccupancyData
    | ChargingInfrastructure
    | DataVerification

  /** A category's position in the report's order. */
  function Rank(c: Category): (k: nat)
    ensures k < 7 && CategoryAt(k) == c
  {
    match c
    case CapacityData => 0
    case LocationData => 1
    case PolygonBoundaries => 2
    case AdditionalDataSources => 3
    case OccupancyData => 4
    case ChargingInfrastructure => 5
    case DataVerification => 6
  }

  /** The number of categories. */
  const CategoryCount: nat := 7

  /** The category at a position of the report's order. */
  function CategoryAt(k: nat): Category
    requires k < 7
  {
    if k == 0 then CapacityData
    else if k == 1 then LocationData
    else if k == 2 then PolygonBoundaries
    else if k == 3 then AdditionalDataSources
    else if k == 4 then OccupancyData
    else if k == 5 then ChargingInfrastructure
    else DataVerification
  }

  lemma RankOfCategoryAt(k: nat)
    requires k < 7
    ensures Rank(CategoryAt(k)) == k
  {
  }

  /** `affected_facilities`: a count, or 'N/A' for the external data sources. */
  datatype Affected = Facilities(n: nat) | NotApplicable

  datatype Recommendation = Recommendation(priority: Priority, category: Category, affected: Affected)

  predicate Recommends(recs: seq<Recommendation>, c: Category) {
    exists i :: 0 <= i < |recs| && recs[i].category == c
  }

  /**
   * When a category is recommended. Capacity advice needs more than half
   * the facilities to miss capacity, location advice more than half to miss
   * a province, polygon advice more than a tenth to lack a polygon; charging
   * advice needs any facility at all and verification advice any
   * low-confidence facility; the two data-source recommendations are
   * unconditional.
   */
  predicate Fired(c: Category, m: QualityMetrics, gaps: Gaps) {
    match c
    case CapacityData => |gaps.missingCapacity| * 2 > m.totalFacilities
    case LocationData => |gaps.missingLocation| * 2 > m.totalFacilities
    case PolygonBoundaries => |gaps.noPolygon| * 10 > m.totalFacilities
    case AdditionalDataSources => true
    case OccupancyData => true
    case ChargingInfrastructure => m.totalFacilities > 0
    case DataVerification => |gaps.lowConfidence| > 0
  }

  /** The priority and affected count each category is reported with. */
  function Expected(c: Category, m: QualityMetrics, gaps: Gaps): (r: Recommendation)
    ensures r.category == c
  {
    match c
    case CapacityData => Recommendation(High, c, Facilities(|gaps.missingCapacity|))
    case LocationData => Recommendation(High, c, Facilities(|gaps.missingLocation|))
    case PolygonBoundaries => Recommendation(Medium, c, Facilities(|gaps.noPolygon|))
    case AdditionalDataSources => Recommendation(High, c, NotApplicable)
    case OccupancyData => Recommendation(Medium, c, Facilities(m.totalFacilities))
    case ChargingInfrastructure => Recommendation(Medium, c, Facilities(m.totalFacilities))
    case DataVerification => Recommendation(Low, c, Facilities(|gaps.lowConfidence|))
  }

  /** The recommendation a category contributes: its standard one when it fires, none otherwise. */
  function Step(c: Category, m: QualityMetrics, gaps: Gaps): (r: seq<Recommendation>)
    ensures |r| <= 1
  {
    if Fired(c, m, gaps) then [Expected(c, m, gaps)] else []
  }

  /** The recommendations that the first `k` categories give rise to, in the report's order. */
  function Plan(k: nat, m: QualityMetrics, gaps: Gaps): (r: seq<Recommendation>)
    requires k <= CategoryCount
    ensures |r| <= k
  {
    if k == 0 then [] else Plan(k - 1, m, gaps) + Step(CategoryAt(k - 1), m, gaps)
  }

  /** The full plan is the seven steps in the report's order. */
  lemma PlanUnrolled(m: QualityMetrics, gaps: Gaps)
    ensures Plan(CategoryCount, m, gaps) ==
            Step(CapacityData, m, gaps) + Step(LocationData, m, gaps) + Step(PolygonBoundaries, m, gaps) +
            Step(AdditionalDataSources, m, gaps) + Step(OccupancyData, m, gaps) +
            Step(ChargingInfrastructure, m, gaps) + Step(DataVerification, m, gaps)
  {
    assert Plan(1, m, gaps) == Step(CapacityData, m, gaps);
    assert Plan(2, m, gaps) == Plan(1, m, gaps) + Step(LocationData, m, gaps);
    assert Plan(3, m, gaps) == Plan(2, m, gaps) + Step(PolygonBoundaries, m, gaps);
    assert Plan(4, m, gaps) == Plan(3, m, gaps) + Step(AdditionalDataSources, m, gaps);
    assert Plan(5, m, gaps) == Plan(4, m, gaps) + Step(OccupancyData, m, gaps);
    assert Plan(6, m, gaps) == Plan(5, m, gaps) + Step(ChargingInfrastructure, m, gaps);
    assert Plan(CategoryCount, m, gaps) == Plan(6, m, gaps) + Step(DataVerification, m, gaps);
  }

  /**
   * The first `k` categories' plan holds, for each of them that fires, its
   * standard recommendation, and nothing else.
   */
  lemma {:induction false} PlanMembers(k: nat, m: QualityMetrics, gaps: Gaps)
    requires k <= CategoryCount
    ensures forall i :: 0 <= i < |Plan(k, m, gaps)| ==>
              Rank(Plan(k, m, gaps)[i].category) < k && Fired(Plan(k, m, gaps)[i].category, m, gaps) &&
              Plan(k, m, gaps)[i] == Expected(Plan(k, m, gaps)[i].category, m, gaps)
    ensures forall c :: Rank(c) < k && Fired(c, m, gaps) ==> Recommends(Plan(k, m, gaps), c)
  {
    if k > 0 {
      PlanMembers(k - 1, m, gaps);
      var init := Plan(k - 1, m, gaps);
      var last := CategoryAt(k - 1);
      RankOfCategoryAt(k - 1);
      var p := Plan(k, m, gaps);
      assert p == init + Step(last, m, gaps);
      forall c | Rank(c) < k && Fired(c, m, gaps)
        ensures Recommends(p, c)
      {
        if Rank(c) < k - 1 {
          var i :| 0 <= i < |init| && init[i].category == c;
          assert p[i] == init[i];
        } else {
          assert c == last;
          assert p[|p| - 1].category == c;
        }
      }
    }
  }

  /** The plan's categories come in strictly increasing rank. */
  lemma {:induction false} PlanOrdered(k: nat, m: QualityMetrics, gaps: Gaps)
    requires k <= CategoryCount
    ensures forall i, j :: 0 <= i < j < |Plan(k, m, gaps)| ==>
              Rank(Plan(k, m, gaps)[i].category) < Rank(Plan(k, m, gaps)[j].category)
  {
    if k > 0 {
      PlanOrdered(k - 1, m, gaps);
      PlanMembers(k - 1, m, gaps);
      RankOfCategoryAt(k - 1);
    }
  }

  /** `part / total * 100 > threshold` is `part * 100 > threshold * total` for a positive total. */
  lemma PercentAbove(part: nat, total: nat, threshold: nat)
    requires total > 0
    ensures Percent(part, total) > threshold as real <==> part * 100 > threshold * total
  {
    var t := total as real;
    var p := Percent(part, total);
    assert p * t == (part as real) * 100.0;
    if p > threshold as real {
      assert p * t > (threshold as real) * t;
    } else {
      assert p * t <= (threshold as real) * t;
    }
    assert (part * 100) as real == (part as real) * 100.0;
    assert (threshold * total) as real == (threshold as real) * t;
  }

  /**
   * generate_recommendations. The source divides by the total without a
   * guard, so it needs at least one facility. The result is the fired
   * categories in the report's fixed order, each with its standard priority
   * and count: the two data-source recommendations and, given facilities,
   * the charging one always appear, so there are between 3 and 7.
   */
  method GenerateRecommendations(m: QualityMetrics, gaps: Gaps) returns (recs: seq<Recommendation>)
    requires m.totalFacilities > 0
    ensures recs == Plan(CategoryCount, m, gaps)
    ensures forall c :: Recommends(recs, c) <==> Fired(c, m, gaps)
    ensures forall i :: 0 <= i < |recs| ==> recs[i] == Expected(recs[i].category, m, gaps)
    ensures forall i, j :: 0 <= i < j < |recs| ==> Rank(recs[i].category) < Rank(recs[j].category)
    ensures 3 <= |recs| <= 7
  {
    PercentAbove(|gaps.missingCapacity|, m.totalFacilities, 50);
    PercentAbove(|gaps.missingLocation|, m.totalFacilities, 50);
    PercentAbove(|gaps.noPolygon|, m.totalFacilities, 10);
    recs := [];
    if Percent(|gaps.missingCapacity|, m.totalFacilities) > 50.0 {
      recs := recs + [Recommendation(High, CapacityData, Facilities(|gaps.missingCapacity|))];
    }
    ghost var planned := Step(CapacityData, m, gaps);
    assert recs == planned;
    if Percent(|gaps.missingLocation|, m.totalFacilities) > 50.0 {
      recs := recs + [Recommendation(High, LocationData, Facilities(|gaps.missingLocation|))];
    }
    planned := planned + Step(LocationData, m, gaps);
    assert recs == planned;
    if Percent(|gaps.noPolygon|, m.totalFacilities) > 10.0 {
      recs := recs + [Recommendation(Medium, PolygonBoundaries, Facilities(|gaps.noPolygon|))];
    }
    planned := planned + Step(PolygonBoundaries, m, gaps);
    assert recs == planned;
    recs := recs + [Recommendation(High, AdditionalDataSources, NotApplicable)];
    planned := planned + Step(AdditionalDataSources, m, gaps);
    recs := recs + [Recommendation(Medium, OccupancyData, Facilities(m.totalFacilities))];
    planned := planned + Step(OccupancyData, m, gaps);
    assert recs == planned;
    if m.totalFacilities > 0 {
      recs := recs + [Recommendation(Medium, ChargingInfrastructure, Facilities(m.totalFacilities))];
    }
    planned := planned + Step(ChargingInfrastructure, m, gaps);
    assert recs == planned;
    if |gaps.lowConfidence| > 0 {
      recs := recs + [Recommendation(Low, DataVerification, Facilities(|gaps.lowConfidence|))];
    }
    planned := planned + Step(DataVerification, m, gaps);
    assert recs == planned;
    PlanUnrolled(m, gaps);
    PlanFacts(m, gaps);
    PlanSize(m, gaps);
  }

  /** Each step adds one recommendation exactly when its category fires. */
  lemma PlanGrows(k: nat, m: QualityMetrics, gaps: Gaps)
    requires 0 < k <= CategoryCount
    ensures |Plan(k, m, gaps)| == |Plan(k - 1, m, gaps)| + (if Fired(CategoryAt(k - 1), m, gaps) then 1 else 0)
  {
  }

  /** With facilities present, three categories always fire, so the plan has 3 to 7 entries. */
  lemma PlanSize(m: QualityMetrics, gaps: Gaps)
    requires m.totalFacilities > 0
    ensures 3 <= |Plan(CategoryCount, m, gaps)| <= 7
  {
    PlanGrows(4, m, gaps);
    PlanGrows(5, m, gaps);
    PlanGrows(6, m, gaps);
    PlanGrows(7, m, gaps);
    assert CategoryAt(3) == AdditionalDataSources && CategoryAt(4) == OccupancyData;
    assert CategoryAt(5) == ChargingInfrastructure;
  }

  /** What the full plan says: membership, content and order. */
  lemma PlanFacts(m: QualityMetrics, gaps: Gaps)
    ensures forall c :: Recommends(Plan(CategoryCount, m, gaps), c) <==> Fired(c, m, gaps)
    ensures forall i :: 0 <= i < |Plan(CategoryCount, m, gaps)| ==>
              Plan(CategoryCount, m, gaps)[i] == Expected(Plan(CategoryCount, m, gaps)[i].category, m, gaps)
    ensures forall i, j :: 0 <= i < j < |Plan(CategoryCount, m, gaps)| ==>
              Rank(Plan(CategoryCount, m, gaps)[i].category) < Rank(Plan(CategoryCount, m, gaps)[j].category)
  {
    PlanMembers(CategoryCount, m, gaps);
    PlanOrdered(CategoryCount, m, gaps);
  }
}
