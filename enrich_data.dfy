/**
 * enrich_data.py: classifying collected facilities as truck parking, rest
 * area or service area, dropping the ones that are not truck-relevant, and
 * the statistics computed over what is kept. Reverse geocoding through
 * Nominatim (which fills `location`) is not part of this model.
 */
module EnrichData {
  import opened Common
  import opened Counters
  import opened Records

  // ---------------------------------------------------------------------
  // filter_and_classify_facilities
  // ---------------------------------------------------------------------

  /** `tags.get('hgv', '').lower()`. */
  function HgvTag(f: Facility): string {
    Lower(GetOr(f.tags, "hgv", ""))
  }

  function HighwayTag(f: Facility): string {
    Lower(GetOr(f.tags, "highway", ""))
  }

  /** `min(confidence + bump, 1.0)` in hundredths. */
  function Bump(c: int, bump: nat): int {
    Min(c + bump, 100)
  }

  /** The classification written into each facility; the starting confidence is `confidence_score`, 0.5 when absent. */
  function Classify(f: Facility): Classification {
    ClassifyTags(f.tags, f.confidenceScore.GetOr(50))
  }

  /** The classification of a tag map, starting from confidence `c0`. */
  function ClassifyTags(tags: map<string, string>, c0: int): Classification {
    var hgv := Lower(GetOr(tags, "hgv", ""));
    var truck := hgv == "yes" || hgv == "designated";
    var c1 := if truck then Bump(c0, 20) else c0;
    var highway := Lower(GetOr(tags, "highway", ""));
    var rest := highway == "rest_area";
    var service := highway == "services";
    var c2 := if rest || service then Bump(c1, 10) else c1;
    var parking := Lower(GetOr(tags, "parking", ""));
    var parkingBump := Lower(GetOr(tags, "amenity", "")) == "parking" && (parking == "surface" || parking == "layby");
    var c3 := if parkingBump then Bump(c2, 5) else c2;
    Classification(truck, rest, service, c3)
  }

  /** The keep/drop decision that follows classification. */
  predicate Keep(f: Facility, c: Classification) {
    c.isTruckParking || c.isRestArea || c.isServiceArea || HgvTag(f) != "" || HasTruckSpots(f)
  }

  /** The facility after `facility['classification'] = classification`. */
  function Classified(f: Facility): Facility {
    f.(classification := Some(Classify(f)))
  }

  predicate KeepClassified(f: Facility) {
    f.classification.Some? && Keep(f, f.classification.value)
  }

  /** A facility is truck parking iff its lower-cased `hgv` tag is `yes` or `designated`. */
  lemma TruckParkingIff(f: Facility)
    ensures Classify(f).isTruckParking <==> Lower(GetOr(f.tags, "hgv", "")) == "yes" || Lower(GetOr(f.tags, "hgv", "")) == "designated"
  {
  }

  /** No facility is both a rest area and a service area. */
  lemma RestServiceExclusive(f: Facility)
    ensures !(Classify(f).isRestArea && Classify(f).isServiceArea)
    ensures Classify(f).isRestArea <==> HighwayTag(f) == "rest_area"
    ensures Classify(f).isServiceArea <==> HighwayTag(f) == "services"
  {
  }

  /**
   * Confidence bumps are capped at 1.0: starting at most 1.0 the confidence
   * never decreases and stays at most 1.0; starting above 1.0 it is either
   * untouched or pulled down to exactly 1.0 by the first bump that applies.
   */
  lemma ConfidenceBounds(f: Facility)
    ensures var c0 := f.confidenceScore.GetOr(50);
            var c := Classify(f).confidence;
            && (c0 <= 100 ==> c0 <= c <= 100)
            && (c0 > 100 ==> c == c0 || c == 100)
  {
  }

  /** A facility is kept iff it is truck parking, a rest or service area, has any `hgv` tag or has truthy `truck_spots`. */
  lemma KeepIff(f: Facility)
    ensures var c := Classify(f);
            Keep(f, c) <==> c.isTruckParking || c.isRestArea || c.isServiceArea ||
                            GetOr(f.tags, "hgv", "") != "" || Truthy(Lookup(f.capacity, "truck_spots"))
  {
    assert |HgvTag(f)| == |GetOr(f.tags, "hgv", "")|;
  }

  /** Every truck-parking classification is kept. */
  lemma TruckParkingKept(f: Facility)
    requires Classify(f).isTruckParking
    ensures KeepClassified(Classified(f))
  {
  }

  /** The classification dictionary built for one facility's tags, starting from confidence `c0`. */
  method ClassifyFacility(tags: map<string, string>, c0: int) returns (c: Classification)
    ensures c == ClassifyTags(tags, c0)
  {
    c := Classification(false, false, false, c0);
    var hgvTag := Lower(GetOr(tags, "hgv", ""));
    if hgvTag == "yes" || hgvTag == "designated" {
      c := c.(isTruckParking := true, confidence := Min(c.confidence + 20, 100));
    }
    var highwayTag := Lower(GetOr(tags, "highway", ""));
    if highwayTag == "rest_area" || highwayTag == "services" {
      if highwayTag == "rest_area" {
        c := c.(isRestArea := true);
      } else {
        c := c.(isServiceArea := true);
      }
      c := c.(confidence := Min(c.confidence + 10, 100));
    }
    var amenityTag := Lower(GetOr(tags, "amenity", ""));
    if amenityTag == "parking" {
      var parkingTag := Lower(GetOr(tags, "parking", ""));
      if parkingTag == "surface" || parkingTag == "layby" {
        c := c.(confidence := Min(c.confidence + 5, 100));
      }
    }
  }

  /** The filter criteria, tried in the source's order. */
  method KeepFacility(f: Facility, c: Classification) returns (keep: bool)
    ensures keep == Keep(f, c)
  {
    keep := false;
    if c.isTruckParking {
      keep := true;
    } else if c.isRestArea || c.isServiceArea {
      keep := true;
    } else if Lower(GetOr(f.tags, "hgv", "")) != "" {
      keep := true;
    } else if Truthy(Lookup(f.capacity, "truck_spots")) {
      keep := true;
    }
  }

  /**
   * The facility list after the loop: every facility has its classification
   * written in place, and the returned list holds the kept ones in input
   * order.
   */
  /** One pass of the loop body: classify `facilities[i]` in place and decide whether it is kept. */
  method ClassifyAt(facilities: array<Facility>, i: nat) returns (keep: bool)
    requires i < facilities.Length
    modifies facilities
    ensures facilities[i] == Classified(old(facilities[i]))
    ensures forall j :: 0 <= j < facilities.Length && j != i ==> facilities[j] == old(facilities[j])
    ensures keep == KeepClassified(facilities[i])
  {
    var f := facilities[i];
    var c := ClassifyFacility(f.tags, f.confidenceScore.GetOr(50));
    var g := f.(classification := Some(c));
    ClassifiedBy(f, c);
    facilities[i] := g;
    keep := KeepFacility(g, c);
  }

  /** `filter_and_classify_facilities`: classifies every facility in place and returns those kept, in order. */
  method FilterAndClassifyFacilities(facilities: array<Facility>) returns (classified: seq<Facility>)
    modifies facilities
    ensures facilities[..] == Map(old(facilities[..]))
    ensures classified == Filter(facilities[..], KeepClassified)
  {
    ghost var original := facilities[..];
    ghost var expected := Map(original);
    classified := [];
    var i := 0;
    while i < facilities.Length
      invariant 0 <= i <= facilities.Length
      invariant forall j :: 0 <= j < i ==> facilities[j] == expected[j]
      invariant forall j :: i <= j < facilities.Length ==> facilities[j] == original[j]
      invariant classified == Filter(expected[..i], KeepClassified)
    {
      var keep := ClassifyAt(facilities, i);
      TakeSnoc(expected, i);
      FilterSnoc(expected[..i], expected[i], KeepClassified);
      if keep {
        classified := classified + [facilities[i]];
      }
      i := i + 1;
    }
    assert expected[..i] == expected == facilities[..];
  }

  lemma ClassifiedBy(f: Facility, c: Classification)
    requires c == ClassifyTags(f.tags, f.confidenceScore.GetOr(50))
    ensures f.(classification := Some(c)) == Classified(f)
  {
  }

  /** A classified facility is in the output iff it is in the input and the filter keeps it. */
  lemma ClassifiedMembership(fs: seq<Facility>, f: Facility)
    ensures f in Filter(Map(fs), KeepClassified) <==> (exists g :: g in fs && f == Classified(g)) && Keep(f, f.classification.value) && f.classification.Some?
  {
    FilterMember(Map(fs), KeepClassified, f);
    if f in Map(fs) {
      var i :| 0 <= i < |fs| && Map(fs)[i] == f;
      assert fs[i] in fs;
    }
    if exists g :: g in fs && f == Classified(g) {
      var g :| g in fs && f == Classified(g);
      var i :| 0 <= i < |fs| && fs[i] == g;
      assert Map(fs)[i] == f;
    }
  }

  /** The array contents after classification. */
  function Map(fs: seq<Facility>): (r: seq<Facility>)
    ensures |r| == |fs| && forall i :: 0 <= i < |fs| ==> r[i] == Classified(fs[i])
  {
    seq(|fs|, i requires 0 <= i < |fs| => Classified(fs[i]))
  }

  /** Every kept facility carries its classification. */
  lemma KeptAreClassified(fs: seq<Facility>, f: Facility)
    requires f in Filter(Map(fs), KeepClassified)
    ensures f.classification.Some?
  {
    FilterMember(Map(fs), KeepClassified, f);
  }

  // ---------------------------------------------------------------------
  // analyze_facilities
  // ---------------------------------------------------------------------

  /** `[AN]` followed by a digit at position `i`: where a match of `[AN]\d+` can start. */
  predicate RoadStart(s: string, i: int) {
    0 <= i && i + 1 < |s| && (s[i] == 'A' || s[i] == 'N') && IsDigit(s[i + 1])
  }

  /** The end of the maximal run of digits starting at `j` (the greedy `\d+`). */
  function DigitRunEnd(s: string, j: nat): (k: nat)
    requires j <= |s|
    ensures j <= k <= |s|
    ensures forall m :: j <= m < k ==> IsDigit(s[m])
    ensures k == |s| || !IsDigit(s[k])
    decreases |s| - j
  {
    if j < |s| && IsDigit(s[j]) then DigitRunEnd(s, j + 1) else j
  }

  function SearchFrom(s: string, i: nat): (r: Option<string>)
    requires i <= |s|
    ensures r.None? <==> forall k :: i <= k < |s| ==> !RoadStart(s, k)
    ensures r.Some? ==> exists k :: i <= k < |s| && RoadStart(s, k) &&
                          (forall m :: i <= m < k ==> !RoadStart(s, m)) &&
                          r.value == s[k..DigitRunEnd(s, k + 1)]
    decreases |s| - i
  {
    if i == |s| then None
    else if RoadStart(s, i) then Some(s[i..DigitRunEnd(s, i + 1)])
    else SearchFrom(s, i + 1)
  }

  /**
   * `re.search(r'[AN]\d+', s).group(0)`: the leftmost match, extended over
   * every following digit; None when nothing matches.
   */
  function FirstRoadRef(s: string): (r: Option<string>)
    ensures r.None? <==> forall k :: 0 <= k < |s| ==> !RoadStart(s, k)
    ensures r.Some? ==> exists k :: RoadStart(s, k) &&
                          (forall m :: 0 <= m < k ==> !RoadStart(s, m)) &&
                          r.value == s[k..DigitRunEnd(s, k + 1)]
  {
    SearchFrom(s, 0)
  }

  /** A road reference found by the search is a letter A or N followed by at least one digit and nothing else. */
  lemma RoadRefShape(s: string)
    ensures FirstRoadRef(s).Some? ==>
            var r := FirstRoadRef(s).value;
            |r| >= 2 && (r[0] == 'A' || r[0] == 'N') && forall m :: 1 <= m < |r| ==> IsDigit(r[m])
  {
  }

  function ProvinceKey(f: Facility): string {
    Province(f)
  }

  /** The highway bucket: the first road reference when one is found, else the raw value; missing counts as `Unknown`. */
  function HighwayKey(f: Facility): string {
    HighwayBucket(GetOr(f.location, "highway", "Unknown"))
  }

  /** The bucket for a highway value `h` that is present (or defaulted to `Unknown`). */
  function HighwayBucket(h: string): string {
    if h != "" && h != "Unknown" then
      match FirstRoadRef(h)
      case Some(r) => r
      case None => h
    else h
  }

  /** The empty value and `Unknown` contain no road reference, so skipping the search for them changes nothing. */
  lemma HighwayBucketCases(h: string)
    ensures FirstRoadRef(h).None? ==> HighwayBucket(h) == h
    ensures FirstRoadRef(h).Some? ==> HighwayBucket(h) == FirstRoadRef(h).value
  {
    if h == "Unknown" {
      UnknownHasNoRoad();
    }
  }

  lemma UnknownHasNoRoad()
    ensures FirstRoadRef("Unknown").None?
  {
    var u := "Unknown";
    assert u == ['U', 'n', 'k', 'n', 'o', 'w', 'n'];
    assert forall k :: 0 <= k < |u| ==> u[k] != 'A' && u[k] != 'N';
  }

  lemma HighwayKeyCases(f: Facility)
    ensures "highway" !in f.location ==> HighwayKey(f) == "Unknown"
    ensures "highway" in f.location && FirstRoadRef(f.location["highway"]).None? ==> HighwayKey(f) == f.location["highway"]
    ensures "highway" in f.location && FirstRoadRef(f.location["highway"]).Some? ==> HighwayKey(f) == FirstRoadRef(f.location["highway"]).value
  {
    HighwayBucketCases(GetOr(f.location, "highway", "Unknown"));
  }

  /** The `by_type` bucket, with precedence Rest Area > Service Area > Truck Parking > Other. */
  function TypeKey(f: Facility): string {
    match f.classification
    case None => "Other"
    case Some(c) =>
      if c.isRestArea then "Rest Area"
      else if c.isServiceArea then "Service Area"
      else if c.isTruckParking then "Truck Parking"
      else "Other"
  }

  lemma TypeKeyPrecedence(f: Facility)
    ensures TypeKey(f) in {"Rest Area", "Service Area", "Truck Parking", "Other"}
    ensures TypeKey(f) == "Rest Area" <==> f.classification.Some? && f.classification.value.isRestArea
    ensures TypeKey(f) == "Service Area" <==> f.classification.Some? && !f.classification.value.isRestArea && f.classification.value.isServiceArea
    ensures TypeKey(f) == "Truck Parking" <==> f.classification.Some? && !f.classification.value.isRestArea &&
                                               !f.classification.value.isServiceArea && f.classification.value.isTruckParking
  {
  }

  /** What one facility adds to `total_truck_capacity`: its parsed `truck_spots`, 0 when absent or unparsable. */
  function TruckSpots(f: Facility): int {
    if f.capacity != map[] && "truck_spots" in f.capacity then
      match ParseInt(f.capacity["truck_spots"])
      case Some(n) => n
      case None => 0
    else 0
  }

  function TotalTruckCapacity(fs: seq<Facility>): int {
    if fs == [] then 0 else TotalTruckCapacity(fs[..|fs| - 1]) + TruckSpots(fs[|fs| - 1])
  }

  lemma TotalTruckCapacitySnoc(fs: seq<Facility>, f: Facility)
    ensures TotalTruckCapacity(fs + [f]) == TotalTruckCapacity(fs) + TruckSpots(f)
  {
    assert (fs + [f])[..|fs|] == fs;
  }

  /** Facilities without capacity, or whose `truck_spots` does not parse, add nothing to the total. */
  lemma {:induction false} TruckCapacityOnlyFromParsed(fs: seq<Facility>)
    requires forall f :: f in fs ==> f.capacity == map[] || "truck_spots" !in f.capacity || ParseInt(f.capacity["truck_spots"]).None?
    ensures TotalTruckCapacity(fs) == 0
  {
    if fs != [] {
      assert forall f :: f in fs[..|fs| - 1] ==> f in fs;
      TruckCapacityOnlyFromParsed(fs[..|fs| - 1]);
      assert fs[|fs| - 1] in fs;
    }
  }

  predicate HasCapacity(f: Facility) { f.capacity != map[] }
  predicate HasAmenities(f: Facility) { f.amenities != map[] }
  predicate HasElectricity(f: Facility) { f.electricity.Some? }
  predicate HasPolygonGeometry(f: Facility) { HasPolygon(f.geometry) }
  predicate IsHighConfidence(f: Facility) { Score(f) >= 70 }


  datatype Stats = Stats(
    total: nat,
    byProvince: map<string, nat>,
    byHighway: map<string, nat>,
    byType: map<string, nat>,
    withCapacity: nat,
    withAmenities: nat,
    withElectricity: nat,
    withPolygons: nat,
    totalTruckCapacity: int,
    highConfidence: nat)

  function EmptyStats(total: nat): Stats {
    Stats(total, map[], map[], map[], 0, 0, 0, 0, 0, 0)
  }

  function Indicator(b: bool): nat {
    if b then 1 else 0
  }

  /** What the loop body of `analyze_facilities` does for one facility. */
  function Accumulate(st: Stats, f: Facility): Stats {
    st.(byProvince := Inc(st.byProvince, ProvinceKey(f)),
        byHighway := Inc(st.byHighway, HighwayKey(f)),
        byType := Inc(st.byType, TypeKey(f)),
        withCapacity := st.withCapacity + Indicator(HasCapacity(f)),
        totalTruckCapacity := st.totalTruckCapacity + (if HasCapacity(f) then TruckSpots(f) else 0),
        withAmenities := st.withAmenities + Indicator(HasAmenities(f)),
        withElectricity := st.withElectricity + Indicator(HasElectricity(f)),
        withPolygons := st.withPolygons + Indicator(HasPolygonGeometry(f)),
        highConfidence := st.highConfidence + Indicator(IsHighConfidence(f)))
  }

  /** The statistics after the loop has seen `fs`, with `total` fixed up front. */
  function Analysis(total: nat, fs: seq<Facility>): Stats {
    if fs == [] then EmptyStats(total) else Accumulate(Analysis(total, fs[..|fs| - 1]), fs[|fs| - 1])
  }

  /**
   * The statistics are counters over the facilities: the three distributions
   * are tallies of the bucket keys, the `with_*` fields count the facilities
   * with the property, and the capacity is the sum of parsed `truck_spots`.
   */
  lemma {:induction false} AnalysisMeaning(total: nat, fs: seq<Facility>)
    ensures var st := Analysis(total, fs);
            && st.total == total
            && st.byProvince == Tally(KeysOf(fs, ProvinceKey))
            && st.byHighway == Tally(KeysOf(fs, HighwayKey))
            && st.byType == Tally(KeysOf(fs, TypeKey))
            && st.withCapacity == CountIf(fs, HasCapacity)
            && st.withAmenities == CountIf(fs, HasAmenities)
            && st.withElectricity == CountIf(fs, HasElectricity)
            && st.withPolygons == CountIf(fs, HasPolygonGeometry)
            && st.totalTruckCapacity == TotalTruckCapacity(fs)
            && st.highConfidence == CountIf(fs, IsHighConfidence)
  {
    AnalysisTallies(total, fs);
    AnalysisCapacity(total, fs);
    AnalysisAmenities(total, fs);
    AnalysisElectricity(total, fs);
    AnalysisPolygons(total, fs);
    AnalysisHighConfidence(total, fs);
    AnalysisTruckCapacity(total, fs);
  }

  lemma {:induction false} AnalysisTallies(total: nat, fs: seq<Facility>)
    ensures var st := Analysis(total, fs);
            && st.total == total
            && st.byProvince == Tally(KeysOf(fs, ProvinceKey))
            && st.byHighway == Tally(KeysOf(fs, HighwayKey))
            && st.byType == Tally(KeysOf(fs, TypeKey))
  {
    if fs != [] {
      var init := fs[..|fs| - 1];
      AnalysisTallies(total, init);
      assert KeysOf(fs, ProvinceKey)[..|fs| - 1] == KeysOf(init, ProvinceKey);
      assert KeysOf(fs, HighwayKey)[..|fs| - 1] == KeysOf(init, HighwayKey);
      assert KeysOf(fs, TypeKey)[..|fs| - 1] == KeysOf(init, TypeKey);
    }
  }

  lemma {:induction false} AnalysisCapacity(total: nat, fs: seq<Facility>)
    ensures Analysis(total, fs).withCapacity == CountIf(fs, HasCapacity)
  {
    if fs != [] {
      AnalysisCapacity(total, fs[..|fs| - 1]);
    }
  }

  lemma {:induction false} AnalysisAmenities(total: nat, fs: seq<Facility>)
    ensures Analysis(total, fs).withAmenities == CountIf(fs, HasAmenities)
  {
    if fs != [] {
      AnalysisAmenities(total, fs[..|fs| - 1]);
    }
  }

  lemma {:induction false} AnalysisElectricity(total: nat, fs: seq<Facility>)
    ensures Analysis(total, fs).withElectricity == CountIf(fs, HasElectricity)
  {
    if fs != [] {
      AnalysisElectricity(total, fs[..|fs| - 1]);
    }
  }

  lemma {:induction false} AnalysisPolygons(total: nat, fs: seq<Facility>)
    ensures Analysis(total, fs).withPolygons == CountIf(fs, HasPolygonGeometry)
  {
    if fs != [] {
      AnalysisPolygons(total, fs[..|fs| - 1]);
    }
  }

  lemma {:induction false} AnalysisHighConfidence(total: nat, fs: seq<Facility>)
    ensures Analysis(total, fs).highConfidence == CountIf(fs, IsHighConfidence)
  {
    if fs != [] {
      AnalysisHighConfidence(total, fs[..|fs| - 1]);
    }
  }

  lemma {:induction false} AnalysisTruckCapacity(total: nat, fs: seq<Facility>)
    ensures Analysis(total, fs).totalTruckCapacity == TotalTruckCapacity(fs)
  {
    if fs != [] {
      AnalysisTruckCapacity(total, fs[..|fs| - 1]);
    }
  }

  /** The loop of `analyze_facilities`. */
  method AnalyzeFacilities(facilities: seq<Facility>) returns (stats: Stats)
    ensures stats == Analysis(|facilities|, facilities)
    ensures stats.total == |facilities|
    ensures stats.byProvince == Tally(KeysOf(facilities, ProvinceKey))
    ensures stats.byHighway == Tally(KeysOf(facilities, HighwayKey))
    ensures stats.byType == Tally(KeysOf(facilities, TypeKey))
    ensures stats.withCapacity == CountIf(facilities, HasCapacity)
    ensures stats.totalTruckCapacity == TotalTruckCapacity(facilities)
    ensures stats.highConfidence == CountIf(facilities, IsHighConfidence)
  {
    var byProvince, byHighway, byType: map<string, nat> := map[], map[], map[];
    var withCapacity, withAmenities, withElectricity, withPolygons, highConfidence: nat := 0, 0, 0, 0, 0;
    var totalTruckCapacity := 0;
    ghost var n := |facilities|;
    var i := 0;
    while i < |facilities|
      invariant 0 <= i <= |facilities|
      invariant byProvince == Analysis(n, facilities[..i]).byProvince
      invariant byHighway == Analysis(n, facilities[..i]).byHighway
      invariant byType == Analysis(n, facilities[..i]).byType
      invariant withCapacity == Analysis(n, facilities[..i]).withCapacity
      invariant withAmenities == Analysis(n, facilities[..i]).withAmenities
      invariant withElectricity == Analysis(n, facilities[..i]).withElectricity
      invariant withPolygons == Analysis(n, facilities[..i]).withPolygons
      invariant totalTruckCapacity == Analysis(n, facilities[..i]).totalTruckCapacity
      invariant highConfidence == Analysis(n, facilities[..i]).highConfidence
    {
      var f := facilities[i];
      assert facilities[..i + 1][..i] == facilities[..i];
      ghost var next := Accumulate(Analysis(n, facilities[..i]), f);
      assert Analysis(n, facilities[..i + 1]) == next;
      byProvince := Inc(byProvince, ProvinceKey(f));
      byHighway := Inc(byHighway, HighwayKey(f));
      byType := Inc(byType, TypeKey(f));
      if f.capacity != map[] {
        withCapacity := withCapacity + 1;
        totalTruckCapacity := totalTruckCapacity + TruckSpots(f);
      }
      if f.amenities != map[] {
        withAmenities := withAmenities + 1;
      }
      if f.electricity.Some? {
        withElectricity := withElectricity + 1;
      }
      if HasPolygon(f.geometry) {
        withPolygons := withPolygons + 1;
      }
      if Score(f) >= 70 {
        highConfidence := highConfidence + 1;
      }
      i := i + 1;
    }
    assert facilities[..i] == facilities;
    stats := Stats(|facilities|, byProvince, byHighway, byType, withCapacity, withAmenities,
                   withElectricity, withPolygons, totalTruckCapacity, highConfidence);
    AnalysisMeaning(|facilities|, facilities);
  }

  lemma KeysSnoc(fs: seq<Facility>, f: Facility, key: Facility -> string)
    ensures KeysOf(fs + [f], key) == KeysOf(fs, key) + [key(f)]
  {
  }

  /** The province, highway and type buckets each partition the facilities: their counts sum to `total`. */
  lemma BucketsPartition(facilities: seq<Facility>)
    ensures Total(Tally(KeysOf(facilities, ProvinceKey))) == |facilities|
    ensures Total(Tally(KeysOf(facilities, HighwayKey))) == |facilities|
    ensures Total(Tally(KeysOf(facilities, TypeKey))) == |facilities|
  {
    TallyTotal(KeysOf(facilities, ProvinceKey));
    TallyTotal(KeysOf(facilities, HighwayKey));
    TallyTotal(KeysOf(facilities, TypeKey));
  }

  /** Only the four type buckets occur. */
  lemma TypeBuckets(facilities: seq<Facility>, k: string)
    requires k in Tally(KeysOf(facilities, TypeKey))
    ensures k in {"Rest Area", "Service Area", "Truck Parking", "Other"}
  {
    TallyCounts(KeysOf(facilities, TypeKey), k);
    var i :| 0 <= i < |facilities| && KeysOf(facilities, TypeKey)[i] == k;
    TypeKeyPrecedence(facilities[i]);
  }
}
