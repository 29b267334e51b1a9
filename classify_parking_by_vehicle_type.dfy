/**
 * classify_parking_by_vehicle_type.py: a detected parking zone, given by its
 * width, length and area in metres, is matched against range tables of
 * Dutch (CROW) vehicle-type standards; long zones are parking rows whose
 * capacity is estimated by dividing their length. The Maasvlakte analysis
 * then tallies the classified zones per type and adds up the estimated
 * capacity. Confidences are kept in integer hundredths.
 */
module ClassifyParkingByVehicleType {
  import opened Common

  /** The keys of `VEHICLE_STANDARDS`, in their declaration order. */
  datatype StandardType = CarVan | StandardTruck | HeavyTruck | LargeTruck | Lzv | ParkingRow

  /** A classified zone's type: one of the standards, or `unknown` when none matches. */
  datatype ZoneType = Typed(standard: StandardType) | Unknown

  /** The declaration order of `VEHICLE_STANDARDS`, which breaks confidence ties. */
  const Order: seq<StandardType> := [CarVan, StandardTruck, HeavyTruck, LargeTruck, Lzv, ParkingRow]

  /** The seven keys of `type_stats`. */
  const AllTypes: seq<ZoneType> :=
    [Typed(CarVan), Typed(StandardTruck), Typed(HeavyTruck), Typed(LargeTruck), Typed(Lzv), Typed(ParkingRow), Unknown]

  /** Minimum and maximum width, length and area of a standard, in metres and square metres. */
  datatype Ranges = Ranges(wMin: real, wMax: real, lMin: real, lMax: real, aMin: real, aMax: real)

  function RangesOf(t: StandardType): Ranges {
    match t
    case CarVan => Ranges(2.0, 3.0, 4.0, 6.0, 8.0, 18.0)
    case StandardTruck => Ranges(3.5, 4.5, 12.0, 20.0, 42.0, 90.0)
    case HeavyTruck => Ranges(3.5, 5.0, 18.0, 25.0, 63.0, 125.0)
    case LargeTruck => Ranges(5.0, 8.0, 25.0, 35.0, 125.0, 280.0)
    case Lzv => Ranges(4.0, 6.0, 30.0, 45.0, 120.0, 270.0)
    case ParkingRow => Ranges(3.0, 8.0, 40.0, 100.0, 120.0, 800.0)
  }

  function Label(t: StandardType): string {
    match t
    case CarVan => "Car/Van"
    case StandardTruck => "Standard Truck"
    case HeavyTruck => "Heavy Truck"
    case LargeTruck => "Large Truck (Type C)"
    case Lzv => "LZV Parking"
    case ParkingRow => "Parking Row (Multiple Vehicles)"
  }

  function Color(t: StandardType): string {
    match t
    case CarVan => "#3b82f6"
    case StandardTruck => "#ef4444"
    case HeavyTruck => "#f97316"
    case LargeTruck => "#dc2626"
    case Lzv => "#7c2d12"
    case ParkingRow => "#10b981"
  }

  predicate WidthMatch(t: StandardType, w: real) { RangesOf(t).wMin <= w <= RangesOf(t).wMax }
  predicate LengthMatch(t: StandardType, l: real) { RangesOf(t).lMin <= l <= RangesOf(t).lMax }
  predicate AreaMatch(t: StandardType, a: real) { RangesOf(t).aMin <= a <= RangesOf(t).aMax }

  /** The confidence of one standard in hundredths: 33 for width, 33 for length, 34 for area. */
  function Confidence(t: StandardType, w: real, l: real, a: real): nat {
    (if WidthMatch(t, w) then 33 else 0) + (if LengthMatch(t, l) then 33 else 0) + (if AreaMatch(t, a) then 34 else 0)
  }

  /** `confidence > 0.5` holds exactly when at least two of the three range checks pass. */
  lemma CandidateIff(t: StandardType, w: real, l: real, a: real)
    ensures Confidence(t, w, l, a) > 50 <==>
              (WidthMatch(t, w) && LengthMatch(t, l)) || (WidthMatch(t, w) && AreaMatch(t, a)) || (LengthMatch(t, l) && AreaMatch(t, a))
    ensures Confidence(t, w, l, a) > 50 ==> Confidence(t, w, l, a) in {66, 67, 100}
  {
  }

  /** An entry of `matches`. */
  datatype Match = Match(standard: StandardType, confidence: nat)

  /** The candidate matches among the standards `ts`, in declaration order. */
  function Candidates(ts: seq<StandardType>, w: real, l: real, a: real): (r: seq<Match>)
    ensures |r| <= |ts|
    ensures forall m :: m in r ==> m.standard in ts && m.confidence == Confidence(m.standard, w, l, a) && m.confidence > 50
  {
    if ts == [] then []
    else
      var t := ts[|ts| - 1];
      var c := Confidence(t, w, l, a);
      Candidates(ts[..|ts| - 1], w, l, a) + (if c > 50 then [Match(t, c)] else [])
  }

  /** A standard with two passing checks is among the candidates. */
  lemma {:induction false} CandidatesComplete(ts: seq<StandardType>, t: StandardType, w: real, l: real, a: real)
    requires t in ts && Confidence(t, w, l, a) > 50
    ensures Match(t, Confidence(t, w, l, a)) in Candidates(ts, w, l, a)
  {
    if ts[|ts| - 1] != t {
      assert t in ts[..|ts| - 1] by {
        var k :| 0 <= k < |ts| && ts[k] == t;
        assert ts[..|ts| - 1][k] == t;
      }
      CandidatesComplete(ts[..|ts| - 1], t, w, l, a);
    }
  }

  // ---------------------------------------------------------------------
  // matches.sort(key=confidence, reverse=True): a stable descending sort
  // ---------------------------------------------------------------------

  /** Inserts `m` before the first entry whose confidence does not exceed its own. */
  function Insert(m: Match, s: seq<Match>): (r: seq<Match>)
    ensures |r| == |s| + 1 && multiset(r) == multiset(s) + multiset{m}
  {
    if s == [] || s[0].confidence <= m.confidence then [m] + s
    else
      assert s == [s[0]] + s[1..];
      [s[0]] + Insert(m, s[1..])
  }

  /** Stable: the earlier entry `ms[0]` is inserted in front of the equal entries after it. */
  function SortByConfidence(ms: seq<Match>): (r: seq<Match>)
    ensures |r| == |ms| && multiset(r) == multiset(ms)
  {
    if ms == [] then []
    else
      assert ms == [ms[0]] + ms[1..];
      Insert(ms[0], SortByConfidence(ms[1..]))
  }

  predicate Descending(s: seq<Match>) {
    forall i, j :: 0 <= i < j < |s| ==> s[i].confidence >= s[j].confidence
  }

  lemma {:induction false} InsertDescending(m: Match, s: seq<Match>)
    requires Descending(s)
    ensures Descending(Insert(m, s))
  {
    if !(s == [] || s[0].confidence <= m.confidence) {
      InsertDescending(m, s[1..]);
      var r := Insert(m, s[1..]);
      assert multiset(r) == multiset(s[1..]) + multiset{m};
      forall k | 0 <= k < |r|
        ensures s[0].confidence >= r[k].confidence
      {
        assert r[k] in multiset(r);
        if r[k] != m {
          assert r[k] in multiset(s[1..]);
          var j :| 0 <= j < |s[1..]| && s[1..][j] == r[k];
          assert s[j + 1] == r[k];
        }
      }
    }
  }

  /** The sort orders by descending confidence. */
  lemma {:induction false} SortDescending(ms: seq<Match>)
    ensures Descending(SortByConfidence(ms))
  {
    if ms != [] {
      SortDescending(ms[1..]);
      InsertDescending(ms[0], SortByConfidence(ms[1..]));
    }
  }

  /** The first match of highest confidence. */
  function FirstBest(ms: seq<Match>): (b: Match)
    requires ms != []
    ensures b in ms && forall m :: m in ms ==> m.confidence <= b.confidence
    ensures exists k :: 0 <= k < |ms| && ms[k] == b && forall j :: 0 <= j < k ==> ms[j].confidence < b.confidence
  {
    if |ms| == 1 then ms[0]
    else
      var rest := FirstBest(ms[1..]);
      assert forall m :: m in ms ==> m == ms[0] || m in ms[1..];
      if ms[0].confidence >= rest.confidence then ms[0]
      else
        var k :| 0 <= k < |ms[1..]| && ms[1..][k] == rest && forall j :: 0 <= j < k ==> ms[1..][j].confidence < rest.confidence;
        assert ms[k + 1] == rest;
        rest
  }

  /** `matches[0]` after the stable sort is the first match of highest confidence. */
  lemma {:induction false} SortHead(ms: seq<Match>)
    requires ms != []
    ensures SortByConfidence(ms)[0] == FirstBest(ms)
  {
    if |ms| > 1 {
      SortHead(ms[1..]);
    }
  }

  // ---------------------------------------------------------------------
  // estimate_vehicles_in_row
  // ---------------------------------------------------------------------

  /** Python's `int()` of a float: truncation toward zero. */
  function Trunc(x: real): int {
    if x >= 0.0 then x.Floor else -((-x).Floor)
  }

  datatype Estimate = Estimate(standardTrucks: int, heavyTrucks: int, lzv: int, cars: int)

  /** The width is not used: 15, 20, 35 and 5 metres of row per vehicle. */
  function EstimateVehiclesInRow(width: real, length: real): Estimate {
    Estimate(Trunc(length / 15.0), Trunc(length / 20.0), Trunc(length / 35.0), Trunc(length / 5.0))
  }

  lemma FloorMonotone(x: real, y: real)
    requires x <= y
    ensures x.Floor <= y.Floor
  {
  }

  /**
   * For a row of non-negative length each estimate is the number of whole
   * vehicle lengths that fit, so more small vehicles fit than large ones.
   */
  lemma EstimatesOrdered(width: real, length: real)
    requires length >= 0.0
    ensures var e := EstimateVehiclesInRow(width, length);
            && 0 <= e.lzv <= e.heavyTrucks <= e.standardTrucks <= e.cars
            && (e.standardTrucks as real) * 15.0 <= length < (e.standardTrucks as real + 1.0) * 15.0
            && (e.heavyTrucks as real) * 20.0 <= length < (e.heavyTrucks as real + 1.0) * 20.0
            && (e.lzv as real) * 35.0 <= length < (e.lzv as real + 1.0) * 35.0
            && (e.cars as real) * 5.0 <= length < (e.cars as real + 1.0) * 5.0
  {
    FloorMonotone(length / 35.0, length / 20.0);
    FloorMonotone(length / 20.0, length / 15.0);
    FloorMonotone(length / 15.0, length / 5.0);
  }

  // ---------------------------------------------------------------------
  // classify_parking_space
  // ---------------------------------------------------------------------

  function Lo(a: real, b: real): real { if a <= b then a else b }
  function Hi(a: real, b: real): real { if a <= b then b else a }

  /** `matches[0]` after the sort, if any standard matched. */
  function BestMatch(w: real, l: real, a: real): Option<Match> {
    var ms := SortByConfidence(Candidates(Order, w, l, a));
    if ms == [] then None else Some(ms[0])
  }

  lemma BestMatchMeaning(w: real, l: real, a: real)
    ensures BestMatch(w, l, a).None? <==> Candidates(Order, w, l, a) == []
    ensures BestMatch(w, l, a).Some? ==> BestMatch(w, l, a).value == FirstBest(Candidates(Order, w, l, a))
  {
    var ms := Candidates(Order, w, l, a);
    if ms != [] {
      SortHead(ms);
    }
  }

  datatype Estimated = Vehicles(n: nat) | Row(estimate: Estimate)

  datatype Classification = Classification(zoneType: ZoneType, confidence: nat, typeLabel: string, color: string,
                                           isParkingRow: bool, estimated: Estimated)

  function Classify(width: real, length: real, area: real): (c: Classification)
    ensures c.isParkingRow <==> c.estimated.Row?
  {
    var w := Lo(width, length);
    var l := Hi(width, length);
    match BestMatch(w, l, area)
    case None => Classification(Unknown, 0, "Unknown", "#6b7280", false, Vehicles(0))
    case Some(best) =>
      if l > 40.0 then Classification(Typed(best.standard), best.confidence, Label(best.standard), Color(best.standard), true, Row(EstimateVehiclesInRow(w, l)))
      else Classification(Typed(best.standard), best.confidence, Label(best.standard), Color(best.standard), false, Vehicles(1))
  }

  /** Width and length are reordered first, so their order does not matter. */
  lemma ClassifySymmetric(width: real, length: real, area: real)
    ensures Classify(width, length, area) == Classify(length, width, area)
  {
    assert Lo(width, length) == Lo(length, width) && Hi(width, length) == Hi(length, width);
  }

  /** No standard with two passing checks: `unknown`, confidence 0, no row, 0 vehicles. */
  lemma ClassifyUnknown(width: real, length: real, area: real)
    ensures var c := Classify(width, length, area);
            (c.zoneType == Unknown <==> Candidates(Order, Lo(width, length), Hi(width, length), area) == []) &&
            (c.zoneType == Unknown ==> c.confidence == 0 && !c.isParkingRow && c.estimated == Vehicles(0))
  {
    BestMatchMeaning(Lo(width, length), Hi(width, length), area);
  }

  /**
   * Some standard matches: the zone gets the first best candidate's type,
   * confidence, label and colour; it is a row estimated from the longer
   * side exactly when that side exceeds 40 m, else a single vehicle.
   */
  lemma ClassifyMatched(width: real, length: real, area: real)
    requires Candidates(Order, Lo(width, length), Hi(width, length), area) != []
    ensures var w := Lo(width, length);
            var l := Hi(width, length);
            var b := FirstBest(Candidates(Order, w, l, area));
            var c := Classify(width, length, area);
            && c.zoneType == Typed(b.standard) && c.confidence == b.confidence
            && c.typeLabel == Label(b.standard) && c.color == Color(b.standard)
            && (c.isParkingRow <==> l > 40.0)
            && c.estimated == (if l > 40.0 then Row(EstimateVehiclesInRow(w, l)) else Vehicles(1))
  {
    BestMatchMeaning(Lo(width, length), Hi(width, length), area);
  }

  /**
   * The first best candidate has the highest confidence of all standards
   * with two passing checks, every candidate before it has a lower one, and
   * its confidence is 66, 67 or 100.
   */
  lemma FirstBestIsHighest(w: real, l: real, a: real)
    requires Candidates(Order, w, l, a) != []
    ensures var ms := Candidates(Order, w, l, a);
            var b := FirstBest(ms);
            && b.confidence == Confidence(b.standard, w, l, a) && b.confidence in {66, 67, 100}
            && (forall t :: t in Order && Confidence(t, w, l, a) > 50 ==> Confidence(t, w, l, a) <= b.confidence)
            && (exists k :: 0 <= k < |ms| && ms[k] == b && forall j :: 0 <= j < k ==> ms[j].confidence < b.confidence)
  {
    var ms := Candidates(Order, w, l, a);
    var b := FirstBest(ms);
    CandidateIff(b.standard, w, l, a);
    forall t | t in Order && Confidence(t, w, l, a) > 50
      ensures Confidence(t, w, l, a) <= b.confidence
    {
      CandidatesComplete(Order, t, w, l, a);
    }
  }

  /** The three range checks of one standard. */
  method ScoreStandard(t: StandardType, w: real, l: real, area: real) returns (confidence: nat)
    ensures confidence == Confidence(t, w, l, area)
  {
    var r := RangesOf(t);
    confidence := 0;
    if r.wMin <= w <= r.wMax { confidence := confidence + 33; }
    if r.lMin <= l <= r.lMax { confidence := confidence + 33; }
    if r.aMin <= area <= r.aMax { confidence := confidence + 34; }
  }

  /** The candidate loop of classify_parking_space. */
  method CollectMatches(w: real, l: real, area: real) returns (matches: seq<Match>)
    ensures matches == Candidates(Order, w, l, area)
  {
    matches := [];
    var i := 0;
    while i < |Order|
      invariant 0 <= i <= |Order|
      invariant matches == Candidates(Order[..i], w, l, area)
    {
      var t := Order[i];
      assert Order[..i + 1][..i] == Order[..i];
      var confidence := ScoreStandard(t, w, l, area);
      if confidence > 50 {
        matches := matches + [Match(t, confidence)];
      }
      i := i + 1;
    }
    assert Order[..i] == Order;
  }

  method ClassifyParkingSpace(width: real, length: real, area: real) returns (c: Classification)
    ensures c == Classify(width, length, area)
  {
    var w := Lo(width, length);
    var l := Hi(width, length);
    var matches := CollectMatches(w, l, area);
    matches := SortByConfidence(matches);
    if matches != [] {
      var best := matches[0];
      assert BestMatch(w, l, area) == Some(best);
      if l > 40.0 {
        c := Classification(Typed(best.standard), best.confidence, Label(best.standard), Color(best.standard), true, Row(EstimateVehiclesInRow(w, l)));
      } else {
        c := Classification(Typed(best.standard), best.confidence, Label(best.standard), Color(best.standard), false, Vehicles(1));
      }
    } else {
      c := Classification(Unknown, 0, "Unknown", "#6b7280", false, Vehicles(0));
    }
  }

  // ---------------------------------------------------------------------
  // The tally loop of analyze_maasvlakte_data
  // ---------------------------------------------------------------------

  /** A detected zone of `maasvlakte_detection_results.json`. */
  datatype Space = Space(width: real, length: real, area: real)

  /** A facility of the detection results; `spaces` is `None` without a `parking_spaces` key. */
  datatype DetectionResult = DetectionResult(name: string, spaces: Option<seq<Space>>)

  datatype ClassifiedSpace = ClassifiedSpace(space: Space, classification: Classification)

  datatype EnhancedResult = EnhancedResult(result: DetectionResult, classified: seq<ClassifiedSpace>)

  datatype TypeStat = TypeStat(count: nat, totalArea: real, spaces: seq<Space>)

  datatype Tallies = Tallies(stats: map<ZoneType, TypeStat>, capacity: Estimate)

  function StatOf(stats: map<ZoneType, TypeStat>, t: ZoneType): TypeStat {
    if t in stats then stats[t] else TypeStat(0, 0.0, [])
  }

  /** `type_stats` with its seven zero entries and the zero capacity totals. */
  function Initial(): Tallies {
    Tallies(map t | t in AllTypes :: TypeStat(0, 0.0, []), Estimate(0, 0, 0, 0))
  }

  function AddEstimate(a: Estimate, b: Estimate): Estimate {
    Estimate(a.standardTrucks + b.standardTrucks, a.heavyTrucks + b.heavyTrucks, a.lzv + b.lzv, a.cars + b.cars)
  }

  /** A single-vehicle zone: standard and heavy trucks count as standard trucks; large trucks, rows and unknowns count nothing. */
  function AddSingle(cap: Estimate, t: ZoneType): Estimate {
    if t == Typed(StandardTruck) || t == Typed(HeavyTruck) then cap.(standardTrucks := cap.standardTrucks + 1)
    else if t == Typed(Lzv) then cap.(lzv := cap.lzv + 1)
    else if t == Typed(CarVan) then cap.(cars := cap.cars + 1)
    else cap
  }

  /** The zone's count, area and list under its type. */
  function CountIn(stats: map<ZoneType, TypeStat>, cs: ClassifiedSpace): map<ZoneType, TypeStat> {
    var t := cs.classification.zoneType;
    var st := StatOf(stats, t);
    stats[t := TypeStat(st.count + 1, st.totalArea + cs.space.area, st.spaces + [cs.space])]
  }

  /** One classified zone as the source tallies it: a row is re-estimated from the raw `width_m` and `length_m`. */
  function Record(acc: Tallies, cs: ClassifiedSpace): Tallies {
    Tallies(CountIn(acc.stats, cs),
            if cs.classification.isParkingRow then AddEstimate(acc.capacity, EstimateVehiclesInRow(cs.space.width, cs.space.length))
            else AddSingle(acc.capacity, cs.classification.zoneType))
  }

  /** The statistics after tallying the zones in order, each as the source does. */
  function TalliedFrom(acc: Tallies, css: seq<ClassifiedSpace>): Tallies {
    if css == [] then acc else Record(TalliedFrom(acc, css[..|css| - 1]), css[|css| - 1])
  }

  lemma {:induction false} TalliedAppend(acc: Tallies, xs: seq<ClassifiedSpace>, ys: seq<ClassifiedSpace>)
    ensures TalliedFrom(acc, xs + ys) == TalliedFrom(TalliedFrom(acc, xs), ys)
  {
    if ys == [] {
      assert xs + ys == xs;
    } else {
      assert (xs + ys)[..|xs + ys| - 1] == xs + ys[..|ys| - 1];
      TalliedAppend(acc, xs, ys[..|ys| - 1]);
    }
  }

  /** The zones of the facilities that have a `parking_spaces` key, in order. */
  function SpacesOf(results: seq<DetectionResult>): seq<Space> {
    if results == [] then []
    else
      var last := results[|results| - 1];
      SpacesOf(results[..|results| - 1]) + (if last.spaces.Some? then last.spaces.value else [])
  }

  function ClassifyAll(spaces: seq<Space>): (r: seq<ClassifiedSpace>)
    ensures |r| == |spaces|
  {
    seq(|spaces|, i requires 0 <= i < |spaces| => ClassifiedSpace(spaces[i], Classify(spaces[i].width, spaces[i].length, spaces[i].area)))
  }

  /** The facilities with a `parking_spaces` key, each with its classified zones. */
  function Enhanced(results: seq<DetectionResult>): seq<EnhancedResult> {
    if results == [] then []
    else
      var last := results[|results| - 1];
      Enhanced(results[..|results| - 1]) +
        (if last.spaces.Some? then [EnhancedResult(last, ClassifyAll(last.spaces.value))] else [])
  }

  /** The classified zones of all enhanced results, in order. */
  function AllClassified(enhanced: seq<EnhancedResult>): seq<ClassifiedSpace> {
    if enhanced == [] then [] else AllClassified(enhanced[..|enhanced| - 1]) + enhanced[|enhanced| - 1].classified
  }

  lemma EnhancedSnoc(results: seq<DetectionResult>)
    requires results != []
    ensures var init := results[..|results| - 1];
            var last := results[|results| - 1];
            AllClassified(Enhanced(results)) ==
              AllClassified(Enhanced(init)) + (if last.spaces.Some? then ClassifyAll(last.spaces.value) else [])
  {
    var init := results[..|results| - 1];
    var last := results[|results| - 1];
    if last.spaces.Some? {
      var e := Enhanced(results);
      assert e[..|e| - 1] == Enhanced(init);
    } else {
      assert Enhanced(results) == Enhanced(init) + [];
      assert Enhanced(results) == Enhanced(init);
      assert AllClassified(Enhanced(init)) + [] == AllClassified(Enhanced(init));
    }
  }

  /** The enhanced results hold one classified entry per zone, in the order of the zones. */
  lemma {:induction false} EnhancedCoversSpaces(results: seq<DetectionResult>)
    ensures |AllClassified(Enhanced(results))| == |SpacesOf(results)|
    ensures forall i :: 0 <= i < |SpacesOf(results)| ==> AllClassified(Enhanced(results))[i].space == SpacesOf(results)[i]
  {
    if results != [] {
      var init := results[..|results| - 1];
      var last := results[|results| - 1];
      EnhancedCoversSpaces(init);
      EnhancedSnoc(results);
      var a := AllClassified(Enhanced(init));
      var c := if last.spaces.Some? then ClassifyAll(last.spaces.value) else [];
      var z := if last.spaces.Some? then last.spaces.value else [];
      assert |c| == |z|;
      assert forall k :: 0 <= k < |c| ==> c[k].space == z[k];
      assert SpacesOf(results) == SpacesOf(init) + z;
      forall i | 0 <= i < |SpacesOf(results)|
        ensures (a + c)[i].space == SpacesOf(results)[i]
      {
        if i >= |a| {
          assert (a + c)[i] == c[i - |a|];
        } else {
          assert (a + c)[i] == a[i];
        }
      }
    }
  }

  /** The sum of the counts of the types in `ts`. */
  function CountSum(stats: map<ZoneType, TypeStat>, ts: seq<ZoneType>): nat {
    if ts == [] then 0 else CountSum(stats, ts[..|ts| - 1]) + StatOf(stats, ts[|ts| - 1]).count
  }

  lemma {:induction false} CountSumBump(stats: map<ZoneType, TypeStat>, ts: seq<ZoneType>, k: ZoneType, st: TypeStat)
    requires forall i, j :: 0 <= i < j < |ts| ==> ts[i] != ts[j]
    requires st.count == StatOf(stats, k).count + 1
    ensures CountSum(stats[k := st], ts) == CountSum(stats, ts) + (if k in ts then 1 else 0)
  {
    if ts != [] {
      var init := ts[..|ts| - 1];
      CountSumBump(stats, init, k, st);
      if ts[|ts| - 1] == k {
        forall i | 0 <= i < |init|
          ensures init[i] != k
        {
          assert init[i] == ts[i];
        }
      } else if k in ts {
        var i :| 0 <= i < |ts| && ts[i] == k;
        assert init[i] == k;
      } else {
        forall i | 0 <= i < |init|
          ensures init[i] != k
        {
          assert init[i] == ts[i];
        }
      }
    }
  }

  lemma {:induction false} CountSumZero(ts: seq<ZoneType>)
    ensures CountSum(Initial().stats, ts) == 0
  {
    if ts != [] {
      CountSumZero(ts[..|ts| - 1]);
    }
  }

  lemma AllTypesCover(t: ZoneType)
    ensures t in AllTypes
    ensures forall i, j :: 0 <= i < j < |AllTypes| ==> AllTypes[i] != AllTypes[j]
  {
    match t
    case Typed(CarVan) => assert AllTypes[0] == t;
    case Typed(StandardTruck) => assert AllTypes[1] == t;
    case Typed(HeavyTruck) => assert AllTypes[2] == t;
    case Typed(LargeTruck) => assert AllTypes[3] == t;
    case Typed(Lzv) => assert AllTypes[4] == t;
    case Typed(ParkingRow) => assert AllTypes[5] == t;
    case Unknown => assert AllTypes[6] == t;
  }

  /** Every zone is counted under exactly one type: the counts grow by the number of zones. */
  lemma {:induction false} TalliedCount(acc: Tallies, css: seq<ClassifiedSpace>)
    ensures CountSum(TalliedFrom(acc, css).stats, AllTypes) == CountSum(acc.stats, AllTypes) + |css|
  {
    if css != [] {
      var init := css[..|css| - 1];
      var cs := css[|css| - 1];
      TalliedCount(acc, init);
      var prev := TalliedFrom(acc, init);
      var t := cs.classification.zoneType;
      var st := StatOf(prev.stats, t);
      AllTypesCover(t);
      CountSumBump(prev.stats, AllTypes, t, TypeStat(st.count + 1, st.totalArea + cs.space.area, st.spaces + [cs.space]));
    }
  }

  /** A zone that is not a row and is classified as a standard or heavy truck adds exactly one standard truck and nothing else. */
  lemma SingleTruckAddsOne(acc: Tallies, cs: ClassifiedSpace)
    requires cs.classification == Classify(cs.space.width, cs.space.length, cs.space.area)
    requires !cs.classification.isParkingRow
    requires cs.classification.zoneType == Typed(StandardTruck) || cs.classification.zoneType == Typed(HeavyTruck)
    ensures Record(acc, cs).capacity == acc.capacity.(standardTrucks := acc.capacity.standardTrucks + 1)
    ensures RecordCorrected(acc, cs).capacity == Record(acc, cs).capacity
  {
  }

  /** The statistics update of one classified zone. */
  method RecordSpace(acc: Tallies, cs: ClassifiedSpace) returns (r: Tallies)
    ensures r == Record(acc, cs)
  {
    var c := cs.classification;
    var s := cs.space;
    var stats := acc.stats;
    var st := if c.zoneType in stats then stats[c.zoneType] else TypeStat(0, 0.0, []);
    stats := stats[c.zoneType := TypeStat(st.count + 1, st.totalArea + s.area, st.spaces + [s])];
    var cap := acc.capacity;
    if c.isParkingRow {
      cap := AddEstimate(cap, EstimateVehiclesInRow(s.width, s.length));
    } else if c.zoneType == Typed(StandardTruck) || c.zoneType == Typed(HeavyTruck) {
      cap := cap.(standardTrucks := cap.standardTrucks + 1);
    } else if c.zoneType == Typed(Lzv) {
      cap := cap.(lzv := cap.lzv + 1);
    } else if c.zoneType == Typed(CarVan) {
      cap := cap.(cars := cap.cars + 1);
    }
    r := Tallies(stats, cap);
  }

  lemma ClassifyAllSnoc(spaces: seq<Space>, i: nat)
    requires i < |spaces|
    ensures ClassifyAll(spaces[..i + 1]) ==
            ClassifyAll(spaces[..i]) + [ClassifiedSpace(spaces[i], Classify(spaces[i].width, spaces[i].length, spaces[i].area))]
  {
  }

  method TallyFacility(acc: Tallies, spaces: seq<Space>) returns (r: Tallies, classified: seq<ClassifiedSpace>)
    ensures classified == ClassifyAll(spaces)
    ensures r == TalliedFrom(acc, classified)
  {
    r := acc;
    classified := [];
    var i := 0;
    while i < |spaces|
      invariant 0 <= i <= |spaces|
      invariant classified == ClassifyAll(spaces[..i])
      invariant r == TalliedFrom(acc, classified)
    {
      var s := spaces[i];
      var c := ClassifyParkingSpace(s.width, s.length, s.area);
      var cs := ClassifiedSpace(s, c);
      r := RecordSpace(r, cs);
      ClassifyAllSnoc(spaces, i);
      assert (classified + [cs])[..i] == classified;
      classified := classified + [cs];
      i := i + 1;
    }
    assert spaces[..i] == spaces;
  }

  method AnalyzeMaasvlakteData(results: seq<DetectionResult>) returns (tallies: Tallies, enhanced: seq<EnhancedResult>)
    ensures enhanced == Enhanced(results)
    ensures tallies == TalliedFrom(Initial(), AllClassified(enhanced))
    ensures CountSum(tallies.stats, AllTypes) == |SpacesOf(results)|
  {
    tallies := Initial();
    enhanced := [];
    var i := 0;
    while i < |results|
      invariant 0 <= i <= |results|
      invariant enhanced == Enhanced(results[..i])
      invariant tallies == TalliedFrom(Initial(), AllClassified(enhanced))
    {
      var fr := results[i];
      assert results[..i + 1][..i] == results[..i];
      if fr.spaces.Some? {
        var classified;
        tallies, classified := TallyFacility(tallies, fr.spaces.value);
        TalliedAppend(Initial(), AllClassified(enhanced), classified);
        var next := enhanced + [EnhancedResult(fr, classified)];
        assert next[..|next| - 1] == enhanced;
        enhanced := next;
      } else {
        assert Enhanced(results[..i + 1]) == Enhanced(results[..i]) + [];
      }
      i := i + 1;
    }
    assert results[..i] == results;
    TalliedCount(Initial(), AllClassified(enhanced));
    CountSumZero(AllTypes);
    EnhancedCoversSpaces(results);
  }

  // ---------------------------------------------------------------------
  // The row re-estimate uses the raw dimensions
  // ---------------------------------------------------------------------

  /**
   * A zone given with `width_m = 50` and `length_m = 4` is a parking row
   * estimated at 3 standard trucks, yet the tally adds the estimate of a
   * 4 m row: no vehicle at all. Given the other way round the same zone
   * adds 3 standard trucks.
   */
  lemma RawDimensionsCounterexample()
    ensures var c := Classify(50.0, 4.0, 200.0);
            && c.isParkingRow && c.estimated == Row(Estimate(3, 2, 1, 10))
            && Record(Initial(), ClassifiedSpace(Space(50.0, 4.0, 200.0), c)).capacity == Estimate(0, 0, 0, 0)
            && Record(Initial(), ClassifiedSpace(Space(4.0, 50.0, 200.0), Classify(4.0, 50.0, 200.0))).capacity == Estimate(3, 2, 1, 10)
  {
    LongZoneIsRow();
    ClassifySymmetric(50.0, 4.0, 200.0);
    FiftyAndFour();
  }

  /** The 4 m by 50 m zone of 200 m² fits the parking-row ranges, so it is a row. */
  lemma LongZoneIsRow()
    ensures Classify(50.0, 4.0, 200.0).isParkingRow
    ensures Classify(50.0, 4.0, 200.0).estimated == Row(EstimateVehiclesInRow(4.0, 50.0))
  {
    assert Confidence(ParkingRow, 4.0, 50.0, 200.0) == 100;
    CandidatesComplete(Order, ParkingRow, 4.0, 50.0, 200.0);
    ClassifyMatched(50.0, 4.0, 200.0);
  }

  lemma FiftyAndFour()
    ensures EstimateVehiclesInRow(4.0, 50.0) == Estimate(3, 2, 1, 10)
    ensures EstimateVehiclesInRow(50.0, 4.0) == Estimate(0, 0, 0, 0)
  {
    assert (50.0 / 15.0).Floor == 3;
    assert (50.0 / 20.0).Floor == 2;
    assert (50.0 / 35.0).Floor == 1;
    assert (50.0 / 5.0).Floor == 10;
    assert (4.0 / 15.0).Floor == 0;
    assert (4.0 / 20.0).Floor == 0;
    assert (4.0 / 35.0).Floor == 0;
    assert (4.0 / 5.0).Floor == 0;
  }

  /** One classified zone tallied with the row estimate the classification already computed from the reordered dimensions. */
  function RecordCorrected(acc: Tallies, cs: ClassifiedSpace): Tallies {
    Tallies(CountIn(acc.stats, cs),
            match cs.classification.estimated
            case Row(e) => AddEstimate(acc.capacity, e)
            case Vehicles(_) => AddSingle(acc.capacity, cs.classification.zoneType))
  }

  /**
   * The corrected update is the source's update applied to the zone with
   * its shorter side as the width, so it no longer depends on which of the
   * two dimensions is given as the width.
   */
  lemma CorrectedTally(acc: Tallies, s: Space)
    ensures var o := Space(Lo(s.width, s.length), Hi(s.width, s.length), s.area);
            RecordCorrected(acc, ClassifiedSpace(s, Classify(s.width, s.length, s.area))).capacity ==
            Record(acc, ClassifiedSpace(o, Classify(o.width, o.length, o.area))).capacity
    ensures var s' := Space(s.length, s.width, s.area);
            RecordCorrected(acc, ClassifiedSpace(s, Classify(s.width, s.length, s.area))).capacity ==
            RecordCorrected(acc, ClassifiedSpace(s', Classify(s'.width, s'.length, s'.area))).capacity
  {
    ClassifySymmetric(s.width, s.length, s.area);
  }

  /** The statistics after tallying the zones in order with the corrected update. */
  function TalliedCorrectedFrom(acc: Tallies, css: seq<ClassifiedSpace>): Tallies {
    if css == [] then acc else RecordCorrected(TalliedCorrectedFrom(acc, css[..|css| - 1]), css[|css| - 1])
  }

  /** The zone carries the classification of its own dimensions, as in the loop. */
  predicate ClassifiedOwn(cs: ClassifiedSpace) {
    cs.classification == Classify(cs.space.width, cs.space.length, cs.space.area)
  }

  /** The two tallies differ only in the capacity totals: the per-type statistics are the same. */
  lemma {:induction false} TalliedStatsAgree(acc: Tallies, css: seq<ClassifiedSpace>)
    ensures TalliedCorrectedFrom(acc, css).stats == TalliedFrom(acc, css).stats
  {
    if css != [] {
      TalliedStatsAgree(acc, css[..|css| - 1]);
    }
  }

  /**
   * When every zone is given with its shorter side as the width, the
   * source's tally and the corrected tally are the same.
   */
  lemma {:induction false} TalliedAgreeWhenOrdered(acc: Tallies, css: seq<ClassifiedSpace>)
    requires forall i :: 0 <= i < |css| ==> ClassifiedOwn(css[i]) && css[i].space.width <= css[i].space.length
    ensures TalliedCorrectedFrom(acc, css) == TalliedFrom(acc, css)
  {
    if css != [] {
      var cs := css[|css| - 1];
      TalliedAgreeWhenOrdered(acc, css[..|css| - 1]);
      RecordAgreesWhenOrdered(TalliedFrom(acc, css[..|css| - 1]), cs);
    }
  }

  lemma RecordAgreesWhenOrdered(acc: Tallies, cs: ClassifiedSpace)
    requires ClassifiedOwn(cs) && cs.space.width <= cs.space.length
    ensures RecordCorrected(acc, cs) == Record(acc, cs)
  {
  }

  /** One zone given width first is enough to make the two tallies differ. */
  lemma TalliesDiffer()
    ensures var cs := ClassifiedSpace(Space(50.0, 4.0, 200.0), Classify(50.0, 4.0, 200.0));
            TalliedFrom(Initial(), [cs]).capacity == Estimate(0, 0, 0, 0) &&
            TalliedCorrectedFrom(Initial(), [cs]).capacity == Estimate(3, 2, 1, 10)
  {
    RawDimensionsCounterexample();
    var cs := ClassifiedSpace(Space(50.0, 4.0, 200.0), Classify(50.0, 4.0, 200.0));
    assert [cs][..0] == [];
  }
}
