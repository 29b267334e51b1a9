/**
 * scripts/analyze_data.py: `analyze_facilities`, the statistics over the
 * curated database of motorway rest areas and secured private truck parks.
 *
 * The database has its own schema, different from the OpenStreetMap
 * facility records: a motorway facility names its motorway and its fuel
 * station's operator, a private one its own operator, and both carry a
 * `confidence_level` label and a `parking_capacity.truck_spaces` value of
 * whatever JSON type the curators wrote.
 */
module AnalyzeData {
  import opened Common
  import opened Counters

  /**
   * A `truck_spaces` value. Python's `isinstance(spaces, int)` also holds
   * for `True` and `False`, which then add 1 and 0.
   */
  datatype SpacesValue =
    | IntValue(n: int)
    | BoolValue(b: bool)
    | OtherValue
    | NoValue

  /** The amount a value adds to the confirmed spaces, when it counts at all. */
  function SpaceCount(v: SpacesValue): (r: Option<int>)
    ensures r.Some? <==> v.IntValue? || v.BoolValue?
    ensures v.IntValue? ==> r == Some(v.n)
  {
    match v
    case IntValue(n) => Some(n)
    case BoolValue(b) => Some(if b then 1 else 0)
    case OtherValue => None
    case NoValue => None
  }

  /** `True` is counted as one space and `False` as none. */
  lemma BoolCountsAsInt(b: bool)
    ensures SpaceCount(BoolValue(b)) == Some(if b then 1 else 0)
  {
  }

  datatype MotorwayFacility = MotorwayFacility(
    motorway: Option<string>,
    location: map<string, string>,
    fuelOperator: Option<string>,
    confidenceLevel: Option<string>,
    truckSpaces: SpacesValue)

  datatype PrivateFacility = PrivateFacility(
    location: map<string, string>,
    operator: Option<string>,
    confidenceLevel: Option<string>,
    truckSpaces: SpacesValue)

  /** `database.get('facilities', [])` and `database.get('secured_private_facilities', [])`. */
  datatype Database = Database(facilities: seq<MotorwayFacility>, privateFacilities: seq<PrivateFacility>)

  function MotorwayKey(f: MotorwayFacility): string { f.motorway.GetOr("Unknown") }
  function MotorwayProvince(f: MotorwayFacility): string { GetOr(f.location, "province", "Unknown") }
  function MotorwayOperator(f: MotorwayFacility): string { f.fuelOperator.GetOr("Unknown") }
  function MotorwayConfidence(f: MotorwayFacility): string { f.confidenceLevel.GetOr("Unknown") }
  function PrivateProvince(f: PrivateFacility): string { GetOr(f.location, "province", "Unknown") }
  function PrivateOperator(f: PrivateFacility): string { f.operator.GetOr("Unknown") }
  function PrivateConfidence(f: PrivateFacility): string { f.confidenceLevel.GetOr("Unknown") }

  /** Motorway fuel-station operators recorded as 'Not specified' are not counted. */
  predicate SpecifiedOperator(f: MotorwayFacility) {
    MotorwayOperator(f) != "Not specified"
  }

  /** `isinstance(spaces, int)` on the facility's `truck_spaces`. */
  predicate MotorwayHasSpaces(f: MotorwayFacility) { SpaceCount(f.truckSpaces).Some? }
  predicate PrivateHasSpaces(f: PrivateFacility) { SpaceCount(f.truckSpaces).Some? }
  function MotorwaySpaces(f: MotorwayFacility): int { SpaceCount(f.truckSpaces).GetOr(0) }
  function PrivateSpaces(f: PrivateFacility): int { SpaceCount(f.truckSpaces).GetOr(0) }

  datatype TruckSpaces = TruckSpaces(totalConfirmed: int, facilitiesWithData: nat, averagePerFacility: real)

  datatype Stats = Stats(
    totalFacilities: nat,
    motorwayFacilities: nat,
    privateFacilities: nat,
    byMotorway: map<string, nat>,
    byProvince: map<string, nat>,
    byOperator: map<string, nat>,
    byConfidence: map<string, nat>,
    truckSpaces: TruckSpaces)

  /** The province keys counted: the motorway facilities', then the private ones'. */
  function ProvinceKeys(db: Database): seq<string> {
    KeysOf(db.facilities, MotorwayProvince) + KeysOf(db.privateFacilities, PrivateProvince)
  }

  /** The operator keys counted: motorway operators other than 'Not specified', then every private operator. */
  function OperatorKeys(db: Database): seq<string> {
    MapFilter(db.facilities, SpecifiedOperator, MotorwayOperator) + KeysOf(db.privateFacilities, PrivateOperator)
  }

  function ConfidenceKeys(db: Database): seq<string> {
    KeysOf(db.facilities, MotorwayConfidence) + KeysOf(db.privateFacilities, PrivateConfidence)
  }

  /** The confirmed truck spaces: the sum over the facilities whose value counts. */
  function ConfirmedSpaces(db: Database): int {
    SumIf(db.facilities, MotorwayHasSpaces, MotorwaySpaces) +
    SumIf(db.privateFacilities, PrivateHasSpaces, PrivateSpaces)
  }

  function FacilitiesWithData(db: Database): nat {
    CountIf(db.facilities, MotorwayHasSpaces) + CountIf(db.privateFacilities, PrivateHasSpaces)
  }

  lemma CountIfPrefix<T>(xs: seq<T>, i: nat, p: T -> bool)
    requires i < |xs|
    ensures CountIf(xs[..i + 1], p) == CountIf(xs[..i], p) + (if p(xs[i]) then 1 else 0)
  {
    assert xs[..i + 1] == xs[..i] + [xs[i]];
    CountIfSnoc(xs[..i], xs[i], p);
  }

  lemma SumIfPrefix<T>(xs: seq<T>, i: nat, p: T -> bool, f: T -> int)
    requires i < |xs|
    ensures SumIf(xs[..i + 1], p, f) == SumIf(xs[..i], p, f) + (if p(xs[i]) then f(xs[i]) else 0)
  {
    assert xs[..i + 1] == xs[..i] + [xs[i]];
    SumIfSnoc(xs[..i], xs[i], p, f);
  }

  /** `d[key(x)] += 1` for each x in xs, in order, on a counter `d`. */
  function TallyOf<T>(d: map<string, nat>, xs: seq<T>, key: T -> string): map<string, nat> {
    if xs == [] then d else Inc(TallyOf(d, xs[..|xs| - 1], key), key(xs[|xs| - 1]))
  }

  lemma TallyOfPrefix<T>(d: map<string, nat>, xs: seq<T>, j: nat, key: T -> string)
    requires j < |xs|
    ensures TallyOf(d, xs[..j + 1], key) == Inc(TallyOf(d, xs[..j], key), key(xs[j]))
  {
    assert xs[..j + 1][..j] == xs[..j];
  }

  /** `if p(x): d[key(x)] += 1` for each x in xs, in order. */
  function TallyWhere<T>(d: map<string, nat>, xs: seq<T>, p: T -> bool, key: T -> string): map<string, nat> {
    if xs == [] then d
    else
      var rest := TallyWhere(d, xs[..|xs| - 1], p, key);
      if p(xs[|xs| - 1]) then Inc(rest, key(xs[|xs| - 1])) else rest
  }

  lemma TallyWherePrefix<T>(d: map<string, nat>, xs: seq<T>, j: nat, p: T -> bool, key: T -> string)
    requires j < |xs|
    ensures TallyWhere(d, xs[..j + 1], p, key) ==
            if p(xs[j]) then Inc(TallyWhere(d, xs[..j], p, key), key(xs[j])) else TallyWhere(d, xs[..j], p, key)
  {
    assert xs[..j + 1][..j] == xs[..j];
  }

  /** Counting the selected elements' keys is counting the selection's keys. */
  lemma {:induction false} TallyWhereSelected<T(!new)>(d: map<string, nat>, xs: seq<T>, p: T -> bool, key: T -> string)
    ensures TallyWhere(d, xs, p, key) == TallyFrom(d, MapFilter(xs, p, key))
  {
    if xs != [] {
      var init, last := xs[..|xs| - 1], xs[|xs| - 1];
      TallyWhereSelected(d, init, p, key);
      assert xs == init + [last];
      MapFilterSnoc(init, last, p, key);
      if p(last) {
        TallyFromSnoc(d, MapFilter(init, p, key), key(last));
      } else {
        assert MapFilter(init, p, key) + [] == MapFilter(init, p, key);
      }
    }
  }

  /** Counting each element's key is counting the sequence of keys. */
  lemma {:induction false} TallyOfKeys<T>(d: map<string, nat>, xs: seq<T>, key: T -> string)
    ensures TallyOf(d, xs, key) == TallyFrom(d, KeysOf(xs, key))
  {
    if xs != [] {
      var init := xs[..|xs| - 1];
      TallyOfKeys(d, init, key);
      assert KeysOf(xs, key)[..|xs| - 1] == KeysOf(init, key);
    }
  }

  /** `total / with_data if with_data > 0 else 0`, before rounding. */
  function Average(total: int, count: nat): (r: real)
    ensures count > 0 ==> r * (count as real) == total as real
    ensures count == 0 ==> r == 0.0
  {
    if count > 0 then (total as real) / (count as real) else 0.0
  }

  /** The loop over `database['facilities']`, on counters that start empty. */
  method CountMotorway(facilities: seq<MotorwayFacility>)
    returns (byMotorway: map<string, nat>, byProvince: map<string, nat>, byOperator: map<string, nat>,
             byConfidence: map<string, nat>, totalConfirmed: int, withData: nat)
    ensures byMotorway == TallyOf(map[], facilities, MotorwayKey)
    ensures byProvince == TallyOf(map[], facilities, MotorwayProvince)
    ensures byOperator == TallyWhere(map[], facilities, SpecifiedOperator, MotorwayOperator)
    ensures byConfidence == TallyOf(map[], facilities, MotorwayConfidence)
    ensures totalConfirmed == SumIf(facilities, MotorwayHasSpaces, MotorwaySpaces)
    ensures withData == CountIf(facilities, MotorwayHasSpaces)
  {
    byMotorway, byProvince, byOperator, byConfidence := map[], map[], map[], map[];
    totalConfirmed, withData := 0, 0;
    assert facilities[..0] == [];
    var i := 0;
    while i < |facilities|
      invariant 0 <= i <= |facilities|
      invariant byMotorway == TallyOf(map[], facilities[..i], MotorwayKey)
      invariant byProvince == TallyOf(map[], facilities[..i], MotorwayProvince)
      invariant byOperator == TallyWhere(map[], facilities[..i], SpecifiedOperator, MotorwayOperator)
      invariant byConfidence == TallyOf(map[], facilities[..i], MotorwayConfidence)
      invariant totalConfirmed == SumIf(facilities[..i], MotorwayHasSpaces, MotorwaySpaces)
      invariant withData == CountIf(facilities[..i], MotorwayHasSpaces)
    {
      var facility := facilities[i];
      TallyOfPrefix(map[], facilities, i, MotorwayKey);
      TallyOfPrefix(map[], facilities, i, MotorwayProvince);
      TallyWherePrefix(map[], facilities, i, SpecifiedOperator, MotorwayOperator);
      TallyOfPrefix(map[], facilities, i, MotorwayConfidence);
      SumIfPrefix(facilities, i, MotorwayHasSpaces, MotorwaySpaces);
      CountIfPrefix(facilities, i, MotorwayHasSpaces);

      byMotorway := Inc(byMotorway, MotorwayKey(facility));
      byProvince := Inc(byProvince, MotorwayProvince(facility));
      if SpecifiedOperator(facility) {
        byOperator := Inc(byOperator, MotorwayOperator(facility));
      }
      byConfidence := Inc(byConfidence, MotorwayConfidence(facility));
      if MotorwayHasSpaces(facility) {
        totalConfirmed := totalConfirmed + MotorwaySpaces(facility);
        withData := withData + 1;
      }
      i := i + 1;
    }
    assert facilities[..i] == facilities;
  }

  /**
   * The loop over `database['secured_private_facilities']`, continuing on
   * the counters the motorway loop left.
   */
  method CountPrivate(privates: seq<PrivateFacility>,
                      byProvince0: map<string, nat>, byOperator0: map<string, nat>, byConfidence0: map<string, nat>,
                      totalConfirmed0: int, withData0: nat)
    returns (byProvince: map<string, nat>, byOperator: map<string, nat>, byConfidence: map<string, nat>,
             totalConfirmed: int, withData: nat)
    ensures byProvince == TallyOf(byProvince0, privates, PrivateProvince)
    ensures byOperator == TallyOf(byOperator0, privates, PrivateOperator)
    ensures byConfidence == TallyOf(byConfidence0, privates, PrivateConfidence)
    ensures totalConfirmed == totalConfirmed0 + SumIf(privates, PrivateHasSpaces, PrivateSpaces)
    ensures withData == withData0 + CountIf(privates, PrivateHasSpaces)
  {
    byProvince, byOperator, byConfidence := byProvince0, byOperator0, byConfidence0;
    totalConfirmed, withData := totalConfirmed0, withData0;
    assert privates[..0] == [];
    var j := 0;
    while j < |privates|
      invariant 0 <= j <= |privates|
      invariant byProvince == TallyOf(byProvince0, privates[..j], PrivateProvince)
      invariant byOperator == TallyOf(byOperator0, privates[..j], PrivateOperator)
      invariant byConfidence == TallyOf(byConfidence0, privates[..j], PrivateConfidence)
      invariant totalConfirmed == totalConfirmed0 + SumIf(privates[..j], PrivateHasSpaces, PrivateSpaces)
      invariant withData == withData0 + CountIf(privates[..j], PrivateHasSpaces)
    {
      var facility := privates[j];
      TallyOfPrefix(byProvince0, privates, j, PrivateProvince);
      TallyOfPrefix(byOperator0, privates, j, PrivateOperator);
      TallyOfPrefix(byConfidence0, privates, j, PrivateConfidence);
      SumIfPrefix(privates, j, PrivateHasSpaces, PrivateSpaces);
      CountIfPrefix(privates, j, PrivateHasSpaces);

      byProvince := Inc(byProvince, PrivateProvince(facility));
      byOperator := Inc(byOperator, PrivateOperator(facility));
      byConfidence := Inc(byConfidence, PrivateConfidence(facility));
      if PrivateHasSpaces(facility) {
        totalConfirmed := totalConfirmed + PrivateSpaces(facility);
        withData := withData + 1;
      }
      j := j + 1;
    }
    assert privates[..j] == privates;
  }

  /** The motorway loop's counters are the tallies of the motorway keys. */
  lemma MotorwayCounters(fs: seq<MotorwayFacility>)
    ensures TallyOf(map[], fs, MotorwayKey) == Tally(KeysOf(fs, MotorwayKey))
    ensures TallyOf(map[], fs, MotorwayProvince) == Tally(KeysOf(fs, MotorwayProvince))
    ensures TallyWhere(map[], fs, SpecifiedOperator, MotorwayOperator) ==
            Tally(MapFilter(fs, SpecifiedOperator, MotorwayOperator))
    ensures TallyOf(map[], fs, MotorwayConfidence) == Tally(KeysOf(fs, MotorwayConfidence))
  {
    TallyOfKeys(map[], fs, MotorwayKey);
    TallyFromEmpty(KeysOf(fs, MotorwayKey));
    TallyOfKeys(map[], fs, MotorwayProvince);
    TallyFromEmpty(KeysOf(fs, MotorwayProvince));
    TallyWhereSelected(map[], fs, SpecifiedOperator, MotorwayOperator);
    TallyFromEmpty(MapFilter(fs, SpecifiedOperator, MotorwayOperator));
    TallyOfKeys(map[], fs, MotorwayConfidence);
    TallyFromEmpty(KeysOf(fs, MotorwayConfidence));
  }

  /**
   * The private loop continues on the motorway loop's counters, so together
   * they count the keys of both lists.
   */
  lemma CountersContinue(db: Database)
    ensures TallyOf(Tally(KeysOf(db.facilities, MotorwayProvince)), db.privateFacilities, PrivateProvince) ==
            Tally(ProvinceKeys(db))
    ensures TallyOf(Tally(MapFilter(db.facilities, SpecifiedOperator, MotorwayOperator)), db.privateFacilities, PrivateOperator) ==
            Tally(OperatorKeys(db))
    ensures TallyOf(Tally(KeysOf(db.facilities, MotorwayConfidence)), db.privateFacilities, PrivateConfidence) ==
            Tally(ConfidenceKeys(db))
  {
    var motorwayProvinces := Tally(KeysOf(db.facilities, MotorwayProvince));
    var motorwayOperators := Tally(MapFilter(db.facilities, SpecifiedOperator, MotorwayOperator));
    var motorwayConfidence := Tally(KeysOf(db.facilities, MotorwayConfidence));
    TallyOfKeys(motorwayProvinces, db.privateFacilities, PrivateProvince);
    TallyOfKeys(motorwayOperators, db.privateFacilities, PrivateOperator);
    TallyOfKeys(motorwayConfidence, db.privateFacilities, PrivateConfidence);
    TallyAppend(KeysOf(db.facilities, MotorwayProvince), KeysOf(db.privateFacilities, PrivateProvince));
    TallyAppend(MapFilter(db.facilities, SpecifiedOperator, MotorwayOperator), KeysOf(db.privateFacilities, PrivateOperator));
    TallyAppend(KeysOf(db.facilities, MotorwayConfidence), KeysOf(db.privateFacilities, PrivateConfidence));
  }

  /**
   * analyze_facilities: the motorway loop, then the private loop on the
   * same counters; the average is taken when some facility has data.
   */
  method AnalyzeFacilities(db: Database) returns (stats: Stats)
    ensures stats.totalFacilities == stats.motorwayFacilities + stats.privateFacilities
    ensures stats.motorwayFacilities == |db.facilities| && stats.privateFacilities == |db.privateFacilities|
    ensures stats.byMotorway == Tally(KeysOf(db.facilities, MotorwayKey))
    ensures stats.byProvince == Tally(ProvinceKeys(db))
    ensures stats.byOperator == Tally(OperatorKeys(db))
    ensures stats.byConfidence == Tally(ConfidenceKeys(db))
    ensures stats.truckSpaces.totalConfirmed == ConfirmedSpaces(db)
    ensures stats.truckSpaces.facilitiesWithData == FacilitiesWithData(db)
    ensures stats.truckSpaces.averagePerFacility == Average(ConfirmedSpaces(db), FacilitiesWithData(db))
  {
    var byMotorway, byProvince, byOperator, byConfidence, totalConfirmed, withData := CountMotorway(db.facilities);
    byProvince, byOperator, byConfidence, totalConfirmed, withData :=
      CountPrivate(db.privateFacilities, byProvince, byOperator, byConfidence, totalConfirmed, withData);
    MotorwayCounters(db.facilities);
    CountersContinue(db);
    var average := Average(totalConfirmed, withData);
    stats := Stats(|db.facilities| + |db.privateFacilities|, |db.facilities|, |db.privateFacilities|,
                   byMotorway, byProvince, byOperator, byConfidence,
                   TruckSpaces(totalConfirmed, withData, average));
  }

  /**
   * The counters partition what they count: the motorway buckets add up to
   * the motorway facilities, and the province and confidence buckets each
   * add up to all facilities.
   */
  lemma CountersPartition(db: Database)
    ensures Total(Tally(KeysOf(db.facilities, MotorwayKey))) == |db.facilities|
    ensures Total(Tally(ProvinceKeys(db))) == |db.facilities| + |db.privateFacilities|
    ensures Total(Tally(ConfidenceKeys(db))) == |db.facilities| + |db.privateFacilities|
  {
    TallyTotal(KeysOf(db.facilities, MotorwayKey));
    TallyTotal(ProvinceKeys(db));
    TallyTotal(ConfidenceKeys(db));
  }

  /**
   * The operator buckets add up to all facilities except the motorway ones
   * whose fuel operator is 'Not specified'.
   */
  lemma OperatorTotal(db: Database)
    ensures Total(Tally(OperatorKeys(db))) ==
            |db.facilities| + |db.privateFacilities| - CountIf(db.facilities, NotSpecified)
  {
    TallyTotal(OperatorKeys(db));
    MapFilterMeaning(db.facilities, SpecifiedOperator, MotorwayOperator);
    CountIfFilter(db.facilities, SpecifiedOperator);
    CountIfComplement(db.facilities, SpecifiedOperator, NotSpecified);
  }

  /** No motorway operator key is 'Not specified'. */
  lemma MotorwayOperatorsSpecified(fs: seq<MotorwayFacility>)
    ensures "Not specified" !in MapFilter(fs, SpecifiedOperator, MotorwayOperator)
  {
    MapFilterMeaning(fs, SpecifiedOperator, MotorwayOperator);
  }

  /** The 'Not specified' bucket exists exactly when some private facility carries that operator label. */
  lemma NotSpecifiedOnlyPrivate(db: Database)
    ensures "Not specified" in Tally(OperatorKeys(db)) <==>
            exists j :: 0 <= j < |db.privateFacilities| && PrivateOperator(db.privateFacilities[j]) == "Not specified"
  {
    var motorway := MapFilter(db.facilities, SpecifiedOperator, MotorwayOperator);
    var private := KeysOf(db.privateFacilities, PrivateOperator);
    var keys := OperatorKeys(db);
    MotorwayOperatorsSpecified(db.facilities);
    TallyCounts(keys, "Not specified");
    forall t | 0 <= t < |motorway|
      ensures keys[t] != "Not specified"
    {
      assert keys[t] == motorway[t];
      assert motorway[t] in motorway;
    }
    if "Not specified" in keys {
      var k :| 0 <= k < |keys| && keys[k] == "Not specified";
      assert keys[k] == private[k - |motorway|];
    }
    if exists j :: 0 <= j < |db.privateFacilities| && PrivateOperator(db.privateFacilities[j]) == "Not specified" {
      var j :| 0 <= j < |db.privateFacilities| && PrivateOperator(db.privateFacilities[j]) == "Not specified";
      assert keys[|motorway| + j] == "Not specified";
    }
  }

  predicate NotSpecified(f: MotorwayFacility) {
    MotorwayOperator(f) == "Not specified"
  }

  /** Facilities with a counted truck-space value are a subset of all facilities. */
  lemma WithDataBounded(db: Database)
    ensures FacilitiesWithData(db) <= |db.facilities| + |db.privateFacilities|
  {
  }

  /**
   * Only counted values contribute: a facility whose value is text or
   * missing adds nothing, and when every value is a non-negative number
   * the confirmed total is non-negative.
   */
  lemma ConfirmedSpacesNonNegative(db: Database)
    requires forall i :: 0 <= i < |db.facilities| ==> MotorwaySpaces(db.facilities[i]) >= 0
    requires forall i :: 0 <= i < |db.privateFacilities| ==> PrivateSpaces(db.privateFacilities[i]) >= 0
    ensures ConfirmedSpaces(db) >= 0
  {
    SumIfNonNegative(db.facilities, MotorwayHasSpaces, MotorwaySpaces);
    SumIfNonNegative(db.privateFacilities, PrivateHasSpaces, PrivateSpaces);
  }

  lemma {:induction false} SumIfNonNegative<T>(xs: seq<T>, p: T -> bool, f: T -> int)
    requires forall i :: 0 <= i < |xs| ==> f(xs[i]) >= 0
    ensures SumIf(xs, p, f) >= 0
  {
    if xs != [] {
      SumIfNonNegative(xs[..|xs| - 1], p, f);
    }
  }
}
