/**
 * find_rotterdam_facilities.py: the enriched facilities that lie in the
 * Rotterdam port area, a closed latitude/longitude box, each reduced to the
 * fields the port study needs.
 *
 * Only facilities without a latitude or a longitude are skipped; a
 * coordinate of 0.0 is present and is compared like any other. A kept
 * facility's `classification` is read with a plain subscript, so one kept
 * facility without it ends the script with a `KeyError`.
 */
module FindRotterdamFacilities {
  import opened Common
  import opened Counters
  import opened Records
  import EstimateMaasvlaktePilot

  const MinLat: real := 51.8
  const MaxLat: real := 52.0
  const MinLon: real := 4.0
  const MaxLon: real := 4.5

  predicate InRotterdam(lat: real, lon: real) {
    MinLat <= lat <= MaxLat && MinLon <= lon <= MaxLon
  }

  /** The box is closed: its corners belong to it, and points just beyond an edge do not. */
  lemma BoxIsClosed()
    ensures InRotterdam(51.8, 4.0) && InRotterdam(52.0, 4.5) && InRotterdam(51.8, 4.5) && InRotterdam(52.0, 4.0)
    ensures !InRotterdam(51.799, 4.2) && !InRotterdam(52.001, 4.2) && !InRotterdam(51.9, 3.999) && !InRotterdam(51.9, 4.501)
  {
  }

  /** The Maasvlakte pilot area lies inside the Rotterdam port area. */
  lemma MaasvlakteInsideRotterdam(lat: real, lon: real)
    requires EstimateMaasvlaktePilot.InMaasvlakte(lat, lon)
    ensures InRotterdam(lat, lon)
  {
  }

  /** `lat is None or lon is None` is false. */
  predicate Located(f: Facility) {
    f.latitude.Some? && f.longitude.Some?
  }

  /** The facilities the loop appends a record for. */
  predicate Selected(f: Facility) {
    Located(f) && InRotterdam(f.latitude.value, f.longitude.value)
  }

  predicate Classified(f: Facility) {
    f.classification.Some?
  }

  /** A selected facility whose record can be built. */
  predicate Kept(f: Facility) {
    Selected(f) && Classified(f)
  }

  /** The subscript that failed. */
  datatype KeyError = KeyError(key: string)

  /** One entry of `rotterdam_facilities`. */
  datatype RotterdamFacility = RotterdamFacility(
    id: Option<string>,
    name: Option<string>,
    latitude: real,
    longitude: real,
    municipality: string,
    highway: string,
    isTruckParking: bool,
    capacity: map<string, string>,
    tags: map<string, string>)

  /** The record built for a selected facility. */
  function RecordOf(f: Facility): (r: RotterdamFacility)
    requires Kept(f)
    ensures r.latitude == f.latitude.value && r.longitude == f.longitude.value
    ensures r.municipality == GetOr(f.location, "municipality", "") && r.highway == GetOr(f.location, "highway", "")
    ensures r.isTruckParking == f.classification.value.isTruckParking
  {
    RotterdamFacility(f.id, f.name, f.latitude.value, f.longitude.value,
                      GetOr(f.location, "municipality", ""), GetOr(f.location, "highway", ""),
                      f.classification.value.isTruckParking, f.capacity, f.tags)
  }

  /** No selected facility lacks its classification, so the loop runs to the end. */
  predicate AllSelectedClassified(data: seq<Facility>) {
    forall i :: 0 <= i < |data| && Selected(data[i]) ==> Classified(data[i])
  }

  /** The module-level loop over the enriched facilities. */
  method FindRotterdam(data: seq<Facility>) returns (r: Result<seq<RotterdamFacility>, KeyError>)
    ensures r.Ok? <==> AllSelectedClassified(data)
    ensures r.Ok? ==> r.value == MapFilter(data, Kept, RecordOf)
    ensures r.Err? ==> r.error == KeyError("classification")
  {
    var found: seq<RotterdamFacility> := [];
    var i := 0;
    while i < |data|
      invariant 0 <= i <= |data|
      invariant found == MapFilter(data[..i], Kept, RecordOf)
      invariant AllSelectedClassified(data[..i])
    {
      var facility := data[i];
      TakeSnoc(data, i);
      MapFilterSnoc(data[..i], facility, Kept, RecordOf);
      if facility.latitude.None? || facility.longitude.None? {
        assert found + [] == found;
        i := i + 1;
        continue;
      }
      var lat, lon := facility.latitude.value, facility.longitude.value;
      if InRotterdam(lat, lon) {
        if facility.classification.None? {
          assert !AllSelectedClassified(data) by {
            assert data[i] == facility;
          }
          return Err(KeyError("classification"));
        }
        found := found + [RecordOf(facility)];
      } else {
        assert found + [] == found;
      }
      i := i + 1;
    }
    assert data[..i] == data;
    return Ok(found);
  }

  /**
   * When the loop runs to the end, the records are those of the selected
   * facilities, one each and in input order, so there are at most as many
   * as facilities.
   */
  lemma FoundAreSelected(data: seq<Facility>)
    requires AllSelectedClassified(data)
    ensures Filter(data, Kept) == Filter(data, Selected)
    ensures |MapFilter(data, Kept, RecordOf)| == |Filter(data, Kept)| == CountIf(data, Selected) <= |data|
    ensures forall k :: 0 <= k < |Filter(data, Kept)| ==>
              Kept(Filter(data, Kept)[k]) && MapFilter(data, Kept, RecordOf)[k] == RecordOf(Filter(data, Kept)[k])
  {
    FilterSameOn(data, Kept, Selected);
    MapFilterMeaning(data, Kept, RecordOf);
    CountIfFilter(data, Selected);
  }

  /** On the facilities the loop saw, keeping `Kept` and keeping `Selected` agree. */
  lemma {:induction false} FilterSameOn(data: seq<Facility>, p: Facility -> bool, q: Facility -> bool)
    requires forall i :: 0 <= i < |data| ==> (p(data[i]) <==> q(data[i]))
    ensures Filter(data, p) == Filter(data, q)
  {
    if data != [] {
      FilterSameOn(data[..|data| - 1], p, q);
    }
  }

  /** Every saved record's coordinates lie in the Rotterdam box. */
  lemma FoundInBox(data: seq<Facility>)
    ensures forall k :: 0 <= k < |MapFilter(data, Kept, RecordOf)| ==>
              InRotterdam(MapFilter(data, Kept, RecordOf)[k].latitude, MapFilter(data, Kept, RecordOf)[k].longitude)
  {
    MapFilterMeaning(data, Kept, RecordOf);
  }
}
