/**
 * extract_south_holland_parking.py: parking-related Overpass elements of
 * South Holland become GeoJSON Point features, one per element id, placed at
 * the node itself or at the mean of a way's resolved nodes; the summary then
 * counts the features by type. The Overpass query is not part of this model.
 */
module ExtractSouthHollandParking {
  import opened Common
  import opened Counters
  import opened Osm

  /** A feature: its Point geometry and its properties, `None` standing for a JSON null. */
  datatype Feature = Feature(
    point: Position,
    osmId: int,
    osmType: string,
    name: string,
    amenity: Option<string>,
    highway: Option<string>,
    hgv: Option<string>,
    capacity: Option<string>,
    capacityHgv: Option<string>,
    capacityCar: Option<string>,
    operator: Option<string>,
    access: Option<string>,
    parking: Option<string>,
    surface: Option<string>,
    fee: Option<string>,
    supervised: Option<string>,
    lat: real,
    lon: real)

  /** The GeoJSON coordinates of a feature's Point. */
  function FeatureCoordinates(f: Feature): seq<real> {
    Coordinates(f.point)
  }

  // ---------------------------------------------------------------------
  // Which elements are considered
  // ---------------------------------------------------------------------

  /** Only nodes, ways and relations are looked at. */
  predicate KnownKind(e: Element) {
    e.kind == Node || e.kind == Way || e.kind == Relation
  }

  /** The parking-related tag test. */
  predicate ParkingRelated(tags: map<string, string>) {
    || Lookup(tags, "amenity") == Some("parking")
    || Lookup(tags, "highway") == Some("rest_area")
    || Lookup(tags, "highway") == Some("services")
    || Lookup(tags, "amenity") == Some("truck_stop")
    || Lookup(tags, "amenity") == Some("parking_space")
  }

  /**
   * The position computed for an element before the zero test: a node's own
   * coordinates, the mean of a way's resolved nodes (none when no node id
   * resolves), and nothing for a relation.
   */
  function Centre(index: map<int, Position>, e: Element): Option<Position> {
    if e.kind == Node then Some(Position(e.lon, e.lat))
    else if e.kind == Way then
      var coords := Resolve(index, e.nodes);
      if coords == [] then None else Some(Position(Mean(Lons(coords)), Mean(Lats(coords))))
    else None
  }

  /** `not lat or not lon` fails: both coordinates are present and non-zero. */
  predicate Placed(c: Option<Position>) {
    c.Some? && c.value.lat != 0.0 && c.value.lon != 0.0
  }

  /** An element that yields a feature unless its id was already emitted. */
  predicate Eligible(index: map<int, Position>, e: Element) {
    KnownKind(e) && ParkingRelated(e.tags) && Placed(Centre(index, e))
  }

  function FeatureOf(index: map<int, Position>, e: Element): Feature
    requires Placed(Centre(index, e))
  {
    var p := Centre(index, e).value;
    var tags := e.tags;
    Feature(p, e.id, KindName(e.kind), GetOr(tags, "name", "Parking " + IntToString(e.id)),
            Lookup(tags, "amenity"), Lookup(tags, "highway"), Lookup(tags, "hgv"), Lookup(tags, "capacity"),
            if "capacity:hgv" in tags then Some(tags["capacity:hgv"]) else Lookup(tags, "capacity:truck"),
            Lookup(tags, "capacity:car"), Lookup(tags, "operator"), Lookup(tags, "access"),
            Lookup(tags, "parking"), Lookup(tags, "surface"), Lookup(tags, "fee"), Lookup(tags, "supervised"),
            p.lat, p.lon)
  }

  /** Relations never become features: no position is computed for them. */
  lemma RelationsSkipped(index: map<int, Position>, e: Element)
    requires e.kind == Relation || e.kind.OtherKind?
    ensures !Eligible(index, e)
  {
  }

  /**
   * A way is placed at the mean of its resolved nodes, which lies within
   * their bounding box; a way none of whose node ids resolve is skipped.
   */
  lemma WayCentre(index: map<int, Position>, e: Element)
    requires e.kind == Way
    ensures Resolve(index, e.nodes) == [] ==> !Eligible(index, e)
    ensures Resolve(index, e.nodes) != [] ==>
              var coords := Resolve(index, e.nodes);
              var c := Centre(index, e).value;
              && c == Position(Mean(Lons(coords)), Mean(Lats(coords)))
              && SeqMin(Lats(coords)) <= c.lat <= SeqMax(Lats(coords))
              && SeqMin(Lons(coords)) <= c.lon <= SeqMax(Lons(coords))
  {
    var coords := Resolve(index, e.nodes);
    if coords != [] {
      MeanWithin(Lats(coords));
      MeanWithin(Lons(coords));
    }
  }

  /** A latitude or longitude of exactly 0 counts as missing. */
  lemma ZeroSkipped(index: map<int, Position>, e: Element)
    requires Centre(index, e).Some? && (Centre(index, e).value.lat == 0.0 || Centre(index, e).value.lon == 0.0)
    ensures !Eligible(index, e)
  {
  }

  /**
   * The Point geometry is `[lon, lat]` of the `lon`/`lat` properties, the
   * name defaults to `Parking <id>`, and `capacity_hgv` falls back to
   * `capacity:truck`.
   */
  lemma FeatureShape(index: map<int, Position>, e: Element)
    requires Placed(Centre(index, e))
    ensures var f := FeatureOf(index, e);
            && FeatureCoordinates(f) == [f.lon, f.lat]
            && f.osmId == e.id
            && ("name" !in e.tags ==> f.name == "Parking " + IntToString(e.id))
            && ("capacity:hgv" !in e.tags ==> f.capacityHgv == Lookup(e.tags, "capacity:truck"))
            && ("capacity:hgv" in e.tags ==> f.capacityHgv == Some(e.tags["capacity:hgv"]))
  {
  }

  // ---------------------------------------------------------------------
  // extract_parking_features
  // ---------------------------------------------------------------------

  datatype Progress = Progress(features: seq<Feature>, processed: set<int>)

  function Step(index: map<int, Position>, p: Progress, e: Element): Progress {
    if e.id in p.processed || !Eligible(index, e) then p
    else Progress(p.features + [FeatureOf(index, e)], p.processed + {e.id})
  }

  function Extracted(index: map<int, Position>, es: seq<Element>): Progress {
    if es == [] then Progress([], {})
    else Step(index, Extracted(index, es[..|es| - 1]), es[|es| - 1])
  }

  /** The processed set holds exactly the emitted ids, and no id is emitted twice. */
  ghost predicate WellExtracted(p: Progress) {
    && p.processed == (set f | f in p.features :: f.osmId)
    && (forall i, j :: 0 <= i < j < |p.features| ==> p.features[i].osmId != p.features[j].osmId)
  }

  /** `es[i]` is the first eligible element with its id. */
  ghost predicate FirstEligible(index: map<int, Position>, es: seq<Element>, i: int) {
    0 <= i < |es| && Eligible(index, es[i]) &&
    forall j :: 0 <= j < i && es[j].id == es[i].id ==> !Eligible(index, es[j])
  }

  lemma {:induction false} ExtractedWell(index: map<int, Position>, es: seq<Element>)
    ensures WellExtracted(Extracted(index, es))
  {
    if es != [] {
      var init := es[..|es| - 1];
      var e := es[|es| - 1];
      var p := Extracted(index, init);
      ExtractedWell(index, init);
      if e.id !in p.processed && Eligible(index, e) {
        var q := Step(index, p, e);
        var nf := FeatureOf(index, e);
        assert q.features == p.features + [nf];
        assert q.processed == (set f | f in q.features :: f.osmId);
        forall i, j | 0 <= i < j < |q.features|
          ensures q.features[i].osmId != q.features[j].osmId
        {
          if j == |p.features| {
            assert q.features[i] in p.features;
          }
        }
      }
    }
  }

  /** An id is processed exactly when some element seen so far with that id is eligible. */
  lemma {:induction false} ExtractedProcessed(index: map<int, Position>, es: seq<Element>, x: int)
    ensures x in Extracted(index, es).processed <==> exists i :: 0 <= i < |es| && es[i].id == x && Eligible(index, es[i])
  {
    if es != [] {
      var init := es[..|es| - 1];
      ExtractedProcessed(index, init, x);
      if exists i :: 0 <= i < |es| && es[i].id == x && Eligible(index, es[i]) {
        var i :| 0 <= i < |es| && es[i].id == x && Eligible(index, es[i]);
        if i < |init| {
          assert init[i] == es[i];
        }
      }
      if exists i :: 0 <= i < |init| && init[i].id == x && Eligible(index, init[i]) {
        var i :| 0 <= i < |init| && init[i].id == x && Eligible(index, init[i]);
        assert es[i] == init[i];
      }
    }
  }

  /** Every feature is the feature of the first eligible element with its id. */
  lemma {:induction false} ExtractedOrigin(index: map<int, Position>, es: seq<Element>, f: Feature)
    requires f in Extracted(index, es).features
    ensures exists i :: FirstEligible(index, es, i) && f == FeatureOf(index, es[i])
  {
    var init := es[..|es| - 1];
    var last := es[|es| - 1];
    var p := Extracted(index, init);
    if f in p.features {
      ExtractedOrigin(index, init, f);
      var i :| FirstEligible(index, init, i) && f == FeatureOf(index, init[i]);
      assert forall j :: 0 <= j <= i ==> es[j] == init[j];
      assert FirstEligible(index, es, i);
    } else {
      var k := |es| - 1;
      forall j | 0 <= j < k && es[j].id == es[k].id
        ensures !Eligible(index, es[j])
      {
        if Eligible(index, es[j]) {
          assert init[j] == es[j];
          ExtractedProcessed(index, init, last.id);
        }
      }
      assert FirstEligible(index, es, k);
    }
  }

  /** The coordinate loop of a way: the mean of the resolved latitudes and longitudes. */
  method WayPosition(index: map<int, Position>, e: Element) returns (c: Option<Position>)
    requires e.kind == Way
    ensures c == Centre(index, e)
  {
    var lats: seq<real> := [];
    var lons: seq<real> := [];
    var i := 0;
    while i < |e.nodes|
      invariant 0 <= i <= |e.nodes|
      invariant lats == Lats(Resolve(index, e.nodes[..i]))
      invariant lons == Lons(Resolve(index, e.nodes[..i]))
    {
      var id := e.nodes[i];
      ResolveSnoc(index, e.nodes[..i], id);
      TakeSnoc(e.nodes, i);
      if id in index {
        lats := lats + [index[id].lat];
        lons := lons + [index[id].lon];
      }
      i := i + 1;
    }
    assert e.nodes[..i] == e.nodes;
    if lats != [] && lons != [] {
      c := Some(Position(Sum(lons) / (|lons| as real), Sum(lats) / (|lats| as real)));
    } else {
      c := None;
    }
  }

  method ExtractParkingFeatures(elements: seq<Element>) returns (features: seq<Feature>)
    ensures features == Extracted(NodeIndex(elements), elements).features
    ensures forall i, j :: 0 <= i < j < |features| ==> features[i].osmId != features[j].osmId
    ensures forall f :: f in features ==>
              exists i :: FirstEligible(NodeIndex(elements), elements, i) && f == FeatureOf(NodeIndex(elements), elements[i])
  {
    var index := BuildNodeIndex(elements);
    features := [];
    var processed: set<int> := {};
    var i := 0;
    while i < |elements|
      invariant 0 <= i <= |elements|
      invariant Progress(features, processed) == Extracted(index, elements[..i])
    {
      var e := elements[i];
      assert elements[..i + 1][..i] == elements[..i];
      if e.id !in processed && KnownKind(e) && ParkingRelated(e.tags) {
        var c: Option<Position> := None;
        if e.kind == Node {
          c := Some(Position(e.lon, e.lat));
        } else if e.kind == Way {
          c := WayPosition(index, e);
        }
        if c.Some? && c.value.lat != 0.0 && c.value.lon != 0.0 {
          features := features + [FeatureOf(index, e)];
          processed := processed + {e.id};
        }
      }
      i := i + 1;
    }
    assert elements[..i] == elements;
    ExtractedWell(index, elements);
    forall f | f in features
      ensures exists i :: FirstEligible(index, elements, i) && f == FeatureOf(index, elements[i])
    {
      ExtractedOrigin(index, elements, f);
    }
  }

  /** A feature with id `x` is emitted exactly when some element with id `x` is eligible. */
  lemma ExtractedIds(index: map<int, Position>, es: seq<Element>, x: int)
    ensures (exists f :: f in Extracted(index, es).features && f.osmId == x) <==>
            exists i :: 0 <= i < |es| && es[i].id == x && Eligible(index, es[i])
  {
    ExtractedWell(index, es);
    ExtractedProcessed(index, es, x);
  }

  // ---------------------------------------------------------------------
  // The by-type tally in main
  // ---------------------------------------------------------------------

  /**
   * `props.get('highway') or props.get('amenity', 'unknown')`: the
   * `amenity` property is always written, so a missing amenity is a null
   * key rather than `unknown`.
   */
  function TypeKey(f: Feature): Option<string> {
    if Truthy(f.highway) then f.highway else f.amenity
  }

  function TypeKeys(fs: seq<Feature>): (r: seq<Option<string>>)
    ensures |r| == |fs|
  {
    if fs == [] then [] else TypeKeys(fs[..|fs| - 1]) + [TypeKey(fs[|fs| - 1])]
  }

  lemma TypeKeysSnoc(fs: seq<Feature>, i: nat)
    requires i < |fs|
    ensures Tally(TypeKeys(fs[..i + 1])) == Inc(Tally(TypeKeys(fs[..i])), TypeKey(fs[i]))
  {
    assert fs[..i + 1][..i] == fs[..i];
  }

  method CountByType(features: seq<Feature>) returns (byType: map<Option<string>, nat>)
    ensures byType == Tally(TypeKeys(features))
    ensures Total(byType) == |features|
  {
    byType := map[];
    var i := 0;
    while i < |features|
      invariant 0 <= i <= |features|
      invariant byType == Tally(TypeKeys(features[..i]))
    {
      TypeKeysSnoc(features, i);
      byType := Inc(byType, TypeKey(features[i]));
      i := i + 1;
    }
    assert features[..i] == features;
    TallyTotal(TypeKeys(features));
  }

  /** `f['properties'].get('capacity')` and `.get('capacity_hgv')` are truthy. */
  predicate HasCapacity(f: Feature) { Truthy(f.capacity) }
  predicate HasHgvCapacity(f: Feature) { Truthy(f.capacityHgv) }

  /** The summary printed by main. */
  datatype Summary = Summary(total: nat, byType: map<Option<string>, nat>, withCapacity: nat, withHgvCapacity: nat)

  method Summarise(features: seq<Feature>) returns (s: Summary)
    ensures s.total == |features|
    ensures s.byType == Tally(TypeKeys(features)) && Total(s.byType) == s.total
    ensures s.withCapacity == CountIf(features, HasCapacity) <= s.total
    ensures s.withHgvCapacity == CountIf(features, HasHgvCapacity) <= s.total
  {
    var byType := CountByType(features);
    s := Summary(|features|, byType, CountIf(features, HasCapacity), CountIf(features, HasHgvCapacity));
  }

  /**
   * A feature has HGV capacity data exactly when its element carries a
   * non-empty `capacity:hgv`, or no `capacity:hgv` and a non-empty
   * `capacity:truck`.
   */
  lemma HgvCapacitySource(index: map<int, Position>, e: Element)
    requires Placed(Centre(index, e))
    ensures HasHgvCapacity(FeatureOf(index, e)) <==>
              if "capacity:hgv" in e.tags then e.tags["capacity:hgv"] != "" else Truthy(Lookup(e.tags, "capacity:truck"))
  {
  }

  /**
   * Every emitted feature has a type key: an element passes the tag test
   * only with a parking amenity or a rest-area or services highway, so the
   * null key never occurs.
   */
  lemma {:induction false} TypeKeysPresent(index: map<int, Position>, es: seq<Element>)
    ensures forall f :: f in Extracted(index, es).features ==> TypeKey(f).Some?
  {
    if es != [] {
      TypeKeysPresent(index, es[..|es| - 1]);
    }
  }
}
