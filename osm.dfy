/**
 * Overpass API elements as the extraction scripts see them, the node lookup
 * they build to give ways a geometry, and the arithmetic means used for way
 * centroids. GeoJSON positions are `[longitude, latitude]` (section 3.1.1 of
 * RFC 7946), so a `Position` keeps longitude first.
 */
module Osm {
  import opened Common

  datatype Kind = Node | Way | Relation | OtherKind(name: string)

  /** The `type` string Overpass gives the element. */
  function KindName(k: Kind): string {
    match k
    case Node => "node"
    case Way => "way"
    case Relation => "relation"
    case OtherKind(n) => n
  }

  /**
   * One entry of the Overpass `elements` list. Nodes carry `lat`/`lon`; ways
   * carry their node ids (a missing `nodes` key behaves like an empty list in
   * every script); a missing `tags` key is the empty map.
   */
  datatype Element = Element(kind: Kind, id: int, tags: map<string, string>,
                             lat: real, lon: real, nodes: seq<int>)

  datatype Position = Position(lon: real, lat: real)

  /** A GeoJSON position: `[lon, lat]`. */
  function Coordinates(p: Position): (c: seq<real>)
    ensures |c| == 2 && c[0] == p.lon && c[1] == p.lat
  {
    [p.lon, p.lat]
  }

  // ---------------------------------------------------------------------
  // Node lookup: `{e['id']: e for e in elements if e['type'] == 'node'}`
  // ---------------------------------------------------------------------

  /** The node lookup; a later node with the same id replaces an earlier one. */
  function NodeIndex(es: seq<Element>): map<int, Position> {
    if es == [] then map[]
    else
      var m := NodeIndex(es[..|es| - 1]);
      var e := es[|es| - 1];
      if e.kind == Node then m[e.id := Position(e.lon, e.lat)] else m
  }

  /** An id is in the lookup exactly when some node element has it, and its position is that of a node with that id. */
  lemma {:induction false} NodeIndexSound(es: seq<Element>, id: int)
    ensures id in NodeIndex(es) <==> exists i :: 0 <= i < |es| && es[i].kind == Node && es[i].id == id
    ensures id in NodeIndex(es) ==>
              exists i :: 0 <= i < |es| && es[i].kind == Node && es[i].id == id &&
                          NodeIndex(es)[id] == Position(es[i].lon, es[i].lat)
  {
    if es != [] {
      var init := es[..|es| - 1];
      NodeIndexSound(init, id);
      if id in NodeIndex(init) {
        var i :| 0 <= i < |init| && init[i].kind == Node && init[i].id == id &&
                 NodeIndex(init)[id] == Position(init[i].lon, init[i].lat);
        assert es[i] == init[i];
      }
      if exists i :: 0 <= i < |es| && es[i].kind == Node && es[i].id == id {
        var i :| 0 <= i < |es| && es[i].kind == Node && es[i].id == id;
        if i < |init| {
          assert init[i] == es[i];
        }
      }
    }
  }

  lemma NodeIndexSnoc(es: seq<Element>, e: Element)
    ensures NodeIndex(es + [e]) == if e.kind == Node then NodeIndex(es)[e.id := Position(e.lon, e.lat)] else NodeIndex(es)
  {
    assert (es + [e])[..|es|] == es;
  }

  /** The first pass of the element loop in collect_osm_data.py. */
  method BuildNodeIndex(es: seq<Element>) returns (index: map<int, Position>)
    ensures index == NodeIndex(es)
    ensures forall id :: id in index ==> exists i :: 0 <= i < |es| && es[i].kind == Node && es[i].id == id
  {
    index := map[];
    var i := 0;
    while i < |es|
      invariant 0 <= i <= |es|
      invariant index == NodeIndex(es[..i])
    {
      var e := es[i];
      NodeIndexSnoc(es[..i], e);
      assert es[..i + 1] == es[..i] + [e];
      if e.kind == Node {
        index := index[e.id := Position(e.lon, e.lat)];
      }
      i := i + 1;
    }
    assert es[..i] == es;
    forall id | id in index
      ensures exists i :: 0 <= i < |es| && es[i].kind == Node && es[i].id == id
    {
      NodeIndexSound(es, id);
    }
  }

  // ---------------------------------------------------------------------
  // Way geometry: `[[n['lon'], n['lat']] for node_id in way if node_id in nodes]`
  // ---------------------------------------------------------------------

  /** The positions of the node ids that the lookup resolves, in way order; unresolved ids are dropped. */
  function Resolve(index: map<int, Position>, ids: seq<int>): (r: seq<Position>)
    ensures |r| <= |ids|
  {
    if ids == [] then []
    else
      var rest := Resolve(index, ids[..|ids| - 1]);
      var id := ids[|ids| - 1];
      if id in index then rest + [index[id]] else rest
  }

  lemma ResolveSnoc(index: map<int, Position>, ids: seq<int>, id: int)
    ensures Resolve(index, ids + [id]) == Resolve(index, ids) + (if id in index then [index[id]] else [])
  {
    assert (ids + [id])[..|ids|] == ids;
  }

  /** Every resolved position is the position of one of the way's node ids. */
  lemma {:induction false} ResolveSound(index: map<int, Position>, ids: seq<int>, p: Position)
    requires p in Resolve(index, ids)
    ensures exists id :: id in ids && id in index && index[id] == p
  {
    var init := ids[..|ids| - 1];
    var id := ids[|ids| - 1];
    if p in Resolve(index, init) {
      ResolveSound(index, init, p);
      var j :| j in init && j in index && index[j] == p;
      assert j in ids;
    } else {
      assert id in ids;
    }
  }

  /** When every node id resolves, nothing is dropped. */
  lemma {:induction false} ResolveAll(index: map<int, Position>, ids: seq<int>)
    requires forall id :: id in ids ==> id in index
    ensures |Resolve(index, ids)| == |ids|
  {
    if ids != [] {
      var init := ids[..|ids| - 1];
      assert forall id :: id in init ==> id in ids;
      ResolveAll(index, init);
      assert ids[|ids| - 1] in ids;
    }
  }

  /** The coordinate-collecting inner loop shared by the way branches of the scripts. */
  method ResolveWay(index: map<int, Position>, ids: seq<int>) returns (coords: seq<Position>)
    ensures coords == Resolve(index, ids)
    ensures |coords| <= |ids|
  {
    coords := [];
    var i := 0;
    while i < |ids|
      invariant 0 <= i <= |ids|
      invariant coords == Resolve(index, ids[..i])
    {
      ResolveSnoc(index, ids[..i], ids[i]);
      assert ids[..i + 1] == ids[..i] + [ids[i]];
      if ids[i] in index {
        coords := coords + [index[ids[i]]];
      }
      i := i + 1;
    }
    assert ids[..i] == ids;
  }

  // ---------------------------------------------------------------------
  // Means: `sum(xs) / len(xs)`
  // ---------------------------------------------------------------------

  function Lats(ps: seq<Position>): (r: seq<real>)
    ensures |r| == |ps| && forall i :: 0 <= i < |ps| ==> r[i] == ps[i].lat
  {
    seq(|ps|, i requires 0 <= i < |ps| => ps[i].lat)
  }

  function Lons(ps: seq<Position>): (r: seq<real>)
    ensures |r| == |ps| && forall i :: 0 <= i < |ps| ==> r[i] == ps[i].lon
  {
    seq(|ps|, i requires 0 <= i < |ps| => ps[i].lon)
  }

  function Sum(xs: seq<real>): real {
    if xs == [] then 0.0 else Sum(xs[..|xs| - 1]) + xs[|xs| - 1]
  }

  lemma SumSnoc(xs: seq<real>, x: real)
    ensures Sum(xs + [x]) == Sum(xs) + x
  {
    assert (xs + [x])[..|xs|] == xs;
  }

  function Mean(xs: seq<real>): real
    requires xs != []
  {
    Sum(xs) / (|xs| as real)
  }

  function SeqMin(xs: seq<real>): (m: real)
    requires xs != []
    ensures m in xs && forall x :: x in xs ==> m <= x
  {
    if |xs| == 1 then xs[0]
    else
      var rest := SeqMin(xs[..|xs| - 1]);
      assert forall x :: x in xs ==> x in xs[..|xs| - 1] || x == xs[|xs| - 1];
      if xs[|xs| - 1] < rest then xs[|xs| - 1] else rest
  }

  function SeqMax(xs: seq<real>): (m: real)
    requires xs != []
    ensures m in xs && forall x :: x in xs ==> x <= m
  {
    if |xs| == 1 then xs[0]
    else
      var rest := SeqMax(xs[..|xs| - 1]);
      assert forall x :: x in xs ==> x in xs[..|xs| - 1] || x == xs[|xs| - 1];
      if xs[|xs| - 1] > rest then xs[|xs| - 1] else rest
  }

  lemma {:induction false} SumBounds(xs: seq<real>, lo: real, hi: real)
    requires forall x :: x in xs ==> lo <= x <= hi
    ensures (|xs| as real) * lo <= Sum(xs) <= (|xs| as real) * hi
  {
    if xs != [] {
      var init := xs[..|xs| - 1];
      assert forall x :: x in init ==> x in xs;
      SumBounds(init, lo, hi);
      assert xs[|xs| - 1] in xs;
    }
  }

  lemma DivideBounds(lo: real, s: real, hi: real, n: real)
    requires n > 0.0 && n * lo <= s <= n * hi
    ensures lo <= s / n <= hi
  {
    var q := s / n;
    assert q * n == s;
  }

  /** An arithmetic mean lies between the smallest and the largest value averaged. */
  lemma MeanWithin(xs: seq<real>)
    requires xs != []
    ensures SeqMin(xs) <= Mean(xs) <= SeqMax(xs)
  {
    SumBounds(xs, SeqMin(xs), SeqMax(xs));
    DivideBounds(SeqMin(xs), Sum(xs), SeqMax(xs), |xs| as real);
  }
}
