/**
 * estimate_maasvlakte_pilot.py: Maasvlakte facilities that have parking
 * areas but no mapped spaces get estimated truck spaces, laid out as a grid
 * over each area's bounding box and kept where the cell centre lies inside
 * the area. Polygon containment and rotation are shapely calls and appear
 * here as function parameters; the metres-per-degree factors, which involve
 * a cosine, are parameters too.
 */
module EstimateMaasvlaktePilot {
  import opened Common
  import opened Osm

  const TruckSpaceWidth: real := 4.0
  const TruckSpaceLength: real := 15.0
  const VanSpaceWidth: real := 2.5
  const VanSpaceLength: real := 5.0

  /** At most this many spaces are estimated per area. */
  const AreaCap: int := 200

  const MinLat: real := 51.90
  const MaxLat: real := 51.98
  const MinLon: real := 4.00
  const MaxLon: real := 4.15

  predicate InMaasvlakte(lat: real, lon: real) {
    MinLat <= lat <= MaxLat && MinLon <= lon <= MaxLon
  }

  /** The box is closed: its corners belong to it, and points just beyond an edge do not. */
  lemma MaasvlakteClosed()
    ensures InMaasvlakte(51.90, 4.00) && InMaasvlakte(51.98, 4.15) && InMaasvlakte(51.90, 4.15) && InMaasvlakte(51.98, 4.00)
    ensures !InMaasvlakte(51.899, 4.05) && !InMaasvlakte(51.981, 4.05) && !InMaasvlakte(51.95, 3.999) && !InMaasvlakte(51.95, 4.151)
  {
  }

  // ---------------------------------------------------------------------
  // The facility records read from the OSM analysis
  // ---------------------------------------------------------------------

  /** The classification of a mapped space: `is_hgv` and `vehicle_type`. */
  datatype SpaceClass = SpaceClass(isHgv: bool, vehicleType: Option<string>)

  datatype PilotArea = PilotArea(osmId: int, tags: map<string, string>, capacity: Option<int>, polygon: seq<Position>)

  datatype PilotFacility = PilotFacility(facilityId: string, name: Option<string>, lat: real, lon: real,
                                         totalCapacity: int, areas: seq<PilotArea>, spaces: seq<SpaceClass>)

  /** The tag signals for trucks on one area. */
  predicate AreaTruckSignal(tags: map<string, string>) {
    || Lookup(tags, "hgv") == Some("designated")
    || Lookup(tags, "hgv") == Some("yes")
    || Truthy(Lookup(tags, "capacity:hgv"))
    || Truthy(Lookup(tags, "capacity:truck"))
    || Contains(Lower(GetOr(tags, "name", "")), "truck")
    || Contains(Lower(GetOr(tags, "name", "")), "hgv")
    || Contains(Lower(GetOr(tags, "name", "")), "vrachtwagen")
  }

  /** Every branch of the checks returns `truck`, including the fall-through default. */
  function ClassifyFacilityVehicleType(f: PilotFacility): (r: string)
    ensures r == "truck"
  {
    if |f.spaces| > 0 && exists s :: s in f.spaces && (s.isHgv || s.vehicleType == Some("truck")) then "truck"
    else if exists a :: a in f.areas && AreaTruckSignal(a.tags) then "truck"
    else "truck"
  }

  /** Only Maasvlakte facilities with parking areas and without mapped spaces are estimated. */
  predicate NeedsEstimation(f: PilotFacility) {
    InMaasvlakte(f.lat, f.lon) && |f.areas| > 0 && |f.spaces| == 0
  }

  method SelectFacilities(facilities: seq<PilotFacility>) returns (selected: seq<PilotFacility>)
    ensures selected == Filter(facilities, NeedsEstimation)
    ensures forall f :: f in selected <==> f in facilities && NeedsEstimation(f)
  {
    selected := [];
    var i := 0;
    while i < |facilities|
      invariant 0 <= i <= |facilities|
      invariant selected == Filter(facilities[..i], NeedsEstimation)
    {
      var f := facilities[i];
      TakeSnoc(facilities, i);
      FilterSnoc(facilities[..i], f, NeedsEstimation);
      if InMaasvlakte(f.lat, f.lon) {
        var hasAreas := |f.areas| > 0;
        var hasSpaces := |f.spaces| > 0;
        if hasAreas && !hasSpaces {
          selected := selected + [f];
        }
      }
      i := i + 1;
    }
    assert facilities[..i] == facilities;
    forall f ensures f in selected <==> f in facilities && NeedsEstimation(f) {
      FilterMember(facilities, NeedsEstimation, f);
    }
  }

  // ---------------------------------------------------------------------
  // Per-area capacity
  // ---------------------------------------------------------------------

  /** Width and length of one space in metres. */
  function SpaceWidth(vehicleType: string): real { if vehicleType == "truck" then TruckSpaceWidth else VanSpaceWidth }
  function SpaceLength(vehicleType: string): real { if vehicleType == "truck" then TruckSpaceLength else VanSpaceLength }

  /** The area of one space: 4 m by 15 m for a truck, 2.5 m by 5 m otherwise. */
  function SpaceArea(vehicleType: string): (a: real)
    ensures a == SpaceWidth(vehicleType) * SpaceLength(vehicleType)
  {
    if vehicleType == "truck" then 60.0 else 12.5
  }

  /** Python's `int()` of a float: truncation toward zero. */
  function Trunc(x: real): int {
    if x >= 0.0 then x.Floor else -((-x).Floor)
  }

  /**
   * The area's own `capacity`, else an equal share of the facility's total,
   * else half the polygon area `areaM2` divided by one space, capped at 200.
   * `areaM2` is the shoelace area, which is not part of this model.
   */
  function AreaCapacity(f: PilotFacility, a: PilotArea, areaM2: real, vehicleType: string): (c: int)
    requires |f.areas| > 0
    ensures c <= AreaCap
    ensures a.capacity.GetOr(0) != 0 ==> c == Min(a.capacity.GetOr(0), AreaCap)
    ensures a.capacity.GetOr(0) == 0 && f.totalCapacity >= |f.areas| ==> c == Min(f.totalCapacity / |f.areas|, AreaCap)
    ensures a.capacity.GetOr(0) == 0 && f.totalCapacity <= 0 && areaM2 <= 0.0 ==> c == 0
    ensures a.capacity.GetOr(0) >= 0 && f.totalCapacity >= 0 && areaM2 >= 0.0 ==> c >= 0
  {
    var c0 := a.capacity.GetOr(0);
    var c1 := if c0 == 0 && f.totalCapacity > 0 then f.totalCapacity / |f.areas| else c0;
    var spaceArea := SpaceWidth(vehicleType) * SpaceLength(vehicleType);
    var c2 := if c1 == 0 && areaM2 > 0.0 then Trunc((areaM2 * 0.5) / spaceArea) else c1;
    Min(c2, AreaCap)
  }

  /** A share of the facility total that rounds down to 0 falls through to the area-based estimate. */
  lemma ShareFallsThrough(f: PilotFacility, a: PilotArea, areaM2: real)
    requires |f.areas| > 0 && a.capacity.GetOr(0) == 0 && 0 < f.totalCapacity < |f.areas| && areaM2 > 0.0
    ensures AreaCapacity(f, a, areaM2, "truck") == Min(Trunc(areaM2 * 0.5 / 60.0), AreaCap)
  {
  }

  // ---------------------------------------------------------------------
  // estimate_spaces_in_polygon
  // ---------------------------------------------------------------------

  /** A grid cell, in row-major scan order. */
  datatype Cell = Cell(row: nat, col: nat)

  /** The first `n` cells of row `row`. */
  function RowCells(row: nat, n: nat): (r: seq<Cell>)
    ensures |r| == n && forall k :: 0 <= k < n ==> r[k] == Cell(row, k)
  {
    if n == 0 then [] else RowCells(row, n - 1) + [Cell(row, n - 1)]
  }

  /** The cells of the first `rows` rows, row by row. */
  function Cells(rows: nat, cols: nat): seq<Cell> {
    if rows == 0 then [] else Cells(rows - 1, cols) + RowCells(rows - 1, cols)
  }

  /**
   * The layout of one area: the bounding box corner, one space in degrees,
   * the space size in metres, the detected angle, the space limit and the
   * two shapely operations.
   */
  datatype Grid = Grid(minLon: real, minLat: real, cellWidth: real, cellLength: real,
                       widthM: real, lengthM: real, angle: Option<real>, maxSpaces: int,
                       inside: (real, real) -> bool,
                       rotate: (seq<Position>, real, Position) -> seq<Position>)

  datatype EstimatedSpace = EstimatedSpace(number: int, centerLat: real, centerLon: real,
                                           widthM: real, lengthM: real, areaM2: real,
                                           polygon: seq<Position>, rotationAngle: Option<real>)

  function CentreOf(g: Grid, c: Cell): Position {
    Position(g.minLon + (c.col as real + 0.5) * g.cellWidth, g.minLat + (c.row as real + 0.5) * g.cellLength)
  }

  /** The closed ring of the axis-aligned space around `p`. */
  function Rectangle(p: Position, halfWidth: real, halfLength: real): (r: seq<Position>)
    ensures |r| == 5 && r[0] == r[4]
  {
    [Position(p.lon - halfWidth, p.lat - halfLength), Position(p.lon + halfWidth, p.lat - halfLength),
     Position(p.lon + halfWidth, p.lat + halfLength), Position(p.lon - halfWidth, p.lat + halfLength),
     Position(p.lon - halfWidth, p.lat - halfLength)]
  }

  predicate CellInside(g: Grid, c: Cell) {
    var p := CentreOf(g, c);
    g.inside(p.lon, p.lat)
  }

  /** The space placed in cell `c` under number `n`; a non-zero angle rotates it about its centre. */
  function SpaceAt(g: Grid, c: Cell, n: int): EstimatedSpace {
    var p := CentreOf(g, c);
    var rect := Rectangle(p, g.cellWidth / 2.0, g.cellLength / 2.0);
    var coords := if g.angle.Some? && g.angle.value != 0.0 then g.rotate(rect, -g.angle.value, p) else rect;
    EstimatedSpace(n, p.lat, p.lon, g.widthM, g.lengthM, g.widthM * g.lengthM, coords, g.angle)
  }

  /** The spaces so far and `space_num`. */
  datatype Scan = Scan(spaces: seq<EstimatedSpace>, next: int)

  function ScanStep(g: Grid, st: Scan, c: Cell): Scan {
    if st.next > g.maxSpaces || !CellInside(g, c) then st
    else Scan(st.spaces + [SpaceAt(g, c, st.next)], st.next + 1)
  }

  function ScanAll(g: Grid, st: Scan, cells: seq<Cell>): Scan {
    if cells == [] then st else ScanStep(g, ScanAll(g, st, cells[..|cells| - 1]), cells[|cells| - 1])
  }

  lemma {:induction false} ScanAppend(g: Grid, st: Scan, xs: seq<Cell>, ys: seq<Cell>)
    ensures ScanAll(g, st, xs + ys) == ScanAll(g, ScanAll(g, st, xs), ys)
  {
    if ys == [] {
      assert xs + ys == xs;
    } else {
      assert (xs + ys)[..|xs + ys| - 1] == xs + ys[..|ys| - 1];
      ScanAppend(g, st, xs, ys[..|ys| - 1]);
    }
  }

  /** Once `space_num` exceeds the limit nothing more is added, which is what the two breaks exploit. */
  lemma {:induction false} ScanStopped(g: Grid, st: Scan, cells: seq<Cell>)
    requires st.next > g.maxSpaces
    ensures ScanAll(g, st, cells) == st
  {
    if cells != [] {
      ScanStopped(g, st, cells[..|cells| - 1]);
    }
  }

  lemma {:induction false} RowCellsPrefix(row: nat, m: nat, n: nat)
    requires m <= n
    ensures RowCells(row, m) <= RowCells(row, n)
  {
  }

  lemma {:induction false} CellsPrefix(r: nat, rows: nat, cols: nat)
    requires r <= rows
    ensures Cells(r, cols) <= Cells(rows, cols)
    decreases rows - r
  {
    if r < rows {
      CellsPrefix(r + 1, rows, cols);
      assert Cells(r + 1, cols) == Cells(r, cols) + RowCells(r, cols);
    }
  }

  /** A stopped scan of a prefix is the scan of the whole sequence. */
  lemma PrefixStopped(g: Grid, xs: seq<Cell>, ys: seq<Cell>)
    requires xs <= ys
    requires ScanAll(g, Scan([], 1), xs).next > g.maxSpaces
    ensures ScanAll(g, Scan([], 1), ys) == ScanAll(g, Scan([], 1), xs)
  {
    assert ys == xs + ys[|xs|..];
    ScanAppend(g, Scan([], 1), xs, ys[|xs|..]);
    ScanStopped(g, ScanAll(g, Scan([], 1), xs), ys[|xs|..]);
  }

  lemma PrefixJoin<T>(a: seq<T>, r: seq<T>, f: seq<T>)
    requires r <= f
    ensures a + r <= a + f
  {
    assert (a + f)[..|a + r|] == a + r;
  }

  lemma PrefixTrans<T>(x: seq<T>, y: seq<T>, z: seq<T>)
    requires x <= y && y <= z
    ensures x <= z
  {
    assert z[..|x|] == z[..|y|][..|x|];
  }

  /** The cells scanned before `(row, col)` are a prefix of the whole grid. */
  lemma ScannedPrefix(row: nat, col: nat, rows: nat, cols: nat)
    requires row < rows && col <= cols
    ensures Cells(row, cols) + RowCells(row, col) <= Cells(rows, cols)
  {
    CellsPrefix(row + 1, rows, cols);
    RowCellsPrefix(row, col, cols);
    PrefixJoin(Cells(row, cols), RowCells(row, col), RowCells(row, cols));
    assert Cells(row + 1, cols) == Cells(row, cols) + RowCells(row, cols);
    PrefixTrans(Cells(row, cols) + RowCells(row, col), Cells(row + 1, cols), Cells(rows, cols));
  }

  /** Stopping inside row `row` at column `col` leaves the result of the whole scan. */
  lemma StoppedEarly(g: Grid, row: nat, col: nat, rows: nat, cols: nat)
    requires row < rows && col <= cols
    requires ScanAll(g, Scan([], 1), Cells(row, cols) + RowCells(row, col)).next > g.maxSpaces
    ensures ScanAll(g, Scan([], 1), Cells(rows, cols)) == ScanAll(g, Scan([], 1), Cells(row, cols) + RowCells(row, col))
  {
    ScannedPrefix(row, col, rows, cols);
    PrefixStopped(g, Cells(row, cols) + RowCells(row, col), Cells(rows, cols));
  }

  /** Scanning one more cell of the current row. */
  lemma ScanSnoc(g: Grid, row: nat, col: nat, cols: nat)
    ensures ScanAll(g, Scan([], 1), Cells(row, cols) + RowCells(row, col + 1)) ==
            ScanStep(g, ScanAll(g, Scan([], 1), Cells(row, cols) + RowCells(row, col)), Cell(row, col))
  {
    var prefix := Cells(row, cols) + RowCells(row, col);
    assert Cells(row, cols) + RowCells(row, col + 1) == prefix + [Cell(row, col)];
    assert (prefix + [Cell(row, col)])[..|prefix|] == prefix;
  }

  /** The cells whose centre lies inside the area, in scan order. */
  function InsideCells(g: Grid, cells: seq<Cell>): (r: seq<Cell>)
    ensures |r| <= |cells|
  {
    if cells == [] then []
    else InsideCells(g, cells[..|cells| - 1]) + (if CellInside(g, cells[|cells| - 1]) then [cells[|cells| - 1]] else [])
  }

  /**
   * The reference definition of the scan: the first `maxSpaces` inside
   * cells, numbered from 1 in scan order.
   */
  lemma {:induction false} ScanMeaning(g: Grid, cells: seq<Cell>)
    requires g.maxSpaces >= 0
    ensures var st := ScanAll(g, Scan([], 1), cells);
            var ins := InsideCells(g, cells);
            && st.next == |st.spaces| + 1
            && |st.spaces| == Min(g.maxSpaces, |ins|)
            && forall k :: 0 <= k < |st.spaces| ==> st.spaces[k] == SpaceAt(g, ins[k], k + 1)
  {
    if cells != [] {
      var init := cells[..|cells| - 1];
      ScanMeaning(g, init);
      var c := cells[|cells| - 1];
      var prev := ScanAll(g, Scan([], 1), init);
      var ins := InsideCells(g, init);
      assert InsideCells(g, cells) == ins + (if CellInside(g, c) then [c] else []);
      if prev.next <= g.maxSpaces && CellInside(g, c) {
        assert |prev.spaces| == |ins|;
      }
    }
  }

  /** Every estimated space is numbered by its position, has its centre inside the area and records the angle. */
  lemma {:induction false} ScanSound(g: Grid, cells: seq<Cell>)
    requires g.maxSpaces >= 0
    ensures var sp := ScanAll(g, Scan([], 1), cells).spaces;
            && |sp| <= g.maxSpaces
            && forall k :: 0 <= k < |sp| ==>
                 && sp[k].number == k + 1
                 && g.inside(sp[k].centerLon, sp[k].centerLat)
                 && sp[k].rotationAngle == g.angle
                 && sp[k].widthM == g.widthM && sp[k].lengthM == g.lengthM
                 && sp[k].areaM2 == g.widthM * g.lengthM
  {
    ScanMeaning(g, cells);
    var sp := ScanAll(g, Scan([], 1), cells).spaces;
    var ins := InsideCells(g, cells);
    forall k | 0 <= k < |sp|
      ensures g.inside(sp[k].centerLon, sp[k].centerLat)
    {
      InsideCellsInside(g, cells, k);
    }
  }

  lemma {:induction false} InsideCellsInside(g: Grid, cells: seq<Cell>, k: nat)
    requires k < |InsideCells(g, cells)|
    ensures CellInside(g, InsideCells(g, cells)[k])
  {
    var init := cells[..|cells| - 1];
    if k < |InsideCells(g, init)| {
      InsideCellsInside(g, init, k);
    }
  }

  /** `max(1, int(extent / cell))`. */
  function GridCount(extent: real, cell: real): (n: int)
    requires cell > 0.0
    ensures n >= 1
  {
    Max(1, Trunc(extent / cell))
  }

  /** `min(capacity if capacity > 0 else rows * cols, 200)`. */
  function MaxSpaces(capacity: int, rows: int, cols: int): (m: int)
    requires rows >= 1 && cols >= 1
    ensures 1 <= m <= AreaCap
    ensures capacity > 0 ==> m == Min(capacity, AreaCap)
    ensures capacity <= 0 ==> m == Min(rows * cols, AreaCap)
  {
    Min(if capacity > 0 then capacity else rows * cols, AreaCap)
  }

  /** The grid of an area laid out from its polygon, as `estimate_spaces_in_polygon` sets it up. */
  function GridOf(coords: seq<Position>, capacity: int, vehicleType: string, lonPerM: real, latPerM: real,
                  angle: Option<real>, inside: (real, real) -> bool,
                  rotate: (seq<Position>, real, Position) -> seq<Position>): Grid
    requires coords != [] && lonPerM > 0.0 && latPerM > 0.0
  {
    var w := SpaceWidth(vehicleType);
    var l := SpaceLength(vehicleType);
    var cw := w * lonPerM;
    var cl := l * latPerM;
    var cols := GridCols(coords, vehicleType, lonPerM);
    var rows := GridRows(coords, vehicleType, latPerM);
    Grid(SeqMin(Lons(coords)), SeqMin(Lats(coords)), cw, cl, w, l, angle, MaxSpaces(capacity, rows, cols), inside, rotate)
  }

  function GridRows(coords: seq<Position>, vehicleType: string, latPerM: real): int
    requires coords != [] && latPerM > 0.0
  {
    GridCount(SeqMax(Lats(coords)) - SeqMin(Lats(coords)), SpaceLength(vehicleType) * latPerM)
  }

  function GridCols(coords: seq<Position>, vehicleType: string, lonPerM: real): int
    requires coords != [] && lonPerM > 0.0
  {
    GridCount(SeqMax(Lons(coords)) - SeqMin(Lons(coords)), SpaceWidth(vehicleType) * lonPerM)
  }

  lemma GridFacts(coords: seq<Position>, capacity: int, vehicleType: string, lonPerM: real, latPerM: real,
                  angle: Option<real>, inside: (real, real) -> bool,
                  rotate: (seq<Position>, real, Position) -> seq<Position>)
    requires coords != [] && lonPerM > 0.0 && latPerM > 0.0
    ensures var g := GridOf(coords, capacity, vehicleType, lonPerM, latPerM, angle, inside, rotate);
            && 1 <= g.maxSpaces <= AreaCap && (capacity > 0 ==> g.maxSpaces <= capacity)
            && g.widthM == SpaceWidth(vehicleType) && g.lengthM == SpaceLength(vehicleType)
            && g.angle == angle && g.inside == inside
            && g.widthM * g.lengthM == SpaceArea(vehicleType)
  {
    var cols := GridCols(coords, vehicleType, lonPerM);
    var rows := GridRows(coords, vehicleType, latPerM);
    assert GridOf(coords, capacity, vehicleType, lonPerM, latPerM, angle, inside, rotate).maxSpaces == MaxSpaces(capacity, rows, cols);
  }

  /** What the scan of an area's grid promises about the spaces it lays out. */
  lemma EstimateSound(coords: seq<Position>, capacity: int, vehicleType: string, lonPerM: real, latPerM: real,
                      angle: Option<real>, inside: (real, real) -> bool,
                      rotate: (seq<Position>, real, Position) -> seq<Position>)
    requires coords != [] && lonPerM > 0.0 && latPerM > 0.0
    ensures var g := GridOf(coords, capacity, vehicleType, lonPerM, latPerM, angle, inside, rotate);
            var spaces := ScanAll(g, Scan([], 1), Cells(GridRows(coords, vehicleType, latPerM), GridCols(coords, vehicleType, lonPerM))).spaces;
            && |spaces| <= AreaCap
            && (capacity > 0 ==> |spaces| <= capacity)
            && forall k :: 0 <= k < |spaces| ==>
                 && spaces[k].number == k + 1
                 && inside(spaces[k].centerLon, spaces[k].centerLat)
                 && spaces[k].rotationAngle == angle
                 && spaces[k].widthM == SpaceWidth(vehicleType) && spaces[k].lengthM == SpaceLength(vehicleType)
                 && spaces[k].areaM2 == SpaceArea(vehicleType)
  {
    GridFacts(coords, capacity, vehicleType, lonPerM, latPerM, angle, inside, rotate);
    ScanSoundFor(GridOf(coords, capacity, vehicleType, lonPerM, latPerM, angle, inside, rotate),
                 GridRows(coords, vehicleType, latPerM), GridCols(coords, vehicleType, lonPerM), capacity, vehicleType, angle, inside);
  }

  lemma ScanSoundFor(g: Grid, rows: nat, cols: nat, capacity: int, vehicleType: string,
                     angle: Option<real>, inside: (real, real) -> bool)
    requires 1 <= g.maxSpaces <= AreaCap && (capacity > 0 ==> g.maxSpaces <= capacity)
    requires g.widthM == SpaceWidth(vehicleType) && g.lengthM == SpaceLength(vehicleType)
    requires g.angle == angle && g.inside == inside && g.widthM * g.lengthM == SpaceArea(vehicleType)
    ensures var spaces := ScanAll(g, Scan([], 1), Cells(rows, cols)).spaces;
            && |spaces| <= AreaCap
            && (capacity > 0 ==> |spaces| <= capacity)
            && forall k :: 0 <= k < |spaces| ==>
                 && spaces[k].number == k + 1
                 && inside(spaces[k].centerLon, spaces[k].centerLat)
                 && spaces[k].rotationAngle == angle
                 && spaces[k].widthM == SpaceWidth(vehicleType) && spaces[k].lengthM == SpaceLength(vehicleType)
                 && spaces[k].areaM2 == SpaceArea(vehicleType)
  {
    ScanSound(g, Cells(rows, cols));
  }

  /** The row-major scan with its two breaks. */
  method ScanGrid(g: Grid, rows: nat, cols: nat) returns (spaces: seq<EstimatedSpace>)
    ensures spaces == ScanAll(g, Scan([], 1), Cells(rows, cols)).spaces
  {
    spaces := [];
    var spaceNum := 1;
    ghost var finished := false;
    var row := 0;
    while row < rows
      invariant 0 <= row <= rows
      invariant finished ==> Scan(spaces, spaceNum) == ScanAll(g, Scan([], 1), Cells(rows, cols))
      invariant !finished ==> Scan(spaces, spaceNum) == ScanAll(g, Scan([], 1), Cells(row, cols))
      invariant finished ==> row == rows
    {
      var col := 0;
      var stop := false;
      assert Cells(row, cols) + RowCells(row, 0) == Cells(row, cols);
      while col < cols
        invariant 0 <= col <= cols
        invariant Scan(spaces, spaceNum) == ScanAll(g, Scan([], 1), Cells(row, cols) + RowCells(row, col))
        invariant stop ==> spaceNum > g.maxSpaces
      {
        if spaceNum > g.maxSpaces {
          stop := true;
          break;
        }
        var c := Cell(row, col);
        ScanSnoc(g, row, col, cols);
        var p := CentreOf(g, c);
        if g.inside(p.lon, p.lat) {
          spaces := spaces + [SpaceAt(g, c, spaceNum)];
          spaceNum := spaceNum + 1;
        }
        col := col + 1;
      }
      if spaceNum > g.maxSpaces {
        StoppedEarly(g, row, col, rows, cols);
        finished := true;
        row := rows;
        break;
      }
      assert Cells(row + 1, cols) == Cells(row, cols) + RowCells(row, cols);
      row := row + 1;
    }
  }

  method EstimateSpacesInPolygon(coords: seq<Position>, capacity: int, vehicleType: string,
                                 lonPerM: real, latPerM: real, angle: Option<real>,
                                 inside: (real, real) -> bool,
                                 rotate: (seq<Position>, real, Position) -> seq<Position>)
    returns (spaces: seq<EstimatedSpace>)
    requires coords != [] && lonPerM > 0.0 && latPerM > 0.0
    ensures var g := GridOf(coords, capacity, vehicleType, lonPerM, latPerM, angle, inside, rotate);
            spaces == ScanAll(g, Scan([], 1), Cells(GridRows(coords, vehicleType, latPerM), GridCols(coords, vehicleType, lonPerM))).spaces
    ensures |spaces| <= AreaCap
    ensures capacity > 0 ==> |spaces| <= capacity
    ensures forall k :: 0 <= k < |spaces| ==>
              && spaces[k].number == k + 1
              && inside(spaces[k].centerLon, spaces[k].centerLat)
              && spaces[k].rotationAngle == angle
              && spaces[k].widthM == SpaceWidth(vehicleType) && spaces[k].lengthM == SpaceLength(vehicleType)
              && spaces[k].areaM2 == SpaceArea(vehicleType)
  {
    var cols := GridCols(coords, vehicleType, lonPerM);
    var rows := GridRows(coords, vehicleType, latPerM);
    var g := GridOf(coords, capacity, vehicleType, lonPerM, latPerM, angle, inside, rotate);
    spaces := ScanGrid(g, rows, cols);
    EstimateSound(coords, capacity, vehicleType, lonPerM, latPerM, angle, inside, rotate);
  }
}
