/** Viewports: the tiles that cover a bounding box, as few sorted key ranges as possible. */
module SpatialCover {
  import opened Basics
  import opened SpatialBits
  import opened SpatialCells

  const MAX_LATITUDE: real := 85.05112878

  /** Web Mercator's vertical axis, from 0 at the northern limit to 1 at the southern one. */
  type Projection = real -> real

  ghost predicate Antitone(proj: Projection) {
    forall a, b | -MAX_LATITUDE <= a <= b <= MAX_LATITUDE :: proj(a) >= proj(b)
  }

  // ---------- tiles ----------

  function Clamp(v: int, lo: int, hi: int): int
    requires lo <= hi
  {
    if v < lo then lo else if v > hi then hi else v
  }

  function ClampLatitude(lat: real): real {
    if lat < -MAX_LATITUDE then -MAX_LATITUDE else if lat > MAX_LATITUDE then MAX_LATITUDE else lat
  }

  /** Position `t` of an axis that is cut into `n` tiles. */
  function Column(t: real, n: nat): nat
    requires n > 0
  {
    Clamp((t * n as real).Floor, 0, n - 1)
  }

  datatype Tile = Tile(x: nat, y: nat)

  /** The tile a point falls in at zoom z, clamped to the grid. */
  function TileOf(proj: Projection, lat: real, lon: real, z: nat): Tile {
    Tile(Column((lon + 180.0) / 360.0, Pow2(z)), Column(proj(ClampLatitude(lat)), Pow2(z)))
  }

  function Key(proj: Projection, lat: Option<real>, lon: Option<real>): Option<nat> {
    if lat.None? || lon.None? then None
    else
      var tile := TileOf(proj, lat.value, lon.value, ZOOM);
      Some(Interleave(tile.x, tile.y))
  }

  lemma ScaleUp(s: real, t: real, n: nat)
    requires s <= t
    ensures s * n as real <= t * n as real
  {
  }

  lemma ColumnMonotone(s: real, t: real, n: nat)
    requires s <= t && n > 0
    ensures Column(s, n) <= Column(t, n)
  {
    ScaleUp(s, t, n);
  }

  lemma ColumnHalves(t: real, m: nat)
    requires m > 0
    ensures Column(t, 2 * m) / 2 == Column(t, m)
  {
    var u := t * m as real;
    assert t * (2 * m) as real == 2.0 * u;
    var f := u.Floor;
    assert f as real <= u < f as real + 1.0;
    assert (2.0 * u).Floor == 2 * f || (2.0 * u).Floor == 2 * f + 1;
  }

  lemma ColumnBound(t: real, z: nat)
    ensures Column(t, Pow2(z)) < Pow2(z)
  {
  }

  /** On the axis the column holds its position; before and beyond it the position falls to the first and the last. */
  lemma ColumnHolds(t: real, n: nat)
    requires n > 0
    ensures 0.0 <= t < 1.0 ==> Column(t, n) as real <= t * n as real < Column(t, n) as real + 1.0
    ensures t < 0.0 ==> Column(t, n) == 0
    ensures t >= 1.0 ==> Column(t, n) == n - 1
  {
    var u := t * n as real;
    assert u.Floor as real <= u < u.Floor as real + 1.0;
    if t < 0.0 { ScaleUp(t, 0.0, n); }
    if 0.0 <= t { ScaleUp(0.0, t, n); }
    if t >= 1.0 { ScaleUp(1.0, t, n); }
    if t < 1.0 { assert (1.0 - t) * n as real > 0.0; }
  }

  /**
   * A tile contains its points: the position on each axis, scaled to 2^z, lies in the
   * tile's row and column. West of the map it is the first column, on its eastern edge and
   * beyond the last; north and south of the limits a point has the row of the limit.
   */
  lemma TileHoldsPoint(proj: Projection, lat: real, lon: real, z: nat)
    ensures var t, n := TileOf(proj, lat, lon, z), Pow2(z);
      && (-180.0 <= lon < 180.0 ==> t.x as real <= (lon + 180.0) / 360.0 * n as real < t.x as real + 1.0)
      && (lon < -180.0 ==> t.x == 0)
      && (lon >= 180.0 ==> t.x == n - 1)
    ensures var t, n := TileOf(proj, lat, lon, z), Pow2(z);
      var v := proj(if lat < -85.05112878 then -85.05112878 else if lat > 85.05112878 then 85.05112878 else lat);
      && (0.0 <= v < 1.0 ==> t.y as real <= v * n as real < t.y as real + 1.0)
      && (v < 0.0 ==> t.y == 0)
      && (v >= 1.0 ==> t.y == n - 1)
  {
    hide Column, Pow2;
    Longitude(lon);
    ColumnHolds((lon + 180.0) / 360.0, Pow2(z));
    ColumnHolds(proj(ClampLatitude(lat)), Pow2(z));
  }

  lemma Longitude(lon: real)
    ensures 0.0 <= (lon + 180.0) / 360.0 <==> lon >= -180.0
    ensures (lon + 180.0) / 360.0 < 1.0 <==> lon < 180.0
  {
  }

  /** A row has a key exactly if it has both coordinates; on the map it is the code of the grid's cell that contains the point. */
  lemma KeyOfPoint(proj: Projection, lat: Option<real>, lon: Option<real>, x: nat, y: nat)
    ensures Key(proj, lat, lon).Some? <==> lat.Some? && lon.Some?
    ensures lat.Some? && lon.Some? && x < 1048576 && y < 1048576
            && x as real <= (lon.value + 180.0) / 360.0 * 1048576.0 < x as real + 1.0
            && -85.05112878 <= lat.value <= 85.05112878 && y as real <= proj(lat.value) * 1048576.0 < y as real + 1.0
            ==> Key(proj, lat, lon) == Some(Interleave(x, y))
  {
    assert Pow2(20) == 1048576 by { GridSize(); }
    hide Interleave, Pow2;
  }

  lemma GridSize()
    ensures Pow2(20) == 1048576
  {
    assert Pow2(10) == 1024;
    assert Pow2(15) == 32768;
  }

  /** Zooming out is shifting the tile's coordinates. */
  lemma {:induction false} ColumnShifts(t: real, z: nat, k: nat)
    ensures ShiftRight(Column(t, Pow2(z + k)), k) == Column(t, Pow2(z))
    decreases k
  {
    if k == 0 {
    } else {
      ColumnHalves(t, Pow2(z + k - 1));
      ColumnShifts(t, z, k - 1);
    }
  }

  /** A point's tile at a coarse zoom is a prefix of its cell. */
  lemma TileIsPrefix(proj: Projection, lat: real, lon: real, z: nat)
    requires z <= ZOOM
    ensures var cell, tile := TileOf(proj, lat, lon, ZOOM), TileOf(proj, lat, lon, z);
      && OnGrid(ZOOM, cell.x, cell.y) && OnGrid(z, tile.x, tile.y)
      && ShiftRight(cell.x, ZOOM - z) == tile.x && ShiftRight(cell.y, ZOOM - z) == tile.y
  {
    hide Column, Pow2, ShiftRight;
    var h, v := (lon + 180.0) / 360.0, proj(ClampLatitude(lat));
    ColumnShifts(h, z, ZOOM - z);
    ColumnShifts(v, z, ZOOM - z);
    ColumnBound(h, ZOOM);
    ColumnBound(v, ZOOM);
    ColumnBound(h, z);
    ColumnBound(v, z);
  }

  /** East is right, south is down. */
  lemma TileMonotone(proj: Projection, lat: real, lon: real, lat': real, lon': real, z: nat)
    requires Antitone(proj) && lon <= lon' && lat >= lat'
    ensures TileOf(proj, lat, lon, z).x <= TileOf(proj, lat', lon', z).x
    ensures TileOf(proj, lat, lon, z).y <= TileOf(proj, lat', lon', z).y
  {
    ColumnMonotone((lon + 180.0) / 360.0, (lon' + 180.0) / 360.0, Pow2(z));
    ColumnMonotone(proj(ClampLatitude(lat)), proj(ClampLatitude(lat')), Pow2(z));
  }

  // ---------- boxes ----------

  datatype BoundingBox = BoundingBox(west: real, south: real, east: real, north: real)
  {
    predicate CrossesAntimeridian() { west > east }

    /** What parsing a box from a request guarantees. */
    predicate Valid() {
      -180.0 <= west <= 180.0 && -180.0 <= east <= 180.0 && -90.0 <= south <= north <= 90.0
    }

    predicate Contains(lat: real, lon: real) {
      && south <= lat <= north
      && if CrossesAntimeridian() then lon >= west || lon <= east else west <= lon <= east
    }

    /** A box across the antimeridian is cut there. */
    function Longitudes(): seq<(real, real)> {
      if CrossesAntimeridian() then [(west, 180.0), (-180.0, east)] else [(west, east)]
    }
  }

  /** Inclusive rectangle of tiles. */
  datatype Rect = Rect(x0: nat, y0: nat, x1: nat, y1: nat)
  {
    predicate Ordered() { x0 <= x1 && y0 <= y1 }

    predicate Has(x: nat, y: nat) { x0 <= x <= x1 && y0 <= y <= y1 }

    function Size(): nat
      requires Ordered()
    {
      (x1 - x0 + 1) * (y1 - y0 + 1)
    }
  }

  function RectOf(proj: Projection, box: BoundingBox, lon: (real, real), z: nat): Rect {
    var nw, se := TileOf(proj, box.north, lon.0, z), TileOf(proj, box.south, lon.1, z);
    Rect(nw.x, nw.y, se.x, se.y)
  }

  lemma RectOrdered(proj: Projection, box: BoundingBox, i: nat, z: nat)
    requires Antitone(proj) && box.Valid() && i < |box.Longitudes()|
    ensures var r := RectOf(proj, box, box.Longitudes()[i], z);
      r.Ordered() && OnGrid(z, r.x0, r.y0) && OnGrid(z, r.x1, r.y1)
  {
    var lon := box.Longitudes()[i];
    TileMonotone(proj, box.north, lon.0, box.south, lon.1, z);
  }

  /** The tiles a viewport needs at zoom z. */
  ghost function TileCount(proj: Projection, box: BoundingBox, z: nat, n: nat): nat
    requires Antitone(proj) && box.Valid() && n <= |box.Longitudes()|
  {
    if n == 0 then 0
    else
      RectOrdered(proj, box, n - 1, z);
      TileCount(proj, box, z, n - 1) + RectOf(proj, box, box.Longitudes()[n - 1], z).Size()
  }

  /** Some piece of the box reaches the cell at zoom z. */
  ghost predicate Reaches(proj: Projection, box: BoundingBox, z: nat, x: nat, y: nat) {
    exists i :: 0 <= i < |box.Longitudes()| && RectOf(proj, box, box.Longitudes()[i], z).Has(x, y)
  }

  /** The cells that the pieces reach lie between the box's corners, or outside them if it crosses the antimeridian. */
  lemma ReachesExactly(proj: Projection, box: BoundingBox, z: nat, x: nat, y: nat)
    requires box.Valid() && x < Pow2(z)
    ensures var nw, se := TileOf(proj, box.north, box.west, z), TileOf(proj, box.south, box.east, z);
      Reaches(proj, box, z, x, y)
      <==> nw.y <= y <= se.y && if box.west > box.east then x >= nw.x || x <= se.x else nw.x <= x <= se.x
  {
    var pieces := box.Longitudes();
    EdgeColumns(z);
    hide Column;
    var first := RectOf(proj, box, pieces[0], z);
    if box.west > box.east {
      var second := RectOf(proj, box, pieces[1], z);
      assert Reaches(proj, box, z, x, y) <==> first.Has(x, y) || second.Has(x, y);
    } else {
      assert Reaches(proj, box, z, x, y) <==> first.Has(x, y);
    }
  }

  /** Every point of the box, and beyond the map's edge too, falls in a tile that some piece reaches. */
  lemma PointsAreReached(proj: Projection, box: BoundingBox, lat: real, lon: real, z: nat)
    requires Antitone(proj) && box.Valid() && box.Contains(lat, lon)
    ensures var t := TileOf(proj, lat, lon, z); Reaches(proj, box, z, t.x, t.y)
  {
    var pieces := box.Longitudes();
    var i := if box.CrossesAntimeridian() && lon < box.west then 1 else 0;
    var lo := if pieces[i].0 <= lon then pieces[i].0 else lon;
    var hi := if lon <= pieces[i].1 then pieces[i].1 else lon;
    EdgeColumns(z);
    TileMonotone(proj, box.north, lo, lat, lon, z);
    TileMonotone(proj, lat, lon, box.south, hi, z);
    TileMonotone(proj, box.north, lo, box.north, pieces[i].0, z);
    TileMonotone(proj, box.south, pieces[i].1, box.south, hi, z);
    assert RectOf(proj, box, pieces[i], z).Has(TileOf(proj, lat, lon, z).x, TileOf(proj, lat, lon, z).y);
  }

  /** The antimeridian's two sides are the first and the last column. */
  lemma EdgeColumns(z: nat)
    ensures Column((-180.0 + 180.0) / 360.0, Pow2(z)) == 0
    ensures Column((180.0 + 180.0) / 360.0, Pow2(z)) == Pow2(z) - 1
  {
    assert 0.0 * Pow2(z) as real == 0.0 && 1.0 * Pow2(z) as real == Pow2(z) as real;
  }

  // ---------- key ranges ----------

  ghost predicate Covers(ranges: seq<Range>, key: nat) {
    exists i :: 0 <= i < |ranges| && InRange(ranges[i], key)
  }

  /** Every listed range is a tile's, and every tile is listed. */
  ghost predicate Lists(ranges: seq<Range>, z: nat, tiles: set<Tile>) {
    && (forall i | 0 <= i < |ranges| :: exists t :: t in tiles && ranges[i] == TileRange(z, t.x, t.y))
    && (forall t | t in tiles :: TileRange(z, t.x, t.y) in ranges)
  }

  lemma ListsOneMore(ranges: seq<Range>, z: nat, tiles: set<Tile>, x: nat, y: nat)
    requires Lists(ranges, z, tiles)
    ensures Lists(ranges + [TileRange(z, x, y)], z, tiles + {Tile(x, y)})
  {
    var more := ranges + [TileRange(z, x, y)];
    forall i | 0 <= i < |more| ensures exists t :: t in tiles + {Tile(x, y)} && more[i] == TileRange(z, t.x, t.y) {
      if i < |ranges| {
        assert more[i] == ranges[i];
      } else {
        var t := Tile(x, y);
        assert t in tiles + {Tile(x, y)} && more[i] == TileRange(z, t.x, t.y);
      }
    }
    forall t | t in tiles + {Tile(x, y)} ensures TileRange(z, t.x, t.y) in more {
      if t == Tile(x, y) { assert more[|ranges|] == TileRange(z, t.x, t.y); }
    }
  }

  /** Appends the ranges of one column of a rectangle's tiles. */
  method AddColumn(ranges: seq<Range>, z: nat, r: Rect, x: nat, ghost tiles: set<Tile>) returns (more: seq<Range>, ghost all: set<Tile>)
    requires r.Ordered() && Lists(ranges, z, tiles)
    ensures Lists(more, z, all) && |more| == |ranges| + (r.y1 - r.y0 + 1)
    ensures forall t :: t in all <==> t in tiles || (t.x == x && r.y0 <= t.y <= r.y1)
  {
    more, all := ranges, tiles;
    hide Lists;
    var y := r.y0;
    while y <= r.y1
      invariant r.y0 <= y <= r.y1 + 1
      invariant Lists(more, z, all) && |more| == |ranges| + (y - r.y0)
      invariant forall t :: t in all <==> t in tiles || (t.x == x && r.y0 <= t.y < y)
    {
      ListsOneMore(more, z, all, x, y);
      more := more + [TileRange(z, x, y)];
      all := all + {Tile(x, y)};
      y := y + 1;
    }
  }

  /** Appends the ranges of a rectangle's tiles, column by column. */
  method AddTiles(ranges: seq<Range>, z: nat, r: Rect, ghost tiles: set<Tile>) returns (more: seq<Range>, ghost all: set<Tile>)
    requires r.Ordered() && Lists(ranges, z, tiles)
    ensures Lists(more, z, all) && |more| == |ranges| + r.Size()
    ensures forall t :: t in all <==> t in tiles || r.Has(t.x, t.y)
  {
    more, all := ranges, tiles;
    hide Lists;
    var x := r.x0;
    while x <= r.x1
      invariant r.x0 <= x <= r.x1 + 1
      invariant Lists(more, z, all) && |more| == |ranges| + (x - r.x0) * (r.y1 - r.y0 + 1)
      invariant forall t :: t in all <==> t in tiles || (r.Has(t.x, t.y) && t.x < x)
    {
      more, all := AddColumn(more, z, r, x, all);
      x := x + 1;
    }
  }

  // ---------- sorting and merging ----------

  predicate AtMost(r: Range, s: Range) { r.lo < s.lo || (r.lo == s.lo && r.hi <= s.hi) }

  function Insert(r: Range, s: seq<Range>): seq<Range> {
    if s == [] || AtMost(r, s[0]) then [r] + s else [s[0]] + Insert(r, s[1..])
  }

  /** The library's sort, up to its algorithm. */
  function Sort(s: seq<Range>): seq<Range> {
    if s == [] then [] else Insert(s[0], Sort(s[1..]))
  }

  ghost predicate Ascending(s: seq<Range>) {
    forall i, j | 0 <= i < j < |s| :: AtMost(s[i], s[j])
  }

  lemma {:induction false} InsertFacts(r: Range, s: seq<Range>)
    requires Ascending(s)
    ensures Ascending(Insert(r, s)) && multiset(Insert(r, s)) == multiset(s) + multiset{r}
  {
    if s == [] || AtMost(r, s[0]) {
    } else {
      InsertFacts(r, s[1..]);
      var rest := Insert(r, s[1..]);
      assert s == [s[0]] + s[1..];
      forall j | 0 <= j < |rest| ensures AtMost(s[0], rest[j]) {
        assert rest[j] in multiset(rest);
        assert rest[j] == r || rest[j] in s[1..];
      }
    }
  }

  lemma {:induction false} SortFacts(s: seq<Range>)
    ensures Ascending(Sort(s)) && multiset(Sort(s)) == multiset(s)
  {
    if s == [] {
    } else {
      SortFacts(s[1..]);
      InsertFacts(s[0], Sort(s[1..]));
      assert s == [s[0]] + s[1..];
    }
  }

  ghost predicate Gapped(s: seq<Range>) {
    && (forall i | 0 <= i < |s| :: s[i].lo < s[i].hi)
    && (forall i, j | 0 <= i < j < |s| :: s[i].hi < s[j].lo)
  }

  /** Merges ascending ranges that touch or overlap; the result has real gaps and the same keys. */
  method Merge(ranges: seq<Range>) returns (merged: seq<Range>)
    requires Ascending(ranges) && forall i | 0 <= i < |ranges| :: ranges[i].lo < ranges[i].hi
    ensures Gapped(merged) && |merged| <= |ranges| && (ranges != [] ==> merged != [])
    ensures forall key :: Covers(merged, key) <==> Covers(ranges, key)
    ensures (forall i, j | 0 <= i < |ranges| && 0 <= j < |ranges| :: ranges[i] == ranges[j]) ==> |merged| <= 1
  {
    merged := [];
    hide Covers;
    assert ranges[..0] == [];
    for k := 0 to |ranges|
      invariant Gapped(merged) && |merged| <= k && (k > 0 ==> merged != [])
      invariant forall key :: Covers(merged, key) <==> Covers(ranges[..k], key)
      invariant k > 0 ==> merged[|merged| - 1].lo <= ranges[k - 1].lo
      invariant (forall i, j | 0 <= i < |ranges| && 0 <= j < |ranges| :: ranges[i] == ranges[j]) ==>
        k == 0 || merged == [ranges[0]]
    {
      var range := ranges[k];
      ghost var before := merged;
      if merged != [] && merged[|merged| - 1].hi >= range.lo {
        var last := merged[|merged| - 1];
        merged := merged[|merged| - 1 := Range(last.lo, if last.hi >= range.hi then last.hi else range.hi)];
        MergeKeys(before, merged, range);
      } else {
        merged := merged + [range];
        AppendKeys(before, range);
      }
      AppendKeys(ranges[..k], range);
      assert ranges[..k + 1] == ranges[..k] + [range];
    }
    assert ranges[..|ranges|] == ranges;
  }

  lemma AppendKeys(s: seq<Range>, r: Range)
    ensures forall key :: Covers(s + [r], key) <==> Covers(s, key) || InRange(r, key)
  {
    forall key ensures Covers(s + [r], key) <==> Covers(s, key) || InRange(r, key) {
      if Covers(s, key) {
        var i :| 0 <= i < |s| && InRange(s[i], key);
        assert InRange((s + [r])[i], key);
      }
      if InRange(r, key) { assert InRange((s + [r])[|s|], key); }
      if Covers(s + [r], key) {
        var i :| 0 <= i < |s + [r]| && InRange((s + [r])[i], key);
        if i < |s| { assert InRange(s[i], key); }
      }
    }
  }

  lemma MergeKeys(s: seq<Range>, t: seq<Range>, r: Range)
    requires |s| > 0 && r.lo < r.hi && s[|s| - 1].lo <= r.lo <= s[|s| - 1].hi && s[|s| - 1].lo < s[|s| - 1].hi
    requires var last := s[|s| - 1]; t == s[|s| - 1 := Range(last.lo, if last.hi >= r.hi then last.hi else r.hi)]
    ensures forall key :: Covers(t, key) <==> Covers(s, key) || InRange(r, key)
  {
    var n := |s| - 1;
    assert s == s[..n] + [s[n]] && t == s[..n] + [t[n]];
    AppendKeys(s[..n], s[n]);
    AppendKeys(s[..n], t[n]);
  }

  // ---------- the cover ----------

  /** The key of a reached cell is covered, and no other. */
  ghost predicate ExactCover(proj: Projection, box: BoundingBox, z: nat, ranges: seq<Range>)
    requires z <= ZOOM
  {
    forall a, b | OnGrid(ZOOM, a, b) ::
      Covers(ranges, Interleave(a, b)) <==> Reaches(proj, box, z, ShiftRight(a, ZOOM - z), ShiftRight(b, ZOOM - z))
  }

  lemma ReachedOnGrid(proj: Projection, box: BoundingBox, z: nat, x: nat, y: nat)
    requires Antitone(proj) && box.Valid() && Reaches(proj, box, z, x, y)
    ensures OnGrid(z, x, y)
  {
    var i :| 0 <= i < |box.Longitudes()| && RectOf(proj, box, box.Longitudes()[i], z).Has(x, y);
    RectOrdered(proj, box, i, z);
  }

  lemma {:induction false} ShiftLeftGrows(x: nat, n: nat)
    ensures ShiftLeft(x, n) < ShiftLeft(x + 1, n)
  {
    if n > 0 { ShiftLeftGrows(x, n - 1); }
  }

  ghost predicate TilesOf(proj: Projection, box: BoundingBox, z: nat, tiles: set<Tile>) {
    forall t :: t in tiles <==> Reaches(proj, box, z, t.x, t.y)
  }

  lemma CellCovered(proj: Projection, box: BoundingBox, z: nat, ranges: seq<Range>, tiles: set<Tile>, a: nat, b: nat)
    requires z <= ZOOM && Lists(ranges, z, tiles) && Antitone(proj) && box.Valid() && TilesOf(proj, box, z, tiles)
    requires OnGrid(ZOOM, a, b)
    ensures Covers(ranges, Interleave(a, b)) <==> Reaches(proj, box, z, ShiftRight(a, ZOOM - z), ShiftRight(b, ZOOM - z))
  {
    hide TileRange, Interleave, Reaches, ShiftRight, OnGrid, Antitone;
    var x, y := ShiftRight(a, ZOOM - z), ShiftRight(b, ZOOM - z);
    if Covers(ranges, Interleave(a, b)) {
      var i :| 0 <= i < |ranges| && InRange(ranges[i], Interleave(a, b));
      var t :| t in tiles && ranges[i] == TileRange(z, t.x, t.y);
      ReachedOnGrid(proj, box, z, t.x, t.y);
      TileRangeExact(z, t.x, t.y, a, b);
    }
    if Reaches(proj, box, z, x, y) {
      ReachedOnGrid(proj, box, z, x, y);
      TileRangeExact(z, x, y, a, b);
      assert Tile(x, y) in tiles;
      var i :| 0 <= i < |ranges| && ranges[i] == TileRange(z, x, y);
      assert InRange(ranges[i], Interleave(a, b));
    }
  }

  lemma ListedTile(ranges: seq<Range>, z: nat, tiles: set<Tile>, i: nat) returns (t: Tile)
    requires Lists(ranges, z, tiles) && i < |ranges|
    ensures t in tiles && ranges[i] == TileRange(z, t.x, t.y)
  {
    var range := ranges[i];
    t :| t in tiles && range == TileRange(z, t.x, t.y);
  }

  lemma TileRangeFacts(z: nat, t: Tile)
    requires z <= ZOOM && OnGrid(z, t.x, t.y)
    ensures TileRange(z, t.x, t.y).lo < TileRange(z, t.x, t.y).hi
    ensures z == 0 ==> t == Tile(0, 0)
  {
    ShiftLeftGrows(Interleave(t.x, t.y), 2 * (ZOOM - z));
  }

  lemma ListsAreExact(proj: Projection, box: BoundingBox, z: nat, ranges: seq<Range>, tiles: set<Tile>)
    requires z <= ZOOM && Lists(ranges, z, tiles) && Antitone(proj) && box.Valid() && TilesOf(proj, box, z, tiles)
    ensures ExactCover(proj, box, z, ranges)
    ensures forall i | 0 <= i < |ranges| :: ranges[i].lo < ranges[i].hi
    ensures z == 0 ==> forall i, j | 0 <= i < |ranges| && 0 <= j < |ranges| :: ranges[i] == ranges[j]
  {
    hide Interleave, Reaches, ShiftRight, ShiftLeft, Antitone, Covers, TileRange;
    forall a, b | OnGrid(ZOOM, a, b)
      ensures Covers(ranges, Interleave(a, b)) <==> Reaches(proj, box, z, ShiftRight(a, ZOOM - z), ShiftRight(b, ZOOM - z))
    {
      CellCovered(proj, box, z, ranges, tiles, a, b);
    }
    forall i | 0 <= i < |ranges| ensures ranges[i].lo < ranges[i].hi && (z == 0 ==> ranges[i] == TileRange(0, 0, 0)) {
      var t := ListedTile(ranges, z, tiles, i);
      ReachedOnGrid(proj, box, z, t.x, t.y);
      TileRangeFacts(z, t);
    }
  }

  /** The tiles that one zoom needs, counted as the program counts them. */
  method Count(proj: Projection, box: BoundingBox, z: nat) returns (count: nat)
    requires Antitone(proj) && box.Valid()
    ensures count == TileCount(proj, box, z, |box.Longitudes()|)
  {
    var pieces := box.Longitudes();
    count := 0;
    for i := 0 to |pieces|
      invariant count == TileCount(proj, box, z, i)
    {
      RectOrdered(proj, box, i, z);
      count := count + RectOf(proj, box, pieces[i], z).Size();
    }
  }

  /** All tiles of the box at one zoom. */
  method Collect(proj: Projection, box: BoundingBox, z: nat) returns (ranges: seq<Range>, ghost tiles: set<Tile>)
    requires Antitone(proj) && box.Valid()
    ensures Lists(ranges, z, tiles) && TilesOf(proj, box, z, tiles)
    ensures |ranges| == TileCount(proj, box, z, |box.Longitudes()|)
  {
    var pieces := box.Longitudes();
    ranges, tiles := [], {};
    for i := 0 to |pieces|
      invariant Lists(ranges, z, tiles) && |ranges| == TileCount(proj, box, z, i)
      invariant forall t :: t in tiles <==> exists k :: 0 <= k < i && RectOf(proj, box, pieces[k], z).Has(t.x, t.y)
    {
      RectOrdered(proj, box, i, z);
      ranges, tiles := AddTiles(ranges, z, RectOf(proj, box, pieces[i], z), tiles);
    }
  }

  /** The finest zoom at which at most `maxTiles` tiles cover the box, or 0. */
  method ChooseZoom(proj: Projection, box: BoundingBox, maxTiles: int) returns (chosen: nat)
    requires Antitone(proj) && box.Valid()
    ensures chosen <= ZOOM
    ensures chosen > 0 ==> TileCount(proj, box, chosen, |box.Longitudes()|) <= maxTiles
    ensures forall z | chosen < z <= ZOOM :: TileCount(proj, box, z, |box.Longitudes()|) > maxTiles
  {
    chosen := 0;
    var z: int := ZOOM;
    while z >= 0
      invariant -1 <= z <= ZOOM && chosen == 0
      invariant forall y | z < y <= ZOOM :: TileCount(proj, box, y, |box.Longitudes()|) > maxTiles
    {
      var count := Count(proj, box, z);
      if count <= maxTiles { return z; }
      z := z - 1;
    }
  }

  /**
   * Key ranges covering a viewport. Sorted, with real gaps, at most `maxTiles` of them,
   * and they hold exactly the cells under the box's tiles at the chosen zoom.
   */
  method Cover(proj: Projection, box: BoundingBox, maxTiles: int) returns (merged: seq<Range>, ghost zoom: nat)
    requires Antitone(proj) && box.Valid()
    ensures Gapped(merged) && merged != []
    ensures |merged| <= if maxTiles > 1 then maxTiles else 1
    ensures zoom <= ZOOM && ExactCover(proj, box, zoom, merged)
    ensures forall z | zoom < z <= ZOOM :: TileCount(proj, box, z, |box.Longitudes()|) > maxTiles
  {
    hide Reaches, OnGrid, Covers, AtMost;
    var chosen := ChooseZoom(proj, box, maxTiles);
    zoom := chosen;
    var ranges, tiles := Collect(proj, box, chosen);
    ListsAreExact(proj, box, chosen, ranges, tiles);
    hide TileCount, Lists, TilesOf, ExactCover, Gapped, Antitone;
    SortedIsExact(proj, box, chosen, ranges);
    hide Ascending, Sort;
    var sorted := Sort(ranges);
    merged := Merge(sorted);
    SameKeys(proj, box, chosen, sorted, merged);
    SomethingToCover(proj, box, chosen);
  }

  lemma SomethingToCover(proj: Projection, box: BoundingBox, z: nat)
    requires Antitone(proj) && box.Valid()
    ensures TileCount(proj, box, z, |box.Longitudes()|) > 0
  {
    RectOrdered(proj, box, |box.Longitudes()| - 1, z);
    SizePositive(RectOf(proj, box, box.Longitudes()[|box.Longitudes()| - 1], z));
  }

  lemma SizePositive(r: Rect)
    requires r.Ordered()
    ensures r.Size() > 0
  {
    Product(r.x1 - r.x0 + 1, r.y1 - r.y0 + 1);
  }

  lemma Product(a: nat, b: nat)
    requires a >= 1 && b >= 1
    ensures a * b >= 1
  {
  }

  lemma SameKeys(proj: Projection, box: BoundingBox, z: nat, s: seq<Range>, t: seq<Range>)
    requires z <= ZOOM && ExactCover(proj, box, z, s) && forall key :: Covers(t, key) <==> Covers(s, key)
    ensures ExactCover(proj, box, z, t)
  {
    hide Covers, Reaches, Interleave, OnGrid, ShiftRight;
  }

  lemma SortedIsExact(proj: Projection, box: BoundingBox, z: nat, ranges: seq<Range>)
    requires z <= ZOOM && ExactCover(proj, box, z, ranges)
    requires forall i | 0 <= i < |ranges| :: ranges[i].lo < ranges[i].hi
    requires z == 0 ==> forall i, j | 0 <= i < |ranges| && 0 <= j < |ranges| :: ranges[i] == ranges[j]
    ensures var sorted := Sort(ranges);
      && Ascending(sorted) && |sorted| == |ranges| && ExactCover(proj, box, z, sorted)
      && (forall i | 0 <= i < |sorted| :: sorted[i].lo < sorted[i].hi)
      && (z == 0 ==> forall i, j | 0 <= i < |sorted| && 0 <= j < |sorted| :: sorted[i] == sorted[j])
  {
    SortFacts(ranges);
    var sorted := Sort(ranges);
    SameElements(ranges, sorted);
    SameKeys(proj, box, z, ranges, sorted);
    hide ExactCover, Covers, Ascending, Sort;
    forall i | 0 <= i < |sorted| ensures sorted[i] in ranges {
    }
  }

  lemma SameElements(s: seq<Range>, t: seq<Range>)
    requires multiset(s) == multiset(t)
    ensures |s| == |t| && (forall r :: r in s <==> r in t)
    ensures forall key :: Covers(s, key) <==> Covers(t, key)
  {
    assert forall r :: r in s <==> r in multiset(s);
    assert forall r :: r in t <==> r in multiset(t);
    assert |multiset(s)| == |s| && |multiset(t)| == |t|;
    forall key ensures Covers(s, key) <==> Covers(t, key) {
      if Covers(s, key) { var i :| 0 <= i < |s| && InRange(s[i], key); assert s[i] in t; }
      if Covers(t, key) { var i :| 0 <= i < |t| && InRange(t[i], key); assert t[i] in s; }
    }
  }

  /** The cover holds the key of every point of the box. */
  lemma CoverHasPoints(proj: Projection, box: BoundingBox, z: nat, ranges: seq<Range>, lat: real, lon: real)
    requires Antitone(proj) && box.Valid() && z <= ZOOM && ExactCover(proj, box, z, ranges) && box.Contains(lat, lon)
    ensures Covers(ranges, Key(proj, Some(lat), Some(lon)).value)
  {
    hide TileOf, Reaches, Covers, Interleave, ShiftRight, OnGrid, Antitone;
    TileIsPrefix(proj, lat, lon, z);
    PointsAreReached(proj, box, lat, lon, z);
  }
}
