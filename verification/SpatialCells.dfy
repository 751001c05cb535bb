/** The grid: tiles, tile ranges and clusters as ranges of the Morton key. */
module SpatialCells {
  import opened Basics
  import opened SpatialBits

  const ZOOM: nat := 20

  /** Arithmetic shifts of non-negative numbers. */
  function ShiftRight(x: nat, n: nat): nat
    decreases n
  {
    if n == 0 then x else ShiftRight(x / 2, n - 1)
  }

  function ShiftLeft(x: nat, n: nat): nat {
    if n == 0 then x else 2 * ShiftLeft(x, n - 1)
  }

  // ---------- tile ranges ----------

  /** Half-open range of keys. */
  datatype Range = Range(lo: nat, hi: nat)

  predicate InRange(r: Range, key: nat) { r.lo <= key < r.hi }

  /** Everything inside tile z/x/y; finer than a cell it is the one cell the tile sits in. */
  function TileRange(z: nat, x: nat, y: nat): Range {
    if z <= ZOOM then
      var shift := 2 * (ZOOM - z);
      var key := Interleave(x, y);
      Range(ShiftLeft(key, shift), ShiftLeft(key + 1, shift))
    else
      var d := z - ZOOM;
      var cell := Interleave(ShiftRight(x, d), ShiftRight(y, d));
      Range(cell, cell + 1)
  }

  // ---------- Morton codes against prefixes ----------

  lemma {:induction false} MortonInjective(x: nat, y: nat, u: nat, v: nat)
    ensures Morton(x, y) == Morton(u, v) ==> x == u && y == v
    decreases x + y + u + v
  {
    MortonStep(x, y);
    MortonStep(u, v);
    if Morton(x, y) == Morton(u, v) && !(x == 0 && y == 0 && u == 0 && v == 0) {
      MortonInjective(x / 2, y / 2, u / 2, v / 2);
    }
  }

  /** Shifting the key right by two bits a zoom level is stepping out by that many levels. */
  lemma {:induction false} MortonPrefix(x: nat, y: nat, k: nat)
    ensures ShiftRight(Morton(x, y), 2 * k) == Morton(ShiftRight(x, k), ShiftRight(y, k))
    decreases k
  {
    if k == 0 {
    } else {
      MortonStep(x, y);
      assert Morton(x, y) / 2 / 2 == Morton(x / 2, y / 2);
      MortonPrefix(x / 2, y / 2, k - 1);
      hide Morton;
      assert ShiftRight(Morton(x, y), 2 * k) == ShiftRight(Morton(x, y) / 2, 2 * k - 1);
      assert ShiftRight(Morton(x, y) / 2, 2 * k - 1) == ShiftRight(Morton(x / 2, y / 2), 2 * k - 2);
    }
  }

  /** The keys between two shifted neighbours are those with that prefix. */
  lemma {:induction false} RangeIsPrefix(key: nat, lo: nat, n: nat)
    ensures ShiftLeft(lo, n) <= key < ShiftLeft(lo + 1, n) <==> ShiftRight(key, n) == lo
    decreases n
  {
    if n == 0 {
    } else {
      RangeIsPrefix(key / 2, lo, n - 1);
    }
  }

  lemma {:induction false} ShiftFits(x: nat, d: nat, m: nat)
    requires x < Pow2(m + d)
    ensures ShiftRight(x, d) < Pow2(m)
    decreases d
  {
    if d == 0 {
    } else {
      ShiftFits(x / 2, d - 1, m);
    }
  }

  lemma {:induction false} Pow2Grows(n: nat, m: nat)
    requires n <= m
    ensures Pow2(n) <= Pow2(m)
    decreases m - n
  {
    if n < m { Pow2Grows(n + 1, m); }
  }

  /** Cells of the grid. */
  predicate OnGrid(z: nat, x: nat, y: nat) { x < Pow2(z) && y < Pow2(z) }

  lemma KeyIsMorton(z: nat, x: nat, y: nat)
    requires OnGrid(z, x, y) && z <= ZOOM
    ensures Interleave(x, y) == Morton(x, y)
  {
    Pow2Grows(z, 32);
    InterleaveIsMorton(x, y);
  }

  /** Distinct cells have distinct keys. */
  lemma InterleaveInjective(a: nat, b: nat, u: nat, v: nat)
    requires OnGrid(ZOOM, a, b) && OnGrid(ZOOM, u, v)
    ensures Interleave(a, b) == Interleave(u, v) <==> a == u && b == v
  {
    hide Interleave, Pow2;
    KeyIsMorton(ZOOM, a, b);
    KeyIsMorton(ZOOM, u, v);
    MortonInjective(a, b, u, v);
  }

  /** A cell's key is in a tile's range exactly when the cell is in the tile. */
  lemma TileRangeExact(z: nat, x: nat, y: nat, a: nat, b: nat)
    requires z <= ZOOM && OnGrid(z, x, y) && OnGrid(ZOOM, a, b)
    ensures InRange(TileRange(z, x, y), Interleave(a, b))
       <==> ShiftRight(a, ZOOM - z) == x && ShiftRight(b, ZOOM - z) == y
  {
    hide Interleave, Pow2, Morton, ShiftLeft, ShiftRight;
    KeyIsMorton(ZOOM, a, b);
    KeyIsMorton(z, x, y);
    RangeIsPrefix(Morton(a, b), Morton(x, y), 2 * (ZOOM - z));
    MortonPrefix(a, b, ZOOM - z);
    MortonInjective(ShiftRight(a, ZOOM - z), ShiftRight(b, ZOOM - z), x, y);
  }

  /** Below the cell size a tile's range is the single cell that contains it. */
  lemma FineTileRangeExact(z: nat, x: nat, y: nat, a: nat, b: nat)
    requires z > ZOOM && OnGrid(z, x, y) && OnGrid(ZOOM, a, b)
    ensures InRange(TileRange(z, x, y), Interleave(a, b))
       <==> ShiftRight(x, z - ZOOM) == a && ShiftRight(y, z - ZOOM) == b
  {
    hide Interleave, Pow2, ShiftRight;
    ShiftFits(x, z - ZOOM, ZOOM);
    ShiftFits(y, z - ZOOM, ZOOM);
    InterleaveInjective(ShiftRight(x, z - ZOOM), ShiftRight(y, z - ZOOM), a, b);
  }

  // ---------- clusters ----------

  /** Points of a tile are clustered on the grid three zooms further in. */
  function ClusterZoom(z: nat): nat { if z + 3 <= ZOOM then z + 3 else ZOOM }

  function ClusterShift(z: nat): nat { 2 * (ZOOM - ClusterZoom(z)) }

  /** Two points share a cluster exactly when they share the tile at the cluster zoom. */
  lemma ClustersAreTiles(z: nat, a: nat, b: nat, u: nat, v: nat)
    requires OnGrid(ZOOM, a, b) && OnGrid(ZOOM, u, v)
    ensures var d := ZOOM - ClusterZoom(z);
      ShiftRight(Interleave(a, b), ClusterShift(z)) == ShiftRight(Interleave(u, v), ClusterShift(z))
      <==> ShiftRight(a, d) == ShiftRight(u, d) && ShiftRight(b, d) == ShiftRight(v, d)
  {
    hide Interleave, Pow2, Morton, ShiftRight;
    var k := ZOOM - ClusterZoom(z);
    KeyIsMorton(ZOOM, a, b);
    KeyIsMorton(ZOOM, u, v);
    MortonPrefix(a, b, k);
    MortonPrefix(u, v, k);
    MortonInjective(ShiftRight(a, k), ShiftRight(b, k), ShiftRight(u, k), ShiftRight(v, k));
  }
}
