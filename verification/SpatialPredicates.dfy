/** The predicate a viewport turns into: cell ranges narrow, coordinates decide. */
module SpatialPredicates {
  import opened Basics
  import opened SpatialBits
  import opened SpatialCells
  import opened SpatialCover

  /** A point row that carries its key beside its coordinates. */
  datatype Point = Point(cell: Option<nat>, latitude: Option<real>, longitude: Option<real>)

  /** The expression tree handed to the query provider. */
  datatype Expr =
    | CellPresent
    | CellAtLeast(lo: nat)
    | CellBelow(hi: nat)
    | LatitudeAtLeast(south: real)
    | LatitudeAtMost(north: real)
    | LongitudeAtLeast(west: real)
    | LongitudeAtMost(east: real)
    | And(left: Expr, right: Expr)
    | Or(left: Expr, right: Expr)

  /** A comparison with null is not true, as in C# and in a WHERE clause. */
  predicate Eval(e: Expr, p: Point) {
    match e
    case CellPresent => p.cell.Some?
    case CellAtLeast(lo) => p.cell.Some? && p.cell.value >= lo
    case CellBelow(hi) => p.cell.Some? && p.cell.value < hi
    case LatitudeAtLeast(south) => p.latitude.Some? && p.latitude.value >= south
    case LatitudeAtMost(north) => p.latitude.Some? && p.latitude.value <= north
    case LongitudeAtLeast(west) => p.longitude.Some? && p.longitude.value >= west
    case LongitudeAtMost(east) => p.longitude.Some? && p.longitude.value <= east
    case And(left, right) => Eval(left, p) && Eval(right, p)
    case Or(left, right) => Eval(left, p) || Eval(right, p)
  }

  /** The row's key is the key of its coordinates. */
  ghost predicate Indexed(proj: Projection, p: Point) {
    p.cell == Key(proj, p.latitude, p.longitude)
  }

  /** The plain test, without any index. */
  ghost predicate InBox(box: BoundingBox, p: Point) {
    p.latitude.Some? && p.longitude.Some? && box.Contains(p.latitude.value, p.longitude.value)
  }

  ghost predicate CellIn(ranges: seq<Range>, p: Point) {
    p.cell.Some? && Covers(ranges, p.cell.value)
  }

  lemma TermFacts(r: Range, term: Expr, p: Point)
    requires term == And(CellAtLeast(r.lo), CellBelow(r.hi))
    ensures Eval(term, p) <==> CellIn([r], p)
  {
    assert Eval(term.left, p) && Eval(term.right, p) <==> p.cell.Some? && InRange(r, p.cell.value);
    assert [r][0] == r;
  }

  method RangeTerms(ranges: seq<Range>) returns (e: Expr)
    requires ranges != []
    ensures forall p :: Eval(e, p) <==> CellIn(ranges, p)
  {
    var terms: Option<Expr> := None;
    for i := 0 to |ranges|
      invariant terms.Some? <==> i > 0
      invariant terms.Some? ==> forall p :: Eval(terms.value, p) <==> CellIn(ranges[..i], p)
    {
      var term := And(CellAtLeast(ranges[i].lo), CellBelow(ranges[i].hi));
      forall p ensures Eval(term, p) <==> CellIn([ranges[i]], p) {
        TermFacts(ranges[i], term, p);
      }
      AppendKeys(ranges[..i], ranges[i]);
      AppendKeys([], ranges[i]);
      assert ranges[..i + 1] == ranges[..i] + [ranges[i]] && [] + [ranges[i]] == [ranges[i]];
      terms := Some(if terms.None? then term else Or(terms.value, term));
    }
    assert ranges[..|ranges|] == ranges;
    e := terms.value;
  }

  /** On an indexed row the viewport's predicate is exactly the plain coordinate test. */
  method InViewport(proj: Projection, box: BoundingBox) returns (body: Expr)
    requires Antitone(proj) && box.Valid()
    ensures forall p | Indexed(proj, p) :: Eval(body, p) <==> InBox(box, p)
  {
    var cover, zoom := Cover(proj, box, 16);
    var ranges := RangeTerms(cover);
    var inLatitude := And(LatitudeAtLeast(box.south), LatitudeAtMost(box.north));
    var west, east := LongitudeAtLeast(box.west), LongitudeAtMost(box.east);
    var inLongitude := if box.CrossesAntimeridian() then Or(west, east) else And(west, east);
    body := And(And(CellPresent, ranges), And(inLatitude, inLongitude));
    hide Gapped, ExactCover, Eval, InBox, CellIn, Indexed, Antitone, TileCount;
    forall p | Indexed(proj, p) ensures Eval(body, p) <==> InBox(box, p) {
      PlainTest(box, p, inLatitude, inLongitude);
      BodyFacts(body, cover, p);
      if InBox(box, p) { NoPointIsMissed(proj, box, zoom, cover, p); }
    }
  }

  lemma BodyFacts(body: Expr, cover: seq<Range>, p: Point)
    requires body.And? && body.left.And? && body.left.left.CellPresent?
    requires Eval(body.left.right, p) <==> CellIn(cover, p)
    ensures Eval(body, p) <==> CellIn(cover, p) && Eval(body.right, p)
  {
    assert Eval(body.left, p) <==> Eval(body.left.left, p) && Eval(body.left.right, p);
  }

  lemma NoPointIsMissed(proj: Projection, box: BoundingBox, zoom: nat, cover: seq<Range>, p: Point)
    requires Antitone(proj) && box.Valid() && zoom <= ZOOM && ExactCover(proj, box, zoom, cover)
    requires Indexed(proj, p) && InBox(box, p)
    ensures CellIn(cover, p)
  {
    CoverHasPoints(proj, box, zoom, cover, p.latitude.value, p.longitude.value);
  }

  lemma PlainTest(box: BoundingBox, p: Point, inLatitude: Expr, inLongitude: Expr)
    requires inLatitude == And(LatitudeAtLeast(box.south), LatitudeAtMost(box.north))
    requires inLongitude == if box.CrossesAntimeridian() then Or(LongitudeAtLeast(box.west), LongitudeAtMost(box.east))
                            else And(LongitudeAtLeast(box.west), LongitudeAtMost(box.east))
    ensures Eval(And(inLatitude, inLongitude), p) <==> InBox(box, p)
  {
    assert Eval(inLatitude, p) <==> Eval(inLatitude.left, p) && Eval(inLatitude.right, p);
    assert Eval(And(inLatitude, inLongitude), p) <==> Eval(inLatitude, p) && Eval(inLongitude, p);
    if box.CrossesAntimeridian() {
      assert Eval(inLongitude, p) <==> Eval(inLongitude.left, p) || Eval(inLongitude.right, p);
    } else {
      assert Eval(inLongitude, p) <==> Eval(inLongitude.left, p) && Eval(inLongitude.right, p);
    }
  }
}
