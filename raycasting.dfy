/**
 * The ray-crossing point-in-polygon test used for every walkable,
 * interactive and teleport region.
 *
 * Coordinates are `real`, so the exact `===` comparisons of the source are
 * exact here too. A polygon is a list of vertices; edge `i` runs from
 * vertex `i` to vertex `(i + 1) % n`, so the closing edge is implicit.
 * Each edge is classified once (`ClassifyEdge`), the edges are scanned in
 * order with early exit (`Scan`, mirrored by the loop in
 * `IsPointInsidePolygon`), and the scan is characterised independently as
 * "touches the boundary, or crosses an odd number of edges".
 */
module Raycasting {

  datatype Point = Point(x: real, y: real)

  function Min(a: real, b: real): real { if a <= b then a else b }
  function Max(a: real, b: real): real { if a >= b then a else b }

  /** What one edge contributes to the scan. */
  datatype EdgeVerdict = Boundary | Crossing | NoCrossing

  /** The point lies strictly inside a horizontal edge at its own height. */
  predicate OnHorizontalEdge(p: Point, a: Point, b: Point) {
    a.y == p.y && b.y == p.y && p.x > Min(a.x, b.x) && p.x < Max(a.x, b.x)
  }

  /** The point's height is in (min y, max y] of a non-horizontal edge, and it is not right of the edge's x-extent. */
  predicate InRayBand(p: Point, a: Point, b: Point) {
    p.y > Min(a.y, b.y) && p.y <= Max(a.y, b.y) && p.x <= Max(a.x, b.x) && a.y != b.y
  }

  /** Where the horizontal line through `p` meets the line through `a` and `b`. */
  function XIntersection(p: Point, a: Point, b: Point): real
    requires a.y != b.y
  {
    (p.y - a.y) * (b.x - a.x) / (b.y - a.y) + a.x
  }

  /** On a vertical edge the intersection is the edge's own x. */
  lemma VerticalEdgeIntersection(p: Point, a: Point, b: Point)
    requires a.x == b.x && a.y != b.y
    ensures XIntersection(p, a, b) == a.x
  {
    var d := b.x - a.x;
    assert d == 0.0;
    assert (p.y - a.y) * d == 0.0;
  }

  /** The three checks the scan makes on one edge, in source order. */
  function ClassifyEdge(p: Point, a: Point, b: Point): EdgeVerdict {
    if OnHorizontalEdge(p, a, b) then Boundary
    else if p.x == a.x && p.y == a.y then Boundary
    else if InRayBand(p, a, b) then
      var xinters := XIntersection(p, a, b);
      if xinters == p.x then Boundary
      else if a.x == b.x || p.x <= xinters then Crossing
      else NoCrossing
    else NoCrossing
  }

  function EdgeVerdictAt(p: Point, v: seq<Point>, i: nat): EdgeVerdict
    requires i < |v|
  {
    ClassifyEdge(p, v[i], v[(i + 1) % |v|])
  }

  /** The scan from edge `i` on, with `count` crossings seen so far; any boundary hit answers `true` at once. */
  function Scan(p: Point, v: seq<Point>, i: nat, count: nat): bool
    requires i <= |v|
    decreases |v| - i
  {
    if i == |v| then count % 2 != 0
    else match EdgeVerdictAt(p, v, i)
      case Boundary => true
      case Crossing => Scan(p, v, i + 1, count + 1)
      case NoCrossing => Scan(p, v, i + 1, count)
  }

  /** The test's answer for point `p` and polygon `v`. */
  function Inside(p: Point, v: seq<Point>): bool {
    Scan(p, v, 0, 0)
  }

  /** Some edge from `i` on classifies the point as on the boundary. */
  predicate TouchesBoundaryFrom(p: Point, v: seq<Point>, i: nat)
    requires i <= |v|
  {
    exists j :: i <= j < |v| && EdgeVerdictAt(p, v, j) == Boundary
  }

  /** The number of edges from `i` on that the rightward ray crosses. */
  function CrossingsFrom(p: Point, v: seq<Point>, i: nat): nat
    requires i <= |v|
    decreases |v| - i
  {
    if i == |v| then 0
    else (if EdgeVerdictAt(p, v, i) == Crossing then 1 else 0) + CrossingsFrom(p, v, i + 1)
  }

  /**
   * The loop of the source: one pass over the edges, counting crossings
   * in a mutable counter and returning `true` early on any boundary case.
   */
  method IsPointInsidePolygon(point: Point, vertices: seq<Point>) returns (inside: bool)
    ensures inside == Inside(point, vertices)
    ensures vertices == [] ==> !inside
  {
    var intersections: nat := 0;
    for i := 0 to |vertices|
      invariant Scan(point, vertices, i, intersections) == Inside(point, vertices)
    {
      var vertex1 := vertices[i];
      var vertex2 := vertices[(i + 1) % |vertices|];
      ghost var verdict := ClassifyEdge(point, vertex1, vertex2);
      assert verdict == EdgeVerdictAt(point, vertices, i);
      if vertex1.y == point.y && vertex2.y == point.y
         && point.x > Min(vertex1.x, vertex2.x) && point.x < Max(vertex1.x, vertex2.x)
      {
        assert verdict == Boundary;
        return true;
      }
      if point.x == vertex1.x && point.y == vertex1.y {
        assert verdict == Boundary;
        return true;
      }
      if point.y > Min(vertex1.y, vertex2.y) && point.y <= Max(vertex1.y, vertex2.y)
         && point.x <= Max(vertex1.x, vertex2.x) && vertex1.y != vertex2.y
      {
        var xinters := XIntersection(point, vertex1, vertex2);
        if xinters == point.x {
          assert verdict == Boundary;
          return true;
        }
        if vertex1.x == vertex2.x || point.x <= xinters {
          assert verdict == Crossing;
          intersections := intersections + 1;
        } else {
          assert verdict == NoCrossing;
        }
      } else {
        assert verdict == NoCrossing;
      }
    }
    return intersections % 2 != 0;
  }

  // ---------------------------------------------------------------------------
  // The scan characterised without early exit
  // ---------------------------------------------------------------------------

  lemma {:induction false} ScanIsBoundaryOrOddCount(p: Point, v: seq<Point>, i: nat, count: nat)
    requires i <= |v|
    ensures Scan(p, v, i, count) == (TouchesBoundaryFrom(p, v, i) || (count + CrossingsFrom(p, v, i)) % 2 != 0)
    decreases |v| - i
  {
    if i < |v| {
      var verdict := EdgeVerdictAt(p, v, i);
      TouchesBoundaryStep(p, v, i);
      match verdict
      case Boundary =>
      case Crossing => ScanIsBoundaryOrOddCount(p, v, i + 1, count + 1);
      case NoCrossing => ScanIsBoundaryOrOddCount(p, v, i + 1, count);
    }
  }

  /** The boundary can be touched from edge `i` on exactly when edge `i` or a later one touches it. */
  lemma TouchesBoundaryStep(p: Point, v: seq<Point>, i: nat)
    requires i < |v|
    ensures TouchesBoundaryFrom(p, v, i) == (EdgeVerdictAt(p, v, i) == Boundary || TouchesBoundaryFrom(p, v, i + 1))
  {
    if TouchesBoundaryFrom(p, v, i) && EdgeVerdictAt(p, v, i) != Boundary {
      var j :| i <= j < |v| && EdgeVerdictAt(p, v, j) == Boundary;
      assert j != i;
    }
    if TouchesBoundaryFrom(p, v, i + 1) {
      var j :| i + 1 <= j < |v| && EdgeVerdictAt(p, v, j) == Boundary;
      assert i <= j;
    }
  }

  /** Every early exit answers `true`; otherwise the answer is exactly "odd number of crossings". */
  lemma InsideIsBoundaryOrOddCrossings(p: Point, v: seq<Point>)
    ensures Inside(p, v) == (TouchesBoundaryFrom(p, v, 0) || CrossingsFrom(p, v, 0) % 2 == 1)
  {
    ScanIsBoundaryOrOddCount(p, v, 0, 0);
  }

  // ---------------------------------------------------------------------------
  // Single-edge facts
  // ---------------------------------------------------------------------------

  /** An edge reports the boundary exactly in the three early-return cases. */
  lemma BoundaryCases(p: Point, a: Point, b: Point)
    ensures ClassifyEdge(p, a, b) == Boundary <==>
      (OnHorizontalEdge(p, a, b) || p == a || (InRayBand(p, a, b) && XIntersection(p, a, b) == p.x))
  {
  }

  /**
   * A counted crossing is a genuine crossing of a non-horizontal edge
   * strictly to the right of the point; in particular horizontal edges
   * never count, and the divisor of `XIntersection` is never zero.
   */
  lemma CrossingIsStrictlyRightOfPoint(p: Point, a: Point, b: Point)
    requires ClassifyEdge(p, a, b) == Crossing
    ensures a.y != b.y
    ensures Min(a.y, b.y) < p.y <= Max(a.y, b.y)
    ensures p.x < XIntersection(p, a, b)
  {
    if a.x == b.x {
      assert XIntersection(p, a, b) == a.x;
    }
  }

  /** Over exact arithmetic the `vertex1.x === vertex2.x` test adds nothing: a vertical edge meets the ray at its own x. */
  lemma VerticalEdgeTestIsSubsumed(p: Point, a: Point, b: Point)
    requires InRayBand(p, a, b) && a.x == b.x && XIntersection(p, a, b) != p.x
    ensures p.x <= XIntersection(p, a, b)
  {
    VerticalEdgeIntersection(p, a, b);
  }

  // ---------------------------------------------------------------------------
  // Boundary points are inside
  // ---------------------------------------------------------------------------

  lemma BoundaryEdgeMeansInside(p: Point, v: seq<Point>, j: nat)
    requires j < |v| && EdgeVerdictAt(p, v, j) == Boundary
    ensures Inside(p, v)
  {
    InsideIsBoundaryOrOddCrossings(p, v);
  }

  /** A point equal to any vertex is inside, whatever earlier edges say. */
  lemma VertexIsInside(p: Point, v: seq<Point>, j: nat)
    requires j < |v| && v[j] == p
    ensures Inside(p, v)
  {
    BoundaryEdgeMeansInside(p, v, j);
  }

  /** A point strictly inside a horizontal edge, at that edge's height, is inside. */
  lemma HorizontalEdgeInteriorIsInside(p: Point, v: seq<Point>, j: nat)
    requires j < |v| && OnHorizontalEdge(p, v[j], v[(j + 1) % |v|])
    ensures Inside(p, v)
  {
    BoundaryEdgeMeansInside(p, v, j);
  }

  /** A point exactly where the ray meets a non-horizontal edge is inside. */
  lemma SlopedEdgePointIsInside(p: Point, v: seq<Point>, j: nat)
    requires j < |v|
    requires InRayBand(p, v[j], v[(j + 1) % |v|])
    requires XIntersection(p, v[j], v[(j + 1) % |v|]) == p.x
    ensures Inside(p, v)
  {
    BoundaryEdgeMeansInside(p, v, j);
  }

  // ---------------------------------------------------------------------------
  // Points beyond the polygon's extent are outside
  // ---------------------------------------------------------------------------

  lemma {:induction false} NoHitsFromMeansEvenCount(p: Point, v: seq<Point>, i: nat, count: nat)
    requires i <= |v|
    requires forall j :: i <= j < |v| ==> EdgeVerdictAt(p, v, j) == NoCrossing
    ensures Scan(p, v, i, count) == (count % 2 != 0)
    decreases |v| - i
  {
    if i < |v| {
      NoHitsFromMeansEvenCount(p, v, i + 1, count);
    }
  }

  /** When no edge reports anything the answer is `false`; the empty polygon is the simplest case. */
  lemma NoHitsMeansOutside(p: Point, v: seq<Point>)
    requires forall j :: 0 <= j < |v| ==> EdgeVerdictAt(p, v, j) == NoCrossing
    ensures !Inside(p, v)
  {
    NoHitsFromMeansEvenCount(p, v, 0, 0);
  }

  lemma EmptyPolygonIsOutside(p: Point)
    ensures !Inside(p, [])
  {
    NoHitsMeansOutside(p, []);
  }

  lemma RightOfAllVerticesIsOutside(p: Point, v: seq<Point>)
    requires forall k :: 0 <= k < |v| ==> p.x > v[k].x
    ensures !Inside(p, v)
  {
    forall j | 0 <= j < |v|
      ensures EdgeVerdictAt(p, v, j) == NoCrossing
    {
      var b := v[(j + 1) % |v|];
      assert p.x > b.x;
    }
    NoHitsMeansOutside(p, v);
  }

  lemma AboveAllVerticesIsOutside(p: Point, v: seq<Point>)
    requires forall k :: 0 <= k < |v| ==> p.y > v[k].y
    ensures !Inside(p, v)
  {
    forall j | 0 <= j < |v|
      ensures EdgeVerdictAt(p, v, j) == NoCrossing
    {
      var b := v[(j + 1) % |v|];
      assert p.y > b.y;
    }
    NoHitsMeansOutside(p, v);
  }

  lemma BelowAllVerticesIsOutside(p: Point, v: seq<Point>)
    requires forall k :: 0 <= k < |v| ==> p.y < v[k].y
    ensures !Inside(p, v)
  {
    forall j | 0 <= j < |v|
      ensures EdgeVerdictAt(p, v, j) == NoCrossing
    {
      var b := v[(j + 1) % |v|];
      assert p.y < b.y;
    }
    NoHitsMeansOutside(p, v);
  }

  // ---------------------------------------------------------------------------
  // The "last vertex repeats the first" convention
  // ---------------------------------------------------------------------------

  lemma {:induction false} ClosedCrossingsAgree(p: Point, v: seq<Point>, i: nat)
    requires 0 < |v| && i <= |v|
    ensures CrossingsFrom(p, v + [v[0]], i) == CrossingsFrom(p, v, i)
    decreases |v| - i
  {
    var c := v + [v[0]];
    if i == |v| {
      assert EdgeVerdictAt(p, c, i) != Crossing by {
        assert c[i] == v[0] && c[(i + 1) % |c|] == v[0];
      }
    } else {
      ClosedEdgesAgree(p, v, i);
      ClosedCrossingsAgree(p, v, i + 1);
    }
  }

  /** In the closed list, edge `j` of the original joins the same two vertices. */
  lemma ClosedNeighbours(v: seq<Point>, j: nat)
    requires j < |v|
    ensures (v + [v[0]])[j] == v[j]
    ensures (v + [v[0]])[(j + 1) % (|v| + 1)] == v[(j + 1) % |v|]
  {
    var c := v + [v[0]];
    if j + 1 < |v| {
      ModOfSmaller(j + 1, |v| + 1);
      ModOfSmaller(j + 1, |v|);
    } else {
      ModOfSmaller(|v|, |v| + 1);
      ModOfSelf(|v|);
      assert c[|v|] == v[0];
    }
  }

  lemma ModOfSmaller(k: nat, n: nat)
    requires k < n
    ensures k % n == k
  {
  }

  lemma ModOfSelf(n: nat)
    requires 0 < n
    ensures n % n == 0
  {
  }

  lemma ClosedEdgesAgree(p: Point, v: seq<Point>, j: nat)
    requires j < |v|
    ensures EdgeVerdictAt(p, v + [v[0]], j) == EdgeVerdictAt(p, v, j)
  {
    ClosedNeighbours(v, j);
    assert |v + [v[0]]| == |v| + 1;
  }

  /** The closing zero-length edge reports the boundary only at the first vertex, where the first edge does too. */
  lemma ClosingEdgeBoundary(p: Point, v: seq<Point>)
    requires 0 < |v|
    requires EdgeVerdictAt(p, v + [v[0]], |v|) == Boundary
    ensures EdgeVerdictAt(p, v, 0) == Boundary
  {
    var c := v + [v[0]];
    assert c[|v|] == v[0] && c[(|v| + 1) % |c|] == v[0];
    assert ClassifyEdge(p, v[0], v[0]) == Boundary;
    assert p.x == v[0].x && p.y == v[0].y;
  }

  lemma ClosedBoundaryAgrees(p: Point, v: seq<Point>)
    requires 0 < |v|
    ensures TouchesBoundaryFrom(p, v + [v[0]], 0) == TouchesBoundaryFrom(p, v, 0)
  {
    var c := v + [v[0]];
    if TouchesBoundaryFrom(p, c, 0) {
      var j :| 0 <= j < |c| && EdgeVerdictAt(p, c, j) == Boundary;
      if j == |v| {
        ClosingEdgeBoundary(p, v);
      } else {
        ClosedEdgesAgree(p, v, j);
      }
    }
    if TouchesBoundaryFrom(p, v, 0) {
      var j :| 0 <= j < |v| && EdgeVerdictAt(p, v, j) == Boundary;
      ClosedEdgesAgree(p, v, j);
    }
  }

  /**
   * Repeating the first vertex at the end, as the configuration files do,
   * never changes the answer: the extra zero-length edge reports the
   * boundary only for the first vertex itself, which is inside anyway.
   */
  lemma ClosingVertexIsHarmless(p: Point, v: seq<Point>)
    requires 0 < |v|
    ensures Inside(p, v + [v[0]]) == Inside(p, v)
  {
    ClosedBoundaryAgrees(p, v);
    ClosedCrossingsAgree(p, v, 0);
    InsideIsBoundaryOrOddCrossings(p, v);
    InsideIsBoundaryOrOddCrossings(p, v + [v[0]]);
  }

  // ---------------------------------------------------------------------------
  // Axis-aligned rectangles
  // ---------------------------------------------------------------------------

  /** A rectangle listed as the configuration lists it: min corner, +x, max corner, +y, min corner again. */
  function Rectangle(x0: real, y0: real, x1: real, y1: real): (r: seq<Point>)
    ensures |r| == 5
  {
    [Point(x0, y0), Point(x1, y0), Point(x1, y1), Point(x0, y1), Point(x0, y0)]
  }

  lemma RectangleLowerEdges(p: Point, x0: real, y0: real, x1: real, y1: real)
    requires x0 < x1 && y0 < y1
    ensures EdgeVerdictAt(p, Rectangle(x0, y0, x1, y1), 0) ==
      if (p.y == y0 && x0 < p.x < x1) || p == Point(x0, y0) then Boundary else NoCrossing
    ensures EdgeVerdictAt(p, Rectangle(x0, y0, x1, y1), 4) ==
      if p == Point(x0, y0) then Boundary else NoCrossing
  {
    var r := Rectangle(x0, y0, x1, y1);
    assert r[(0 + 1) % 5] == Point(x1, y0);
    assert r[(4 + 1) % 5] == Point(x0, y0);
  }

  lemma RectangleRightEdge(p: Point, x0: real, y0: real, x1: real, y1: real)
    requires x0 < x1 && y0 < y1
    ensures EdgeVerdictAt(p, Rectangle(x0, y0, x1, y1), 1) ==
      if p == Point(x1, y0) then Boundary
      else if y0 < p.y <= y1 && p.x <= x1 then (if p.x == x1 then Boundary else Crossing)
      else NoCrossing
  {
    var r := Rectangle(x0, y0, x1, y1);
    var a, b := Point(x1, y0), Point(x1, y1);
    assert r[1] == a && r[(1 + 1) % 5] == b;
    VerticalEdgeIntersection(p, a, b);
  }

  lemma RectangleUpperEdge(p: Point, x0: real, y0: real, x1: real, y1: real)
    requires x0 < x1 && y0 < y1
    ensures EdgeVerdictAt(p, Rectangle(x0, y0, x1, y1), 2) ==
      if (p.y == y1 && x0 < p.x < x1) || p == Point(x1, y1) then Boundary else NoCrossing
  {
    var r := Rectangle(x0, y0, x1, y1);
    assert r[2] == Point(x1, y1) && r[(2 + 1) % 5] == Point(x0, y1);
  }

  lemma RectangleLeftEdge(p: Point, x0: real, y0: real, x1: real, y1: real)
    requires x0 < x1 && y0 < y1
    ensures EdgeVerdictAt(p, Rectangle(x0, y0, x1, y1), 3) ==
      if p == Point(x0, y1) then Boundary
      else if y0 < p.y <= y1 && p.x <= x0 then (if p.x == x0 then Boundary else Crossing)
      else NoCrossing
  {
    var r := Rectangle(x0, y0, x1, y1);
    var a, b := Point(x0, y1), Point(x0, y0);
    assert r[3] == a && r[(3 + 1) % 5] == b;
    VerticalEdgeIntersection(p, a, b);
  }

  /**
   * For a non-degenerate axis-aligned rectangle the ray-crossing test is
   * exactly the closed box: edges and corners count as inside.
   */
  lemma RectangleIsClosedBox(p: Point, x0: real, y0: real, x1: real, y1: real)
    requires x0 < x1 && y0 < y1
    ensures Inside(p, Rectangle(x0, y0, x1, y1)) == (x0 <= p.x <= x1 && y0 <= p.y <= y1)
  {
    var r := Rectangle(x0, y0, x1, y1);
    RectangleLowerEdges(p, x0, y0, x1, y1);
    RectangleRightEdge(p, x0, y0, x1, y1);
    RectangleUpperEdge(p, x0, y0, x1, y1);
    RectangleLeftEdge(p, x0, y0, x1, y1);
    var touches := exists j :: 0 <= j < 5 && EdgeVerdictAt(p, r, j) == Boundary;
    assert TouchesBoundaryFrom(p, r, 0) == touches;
    assert touches == (EdgeVerdictAt(p, r, 0) == Boundary || EdgeVerdictAt(p, r, 1) == Boundary
                       || EdgeVerdictAt(p, r, 2) == Boundary || EdgeVerdictAt(p, r, 3) == Boundary
                       || EdgeVerdictAt(p, r, 4) == Boundary) by {
      if touches {
        var j :| 0 <= j < 5 && EdgeVerdictAt(p, r, j) == Boundary;
        assert j == 0 || j == 1 || j == 2 || j == 3 || j == 4;
      }
    }
    assert CrossingsFrom(p, r, 5) == 0;
    assert CrossingsFrom(p, r, 4) == 0;
    assert CrossingsFrom(p, r, 3) == (if EdgeVerdictAt(p, r, 3) == Crossing then 1 else 0);
    assert CrossingsFrom(p, r, 2) == CrossingsFrom(p, r, 3);
    assert CrossingsFrom(p, r, 1) == (if EdgeVerdictAt(p, r, 1) == Crossing then 1 else 0) + CrossingsFrom(p, r, 2);
    assert CrossingsFrom(p, r, 0) == CrossingsFrom(p, r, 1);
    InsideIsBoundaryOrOddCrossings(p, r);
  }

  /** The 2-by-2 square: centre inside, far corner outside, left-edge point and corner vertex inside. */
  lemma SquareExamples()
    ensures Inside(Point(1.0, 1.0), Rectangle(0.0, 0.0, 2.0, 2.0))
    ensures !Inside(Point(3.0, 3.0), Rectangle(0.0, 0.0, 2.0, 2.0))
    ensures Inside(Point(0.0, 1.0), Rectangle(0.0, 0.0, 2.0, 2.0))
    ensures Inside(Point(0.0, 0.0), Rectangle(0.0, 0.0, 2.0, 2.0))
  {
    RectangleIsClosedBox(Point(1.0, 1.0), 0.0, 0.0, 2.0, 2.0);
    RectangleIsClosedBox(Point(3.0, 3.0), 0.0, 0.0, 2.0, 2.0);
    RectangleIsClosedBox(Point(0.0, 1.0), 0.0, 0.0, 2.0, 2.0);
    RectangleIsClosedBox(Point(0.0, 0.0), 0.0, 0.0, 2.0, 2.0);
  }
}
