/**
 * Regions: a list of polygons whose vertices are configuration triples
 * `[x, y, z]`. Only x and z matter; a point is in the region when it is
 * inside any of the polygons.
 */
module Regions {
  import opened Raycasting

  /** A configuration vertex `[x, y, z]`, or a position in the world. */
  datatype Vec3 = Vec3(x: real, y: real, z: real)

  /** The polygon on the ground plane: vertex `[x, y, z]` becomes `{x: x, y: z}`. */
  function Planar(polygon: seq<Vec3>): (r: seq<Point>)
    ensures |r| == |polygon|
    ensures forall k :: 0 <= k < |polygon| ==> r[k] == Point(polygon[k].x, polygon[k].z)
  {
    if polygon == [] then [] else [Point(polygon[0].x, polygon[0].z)] + Planar(polygon[1..])
  }

  /** Ground position `(x, z)` is inside some polygon of the list. */
  predicate InsideAny(x: real, z: real, polygons: seq<seq<Vec3>>) {
    exists k :: 0 <= k < |polygons| && Inside(Point(x, z), Planar(polygons[k]))
  }

  /** The scan shared by the walkable, interactive and teleport checks: first polygon that contains the point wins. */
  method AnyPolygonContains(x: real, z: real, polygons: seq<seq<Vec3>>) returns (found: bool)
    ensures found == InsideAny(x, z, polygons)
  {
    for i := 0 to |polygons|
      invariant forall k :: 0 <= k < i ==> !Inside(Point(x, z), Planar(polygons[k]))
    {
      var vertices := Planar(polygons[i]);
      var inside := IsPointInsidePolygon(Point(x, z), vertices);
      if inside {
        return true;
      }
    }
    return false;
  }

  lemma EmptyListIsOutside(x: real, z: real)
    ensures !InsideAny(x, z, [])
  {
  }

  /** The region test is the disjunction of its parts. */
  lemma InsideAnyOfConcat(x: real, z: real, a: seq<seq<Vec3>>, b: seq<seq<Vec3>>)
    ensures InsideAny(x, z, a + b) == (InsideAny(x, z, a) || InsideAny(x, z, b))
  {
    var p := Point(x, z);
    if InsideAny(x, z, a + b) {
      var k :| 0 <= k < |a + b| && Inside(p, Planar((a + b)[k]));
      if k >= |a| {
        assert (a + b)[k] == b[k - |a|];
      } else {
        assert (a + b)[k] == a[k];
      }
    }
    if InsideAny(x, z, a) {
      var k :| 0 <= k < |a| && Inside(p, Planar(a[k]));
      assert (a + b)[k] == a[k];
    }
    if InsideAny(x, z, b) {
      var k :| 0 <= k < |b| && Inside(p, Planar(b[k]));
      assert (a + b)[|a| + k] == b[k];
    }
  }

  /** An empty polygon in the list (as in the configuration's placeholder) never matches. */
  lemma EmptyPolygonContributesNothing(x: real, z: real, a: seq<seq<Vec3>>, b: seq<seq<Vec3>>)
    ensures InsideAny(x, z, a + [[]] + b) == InsideAny(x, z, a + b)
  {
    InsideAnyOfConcat(x, z, a + [[]], b);
    InsideAnyOfConcat(x, z, a, [[]]);
    InsideAnyOfConcat(x, z, a, b);
    EmptyPolygonIsOutside(Point(x, z));
    assert Planar([]) == [];
    assert !InsideAny(x, z, [[]]);
  }

  /** A rectangle written with configuration triples, at height `y`, in the configuration's vertex order. */
  function RectangleRegion(x0: real, z0: real, x1: real, z1: real, y: real): (r: seq<Vec3>)
    ensures |r| == 5
  {
    [Vec3(x0, y, z0), Vec3(x1, y, z0), Vec3(x1, y, z1), Vec3(x0, y, z1), Vec3(x0, y, z0)]
  }

  /** A configured rectangle contains exactly the closed box it spans on the ground plane. */
  lemma RectangleRegionIsClosedBox(x: real, z: real, x0: real, z0: real, x1: real, z1: real, y: real)
    requires x0 < x1 && z0 < z1
    ensures Inside(Point(x, z), Planar(RectangleRegion(x0, z0, x1, z1, y))) == (x0 <= x <= x1 && z0 <= z <= z1)
  {
    assert Planar(RectangleRegion(x0, z0, x1, z1, y)) == Rectangle(x0, z0, x1, z1);
    RectangleIsClosedBox(Point(x, z), x0, z0, x1, z1);
  }
}
