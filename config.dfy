/**
 * The region data of world 0 ("MethLab") in `config.js`, used as concrete
 * fixtures. Both worlds of the configuration carry the same regions.
 */
module Config {
  import opened Raycasting
  import opened Regions

  /** The walkable whitelist: one rectangle and an empty placeholder polygon. */
  function World0Walkable(): seq<seq<Vec3>> {
    [RectangleRegion(-0.8, -0.6, 0.6, 8.0, 0.0), []]
  }

  function World0Interactive(): seq<seq<Vec3>> {
    [RectangleRegion(-0.5, 2.5, 1.0, 4.5, 0.0)]
  }

  function World0Teleport(): seq<seq<Vec3>> {
    [RectangleRegion(-0.5, 5.5, 1.0, 7.5, 0.0)]
  }

  /** The player's initial position `[0, 0, 0]`. */
  function World0PlayerStart(): Vec3 {
    Vec3(0.0, 0.0, 0.0)
  }

  /** The walkable region of world 0 is exactly the box [-0.8, 0.6] x [-0.6, 8]; the empty polygon adds nothing. */
  lemma World0WalkableIsBox(x: real, z: real)
    ensures InsideAny(x, z, World0Walkable()) == (-0.8 <= x <= 0.6 && -0.6 <= z <= 8.0)
  {
    var rect := RectangleRegion(-0.8, -0.6, 0.6, 8.0, 0.0);
    EmptyPolygonContributesNothing(x, z, [rect], []);
    assert [rect] + [[]] + [] == World0Walkable();
    assert [rect] + [] == [rect];
    RectangleRegionIsClosedBox(x, z, -0.8, -0.6, 0.6, 8.0, 0.0);
    assert InsideAny(x, z, [rect]) == Inside(Point(x, z), Planar(rect)) by {
      assert [rect][0] == rect;
    }
  }

  /** The player starts on walkable ground. */
  lemma World0StartIsWalkable()
    ensures InsideAny(World0PlayerStart().x, World0PlayerStart().z, World0Walkable())
  {
    World0WalkableIsBox(0.0, 0.0);
  }
}
