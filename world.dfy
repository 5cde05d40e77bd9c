/**
 * The axis-aligned box tests of a world: the player is in an interactive
 * (or teleport) region when its ground position lies between the x of
 * the region's vertices 0 and 1 and the z of its vertices 0 and 2, bounds
 * included.
 *
 * Reading a vertex the region does not have throws a TypeError in the
 * source; the short-circuit `&&` decides whether the read happens, so
 * the error surfaces only on the inputs where it does. Such an error
 * leaves the loop, and is a `Failure` here.
 */
module World {
  import opened Wrappers
  import opened Raycasting
  import opened Regions
  import opened Config

  /** One region's test, evaluated left to right with short-circuit `&&`. */
  function BoxTest(x: real, z: real, region: seq<Vec3>): Result<bool> {
    if |region| < 1 then Failure("TypeError: region[0] is undefined")
    else if !(x >= region[0].x) then Ok(false)
    else if |region| < 2 then Failure("TypeError: region[1] is undefined")
    else if !(x <= region[1].x) then Ok(false)
    else if !(z >= region[0].z) then Ok(false)
    else if |region| < 3 then Failure("TypeError: region[2] is undefined")
    else Ok(z <= region[2].z)
  }

  /** The box spanned by vertices 0, 1 and 2, bounds included. */
  predicate InBox(x: real, z: real, region: seq<Vec3>)
    requires |region| >= 3
  {
    region[0].x <= x <= region[1].x && region[0].z <= z <= region[2].z
  }

  /** The loop over the regions: the first region that contains the point, or the first error, ends it. */
  function AnyBox(x: real, z: real, regions: seq<seq<Vec3>>): Result<bool>
    decreases |regions|
  {
    if regions == [] then Ok(false)
    else match BoxTest(x, z, regions[0])
      case Failure(e) => Failure(e)
      case Ok(true) => Ok(true)
      case Ok(false) => AnyBox(x, z, regions[1..])
  }

  /** Every region has the three vertices the test reads. */
  predicate WellFormed(regions: seq<seq<Vec3>>) {
    forall k :: 0 <= k < |regions| ==> |regions[k]| >= 3
  }

  /** On a region with at least three vertices the test never fails and is the closed box. */
  lemma BoxTestIsClosedBox(x: real, z: real, region: seq<Vec3>)
    requires |region| >= 3
    ensures BoxTest(x, z, region) == Ok(InBox(x, z, region))
  {
  }

  /**
   * Over well-formed regions the loop never fails and answers whether
   * some region's box contains the point; an empty list answers `false`.
   */
  lemma {:induction false} AnyBoxIsSomeBox(x: real, z: real, regions: seq<seq<Vec3>>)
    requires WellFormed(regions)
    ensures AnyBox(x, z, regions) == Ok(exists k :: 0 <= k < |regions| && InBox(x, z, regions[k]))
    decreases |regions|
  {
    if regions != [] {
      BoxTestIsClosedBox(x, z, regions[0]);
      AnyBoxIsSomeBox(x, z, regions[1..]);
      if exists k :: 0 <= k < |regions| && InBox(x, z, regions[k]) {
        var k :| 0 <= k < |regions| && InBox(x, z, regions[k]);
        if k > 0 {
          assert regions[1..][k - 1] == regions[k];
        }
      } else {
        assert !InBox(x, z, regions[0]);
        forall k | 0 <= k < |regions| - 1
          ensures !InBox(x, z, regions[1..][k])
        {
          assert regions[1..][k] == regions[k + 1];
        }
      }
    }
  }

  lemma EmptyRegionListIsOutside(x: real, z: real)
    ensures AnyBox(x, z, []) == Ok(false)
  {
  }

  /** Only vertices 0, 1 and 2 are read: anything after them, the closing vertex included, has no effect. */
  lemma OnlyFirstThreeVerticesMatter(x: real, z: real, region: seq<Vec3>, rest: seq<Vec3>)
    requires |region| >= 3
    ensures BoxTest(x, z, region + rest) == BoxTest(x, z, region[..3])
  {
    assert (region + rest)[0] == region[..3][0];
    assert (region + rest)[1] == region[..3][1];
    assert (region + rest)[2] == region[..3][2];
  }

  /** The bounds are inclusive: all four corners of the box are inside. */
  lemma CornersAreInside(region: seq<Vec3>)
    requires |region| >= 3
    requires region[0].x <= region[1].x && region[0].z <= region[2].z
    ensures BoxTest(region[0].x, region[0].z, region) == Ok(true)
    ensures BoxTest(region[1].x, region[0].z, region) == Ok(true)
    ensures BoxTest(region[0].x, region[2].z, region) == Ok(true)
    ensures BoxTest(region[1].x, region[2].z, region) == Ok(true)
  {
  }

  /**
   * A region without vertices is an error whenever it is reached; one
   * with a single vertex is an error as soon as the point is not left of
   * it; one with two vertices is an error when the point is within the
   * x-extent and not below vertex 0's z, the reads `&&` gets to before it
   * needs vertex 2. Otherwise the short region is passed over.
   */
  lemma ShortRegionErrors(x: real, z: real, region: seq<Vec3>, rest: seq<seq<Vec3>>)
    ensures region == [] ==> AnyBox(x, z, [region] + rest).Failure?
    ensures |region| == 1 && x >= region[0].x ==> AnyBox(x, z, [region] + rest).Failure?
    ensures |region| == 1 && x < region[0].x ==> AnyBox(x, z, [region] + rest) == AnyBox(x, z, rest)
    ensures |region| == 2 && region[0].x <= x <= region[1].x && z >= region[0].z ==>
      AnyBox(x, z, [region] + rest).Failure?
    ensures |region| == 2 && !(region[0].x <= x <= region[1].x && z >= region[0].z) ==>
      AnyBox(x, z, [region] + rest) == AnyBox(x, z, rest)
  {
    assert ([region] + rest)[0] == region;
    assert ([region] + rest)[1..] == rest;
  }

  /**
   * For a rectangle written in the configuration's vertex order, the box
   * test and the ray-crossing polygon test give the same answer.
   */
  lemma BoxTestAgreesWithPolygonTest(x: real, z: real, x0: real, z0: real, x1: real, z1: real, y: real)
    requires x0 < x1 && z0 < z1
    ensures BoxTest(x, z, RectangleRegion(x0, z0, x1, z1, y)) == Ok(Inside(Point(x, z), Planar(RectangleRegion(x0, z0, x1, z1, y))))
  {
    RectangleRegionIsClosedBox(x, z, x0, z0, x1, z1, y);
  }

  /** On world 0 the box tests and the polygon tests of the keyboard controller agree everywhere. */
  lemma World0TestsAgree(x: real, z: real)
    ensures AnyBox(x, z, World0Interactive()) == Ok(InsideAny(x, z, World0Interactive()))
    ensures AnyBox(x, z, World0Teleport()) == Ok(InsideAny(x, z, World0Teleport()))
  {
    var interactive := RectangleRegion(-0.5, 2.5, 1.0, 4.5, 0.0);
    var teleport := RectangleRegion(-0.5, 5.5, 1.0, 7.5, 0.0);
    BoxTestAgreesWithPolygonTest(x, z, -0.5, 2.5, 1.0, 4.5, 0.0);
    BoxTestAgreesWithPolygonTest(x, z, -0.5, 5.5, 1.0, 7.5, 0.0);
    assert [interactive][0] == interactive && [interactive][1..] == [];
    assert [teleport][0] == teleport && [teleport][1..] == [];
    assert InsideAny(x, z, [interactive]) == Inside(Point(x, z), Planar(interactive));
    assert InsideAny(x, z, [teleport]) == Inside(Point(x, z), Planar(teleport));
  }

  /** World 0's interactive box is [-0.5, 1] x [2.5, 4.5]: (0, 3) is inside, the start (0, 0) is not. */
  lemma World0InteractiveExamples()
    ensures AnyBox(0.0, 3.0, World0Interactive()) == Ok(true)
    ensures AnyBox(0.0, 0.0, World0Interactive()) == Ok(false)
    ensures AnyBox(0.0, 6.0, World0Teleport()) == Ok(true)
  {
  }

  class World {
    var player: Vec3
    const interactiveRegions: seq<seq<Vec3>>
    const teleportRegions: seq<seq<Vec3>>

    constructor (start: Vec3, interactive: seq<seq<Vec3>>, teleport: seq<seq<Vec3>>)
      ensures player == start && interactiveRegions == interactive && teleportRegions == teleport
    {
      player := start;
      interactiveRegions := interactive;
      teleportRegions := teleport;
    }

    method IsPlayerInsideInteractiveRegion() returns (inside: Result<bool>)
      ensures inside == AnyBox(player.x, player.z, interactiveRegions)
    {
      inside := ScanBoxes(player.x, player.z, interactiveRegions);
    }

    method IsPlayerInsideTeleportRegion() returns (inside: Result<bool>)
      ensures inside == AnyBox(player.x, player.z, teleportRegions)
    {
      inside := ScanBoxes(player.x, player.z, teleportRegions);
    }
  }

  /** The loop both checks share: an index walks the regions, returning at the first hit or error. */
  method ScanBoxes(playerX: real, playerZ: real, regions: seq<seq<Vec3>>) returns (inside: Result<bool>)
    ensures inside == AnyBox(playerX, playerZ, regions)
  {
    for i := 0 to |regions|
      invariant AnyBox(playerX, playerZ, regions) == AnyBox(playerX, playerZ, regions[i..])
    {
      assert regions[i..][0] == regions[i] && regions[i..][1..] == regions[i + 1..];
      var region := regions[i];
      var test := BoxTest(playerX, playerZ, region);
      if test.Failure? {
        return test;
      }
      if test.value {
        return Ok(true);
      }
    }
    assert regions[|regions|..] == [];
    return Ok(false);
  }
}
