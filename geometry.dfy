/** The collision resolver: read-only tests of a proposed player position
    against the map border and the static scene geometry. */
module Geometry {
  import opened Common

  /** A placed static object (tree, wall, rock or chair). `rotation` is in degrees. */
  datatype SceneObject = SceneObject(x: real, z: real, scale: real, rotation: real)

  const MAP_BOUNDS: real := 45.0
  const TREE_COLLISION_RADIUS: real := 1.0
  /** Half extents of the wall mesh (+-4 along its length, +-0.5 across) and the
      forgiving margin added around it. */
  const WALL_HALF_LENGTH: real := 4.0
  const WALL_HALF_THICKNESS: real := 0.5
  const WALL_BUFFER: real := 0.3

  /** The square play area, borders included. */
  predicate IsWithinMapBounds(x: real, z: real)
  {
    -MAP_BOUNDS <= x <= MAP_BOUNDS && -MAP_BOUNDS <= z <= MAP_BOUNDS
  }

  /** Level 1: a tree blocks every point strictly inside its scaled radius. */
  predicate TreeBlocks(o: SceneObject, x: real, z: real)
  {
    var radius := TREE_COLLISION_RADIUS * o.scale;
    DistSq2(x, z, o.x, o.z) < radius * radius
  }

  /** Level 2: the point is moved into the wall's own frame (the offset rotated
      by the wall's angle, whose cosine and sine are `h`) and compared with the
      half extents plus the buffer. */
  predicate WallBlocks(o: SceneObject, h: Heading, x: real, z: real)
  {
    var dx := x - o.x;
    var dz := z - o.z;
    var localX := dx * h.cos + dz * h.sin;
    var localZ := -dx * h.sin + dz * h.cos;
    Abs(localX) < WALL_HALF_LENGTH * o.scale + WALL_BUFFER &&
    Abs(localZ) < WALL_HALF_THICKNESS * o.scale + WALL_BUFFER
  }

  /** The collision shape depends on the level, not on the object. */
  predicate Blocks(level: int, o: SceneObject, trig: Trig, x: real, z: real)
  {
    if level == 1 then TreeBlocks(o, x, z) else WallBlocks(o, trig(o.rotation), x, z)
  }

  /** checkCollision: the early-exit scan over the obstacles, returning true at
      the first obstacle that blocks the point. */
  function CheckCollision(objs: seq<SceneObject>, level: int, trig: Trig, x: real, z: real): (hit: bool)
    ensures hit <==> exists i :: 0 <= i < |objs| && Blocks(level, objs[i], trig, x, z)
  {
    if objs == [] then false
    else if Blocks(level, objs[0], trig, x, z) then true
    else
      var rest := CheckCollision(objs[1..], level, trig, x, z);
      assert forall i :: 1 <= i < |objs| ==> objs[i] == objs[1..][i - 1];
      rest
  }

  /** A trigonometry that is exact at the two angles walls are placed at. */
  predicate ExactAtRightAngles(trig: Trig)
  {
    trig(0.0) == Heading(1.0, 0.0) && trig(90.0) == Heading(0.0, 1.0)
  }

  /** With walls only ever at 0 or 90 degrees the rotated-box test is an
      axis-aligned box test, the long side along x for 0 degrees and along z for
      90 degrees. */
  lemma WallAtRightAngle(o: SceneObject, trig: Trig, x: real, z: real)
    requires ExactAtRightAngles(trig)
    requires o.rotation == 0.0 || o.rotation == 90.0
    ensures o.rotation == 0.0 ==>
      (Blocks(2, o, trig, x, z) <==>
         Abs(x - o.x) < WALL_HALF_LENGTH * o.scale + WALL_BUFFER &&
         Abs(z - o.z) < WALL_HALF_THICKNESS * o.scale + WALL_BUFFER)
    ensures o.rotation == 90.0 ==>
      (Blocks(2, o, trig, x, z) <==>
         Abs(z - o.z) < WALL_HALF_LENGTH * o.scale + WALL_BUFFER &&
         Abs(x - o.x) < WALL_HALF_THICKNESS * o.scale + WALL_BUFFER)
  {
    var dx, dz := x - o.x, z - o.z;
    if o.rotation == 0.0 {
      assert dx * 1.0 + dz * 0.0 == dx && -dx * 0.0 + dz * 1.0 == dz;
    } else {
      assert dx * 0.0 + dz * 1.0 == dz && -dx * 1.0 + dz * 0.0 == -dx;
    }
  }

  /** Appending an obstacle can only add blocked points: a move that was
      blocked stays blocked. */
  lemma {:induction false} CollisionMonotone(objs: seq<SceneObject>, extra: seq<SceneObject>, level: int, trig: Trig, x: real, z: real)
    requires CheckCollision(objs, level, trig, x, z)
    ensures CheckCollision(objs + extra, level, trig, x, z)
  {
    var i :| 0 <= i < |objs| && Blocks(level, objs[i], trig, x, z);
    assert (objs + extra)[i] == objs[i];
  }
}
