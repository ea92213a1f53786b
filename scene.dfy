/** Placement of the static scene geometry done when the assets are loaded:
    15 trees and 10 rocks for level 1, up to 15 walls and up to 15 chairs for
    level 2. Coordinates come from rand() and are whole numbers in [-40, 40). */
module Scene {
  import opened Common
  import opened Geometry

  const NUM_TREES: nat := 15
  const NUM_ROCKS: nat := 10
  const NUM_WALL_CANDIDATES: nat := 15
  const NUM_CHAIR_CANDIDATES: nat := 15
  /** Walls keep at least this distance from the spawn point and from each other. */
  const WALL_SPAWN_CLEARANCE: real := 10.0
  const WALL_SPACING: real := 12.0
  const CHAIR_SPAWN_CLEARANCE: real := 8.0

  /** `(rand() % 80) - 40` */
  function Coord(r: nat): (c: real)
    ensures -40.0 <= c < 40.0
  {
    ((r % 80) - 40) as real
  }

  /** A tree drawn from four consecutive rand() results starting at `c`. */
  function TreeAt(rand: RandStream, c: nat): SceneObject
  {
    SceneObject(Coord(rand(c)), Coord(rand(c + 1)),
                0.5 + (rand(c + 2) % 50) as real / 100.0, (rand(c + 3) % 360) as real)
  }

  /** A rock drawn from four consecutive rand() results. */
  function RockAt(rand: RandStream, c: nat): SceneObject
  {
    SceneObject(Coord(rand(c)), Coord(rand(c + 1)),
                0.3 + (rand(c + 2) % 40) as real / 100.0, (rand(c + 3) % 360) as real)
  }

  /** A wall candidate drawn from three rand() results: unit scale, rotated by 0 or 90 degrees. */
  function WallAt(rand: RandStream, c: nat): SceneObject
  {
    SceneObject(Coord(rand(c)), Coord(rand(c + 1)), 1.0, ((rand(c + 2) % 2) * 90) as real)
  }

  /** A chair candidate drawn from four rand() results. */
  function ChairAt(rand: RandStream, c: nat): SceneObject
  {
    SceneObject(Coord(rand(c)), Coord(rand(c + 1)),
                0.2 + (rand(c + 2) % 10) as real / 100.0, (rand(c + 3) % 360) as real)
  }

  function WallCandidates(rand: RandStream, c: nat): (ws: seq<SceneObject>)
    ensures |ws| == NUM_WALL_CANDIDATES
  {
    seq(NUM_WALL_CANDIDATES, k requires 0 <= k => WallAt(rand, c + 3 * k))
  }

  function ChairCandidates(rand: RandStream, c: nat): (cs: seq<SceneObject>)
    ensures |cs| == NUM_CHAIR_CANDIDATES
  {
    seq(NUM_CHAIR_CANDIDATES, k requires 0 <= k => ChairAt(rand, c + 4 * k))
  }

  /** sqrt(x*x + z*z) >= clearance, squared. */
  predicate ClearOfSpawn(o: SceneObject, clearance: real)
  {
    o.x * o.x + o.z * o.z >= clearance * clearance
  }

  /** At least WALL_SPACING away from every wall already kept. */
  predicate SpacedFrom(o: SceneObject, kept: seq<SceneObject>)
  {
    forall k :: 0 <= k < |kept| ==> DistSq2(o.x, o.z, kept[k].x, kept[k].z) >= WALL_SPACING * WALL_SPACING
  }

  /** The wall rule: candidates are considered in order, and one is kept when
      it is clear of the spawn point and spaced from every wall kept before it. */
  function GreedyWalls(cands: seq<SceneObject>): seq<SceneObject>
    decreases |cands|
  {
    if cands == [] then []
    else
      var kept := GreedyWalls(cands[..|cands| - 1]);
      var c := cands[|cands| - 1];
      if ClearOfSpawn(c, WALL_SPAWN_CLEARANCE) && SpacedFrom(c, kept) then kept + [c] else kept
  }

  /** The chair rule: a candidate is kept when it is clear of the spawn point. */
  function KeptChairs(cands: seq<SceneObject>): seq<SceneObject>
    decreases |cands|
  {
    if cands == [] then []
    else
      var kept := KeptChairs(cands[..|cands| - 1]);
      var c := cands[|cands| - 1];
      if ClearOfSpawn(c, CHAIR_SPAWN_CLEARANCE) then kept + [c] else kept
  }

  /** Every kept wall is one of the candidates, is at distance >= 10 from the
      origin, and is at distance >= 12 from every other kept wall. */
  lemma {:induction false} GreedyWallsSpread(cands: seq<SceneObject>)
    ensures var w := GreedyWalls(cands);
      |w| <= |cands| &&
      (forall i :: 0 <= i < |w| ==> w[i] in cands && ClearOfSpawn(w[i], WALL_SPAWN_CLEARANCE)) &&
      (forall i, j :: 0 <= j < i < |w| ==>
         DistSq2(w[i].x, w[i].z, w[j].x, w[j].z) >= WALL_SPACING * WALL_SPACING)
    decreases |cands|
  {
    if cands != [] {
      var front := cands[..|cands| - 1];
      GreedyWallsSpread(front);
      var kept := GreedyWalls(front);
      var c := cands[|cands| - 1];
      forall i | 0 <= i < |kept| ensures kept[i] in cands {
        assert kept[i] in front;
      }
      if ClearOfSpawn(c, WALL_SPAWN_CLEARANCE) && SpacedFrom(c, kept) {
        var w := kept + [c];
        assert GreedyWalls(cands) == w;
        forall i, j | 0 <= j < i < |w|
          ensures DistSq2(w[i].x, w[i].z, w[j].x, w[j].z) >= WALL_SPACING * WALL_SPACING
        {
          if i == |kept| {
            assert w[i] == c && w[j] == kept[j];
          } else {
            assert w[i] == kept[i] && w[j] == kept[j];
          }
        }
      }
    }
  }

  /** The converse of GreedyWallsSpread: no candidate clear of the spawn
      point is left out unless it is within 12 of some kept wall. */
  lemma {:induction false} GreedyWallsMaximal(cands: seq<SceneObject>)
    ensures var w := GreedyWalls(cands);
      forall c :: c in cands && ClearOfSpawn(c, WALL_SPAWN_CLEARANCE) && c !in w ==> !SpacedFrom(c, w)
    decreases |cands|
  {
    if cands != [] {
      var front := cands[..|cands| - 1];
      var last := cands[|cands| - 1];
      assert cands == front + [last];
      GreedyWallsMaximal(front);
      var kept := GreedyWalls(front);
      var w := GreedyWalls(cands);
      assert w == kept || w == kept + [last];
      forall c | c in cands && ClearOfSpawn(c, WALL_SPAWN_CLEARANCE) && c !in w
        ensures !SpacedFrom(c, w)
      {
        if c in front {
          assert c !in kept;
          var k :| 0 <= k < |kept| && DistSq2(c.x, c.z, kept[k].x, kept[k].z) < WALL_SPACING * WALL_SPACING;
          assert w[k] == kept[k];
        } else {
          assert c == last && w == kept;
        }
      }
    }
  }

  /** Every kept chair is a candidate at distance >= 8 from the origin, and a
      candidate is dropped only when it is closer than that. */
  lemma {:induction false} KeptChairsClear(cands: seq<SceneObject>)
    ensures forall c :: c in KeptChairs(cands) ==> c in cands && ClearOfSpawn(c, CHAIR_SPAWN_CLEARANCE)
    ensures forall c :: c in cands && ClearOfSpawn(c, CHAIR_SPAWN_CLEARANCE) ==> c in KeptChairs(cands)
    decreases |cands|
  {
    if cands != [] {
      var front := cands[..|cands| - 1];
      KeptChairsClear(front);
      var kept := KeptChairs(front);
      forall c | c in kept ensures c in cands {
        var k :| 0 <= k < |front| && front[k] == c;
        assert cands[k] == c;
      }
      forall c | c in cands && ClearOfSpawn(c, CHAIR_SPAWN_CLEARANCE) ensures c in KeptChairs(cands) {
        if c != cands[|cands| - 1] {
          var k :| 0 <= k < |cands| && cands[k] == c;
          assert front[k] == c;
        }
      }
    }
  }

  /** The fifteen trees LoadAssets draws for level 1 from the rand() results at `c` on. */
  function Trees(rand: RandStream, c: nat): (ts: seq<SceneObject>)
    ensures |ts| == NUM_TREES
  {
    seq(NUM_TREES, k requires 0 <= k => TreeAt(rand, c + 4 * k))
  }

  /** The ten rocks LoadAssets draws for level 1 from the rand() results at `c` on. */
  function Rocks(rand: RandStream, c: nat): (rs: seq<SceneObject>)
    ensures |rs| == NUM_ROCKS
  {
    seq(NUM_ROCKS, k requires 0 <= k => RockAt(rand, c + 4 * k))
  }

  /** treePositions after LoadAssets: level 1 appends fifteen trees to the
      obstacles already there, level 2 replaces them by the walls kept. */
  function SceneObstacles(level: int, prior: seq<SceneObject>, rand: RandStream, c: nat): seq<SceneObject>
  {
    if level == 1 then prior + Trees(rand, c) else GreedyWalls(WallCandidates(rand, c))
  }

  /** rockPositions after LoadAssets, whose draws follow those of the obstacles. */
  function SceneHazards(level: int, rand: RandStream, c: nat): seq<SceneObject>
  {
    if level == 1 then Rocks(rand, c + 4 * NUM_TREES)
    else KeptChairs(ChairCandidates(rand, c + 3 * NUM_WALL_CANDIDATES))
  }

  /** rand() results the scene placement of LoadAssets consumes on each level. */
  function SceneDraws(level: int): nat
  {
    if level == 1 then 4 * NUM_TREES + 4 * NUM_ROCKS
    else 3 * NUM_WALL_CANDIDATES + 4 * NUM_CHAIR_CANDIDATES
  }

  /** Level 1 trees: fifteen of them, four rand() results each. */
  method PlaceTrees(rand: RandStream, cursor: nat) returns (trees: seq<SceneObject>, next: nat)
    ensures next == cursor + 4 * NUM_TREES
    ensures |trees| == NUM_TREES
    ensures forall k :: 0 <= k < NUM_TREES ==> trees[k] == TreeAt(rand, cursor + 4 * k)
    ensures trees == Trees(rand, cursor)
  {
    trees, next := [], cursor;
    for i := 0 to NUM_TREES
      invariant next == cursor + 4 * i && |trees| == i
      invariant forall k :: 0 <= k < i ==> trees[k] == TreeAt(rand, cursor + 4 * k)
    {
      var tree := SceneObject(Coord(rand(next)), Coord(rand(next + 1)),
                              0.5 + (rand(next + 2) % 50) as real / 100.0, (rand(next + 3) % 360) as real);
      trees := trees + [tree];
      next := next + 4;
    }
  }

  /** Level 1 rocks: ten of them, four rand() results each. */
  method PlaceRocks(rand: RandStream, cursor: nat) returns (rocks: seq<SceneObject>, next: nat)
    ensures next == cursor + 4 * NUM_ROCKS
    ensures |rocks| == NUM_ROCKS
    ensures forall k :: 0 <= k < NUM_ROCKS ==> rocks[k] == RockAt(rand, cursor + 4 * k)
    ensures rocks == Rocks(rand, cursor)
  {
    rocks, next := [], cursor;
    for i := 0 to NUM_ROCKS
      invariant next == cursor + 4 * i && |rocks| == i
      invariant forall k :: 0 <= k < i ==> rocks[k] == RockAt(rand, cursor + 4 * k)
    {
      var rock := SceneObject(Coord(rand(next)), Coord(rand(next + 1)),
                              0.3 + (rand(next + 2) % 40) as real / 100.0, (rand(next + 3) % 360) as real);
      rocks := rocks + [rock];
      next := next + 4;
    }
  }

  /** Level 2 walls: fifteen candidates (each consumes its three rand() results
      whether kept or not); a candidate nearer than 10 to the origin, or nearer
      than 12 to a wall already kept, is skipped. */
  method PlaceWalls(rand: RandStream, cursor: nat) returns (walls: seq<SceneObject>, next: nat)
    ensures next == cursor + 3 * NUM_WALL_CANDIDATES
    ensures walls == GreedyWalls(WallCandidates(rand, cursor))
  {
    ghost var cands := WallCandidates(rand, cursor);
    walls, next := [], cursor;
    for i := 0 to NUM_WALL_CANDIDATES
      invariant next == cursor + 3 * i
      invariant walls == GreedyWalls(cands[..i])
    {
      var wall := SceneObject(Coord(rand(next)), Coord(rand(next + 1)), 1.0, ((rand(next + 2) % 2) * 90) as real);
      next := next + 3;
      assert cands[..i + 1][..i] == cands[..i] && cands[..i + 1][i] == wall;
      assert GreedyWalls(cands[..i + 1]) ==
        if ClearOfSpawn(wall, WALL_SPAWN_CLEARANCE) && SpacedFrom(wall, walls) then walls + [wall] else walls;
      if wall.x * wall.x + wall.z * wall.z >= WALL_SPAWN_CLEARANCE * WALL_SPAWN_CLEARANCE {
        var spaced := CheckSpacing(wall, walls);
        if spaced {
          walls := walls + [wall];
        }
      }
    }
    assert cands[..NUM_WALL_CANDIDATES] == cands;
  }

  /** The walls of level 2: at most fifteen, each at distance >= 10 from the
      origin and >= 12 from every other wall, of unit scale and rotated by 0 or
      90 degrees. */
  lemma PlacedWalls(rand: RandStream, cursor: nat)
    ensures var walls := GreedyWalls(WallCandidates(rand, cursor));
      |walls| <= NUM_WALL_CANDIDATES &&
      (forall i :: 0 <= i < |walls| ==>
        ClearOfSpawn(walls[i], WALL_SPAWN_CLEARANCE) && walls[i].scale == 1.0 &&
        (walls[i].rotation == 0.0 || walls[i].rotation == 90.0)) &&
      (forall i, j :: 0 <= j < i < |walls| ==>
        DistSq2(walls[i].x, walls[i].z, walls[j].x, walls[j].z) >= WALL_SPACING * WALL_SPACING)
  {
    var cands := WallCandidates(rand, cursor);
    var walls := GreedyWalls(cands);
    GreedyWallsSpread(cands);
    forall i | 0 <= i < |walls|
      ensures walls[i].scale == 1.0 && (walls[i].rotation == 0.0 || walls[i].rotation == 90.0)
    {
      var k :| 0 <= k < |cands| && cands[k] == walls[i];
      var r := rand(cursor + 3 * k + 2) % 2;
      assert r == 0 || r == 1;
    }
  }

  /** The spacing scan of a wall candidate against the walls kept so far,
      stopping at the first one too close. */
  method CheckSpacing(wall: SceneObject, walls: seq<SceneObject>) returns (spaced: bool)
    ensures spaced <==> SpacedFrom(wall, walls)
  {
    var tooClose := false;
    var j := 0;
    while j < |walls| && !tooClose
      invariant 0 <= j <= |walls|
      invariant !tooClose ==> forall k :: 0 <= k < j ==>
        DistSq2(wall.x, wall.z, walls[k].x, walls[k].z) >= WALL_SPACING * WALL_SPACING
      invariant tooClose ==> !SpacedFrom(wall, walls)
    {
      if DistSq2(wall.x, wall.z, walls[j].x, walls[j].z) < WALL_SPACING * WALL_SPACING {
        tooClose := true;
      }
      j := j + 1;
    }
    spaced := !tooClose;
  }

  /** Level 2 chairs: fifteen candidates of four rand() results each; a
      candidate nearer than 8 to the origin is skipped. */
  method PlaceChairs(rand: RandStream, cursor: nat) returns (chairs: seq<SceneObject>, next: nat)
    ensures next == cursor + 4 * NUM_CHAIR_CANDIDATES
    ensures chairs == KeptChairs(ChairCandidates(rand, cursor))
  {
    ghost var cands := ChairCandidates(rand, cursor);
    chairs, next := [], cursor;
    for i := 0 to NUM_CHAIR_CANDIDATES
      invariant next == cursor + 4 * i
      invariant chairs == KeptChairs(cands[..i])
    {
      var chair := SceneObject(Coord(rand(next)), Coord(rand(next + 1)),
                               0.2 + (rand(next + 2) % 10) as real / 100.0, (rand(next + 3) % 360) as real);
      next := next + 4;
      assert cands[..i + 1][..i] == cands[..i] && cands[..i + 1][i] == chair;
      assert KeptChairs(cands[..i + 1]) ==
        if ClearOfSpawn(chair, CHAIR_SPAWN_CLEARANCE) then chairs + [chair] else chairs;
      if chair.x * chair.x + chair.z * chair.z >= CHAIR_SPAWN_CLEARANCE * CHAIR_SPAWN_CLEARANCE {
        chairs := chairs + [chair];
      }
    }
    assert cands[..NUM_CHAIR_CANDIDATES] == cands;
  }

  /** The scene half of LoadAssets for `level`: level 1 adds fifteen trees to
      the obstacles already placed and draws ten new rocks; level 2 replaces
      both by the walls and chairs that pass their clearance rules. */
  method PlaceScene(level: int, prior: seq<SceneObject>, rand: RandStream, cursor: nat)
    returns (obstacles: seq<SceneObject>, hazards: seq<SceneObject>, next: nat)
    ensures obstacles == SceneObstacles(level, prior, rand, cursor)
    ensures hazards == SceneHazards(level, rand, cursor)
    ensures next == cursor + SceneDraws(level)
  {
    if level == 1 {
      var placed, mid;
      placed, mid := PlaceTrees(rand, cursor);
      obstacles := prior + placed;
      hazards, next := PlaceRocks(rand, mid);
    } else {
      var mid;
      obstacles, mid := PlaceWalls(rand, cursor);
      hazards, next := PlaceChairs(rand, mid);
    }
  }
}
