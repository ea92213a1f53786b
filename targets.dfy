/** Targets: a batch is anchored to distinct scene objects drawn without
    replacement, and a bullet hit is resolved for the first bullet/target pair
    in scan order only. */
module Targets {
  import opened Common
  import opened Geometry
  import opened Bullets

  const NUM_TARGETS: nat := 7
  /** Level 1 targets hang 0.7 away from their tree's trunk, at three times its scale. */
  const TREE_TARGET_OFFSET: real := 0.7
  const TREE_TARGET_SCALE: real := 0.005
  /** Level 2 targets sit 0.6 in front of their wall. */
  const WALL_TARGET_STANDOFF: real := 0.6
  const WALL_TARGET_SCALE: real := 0.008
  /** A bullet hits a target within this distance. */
  const COLLISION_DISTANCE: real := 0.5

  datatype Target = Target(
    x: real, y: real, z: real,
    rotation: real,
    scale: real,
    active: bool,
    treeIndex: nat)   // index of the scene object it is anchored to

  /** A level 1 target around tree `index`; `angleDraw` is the rand() result
      that picks its angle in whole degrees. Its facing is the bearing from the
      trunk (atan2 of the offset, in (-180, 180]) turned by 90 degrees. */
  function TreeTarget(tree: SceneObject, index: nat, angleDraw: nat, trig: Trig): Target
  {
    var a := (angleDraw % 360) as real;
    var h := trig(a);
    Target(tree.x + h.cos * TREE_TARGET_OFFSET, tree.scale * 3.0, tree.z + h.sin * TREE_TARGET_OFFSET,
           (if a > 180.0 then a - 360.0 else a) + 90.0, TREE_TARGET_SCALE, true, index)
  }

  /** A level 2 target on wall `index`: a height in [1, 3) and an offset along
      the wall in [-0.5, 0.5), from two rand() results. */
  function WallTarget(wall: SceneObject, index: nat, heightDraw: nat, offsetDraw: nat): Target
  {
    var height := 1.0 + ((heightDraw % 100) as real / 100.0) * 2.0;
    var along := ((offsetDraw % 100) - 50) as real / 100.0;
    var x := if wall.rotation == 0.0 then wall.x + along else wall.x + WALL_TARGET_STANDOFF;
    var z := if wall.rotation == 0.0 then wall.z + WALL_TARGET_STANDOFF else wall.z + along;
    Target(x, height, z, wall.rotation + 90.0, WALL_TARGET_SCALE, true, index)
  }

  /** rand() results one target consumes: the anchor draw plus one (level 1) or two (level 2). */
  function DrawsPerTarget(level: int): nat
  {
    if level == 1 then 2 else 3
  }

  /** The target built on anchor `a` when the draws for it start at `c`
      (the anchor draw is at `c`, the placement draws follow). */
  function Placed(level: int, scene: seq<SceneObject>, a: nat, rand: RandStream, trig: Trig, c: nat): (t: Target)
    requires a < |scene|
    ensures t.active && t.treeIndex == a
  {
    if level == 1 then TreeTarget(scene[a], a, rand(c + 1), trig)
    else WallTarget(scene[a], a, rand(c + 1), rand(c + 2))
  }

  predicate Distinct(s: seq<nat>)
  {
    forall i, j :: 0 <= i < j < |s| ==> s[i] != s[j]
  }

  function Indices(n: nat): (s: seq<nat>)
    ensures |s| == n && forall i :: 0 <= i < n ==> s[i] == i
  {
    seq(n, i requires 0 <= i => i as nat)
  }

  /** `erase(begin() + i)` */
  function Remove(s: seq<nat>, i: nat): (r: seq<nat>)
    requires i < |s|
    ensures |r| == |s| - 1
    ensures forall k :: 0 <= k < |r| ==> r[k] == if k < i then s[k] else s[k + 1]
  {
    s[..i] + s[i + 1..]
  }

  /** Drawing without replacement: each draw picks `rand(c) % |avail|` among the
      indices still available and removes it; at most `count` draws. */
  function Picks(avail: seq<nat>, rand: RandStream, c: nat, stride: nat, count: nat): seq<nat>
    decreases count
  {
    if count == 0 || avail == [] then []
    else
      var ri := rand(c) % |avail|;
      [avail[ri]] + Picks(Remove(avail, ri), rand, c + stride, stride, count - 1)
  }

  lemma RemoveDistinct(s: seq<nat>, i: nat)
    requires i < |s| && Distinct(s)
    ensures Distinct(Remove(s, i))
    ensures forall x :: x in Remove(s, i) <==> x in s && x != s[i]
  {
    var r := Remove(s, i);
    forall p, q | 0 <= p < q < |r| ensures r[p] != r[q] {
      var p', q' := if p < i then p else p + 1, if q < i then q else q + 1;
      assert r[p] == s[p'] && r[q] == s[q'];
    }
    forall x | x in s && x != s[i] ensures x in r {
      var k :| 0 <= k < |s| && s[k] == x;
      if k < i { assert r[k] == x; } else { assert r[k - 1] == x; }
    }
  }

  /** Drawing without replacement yields min(count, |avail|) distinct indices,
      each one of the available ones. */
  lemma {:induction false} PicksDistinct(avail: seq<nat>, rand: RandStream, c: nat, stride: nat, count: nat)
    requires Distinct(avail)
    ensures |Picks(avail, rand, c, stride, count)| == Min(count, |avail|)
    ensures Distinct(Picks(avail, rand, c, stride, count))
    ensures forall x :: x in Picks(avail, rand, c, stride, count) ==> x in avail
    decreases count
  {
    if count != 0 && avail != [] {
      var ri := rand(c) % |avail|;
      var rest := Remove(avail, ri);
      RemoveDistinct(avail, ri);
      PicksDistinct(rest, rand, c + stride, stride, count - 1);
      var p := Picks(avail, rand, c, stride, count);
      assert p == [avail[ri]] + Picks(rest, rand, c + stride, stride, count - 1);
      forall i, j | 0 <= i < j < |p| ensures p[i] != p[j] {
        if i == 0 {
          assert p[j] in Picks(rest, rand, c + stride, stride, count - 1);
        }
      }
    }
  }

  function Anchors(ts: seq<Target>): (s: seq<nat>)
    ensures |s| == |ts| && forall k :: 0 <= k < |ts| ==> s[k] == ts[k].treeIndex
  {
    seq(|ts|, k requires 0 <= k < |ts| => ts[k].treeIndex)
  }

  /** A batch whose anchors are the full draw from all scene indices has
      min(NUM_TARGETS, n) members with pairwise distinct anchors below n. */
  lemma AnchorsOfBatch(ts: seq<Target>, n: nat, rand: RandStream, cursor: nat, stride: nat)
    requires Anchors(ts) == Picks(Indices(n), rand, cursor, stride, NUM_TARGETS)
    ensures |ts| == Min(NUM_TARGETS, n)
    ensures forall k, l :: 0 <= k < l < |ts| ==> ts[k].treeIndex != ts[l].treeIndex
  {
    assert Distinct(Indices(n));
    PicksDistinct(Indices(n), rand, cursor, stride, NUM_TARGETS);
    forall k, l | 0 <= k < l < |ts| ensures ts[k].treeIndex != ts[l].treeIndex {
      assert Anchors(ts)[k] == ts[k].treeIndex && Anchors(ts)[l] == ts[l].treeIndex;
    }
  }

  /** Where the rand() draws of target k of a batch start: each target uses
      DrawsPerTarget(level) results. */
  function DrawStart(level: int, cursor: nat, k: nat): nat
  {
    if level == 1 then cursor + 2 * k else cursor + 3 * k
  }

  /** Target k of a batch was placed on its anchor with the draws that start at DrawStart(k). */
  predicate PlacedBatch(level: int, scene: seq<SceneObject>, ts: seq<Target>, rand: RandStream, trig: Trig, cursor: nat)
  {
    forall k :: 0 <= k < |ts| ==>
      ts[k].treeIndex < |scene| &&
      ts[k] == Placed(level, scene, ts[k].treeIndex, rand, trig, DrawStart(level, cursor, k))
  }

  lemma AnchorsCons(t: Target, tail: seq<Target>)
    ensures Anchors([t] + tail) == [t.treeIndex] + Anchors(tail)
  {
    assert forall k :: 0 < k < |tail| + 1 ==> ([t] + tail)[k] == tail[k - 1];
  }

  /** Prepending the target placed with the first draws keeps a batch placed. */
  lemma PlacedBatchCons(level: int, scene: seq<SceneObject>, t: Target, tail: seq<Target>, rand: RandStream,
                        trig: Trig, c: nat)
    requires t.treeIndex < |scene| && t == Placed(level, scene, t.treeIndex, rand, trig, c)
    requires PlacedBatch(level, scene, tail, rand, trig, c + DrawsPerTarget(level))
    ensures PlacedBatch(level, scene, [t] + tail, rand, trig, c)
  {
    var ts := [t] + tail;
    forall k | 0 <= k < |ts|
      ensures ts[k].treeIndex < |scene| &&
        ts[k] == Placed(level, scene, ts[k].treeIndex, rand, trig, DrawStart(level, c, k))
    {
      if k > 0 {
        assert ts[k] == tail[k - 1];
      }
    }
  }

  /** Every target a placement rule builds is active. */
  lemma PlacedActive(level: int, scene: seq<SceneObject>, ts: seq<Target>, rand: RandStream, trig: Trig, cursor: nat)
    requires PlacedBatch(level, scene, ts, rand, trig, cursor)
    ensures forall k :: 0 <= k < |ts| ==> ts[k].active && ts[k].treeIndex < |scene|
  {
  }

  /** One iteration of SpawnTargets: pick and erase an available anchor, then
      place a target on it. */
  method DrawTarget(level: int, scene: seq<SceneObject>, available: seq<nat>, rand: RandStream, trig: Trig, next: nat)
    returns (target: Target, rest: seq<nat>)
    requires available != [] && forall k :: 0 <= k < |available| ==> available[k] < |scene|
    ensures var ri := rand(next) % |available|;
      target == Placed(level, scene, available[ri], rand, trig, next) && rest == Remove(available, ri)
    ensures target.active && target.treeIndex == available[rand(next) % |available|]
  {
    var randomIndex := rand(next) % |available|;
    var index := available[randomIndex];
    rest := available[..randomIndex] + available[randomIndex + 1..];
    if level == 1 {
      target := TreeTarget(scene[index], index, rand(next + 1), trig);
    } else {
      target := WallTarget(scene[index], index, rand(next + 1), rand(next + 2));
    }
  }

  /** The targets SpawnTargets still places when the anchors in `avail` are
      left, `count` targets remain to be placed and the next draw is at `c`. */
  function BatchFrom(level: int, scene: seq<SceneObject>, avail: seq<nat>, rand: RandStream, trig: Trig,
                     c: nat, count: nat): seq<Target>
    requires forall k :: 0 <= k < |avail| ==> avail[k] < |scene|
    decreases count
  {
    if count == 0 || avail == [] then []
    else
      var ri := rand(c) % |avail|;
      [Placed(level, scene, avail[ri], rand, trig, c)] +
      BatchFrom(level, scene, Remove(avail, ri), rand, trig, c + DrawsPerTarget(level), count - 1)
  }

  /** The batch SpawnTargets builds for `level` on `scene` with the rand()
      results from `cursor` on. */
  function Batch(level: int, scene: seq<SceneObject>, rand: RandStream, trig: Trig, cursor: nat): seq<Target>
  {
    BatchFrom(level, scene, Indices(|scene|), rand, trig, cursor, NUM_TARGETS)
  }

  /** The anchors of a partial batch are the draw without replacement from
      `avail`. */
  lemma {:induction false} BatchFromAnchors(level: int, scene: seq<SceneObject>, avail: seq<nat>, rand: RandStream,
                                            trig: Trig, c: nat, count: nat)
    requires forall k :: 0 <= k < |avail| ==> avail[k] < |scene|
    ensures Anchors(BatchFrom(level, scene, avail, rand, trig, c, count)) ==
      Picks(avail, rand, c, DrawsPerTarget(level), count)
    decreases count
  {
    if count != 0 && avail != [] {
      var stride := DrawsPerTarget(level);
      var ri := rand(c) % |avail|;
      var rest := Remove(avail, ri);
      BatchFromAnchors(level, scene, rest, rand, trig, c + stride, count - 1);
      var tail := BatchFrom(level, scene, rest, rand, trig, c + stride, count - 1);
      var t := Placed(level, scene, avail[ri], rand, trig, c);
      assert BatchFrom(level, scene, avail, rand, trig, c, count) == [t] + tail;
      AnchorsCons(t, tail);
    }
  }

  /** The k-th target of a partial batch is placed with the draws at DrawStart(k). */
  lemma {:induction false} BatchFromPlaced(level: int, scene: seq<SceneObject>, avail: seq<nat>, rand: RandStream,
                                           trig: Trig, c: nat, count: nat)
    requires forall k :: 0 <= k < |avail| ==> avail[k] < |scene|
    ensures PlacedBatch(level, scene, BatchFrom(level, scene, avail, rand, trig, c, count), rand, trig, c)
    decreases count
  {
    if count != 0 && avail != [] {
      var stride := DrawsPerTarget(level);
      var ri := rand(c) % |avail|;
      var rest := Remove(avail, ri);
      BatchFromPlaced(level, scene, rest, rand, trig, c + stride, count - 1);
      var tail := BatchFrom(level, scene, rest, rand, trig, c + stride, count - 1);
      var t := Placed(level, scene, avail[ri], rand, trig, c);
      assert BatchFrom(level, scene, avail, rand, trig, c, count) == [t] + tail;
      PlacedBatchCons(level, scene, t, tail, rand, trig, c);
    }
  }

  /** A batch has min(NUM_TARGETS, |scene|) members, all active and anchored to
      pairwise distinct existing scene objects drawn without replacement, each
      placed by the rule of its level with its own draws. */
  lemma BatchSpec(level: int, scene: seq<SceneObject>, rand: RandStream, trig: Trig, cursor: nat)
    ensures var ts := Batch(level, scene, rand, trig, cursor);
      |ts| == Min(NUM_TARGETS, |scene|) &&
      Anchors(ts) == Picks(Indices(|scene|), rand, cursor, DrawsPerTarget(level), NUM_TARGETS) &&
      PlacedBatch(level, scene, ts, rand, trig, cursor) &&
      (forall k :: 0 <= k < |ts| ==> ts[k].active && ts[k].treeIndex < |scene|) &&
      (forall k, l :: 0 <= k < l < |ts| ==> ts[k].treeIndex != ts[l].treeIndex)
  {
    var ts := Batch(level, scene, rand, trig, cursor);
    BatchFromAnchors(level, scene, Indices(|scene|), rand, trig, cursor, NUM_TARGETS);
    BatchFromPlaced(level, scene, Indices(|scene|), rand, trig, cursor, NUM_TARGETS);
    AnchorsOfBatch(ts, |scene|, rand, cursor, DrawsPerTarget(level));
    PlacedActive(level, scene, ts, rand, trig, cursor);
  }

  /** The part of BatchSpec the world invariant needs: every anchor exists. */
  lemma BatchAnchored(level: int, scene: seq<SceneObject>, rand: RandStream, trig: Trig, cursor: nat)
    ensures forall k :: 0 <= k < |Batch(level, scene, rand, trig, cursor)| ==>
      Batch(level, scene, rand, trig, cursor)[k].treeIndex < |scene|
  {
    BatchSpec(level, scene, rand, trig, cursor);
  }

  /** Conversely, the anchors and the placement rule pin a batch down: any
      target list with the drawn anchors, each placed with its own draws, is
      the batch. */
  lemma BatchCharacterized(level: int, scene: seq<SceneObject>, ts: seq<Target>, rand: RandStream, trig: Trig,
                           cursor: nat)
    requires Anchors(ts) == Picks(Indices(|scene|), rand, cursor, DrawsPerTarget(level), NUM_TARGETS)
    requires PlacedBatch(level, scene, ts, rand, trig, cursor)
    ensures ts == Batch(level, scene, rand, trig, cursor)
  {
    var us := Batch(level, scene, rand, trig, cursor);
    BatchSpec(level, scene, rand, trig, cursor);
    assert |ts| == |Anchors(ts)| == |Anchors(us)| == |us|;
    forall k | 0 <= k < |ts| ensures ts[k] == us[k] {
      assert Anchors(ts)[k] == Anchors(us)[k];
    }
  }

  /** The state of SpawnTargets after `i` draws: the targets placed so far
      followed by those still to be placed from the anchors left make up the
      batch, and the next draw is where target `i`'s draws start. */
  predicate Building(level: int, scene: seq<SceneObject>, rand: RandStream, trig: Trig, cursor: nat,
                     all: seq<Target>, i: nat, ts: seq<Target>, available: seq<nat>, next: nat)
  {
    i <= NUM_TARGETS && |ts| == i && next == DrawStart(level, cursor, i) &&
    (forall k :: 0 <= k < |available| ==> available[k] < |scene|) &&
    ts + BatchFrom(level, scene, available, rand, trig, next, NUM_TARGETS - i) == all
  }

  /** One iteration of the SpawnTargets loop. */
  method DrawStep(level: int, scene: seq<SceneObject>, rand: RandStream, trig: Trig, cursor: nat,
                  ghost all: seq<Target>, i: nat, ts: seq<Target>, available: seq<nat>, next: nat)
    returns (ts': seq<Target>, available': seq<nat>, next': nat)
    requires i < NUM_TARGETS && available != []
    requires Building(level, scene, rand, trig, cursor, all, i, ts, available, next)
    ensures Building(level, scene, rand, trig, cursor, all, i + 1, ts', available', next')
  {
    var target;
    target, available' := DrawTarget(level, scene, available, rand, trig, next);
    next' := next + DrawsPerTarget(level);
    ghost var tail := BatchFrom(level, scene, available', rand, trig, next', NUM_TARGETS - i - 1);
    assert BatchFrom(level, scene, available, rand, trig, next, NUM_TARGETS - i) == [target] + tail;
    assert ts + ([target] + tail) == (ts + [target]) + tail;
    assert next' == DrawStart(level, cursor, i + 1);
    ts' := ts + [target];
  }

  /** SpawnTargets: builds the batch, drawing the anchors without replacement
      from the indices still available. */
  method BuildTargets(level: int, scene: seq<SceneObject>, rand: RandStream, trig: Trig, cursor: nat)
    returns (ts: seq<Target>, next: nat)
    ensures ts == Batch(level, scene, rand, trig, cursor)
    ensures next == DrawStart(level, cursor, |ts|)
  {
    ghost var all := Batch(level, scene, rand, trig, cursor);
    var available: seq<nat> := Indices(|scene|);
    ts, next := [], cursor;
    var i := 0;
    assert ts + BatchFrom(level, scene, available, rand, trig, next, NUM_TARGETS) == all;
    while i < NUM_TARGETS && |available| > 0
      invariant Building(level, scene, rand, trig, cursor, all, i, ts, available, next)
      decreases NUM_TARGETS - i
    {
      ts, available, next := DrawStep(level, scene, rand, trig, cursor, all, i, ts, available, next);
      i := i + 1;
    }
    assert BatchFrom(level, scene, available, rand, trig, next, NUM_TARGETS - i) == [];
  }

  predicate AllInactive(ts: seq<Target>)
  {
    forall k :: 0 <= k < |ts| ==> !ts[k].active
  }

  /** Every target hangs on one of the first `n` scene objects. */
  predicate AnchoredIn(ts: seq<Target>, n: int)
  {
    forall k :: 0 <= k < |ts| ==> ts[k].treeIndex < n
  }

  /** The 3-D sphere test between an active bullet and an active target. */
  predicate Hits(b: Bullet, t: Target)
  {
    b.active && t.active && DistSq3(b.x, b.y, b.z, t.x, t.y, t.z) <= COLLISION_DISTANCE * COLLISION_DISTANCE
  }

  datatype HitPair = HitPair(bullet: nat, target: nat)

  /** The first target (in pool order) that bullet `b` hits, or |ts|. */
  function FirstTargetHit(b: Bullet, ts: seq<Target>): (j: nat)
    ensures j <= |ts|
    ensures j < |ts| ==> Hits(b, ts[j])
    ensures forall k :: 0 <= k < j ==> !Hits(b, ts[k])
  {
    if ts == [] then 0
    else if Hits(b, ts[0]) then 0
    else 1 + FirstTargetHit(b, ts[1..])
  }

  /** The pair the nested scan stops at: the first bullet that hits anything,
      with the first target it hits. */
  function FirstHit(bs: seq<Bullet>, ts: seq<Target>): (r: Option<HitPair>)
    ensures r.Some? ==> r.value.bullet < |bs| && r.value.target < |ts|
  {
    if bs == [] then None
    else
      var j := FirstTargetHit(bs[0], ts);
      if j < |ts| then Some(HitPair(0, j))
      else
        match FirstHit(bs[1..], ts)
        case None => None
        case Some(p) => Some(HitPair(p.bullet + 1, p.target))
  }

  /** FirstHit is None exactly when no bullet hits any target; otherwise its
      pair hits, no earlier bullet hits anything, and no earlier target is hit
      by its bullet. */
  lemma {:induction false} FirstHitSpec(bs: seq<Bullet>, ts: seq<Target>)
    ensures var r := FirstHit(bs, ts);
      (r.None? <==> forall i, j :: 0 <= i < |bs| && 0 <= j < |ts| ==> !Hits(bs[i], ts[j])) &&
      (r.Some? ==>
        Hits(bs[r.value.bullet], ts[r.value.target]) &&
        (forall i, j :: 0 <= i < r.value.bullet && 0 <= j < |ts| ==> !Hits(bs[i], ts[j])) &&
        (forall j :: 0 <= j < r.value.target ==> !Hits(bs[r.value.bullet], ts[j])))
  {
    if bs != [] && FirstTargetHit(bs[0], ts) == |ts| {
      FirstHitSpec(bs[1..], ts);
      assert forall i :: 1 <= i < |bs| ==> bs[i] == bs[1..][i - 1];
    }
  }

  /** The nested scan that stops at the first pair in scan order finds FirstHit. */
  lemma FirstHitUnique(bs: seq<Bullet>, ts: seq<Target>, i: nat, j: nat)
    requires i < |bs| && j < |ts| && Hits(bs[i], ts[j])
    requires forall a, b :: 0 <= a < i && 0 <= b < |ts| ==> !Hits(bs[a], ts[b])
    requires forall b :: 0 <= b < j ==> !Hits(bs[i], ts[b])
    ensures FirstHit(bs, ts) == Some(HitPair(i, j))
  {
    FirstHitSpec(bs, ts);
    var r := FirstHit(bs, ts);
    assert r.Some?;
    if r.value.bullet < i {
      assert false;
    }
    if r.value.bullet > i {
      assert false;
    }
    if r.value.target < j {
      assert false;
    }
    if r.value.target > j {
      assert false;
    }
  }

  /** The nested scan of CheckBulletTargetCollisions: bullets in pool order,
      and for each active bullet the active targets in pool order, stopping at
      the first pair within the collision distance. */
  method ScanHits(bs: seq<Bullet>, ts: seq<Target>) returns (r: Option<HitPair>)
    ensures r == FirstHit(bs, ts)
  {
    for i := 0 to |bs|
      invariant forall a, b :: 0 <= a < i && 0 <= b < |ts| ==> !Hits(bs[a], ts[b])
    {
      if !bs[i].active {
        continue;
      }
      for j := 0 to |ts|
        invariant forall b :: 0 <= b < j ==> !Hits(bs[i], ts[b])
      {
        if !ts[j].active {
          continue;
        }
        var b, t := bs[i], ts[j];
        if DistSq3(b.x, b.y, b.z, t.x, t.y, t.z) <= COLLISION_DISTANCE * COLLISION_DISTANCE {
          FirstHitUnique(bs, ts, i, j);
          return Some(HitPair(i, j));
        }
      }
    }
    FirstHitSpec(bs, ts);
    return None;
  }

  /** The allTargetsHit scan: true exactly when no target is left active. */
  method NoneActive(ts: seq<Target>) returns (all: bool)
    ensures all <==> AllInactive(ts)
  {
    all := true;
    for k := 0 to |ts|
      invariant all <==> forall m :: 0 <= m < k ==> !ts[m].active
    {
      if ts[k].active {
        all := false;
        break;
      }
    }
  }
}
