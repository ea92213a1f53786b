/** Ammo boxes: five per level, typed by level and position in the batch,
    spinning while active, respawning thirty seconds after pickup, and
    granting reserves and weapon modifiers when the player walks over them. */
module AmmoBoxes {
  import opened Common
  import opened Ammo

  const NUM_AMMO_BOXES: nat := 5
  /** rand() results one placement consumes: x, z, rotation and spin speed. */
  const BOX_DRAWS: nat := 4
  const BOX_HEIGHT: real := 0.5
  const BOX_SCALE: real := 0.3
  /** Boxes placed closer than this to the origin are pushed out along both axes. */
  const BOX_SPAWN_CLEARANCE: real := 5.0
  const AMMO_BOX_RESPAWN_TIME: real := 30.0
  const AMMO_BOX_COLLECTION_RADIUS: real := 1.0
  const AMMO_BOX_REGULAR_AMOUNT: int := 3
  const AMMO_BOX_HIGH_DAMAGE_AMOUNT: int := 2
  const REGULAR_DAMAGE: real := 1.0
  const HIGH_DAMAGE: real := 2.0
  const EXPLOSIVE_DAMAGE: real := 2.5
  const FAST_FIRE_COOLDOWN: real := 0.1
  const NORMAL_FIRE_COOLDOWN: real := 0.2

  datatype AmmoBox = AmmoBox(
    x: real, y: real, z: real,
    rotation: real,          // degrees
    scale: real,
    rotationSpeed: real,     // degrees per second
    active: bool,
    isHighDamage: bool,      // level 1 type
    isExplosive: bool,       // level 2 types
    isFastFire: bool,
    respawnTimer: real)      // seconds since pickup

  /** `(rand() % 60) - 30` as a coordinate. */
  function BoxCoord(r: nat): (c: real)
    ensures -30.0 <= c < 30.0
  {
    ((r % 60) - 30) as real
  }

  /** `rand() % 360` as a rotation. */
  function BoxRotation(r: nat): (a: real)
    ensures 0.0 <= a < 360.0
  {
    (r % 360) as real
  }

  /** `50 + rand() % 50` degrees per second. */
  function BoxSpin(r: nat): (s: real)
    ensures 50.0 <= s < 100.0
  {
    50.0 + (r % 50) as real
  }

  /** The push away from the origin: 5 units further out on the coordinate's
      own side (zero counts as positive). */
  function Nudge(c: real): (n: real)
    ensures Abs(n) >= BOX_SPAWN_CLEARANCE
  {
    if c < 0.0 then c - BOX_SPAWN_CLEARANCE else c + BOX_SPAWN_CLEARANCE
  }

  /** Where a fresh box goes: a spot inside the clearance circle around the
      origin is nudged outwards on both axes, which always clears it. */
  function Spot(x: real, z: real): (real, real)
  {
    if x * x + z * z < BOX_SPAWN_CLEARANCE * BOX_SPAWN_CLEARANCE then (Nudge(x), Nudge(z)) else (x, z)
  }

  /** The nudge always clears the spot. */
  lemma SpotClear(x: real, z: real)
    ensures var p := Spot(x, z); p.0 * p.0 + p.1 * p.1 >= BOX_SPAWN_CLEARANCE * BOX_SPAWN_CLEARANCE
  {
    if x * x + z * z < BOX_SPAWN_CLEARANCE * BOX_SPAWN_CLEARANCE {
      SquareAtLeast(Nudge(x), BOX_SPAWN_CLEARANCE);
      SquareAtLeast(Nudge(z), 0.0);
    }
  }

  /** Box `i` of the batch SpawnAmmoBoxes places for `level`, from the four
      rand() results starting at `c`. */
  function FreshBox(level: int, i: nat, rand: RandStream, c: nat): AmmoBox
  {
    var spot := Spot(BoxCoord(rand(c)), BoxCoord(rand(c + 1)));
    AmmoBox(spot.0, BOX_HEIGHT, spot.1,
            BoxRotation(rand(c + 2)), BOX_SCALE, BoxSpin(rand(c + 3)), true,
            level == 1 && i < 2, level != 1 && i < 2, level != 1 && !(i < 2), 0.0)
  }

  lemma MulNonnegative(x: real, y: real)
    requires x >= 0.0 && y >= 0.0
    ensures x * y >= 0.0
  {
  }

  lemma SquareAtLeast(a: real, b: real)
    requires b >= 0.0 && Abs(a) >= b
    ensures a * a >= b * b
  {
    var m := Abs(a);
    assert m * m == a * a by { if a < 0.0 { assert m == -a; } }
    MulNonnegative(m, m - b);
    MulNonnegative(b, m - b);
    assert m * (m - b) == m * m - m * b;
    assert b * (m - b) == m * b - b * b;
  }

  /** A box at least 5 units from the spawn point at the origin. */
  predicate ClearOfSpawn(b: AmmoBox)
  {
    b.x * b.x + b.z * b.z >= BOX_SPAWN_CLEARANCE * BOX_SPAWN_CLEARANCE
  }

  /** Every freshly placed box is at least 5 units from the spawn point. */
  lemma FreshBoxClearOfSpawn(level: int, i: nat, rand: RandStream, c: nat)
    ensures ClearOfSpawn(FreshBox(level, i, rand, c))
  {
    var spot := Spot(BoxCoord(rand(c)), BoxCoord(rand(c + 1)));
    SpotClear(BoxCoord(rand(c)), BoxCoord(rand(c + 1)));
    assert FreshBox(level, i, rand, c).x == spot.0 && FreshBox(level, i, rand, c).z == spot.1;
  }

  /** The type of a fresh box: in level 1 the first two are high-damage and the
      rest regular; in level 2 the first two are explosive and the rest fast-fire.
      Every fresh box is active, has exactly one type in level 2 and at most one
      in level 1. */
  lemma FreshBoxType(level: int, i: nat, rand: RandStream, c: nat)
    ensures var b := FreshBox(level, i, rand, c);
      b.active && b.respawnTimer == 0.0 &&
      (level == 1 ==> (b.isHighDamage <==> i < 2) && !b.isExplosive && !b.isFastFire) &&
      (level != 1 ==> !b.isHighDamage && (b.isExplosive <==> i < 2) && (b.isFastFire <==> !b.isExplosive))
  {
  }

  /** The bounds every box keeps: orientation in [0, 360), spin in [50, 100),
      a respawn timer in [0, 30) that is zero while the box is active. */
  predicate BoxOk(b: AmmoBox)
  {
    0.0 <= b.rotation < 360.0 && 50.0 <= b.rotationSpeed < 100.0 &&
    0.0 <= b.respawnTimer < AMMO_BOX_RESPAWN_TIME && (b.active ==> b.respawnTimer == 0.0)
  }

  predicate BoxesOk(bs: seq<AmmoBox>)
  {
    forall i :: 0 <= i < |bs| ==> BoxOk(bs[i])
  }

  /** UpdateAmmoBoxRotations for one box: an active box turns by its spin times
      the tick, wrapped once by 360 degrees. */
  function RotateBox(b: AmmoBox): AmmoBox
  {
    if !b.active then b
    else
      var r := b.rotation + b.rotationSpeed * TICK;
      b.(rotation := if r >= 360.0 then r - 360.0 else r)
  }

  /** A per-tick turn of at most 360 degrees keeps the orientation in [0, 360),
      and the turn is the spin times the tick modulo a full turn. */
  lemma RotationWraps(b: AmmoBox)
    requires 0.0 <= b.rotation < 360.0 && 0.0 <= b.rotationSpeed * TICK <= 360.0
    ensures 0.0 <= RotateBox(b).rotation < 360.0
    ensures b.active ==>
      RotateBox(b).rotation == b.rotation + b.rotationSpeed * TICK ||
      RotateBox(b).rotation == b.rotation + b.rotationSpeed * TICK - 360.0
    ensures !b.active ==> RotateBox(b) == b
  {
  }

  /** Spins below 100 degrees per second turn a box by less than 1.6 degrees a
      tick, so the single wrap keeps every box's orientation in range. */
  lemma RotateKeepsBoxOk(b: AmmoBox)
    requires BoxOk(b)
    ensures BoxOk(RotateBox(b))
    ensures RotateBox(b).rotationSpeed * TICK < 1.6
  {
    RotationWraps(b);
  }

  /** The state of one box after UpdateAmmoBoxes' visit, and the next rand() call. */
  datatype Respawn = Respawn(box: AmmoBox, next: nat)

  /** UpdateAmmoBoxes for one box: the respawn timer of an inactive box advances;
      on reaching 30 s the box comes back at a freshly drawn spot, orientation and
      spin (without the push away from the origin), keeping its type. */
  function RespawnBox(b: AmmoBox, rand: RandStream, c: nat): Respawn
  {
    if b.active then Respawn(b, c)
    else
      var t := b.respawnTimer + TICK;
      if t >= AMMO_BOX_RESPAWN_TIME then
        Respawn(b.(active := true, respawnTimer := 0.0,
                   x := BoxCoord(rand(c)), z := BoxCoord(rand(c + 1)),
                   rotation := BoxRotation(rand(c + 2)), rotationSpeed := BoxSpin(rand(c + 3))),
                c + BOX_DRAWS)
      else Respawn(b.(respawnTimer := t), c)
  }

  /** Respawning keeps the box bounds and the box type, draws four rand()
      results exactly when the box comes back, and leaves active boxes alone. */
  lemma RespawnBoxSpec(b: AmmoBox, rand: RandStream, c: nat)
    requires BoxOk(b)
    ensures var r := RespawnBox(b, rand, c);
      BoxOk(r.box) &&
      r.box.isHighDamage == b.isHighDamage && r.box.isExplosive == b.isExplosive &&
      r.box.isFastFire == b.isFastFire &&
      (b.active ==> r == Respawn(b, c)) &&
      (r.next == c + BOX_DRAWS <==> !b.active && r.box.active) &&
      (r.next == c <==> !(!b.active && r.box.active))
  {
  }

  /** The boxes after UpdateAmmoBoxes has visited the first |bs| of them,
      threading the rand() cursor through the visits in order. */
  datatype Respawned = Respawned(boxes: seq<AmmoBox>, next: nat)

  function RespawnAll(bs: seq<AmmoBox>, rand: RandStream, c: nat): (r: Respawned)
    ensures |r.boxes| == |bs|
  {
    if bs == [] then Respawned([], c)
    else
      var pre := RespawnAll(bs[..|bs| - 1], rand, c);
      var last := RespawnBox(bs[|bs| - 1], rand, pre.next);
      Respawned(pre.boxes + [last.box], last.next)
  }

  /** UpdateAmmoBoxes keeps every box's bounds and type, and consumes four rand()
      results per box that comes back. */
  lemma {:induction false} RespawnAllOk(bs: seq<AmmoBox>, rand: RandStream, c: nat)
    requires BoxesOk(bs)
    ensures BoxesOk(RespawnAll(bs, rand, c).boxes)
    ensures RespawnAll(bs, rand, c).next >= c
    ensures forall i :: 0 <= i < |bs| ==>
      RespawnAll(bs, rand, c).boxes[i].isHighDamage == bs[i].isHighDamage &&
      RespawnAll(bs, rand, c).boxes[i].isExplosive == bs[i].isExplosive &&
      RespawnAll(bs, rand, c).boxes[i].isFastFire == bs[i].isFastFire
  {
    if bs != [] {
      var init := bs[..|bs| - 1];
      RespawnAllOk(init, rand, c);
      var pre := RespawnAll(init, rand, c);
      RespawnBoxSpec(bs[|bs| - 1], rand, pre.next);
      var r := RespawnAll(bs, rand, c);
      forall i | 0 <= i < |bs|
        ensures BoxOk(r.boxes[i]) && r.boxes[i].isHighDamage == bs[i].isHighDamage &&
          r.boxes[i].isExplosive == bs[i].isExplosive && r.boxes[i].isFastFire == bs[i].isFastFire
      {
        if i < |bs| - 1 {
          assert r.boxes[i] == pre.boxes[i] && bs[i] == init[i];
        }
      }
    }
  }

  /** The weapon state a pickup changes: damage per hit, fire cooldown, reserves. */
  datatype Loadout = Loadout(damage: real, cooldown: real, reserves: int)

  /** The planar pickup test: strictly within the collection radius. */
  predicate InReach(b: AmmoBox, px: real, pz: real)
  {
    DistSq2(px, pz, b.x, b.z) < AMMO_BOX_COLLECTION_RADIUS * AMMO_BOX_COLLECTION_RADIUS
  }

  predicate Collected(b: AmmoBox, px: real, pz: real)
  {
    b.active && InReach(b, px, pz)
  }

  function AddReserves(reserves: int, amount: int): int
  {
    Min(reserves + amount, MAX_AMMO_RESERVES)
  }

  /** The effect of picking up box `b`. Level 1: high-damage boxes give damage 2
      and 2 rounds, others damage 1 and 3 rounds. Level 2: explosive boxes give
      damage 2.5, the normal cooldown and 2 rounds; fast-fire boxes damage 1, the
      fast cooldown and 3 rounds; a box of neither type gives nothing. */
  function PickupEffect(level: int, b: AmmoBox, lo: Loadout): Loadout
  {
    if level == 1 then
      if b.isHighDamage then Loadout(HIGH_DAMAGE, lo.cooldown, AddReserves(lo.reserves, AMMO_BOX_HIGH_DAMAGE_AMOUNT))
      else Loadout(REGULAR_DAMAGE, lo.cooldown, AddReserves(lo.reserves, AMMO_BOX_REGULAR_AMOUNT))
    else if b.isExplosive then
      Loadout(EXPLOSIVE_DAMAGE, NORMAL_FIRE_COOLDOWN, AddReserves(lo.reserves, AMMO_BOX_HIGH_DAMAGE_AMOUNT))
    else if b.isFastFire then
      Loadout(REGULAR_DAMAGE, FAST_FIRE_COOLDOWN, AddReserves(lo.reserves, AMMO_BOX_REGULAR_AMOUNT))
    else lo
  }

  /** A box after CheckAmmoBoxCollection's visit: collected boxes go inactive. */
  function AfterPickup(b: AmmoBox, px: real, pz: real): AmmoBox
  {
    if Collected(b, px, pz) then b.(active := false) else b
  }

  /** The loadout after CheckAmmoBoxCollection has visited the first |bs| boxes. */
  function PickupAll(level: int, bs: seq<AmmoBox>, px: real, pz: real, lo: Loadout): Loadout
  {
    if bs == [] then lo
    else
      var pre := PickupAll(level, bs[..|bs| - 1], px, pz, lo);
      if Collected(bs[|bs| - 1], px, pz) then PickupEffect(level, bs[|bs| - 1], pre) else pre
  }

  /** Cooldowns a pickup can leave: the normal and the fast one. */
  predicate CooldownOk(c: real)
  {
    c == NORMAL_FIRE_COOLDOWN || c == FAST_FIRE_COOLDOWN
  }

  /** A pickup never lowers the reserves, never pushes them past the cap, adds
      at most three rounds, and leaves a known cooldown. Together with
      MagazineOk this is why a reload in progress stays able to complete. */
  lemma PickupEffectBounds(level: int, b: AmmoBox, lo: Loadout)
    requires 0 <= lo.reserves <= MAX_AMMO_RESERVES && CooldownOk(lo.cooldown)
    ensures var r := PickupEffect(level, b, lo);
      lo.reserves <= r.reserves <= MAX_AMMO_RESERVES && r.reserves <= lo.reserves + AMMO_BOX_REGULAR_AMOUNT &&
      CooldownOk(r.cooldown)
  {
  }

  /** A box that gives rounds fills the reserves up to the cap exactly when
      fewer than its amount are missing. */
  lemma PickupFillsToCap(level: int, b: AmmoBox, lo: Loadout)
    requires 0 <= lo.reserves <= MAX_AMMO_RESERVES
    requires level == 1 || b.isExplosive || b.isFastFire
    ensures var amount := if (level == 1 && b.isHighDamage) || (level != 1 && b.isExplosive)
                          then AMMO_BOX_HIGH_DAMAGE_AMOUNT else AMMO_BOX_REGULAR_AMOUNT;
      PickupEffect(level, b, lo).reserves ==
        (if lo.reserves + amount >= MAX_AMMO_RESERVES then MAX_AMMO_RESERVES else lo.reserves + amount)
  {
  }

  /** A whole collection pass keeps the reserves within the cap, never lowers
      them and leaves a known cooldown. */
  lemma {:induction false} PickupAllBounds(level: int, bs: seq<AmmoBox>, px: real, pz: real, lo: Loadout)
    requires 0 <= lo.reserves <= MAX_AMMO_RESERVES && CooldownOk(lo.cooldown)
    ensures var r := PickupAll(level, bs, px, pz, lo);
      lo.reserves <= r.reserves <= MAX_AMMO_RESERVES && CooldownOk(r.cooldown)
  {
    if bs != [] {
      PickupAllBounds(level, bs[..|bs| - 1], px, pz, lo);
      var pre := PickupAll(level, bs[..|bs| - 1], px, pz, lo);
      PickupEffectBounds(level, bs[|bs| - 1], pre);
    }
  }

  /** With no box within reach the pass changes nothing. */
  lemma {:induction false} PickupAllNone(level: int, bs: seq<AmmoBox>, px: real, pz: real, lo: Loadout)
    requires forall i :: 0 <= i < |bs| ==> !Collected(bs[i], px, pz)
    ensures PickupAll(level, bs, px, pz, lo) == lo
  {
    if bs != [] {
      PickupAllNone(level, bs[..|bs| - 1], px, pz, lo);
    }
  }

  /** Deactivating collected boxes keeps the box bounds: a collected box was
      active, so its timer is zero. */
  lemma AfterPickupOk(b: AmmoBox, px: real, pz: real)
    requires BoxOk(b)
    ensures BoxOk(AfterPickup(b, px, pz))
    ensures !Collected(AfterPickup(b, px, pz), px, pz)
  {
  }

  /** Every freshly placed box is within the box bounds. */
  lemma FreshBoxOk(level: int, i: nat, rand: RandStream, c: nat)
    ensures BoxOk(FreshBox(level, i, rand, c))
  {
  }

  /** The batch SpawnAmmoBoxes places for `level` with the rand() results
      from `c` on: box k uses the four results from c + 4k. */
  function BoxBatch(level: int, rand: RandStream, c: nat): (bs: seq<AmmoBox>)
    ensures |bs| == NUM_AMMO_BOXES
  {
    seq(NUM_AMMO_BOXES, k requires 0 <= k => FreshBox(level, k, rand, c + BOX_DRAWS * k))
  }

  /** A placed batch has five active boxes within the box bounds, typed by
      level and position: in level 1 the first two are high-damage, in level 2
      the first two are explosive and the other three fast-fire. */
  lemma BoxBatchSpec(level: int, rand: RandStream, c: nat)
    ensures var bs := BoxBatch(level, rand, c);
      |bs| == NUM_AMMO_BOXES && BoxesOk(bs) &&
      (forall k :: 0 <= k < |bs| ==>
         bs[k].active &&
         (level == 1 ==> (bs[k].isHighDamage <==> k < 2) && !bs[k].isExplosive && !bs[k].isFastFire) &&
         (level != 1 ==> !bs[k].isHighDamage && (bs[k].isExplosive <==> k < 2) && (bs[k].isFastFire <==> k >= 2)))
  {
    var bs := BoxBatch(level, rand, c);
    forall k | 0 <= k < |bs|
      ensures BoxOk(bs[k]) && bs[k].active &&
        (level == 1 ==> (bs[k].isHighDamage <==> k < 2) && !bs[k].isExplosive && !bs[k].isFastFire) &&
        (level != 1 ==> !bs[k].isHighDamage && (bs[k].isExplosive <==> k < 2) && (bs[k].isFastFire <==> k >= 2))
    {
      FreshBoxOk(level, k, rand, c + BOX_DRAWS * k);
      FreshBoxType(level, k, rand, c + BOX_DRAWS * k);
    }
  }

  /** Every box of a placed batch is at least 5 units from the spawn point. */
  lemma BoxBatchClear(level: int, rand: RandStream, c: nat)
    ensures var bs := BoxBatch(level, rand, c);
      forall k :: 0 <= k < |bs| ==> ClearOfSpawn(bs[k])
  {
    var bs := BoxBatch(level, rand, c);
    forall k | 0 <= k < |bs|
      ensures ClearOfSpawn(bs[k])
    {
      assert bs[k] == FreshBox(level, k, rand, c + BOX_DRAWS * k);
      FreshBoxClearOfSpawn(level, k, rand, c + BOX_DRAWS * k);
    }
  }

  /** UpdateAmmoBoxRotations over the whole list. */
  function RotateBoxes(bs: seq<AmmoBox>): (r: seq<AmmoBox>)
    ensures |r| == |bs| && forall i :: 0 <= i < |bs| ==> r[i] == RotateBox(bs[i])
  {
    seq(|bs|, i requires 0 <= i < |bs| => RotateBox(bs[i]))
  }

  lemma RotateBoxesOk(bs: seq<AmmoBox>)
    requires BoxesOk(bs)
    ensures BoxesOk(RotateBoxes(bs))
  {
    forall i | 0 <= i < |bs| ensures BoxOk(RotateBoxes(bs)[i]) {
      RotateKeepsBoxOk(bs[i]);
    }
  }

  /** The boxes after CheckAmmoBoxCollection. */
  function PickupBoxes(bs: seq<AmmoBox>, px: real, pz: real): (r: seq<AmmoBox>)
    ensures |r| == |bs| && forall i :: 0 <= i < |bs| ==> r[i] == AfterPickup(bs[i], px, pz)
  {
    seq(|bs|, i requires 0 <= i < |bs| => AfterPickup(bs[i], px, pz))
  }

  /** Collection keeps the box bounds, and afterwards no active box is within reach. */
  lemma PickupBoxesOk(bs: seq<AmmoBox>, px: real, pz: real)
    requires BoxesOk(bs)
    ensures BoxesOk(PickupBoxes(bs, px, pz))
    ensures forall i :: 0 <= i < |bs| ==> !Collected(PickupBoxes(bs, px, pz)[i], px, pz)
  {
    forall i | 0 <= i < |bs| ensures BoxOk(PickupBoxes(bs, px, pz)[i]) {
      AfterPickupOk(bs[i], px, pz);
    }
  }

  /** The loop of SpawnAmmoBoxes: five boxes, each from four rand() results,
      typed by level and position and pushed away from the spawn point when
      they land closer than 5 units to it. */
  method PlaceBoxes(level: int, rand: RandStream, cursor: nat) returns (boxes: seq<AmmoBox>, next: nat)
    ensures boxes == BoxBatch(level, rand, cursor)
    ensures next == cursor + BOX_DRAWS * NUM_AMMO_BOXES
  {
    ghost var all := BoxBatch(level, rand, cursor);
    boxes, next := [], cursor;
    for i := 0 to NUM_AMMO_BOXES
      invariant next == cursor + BOX_DRAWS * i
      invariant boxes == all[..i]
    {
      var box := PlaceBox(level, i, rand, next);
      assert all[..i + 1] == all[..i] + [all[i]];
      boxes := boxes + [box];
      next := next + BOX_DRAWS;
    }
    assert all[..NUM_AMMO_BOXES] == all;
  }

  /** One box of the SpawnAmmoBoxes loop: the position, rotation and spin
      draws, the type by level and position, then the nudge out of the
      clearance circle. */
  method PlaceBox(level: int, i: nat, rand: RandStream, next: nat) returns (box: AmmoBox)
    ensures box == FreshBox(level, i, rand, next)
  {
    var x := BoxCoord(rand(next));
    var z := BoxCoord(rand(next + 1));
    box := AmmoBox(x, BOX_HEIGHT, z, BoxRotation(rand(next + 2)), BOX_SCALE,
                   BoxSpin(rand(next + 3)), true, false, false, false, 0.0);
    if level == 1 {
      box := box.(isHighDamage := i < 2, isExplosive := false, isFastFire := false);
    } else {
      box := box.(isHighDamage := false, isExplosive := i < 2, isFastFire := !(i < 2));
    }
    if box.x * box.x + box.z * box.z < BOX_SPAWN_CLEARANCE * BOX_SPAWN_CLEARANCE {
      box := box.(x := if box.x < 0.0 then box.x - BOX_SPAWN_CLEARANCE else box.x + BOX_SPAWN_CLEARANCE,
                  z := if box.z < 0.0 then box.z - BOX_SPAWN_CLEARANCE else box.z + BOX_SPAWN_CLEARANCE);
    }
    assert (box.x, box.z) == Spot(x, z);
  }

  /** The loop of UpdateAmmoBoxes over the boxes, threading the rand() cursor. */
  method RespawnBoxes(bs: seq<AmmoBox>, rand: RandStream, cursor: nat) returns (r: seq<AmmoBox>, next: nat)
    ensures r == RespawnAll(bs, rand, cursor).boxes
    ensures next == RespawnAll(bs, rand, cursor).next
  {
    r, next := bs, cursor;
    for i := 0 to |bs|
      invariant |r| == |bs|
      invariant r[..i] == RespawnAll(bs[..i], rand, cursor).boxes
      invariant next == RespawnAll(bs[..i], rand, cursor).next
      invariant r[i..] == bs[i..]
    {
      ghost var visit := RespawnBox(bs[i], rand, next);
      var box := r[i];
      assert box == bs[i] by { assert r[i..][0] == bs[i..][0]; }
      if !box.active {
        box := box.(respawnTimer := box.respawnTimer + TICK);
        if box.respawnTimer >= AMMO_BOX_RESPAWN_TIME {
          box := box.(active := true, respawnTimer := 0.0, x := BoxCoord(rand(next)), z := BoxCoord(rand(next + 1)),
                      rotation := BoxRotation(rand(next + 2)), rotationSpeed := BoxSpin(rand(next + 3)));
          next := next + BOX_DRAWS;
        }
      }
      assert box == visit.box && next == visit.next;
      assert bs[..i + 1][..i] == bs[..i];
      r := r[i := box];
      assert r[..i + 1] == r[..i] + [box];
      assert r[i + 1..] == bs[i + 1..];
    }
    assert bs[..|bs|] == bs && r[..|bs|] == r;
  }

  /** The loop of CheckAmmoBoxCollection: every box within reach is collected
      and its bonus folded into the loadout, in pool order. */
  method CollectBoxes(level: int, bs: seq<AmmoBox>, px: real, pz: real, kit: Loadout)
    returns (r: seq<AmmoBox>, after: Loadout)
    ensures r == PickupBoxes(bs, px, pz)
    ensures after == PickupAll(level, bs, px, pz, kit)
    ensures BoxesOk(bs) ==> BoxesOk(r)
    ensures 0 <= kit.reserves <= MAX_AMMO_RESERVES && CooldownOk(kit.cooldown) ==>
      kit.reserves <= after.reserves <= MAX_AMMO_RESERVES && CooldownOk(after.cooldown)
  {
    r := bs;
    var damage, cooldown, reserves := kit.damage, kit.cooldown, kit.reserves;
    for i := 0 to |bs|
      invariant |r| == |bs|
      invariant forall k :: 0 <= k < i ==> r[k] == AfterPickup(bs[k], px, pz)
      invariant forall k :: i <= k < |r| ==> r[k] == bs[k]
      invariant Loadout(damage, cooldown, reserves) == PickupAll(level, bs[..i], px, pz, kit)
    {
      var box := r[i];
      assert bs[..i + 1][..i] == bs[..i];
      if box.active && DistSq2(px, pz, box.x, box.z) < AMMO_BOX_COLLECTION_RADIUS * AMMO_BOX_COLLECTION_RADIUS {
        r := r[i := box.(active := false)];
        if level == 1 {
          if box.isHighDamage {
            damage := HIGH_DAMAGE;
            reserves := Min(reserves + AMMO_BOX_HIGH_DAMAGE_AMOUNT, MAX_AMMO_RESERVES);
          } else {
            damage := REGULAR_DAMAGE;
            reserves := Min(reserves + AMMO_BOX_REGULAR_AMOUNT, MAX_AMMO_RESERVES);
          }
        } else {
          if box.isExplosive {
            damage := EXPLOSIVE_DAMAGE;
            cooldown := NORMAL_FIRE_COOLDOWN;
            reserves := Min(reserves + AMMO_BOX_HIGH_DAMAGE_AMOUNT, MAX_AMMO_RESERVES);
          } else if box.isFastFire {
            damage := REGULAR_DAMAGE;
            cooldown := FAST_FIRE_COOLDOWN;
            reserves := Min(reserves + AMMO_BOX_REGULAR_AMOUNT, MAX_AMMO_RESERVES);
          }
        }
      }
    }
    assert bs[..|bs|] == bs;
    after := Loadout(damage, cooldown, reserves);
    if BoxesOk(bs) { PickupBoxesOk(bs, px, pz); }
    if 0 <= kit.reserves <= MAX_AMMO_RESERVES && CooldownOk(kit.cooldown) { PickupAllBounds(level, bs, px, pz, kit); }
  }
}
