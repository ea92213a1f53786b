/** The player controller: turning, the jump, the pre-move test, and damage
    from rocks with its one-second cooldown. */
module Player {
  import opened Common
  import opened Geometry

  const MOVE_SPEED: real := 0.2
  const JUMP_FORCE: real := 0.3
  const GRAVITY: real := 0.01
  const TURN_STEP: real := 2.0
  const MAX_HEALTH: real := 100.0
  const ROCK_COLLISION_RADIUS: real := 1.0
  const ROCK_DAMAGE: real := 25.0
  const DAMAGE_COOLDOWN: real := 1.0
  /** A rock only hurts a player standing no higher than this. */
  const ROCK_CONTACT_HEIGHT: real := 0.1
  const MAX_SHAKE_AMPLITUDE: real := 0.2
  /** Screen shake decays by this factor per tick while above the threshold,
      drawing two rand() results for its jitter. */
  const SHAKE_THRESHOLD: real := 0.001
  const SHAKE_DECAY: real := 0.9
  const SHAKE_DRAWS: nat := 2
  /** Ticks a jump from the ground stays in the air before it lands. */
  const AIRBORNE_TICKS: nat := 60

  /** Key 'a': turn left by two degrees, wrapping at 360. */
  function TurnLeft(r: real): real
  {
    var t := r + TURN_STEP;
    if t >= 360.0 then t - 360.0 else t
  }

  /** Key 'd': turn right by two degrees, wrapping below 0. */
  function TurnRight(r: real): real
  {
    var t := r - TURN_STEP;
    if t < 0.0 then t + 360.0 else t
  }

  predicate IsYaw(r: real)
  {
    0.0 <= r < 360.0
  }

  /** Turning keeps the yaw in [0, 360), changes it by the turn step modulo a
      full turn, and a left turn and a right turn undo each other. */
  lemma TurnSpec(r: real)
    requires IsYaw(r)
    ensures IsYaw(TurnLeft(r)) && IsYaw(TurnRight(r))
    ensures TurnLeft(r) == r + TURN_STEP || TurnLeft(r) == r + TURN_STEP - 360.0
    ensures TurnRight(r) == r - TURN_STEP || TurnRight(r) == r - TURN_STEP + 360.0
    ensures TurnRight(TurnLeft(r)) == r && TurnLeft(TurnRight(r)) == r
  {
  }

  /** Degrees of yaw per pixel of horizontal mouse motion while aiming. */
  const MOUSE_SENSITIVITY: real := 0.2
  /** The largest mouse offset, in pixels, that one wrap each way brings back
      into [0, 360): 1800 pixels are a full turn. */
  const MAX_WRAPPED_OFFSET: int := 1800

  /** myMotion while aiming: the yaw turns right by the horizontal offset `dx`
      times the sensitivity, then is wrapped once at 360 and once below 0. */
  function MouseTurn(r: real, dx: int): real
  {
    var t := r - dx as real * MOUSE_SENSITIVITY;
    var u := if t >= 360.0 then t - 360.0 else t;
    if u < 0.0 then u + 360.0 else u
  }

  /** The mouse turn changes the yaw by the offset modulo a full turn, and it
      keeps the yaw in [0, 360) for offsets of at most 1800 pixels either way. */
  lemma MouseTurnSpec(r: real, dx: int)
    requires IsYaw(r)
    ensures var t := r - dx as real * MOUSE_SENSITIVITY;
      MouseTurn(r, dx) == t || MouseTurn(r, dx) == t - 360.0 || MouseTurn(r, dx) == t + 360.0
    ensures -MAX_WRAPPED_OFFSET <= dx <= MAX_WRAPPED_OFFSET ==> IsYaw(MouseTurn(r, dx))
  {
  }

  /** One pixel beyond that, from a yaw of 0, the single wrap is not enough. */
  lemma MouseTurnLeavesYaw()
    ensures MouseTurn(0.0, MAX_WRAPPED_OFFSET + 1) == -0.2 && !IsYaw(MouseTurn(0.0, MAX_WRAPPED_OFFSET + 1))
  {
  }

  /** A W (forward) or S (backward) step from (x, z) along the yaw whose cosine
      and sine are `h`. */
  function StepTarget(x: real, z: real, h: Heading, forward: bool): (real, real)
  {
    var dx := MOVE_SPEED * h.sin;
    var dz := MOVE_SPEED * h.cos;
    if forward then (x + dx, z + dz) else (x - dx, z - dz)
  }

  /** A proposed position is taken only when no obstacle blocks it and it is
      inside the map. */
  predicate MoveAllowed(objs: seq<SceneObject>, level: int, trig: Trig, x: real, z: real)
  {
    !CheckCollision(objs, level, trig, x, z) && IsWithinMapBounds(x, z)
  }

  /** The vertical state of the player. */
  datatype Body = Body(y: real, velocity: real, jumping: bool)

  /** Resting or in a jump: never below the ground, and resting means on the
      ground and not moving. */
  predicate BodyOk(b: Body)
  {
    b.y >= 0.0 && (!b.jumping ==> b.y == 0.0 && b.velocity == 0.0)
  }

  predicate Grounded(b: Body)
  {
    !b.jumping && b.y <= 0.0
  }

  /** Space: a jump starts only from the ground. */
  function StartJump(b: Body): Body
  {
    if Grounded(b) then Body(b.y, JUMP_FORCE, true) else b
  }

  /** The jump integration of updateScene: in a jump the body rises by its
      velocity, which gravity then lowers; reaching the ground snaps it to 0 and
      ends the jump. Out of a jump the body is lifted back to the ground. */
  function JumpStep(b: Body): Body
  {
    if b.jumping then
      var nextY := b.y + b.velocity;
      if nextY <= 0.0 then Body(0.0, 0.0, false)
      else Body(nextY, b.velocity - GRAVITY, true)
    else if b.y < 0.0 then b.(y := 0.0)
    else b
  }

  /** The space bar keeps the body above the ground, and a jump starts
      exactly from the ground, with the jump force as its velocity. */
  lemma StartJumpSpec(b: Body)
    requires BodyOk(b)
    ensures BodyOk(StartJump(b))
    ensures StartJump(b).jumping <==> b.jumping || Grounded(b)
    ensures Grounded(b) ==> StartJump(b).velocity == JUMP_FORCE
  {
  }

  /** The jump integration keeps the body above the ground, and a landing
      leaves it resting exactly at height 0. */
  lemma JumpStepSpec(b: Body)
    requires BodyOk(b)
    ensures BodyOk(JumpStep(b))
    ensures b.jumping && !JumpStep(b).jumping ==> JumpStep(b) == Body(0.0, 0.0, false)
  {
  }

  /** The body after n integration ticks. */
  function JumpSteps(b: Body, n: nat): Body
  {
    if n == 0 then b else JumpStep(JumpSteps(b, n - 1))
  }

  /** 0 + 1 + ... + (n - 1): the ticks of gravity a jump has accumulated. */
  function Tri(n: nat): nat
  {
    if n == 0 then 0 else Tri(n - 1) + (n - 1)
  }

  lemma {:induction false} TriClosed(n: nat)
    ensures 2 * Tri(n) == n * (n - 1)
  {
    if n > 0 {
      TriClosed(n - 1);
      assert n * (n - 1) == (n - 1) * (n - 2) + 2 * (n - 1);
    }
  }

  lemma MulPositive(a: int, b: int)
    requires a > 0 && b > 0
    ensures a * b > 0
  {
  }

  /** Up to the 60th tick, the rise 30 n outweighs the accumulated fall. */
  lemma TriBelowRise(n: nat)
    requires 0 < n <= AIRBORNE_TICKS
    ensures Tri(n) < 30 * n
  {
    TriClosed(n);
    var m := 61 - n;
    assert 60 * n - n * (n - 1) == n * m;
    MulPositive(n, m);
  }

  /** Height of a jump from the ground after n ticks, while it is still in the
      air: y = 0.3 n - 0.01 Tri(n), that is 0.3 n - 0.005 n (n - 1). */
  function JumpHeight(n: nat): real
  {
    JUMP_FORCE * (n as real) - GRAVITY * (Tri(n) as real)
  }

  /** After n ticks (n in [1, 60]) of a jump from the ground, the player is in
      the air at JumpHeight(n), moving at 0.3 - 0.01 n. */
  lemma {:induction false} Airborne(n: nat)
    requires 0 < n <= AIRBORNE_TICKS
    ensures JumpSteps(StartJump(Body(0.0, 0.0, false)), n) ==
      Body(JumpHeight(n), JUMP_FORCE - GRAVITY * (n as real), true)
  {
    TriBelowRise(n);
    if n > 1 {
      Airborne(n - 1);
      assert Tri(n) == Tri(n - 1) + (n - 1);
    }
  }

  /** A jump from the ground is in the air for exactly 60 ticks after the
      take-off, lands on the 61st, and stays at rest on the ground from then on. */
  lemma {:induction false} JumpDuration(n: nat)
    ensures JumpSteps(StartJump(Body(0.0, 0.0, false)), n).jumping <==> n <= AIRBORNE_TICKS
    ensures n > AIRBORNE_TICKS ==> JumpSteps(StartJump(Body(0.0, 0.0, false)), n) == Body(0.0, 0.0, false)
  {
    if 0 < n <= AIRBORNE_TICKS {
      Airborne(n);
    } else if n == AIRBORNE_TICKS + 1 {
      var m := n - 1;
      Airborne(m);
      TriClosed(m);
      assert Tri(m) == 1770;
      assert JumpHeight(m) == 0.3;
      assert JumpSteps(StartJump(Body(0.0, 0.0, false)), m) == Body(0.3, -0.3, true);
    } else if n > AIRBORNE_TICKS + 1 {
      JumpDuration(n - 1);
    }
  }

  /** checkRockDamage's contact test: within the rock's scaled radius and on the ground. */
  predicate RockContact(rock: SceneObject, x: real, y: real, z: real)
  {
    var r := ROCK_COLLISION_RADIUS * rock.scale;
    DistSq2(x, z, rock.x, rock.z) < r * r && y <= ROCK_CONTACT_HEIGHT
  }

  /** Index of the first rock the player touches, or |rocks|. */
  function FirstRockContact(rocks: seq<SceneObject>, x: real, y: real, z: real): (k: nat)
    ensures k <= |rocks|
    ensures k < |rocks| ==> RockContact(rocks[k], x, y, z)
    ensures forall j :: 0 <= j < k ==> !RockContact(rocks[j], x, y, z)
  {
    if rocks == [] then 0
    else if RockContact(rocks[0], x, y, z) then 0
    else 1 + FirstRockContact(rocks[1..], x, y, z)
  }

  /** Health, time of the last damage, and screen-shake amplitude. */
  datatype Vitals = Vitals(health: real, lastDamage: real, shake: real)

  predicate VitalsOk(v: Vitals)
  {
    0.0 <= v.health <= MAX_HEALTH && 0.0 <= v.shake <= MAX_SHAKE_AMPLITUDE
  }

  /** Health after one hit: 25 less, but never below 0. */
  function Damaged(health: real): (h: real)
    ensures h >= 0.0 && (h == health - ROCK_DAMAGE || h == 0.0)
    ensures health >= ROCK_DAMAGE ==> h == health - ROCK_DAMAGE
    ensures health < ROCK_DAMAGE ==> h == 0.0
  {
    var h := health - ROCK_DAMAGE;
    if h < 0.0 then 0.0 else h
  }

  /** checkRockDamage at time `now`: during the cooldown nothing happens;
      otherwise, when the player touches some rock, one hit is taken, the time
      is recorded and the screen starts shaking. */
  function RockDamage(v: Vitals, now: real, rocks: seq<SceneObject>, x: real, y: real, z: real): Vitals
  {
    if now - v.lastDamage < DAMAGE_COOLDOWN then v
    else if FirstRockContact(rocks, x, y, z) < |rocks| then
      Vitals(Damaged(v.health), now, MAX_SHAKE_AMPLITUDE)
    else v
  }

  /** Damage happens exactly when the cooldown has elapsed and the player
      touches some rock (which rock does not matter), and then exactly one hit
      is taken; health stays in [0, 100]. */
  lemma RockDamageSpec(v: Vitals, now: real, rocks: seq<SceneObject>, x: real, y: real, z: real)
    requires 0.0 <= v.health <= MAX_HEALTH
    ensures var r := RockDamage(v, now, rocks, x, y, z);
      0.0 <= r.health <= v.health &&
      (now - v.lastDamage < DAMAGE_COOLDOWN ==> r == v) &&
      ((forall k :: 0 <= k < |rocks| ==> !RockContact(rocks[k], x, y, z)) ==> r == v) &&
      (!(now - v.lastDamage < DAMAGE_COOLDOWN) && (exists k :: 0 <= k < |rocks| && RockContact(rocks[k], x, y, z)) ==>
         r == Vitals(Damaged(v.health), now, MAX_SHAKE_AMPLITUDE))
  {
    var k := FirstRockContact(rocks, x, y, z);
    if exists j :: 0 <= j < |rocks| && RockContact(rocks[j], x, y, z) {
      var j :| 0 <= j < |rocks| && RockContact(rocks[j], x, y, z);
      assert k <= j;
    }
  }

  /** The scan of checkRockDamage: outside the cooldown, the rocks are tried
      in order and the first one touched deals the hit. */
  method ScanRocks(v: Vitals, now: real, rocks: seq<SceneObject>, x: real, y: real, z: real) returns (r: Vitals)
    ensures r == RockDamage(v, now, rocks, x, y, z)
  {
    if now - v.lastDamage < DAMAGE_COOLDOWN {
      return v;
    }
    var i := 0;
    while i < |rocks|
      invariant 0 <= i <= |rocks|
      invariant forall k :: 0 <= k < i ==> !RockContact(rocks[k], x, y, z)
    {
      var rock := rocks[i];
      var minDistance := ROCK_COLLISION_RADIUS * rock.scale;
      if DistSq2(x, z, rock.x, rock.z) < minDistance * minDistance && y <= ROCK_CONTACT_HEIGHT {
        assert RockContact(rocks[i], x, y, z);
        assert FirstRockContact(rocks, x, y, z) == i;
        var health := v.health - ROCK_DAMAGE;
        if health < 0.0 {
          health := 0.0;
        }
        return Vitals(health, now, MAX_SHAKE_AMPLITUDE);
      }
      i := i + 1;
    }
    assert FirstRockContact(rocks, x, y, z) == |rocks|;
    return v;
  }

  /** Standing on a rock across several ticks costs one hit per cooldown: a
      second check less than a second after a hit changes nothing. */
  lemma NoDamageWithinCooldown(v: Vitals, t1: real, t2: real, rocks: seq<SceneObject>, x: real, y: real, z: real)
    requires RockDamage(v, t1, rocks, x, y, z).lastDamage == t1 && t1 - v.lastDamage >= DAMAGE_COOLDOWN
    requires t2 - t1 < DAMAGE_COOLDOWN
    ensures var w := RockDamage(v, t1, rocks, x, y, z);
      RockDamage(w, t2, rocks, x, y, z) == w
  {
  }

  /** updateScreenShake: above the threshold the amplitude decays by 0.9 a
      tick, at or below it the shake stops. */
  function ShakeDecay(s: real): real
  {
    if s > SHAKE_THRESHOLD then s * SHAKE_DECAY else 0.0
  }

  /** The shake never grows, stays in [0, 0.2] once there, and every tick it
      is still on it loses at least a tenth of itself. */
  lemma ShakeDecaySpec(s: real)
    requires 0.0 <= s <= MAX_SHAKE_AMPLITUDE
    ensures 0.0 <= ShakeDecay(s) <= s
    ensures ShakeDecay(s) > 0.0 ==> ShakeDecay(s) <= s - s / 10.0 && s > SHAKE_THRESHOLD
    ensures s <= SHAKE_THRESHOLD ==> ShakeDecay(s) == 0.0
  {
  }
}
