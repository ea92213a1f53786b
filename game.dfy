/** The world: every piece of game state the rules read or write, and the
    rules themselves as methods that update it in place, each tied to the
    specification functions of the modules it draws on. */
module Game {
  import opened Common
  import opened Geometry
  import opened Scene
  import opened Bullets
  import opened Targets
  import opened Ammo
  import opened AmmoBoxes
  import opened Explosions
  import opened Player
  import opened GameState

  /** The keys myKeyboard reacts to while the game runs. */
  datatype Key = ReloadKey | FirstPersonKey | ThirdPersonKey | ForwardKey | BackwardKey
               | TurnLeftKey | TurnRightKey | JumpKey | OtherKey

  /** The part of the world myKeyboard reads and writes. */
  datatype Controls = Controls(mag: Magazine, firstPerson: bool, x: real, z: real, rotation: real,
                               body: Body, spacePressed: bool)

  predicate ControlsOk(c: Controls)
  {
    MagazineOk(c.mag) && IsYaw(c.rotation) && IsWithinMapBounds(c.x, c.z) && BodyOk(c.body)
  }

  /** The 'w'/'s' step: the player moves by the step along the yaw when not
      below the ground and the target is free and inside the map. */
  function Walk(c: Controls, objs: seq<SceneObject>, level: int, trig: Trig, forward: bool): Controls
  {
    var (nx, nz) := StepTarget(c.x, c.z, trig(c.rotation), forward);
    if c.body.y >= 0.0 && MoveAllowed(objs, level, trig, nx, nz) then c.(x := nx, z := nz) else c
  }

  /** The effect of one key press while the game runs, on the scene `objs` of
      `level`. */
  function Press(c: Controls, key: Key, objs: seq<SceneObject>, level: int, trig: Trig): Controls
  {
    match key
    case ReloadKey => c.(mag := Ammo.StartReload(c.mag))
    case FirstPersonKey => c.(firstPerson := true)
    case ThirdPersonKey => c.(firstPerson := false)
    case ForwardKey => Walk(c, objs, level, trig, true)
    case BackwardKey => Walk(c, objs, level, trig, false)
    case TurnLeftKey => c.(rotation := TurnLeft(c.rotation))
    case TurnRightKey => c.(rotation := TurnRight(c.rotation))
    case JumpKey => c.(body := StartJump(c.body), spacePressed := true)
    case OtherKey => c
  }

  /** A key press keeps the magazine, the yaw, the position and the body
      valid; each group changes only under its own keys, and the position only
      to a free spot inside the map. */
  lemma PressSpec(c: Controls, key: Key, objs: seq<SceneObject>, level: int, trig: Trig)
    requires ControlsOk(c)
    ensures var d := Press(c, key, objs, level, trig);
      ControlsOk(d) &&
      (d.mag != c.mag ==> key == ReloadKey) &&
      (d.rotation != c.rotation ==> key == TurnLeftKey || key == TurnRightKey) &&
      (d.body != c.body ==> key == JumpKey) &&
      ((d.x, d.z) != (c.x, c.z) ==>
        (key == ForwardKey || key == BackwardKey) && MoveAllowed(objs, level, trig, d.x, d.z))
  {
    MagazineOkPreserved(c.mag);
    TurnSpec(c.rotation);
    StartJumpSpec(c.body);
  }

  /** 'a' then 'd', or 'd' then 'a', gives back the controls unchanged. */
  lemma TurnKeysCancel(c: Controls, objs: seq<SceneObject>, level: int, trig: Trig)
    requires IsYaw(c.rotation)
    ensures Press(Press(c, TurnLeftKey, objs, level, trig), TurnRightKey, objs, level, trig) == c
    ensures Press(Press(c, TurnRightKey, objs, level, trig), TurnLeftKey, objs, level, trig) == c
  {
    TurnSpec(c.rotation);
  }

  /** Holding a key that does not move the player has no further effect after
      the first press. */
  lemma PressIdempotent(c: Controls, key: Key, objs: seq<SceneObject>, level: int, trig: Trig)
    requires ControlsOk(c)
    requires key in {ReloadKey, FirstPersonKey, ThirdPersonKey, JumpKey, OtherKey}
    ensures var d := Press(c, key, objs, level, trig); Press(d, key, objs, level, trig) == d
  {
    StartReloadIdempotent(c.mag);
  }

  /** The placement work of LoadAssets for `level`, on values: the scene, then
      the targets on it, then the ammo boxes, threading the rand() cursor. */
  method LoadLevel(level: int, prior: seq<SceneObject>, rand: RandStream, trig: Trig, cursor: nat)
    returns (obstacles: seq<SceneObject>, hazards: seq<SceneObject>, targets: seq<Target>,
             boxes: seq<AmmoBox>, next: nat, ghost sceneEnd: nat, ghost targetsEnd: nat)
    ensures obstacles == SceneObstacles(level, prior, rand, cursor)
    ensures hazards == SceneHazards(level, rand, cursor)
    ensures sceneEnd == cursor + SceneDraws(level)
    ensures targets == Batch(level, obstacles, rand, trig, sceneEnd)
    ensures targetsEnd == DrawStart(level, sceneEnd, |targets|)
    ensures boxes == BoxBatch(level, rand, targetsEnd)
    ensures next == targetsEnd + BOX_DRAWS * NUM_AMMO_BOXES
    ensures AnchoredIn(targets, |obstacles|)
    ensures BoxesOk(boxes)
  {
    var c1, c2;
    obstacles, hazards, c1 := PlaceScene(level, prior, rand, cursor);
    targets, c2 := BuildTargets(level, obstacles, rand, trig, c1);
    BatchAnchored(level, obstacles, rand, trig, c1);
    boxes, next := PlaceBoxes(level, rand, c2);
    BoxBatchSpec(level, rand, c2);
    sceneEnd, targetsEnd := c1, c2;
  }

  class World {
    /** The platform services: the rand() results in call order, and the
        trigonometry the rules use. */
    const rand: RandStream
    const trig: Trig
    /** How many rand() results the game has used so far. */
    var randCursor: nat

    var trees: seq<SceneObject>       // treePositions: trees in level 1, walls in level 2
    var rocks: seq<SceneObject>       // rockPositions: rocks in level 1, chairs in level 2
    var bullets: seq<Bullet>
    var targets: seq<Target>
    var ammoBoxes: seq<AmmoBox>
    var explosions: seq<Explosion>

    /** currentLevel, playerScore, doorSpawned, levelDoor, gameOver, playerWon. */
    var progress: Progress
    var levelCompleted: bool
    var gameTimer: real

    var playerX: real
    var playerZ: real
    var playerRotation: real
    /** playerY, jumpVelocity, isJumping. */
    var body: Body
    /** playerHealth, lastDamageTime, shakeAmplitude. */
    var vitals: Vitals
    var isSpacePressed: bool
    var isFirstPerson: bool
    var isAiming: bool
    var isShooting: bool

    /** currentAmmo, ammoReserves, isReloading, currentReloadTime. */
    var mag: Magazine
    var lastShotTime: real
    var shootingCooldown: real
    var currentBulletDamage: real

    /** What myKeyboard reads and writes. */
    function Ctl(): Controls
      reads this`mag, this`isFirstPerson, this`playerX, this`playerZ, this`playerRotation, this`body,
            this`isSpacePressed
    {
      Controls(mag, isFirstPerson, playerX, playerZ, playerRotation, body, isSpacePressed)
    }

    /** What an ammo box pickup reads and writes. */
    function Kit(): Loadout
      reads this`currentBulletDamage, this`shootingCooldown, this`mag
    {
      Loadout(currentBulletDamage, shootingCooldown, mag.reserves)
    }

    /** The world invariant: each group of globals within its bounds. */
    predicate Valid()
      reads this
    {
      MagazineOk(mag) && CooldownOk(shootingCooldown) && ProgressOk(progress) &&
      BodyOk(body) && VitalsOk(vitals) && IsYaw(playerRotation) && IsWithinMapBounds(playerX, playerZ) &&
      AnchoredIn(targets, |trees|) && LifetimesOk(bullets) && BoxesOk(ammoBoxes) && ExplosionsOk(explosions)
    }

    /** The state the globals start in, before LoadAssets places the scene. */
    constructor(rand: RandStream, trig: Trig)
      ensures Valid()
      ensures this.rand == rand && this.trig == trig && randCursor == 0
      ensures progress == Start() && mag == FullMagazine() && gameTimer == GAME_TIME_LIMIT
      ensures playerX == 0.0 && playerZ == 0.0 && playerRotation == 0.0
      ensures vitals == Vitals(MAX_HEALTH, 0.0, 0.0) && body == Body(0.0, 0.0, false)
      ensures lastShotTime == 0.0 && shootingCooldown == NORMAL_FIRE_COOLDOWN && currentBulletDamage == REGULAR_DAMAGE
      ensures !levelCompleted && !isSpacePressed && !isFirstPerson && !isAiming && !isShooting
      ensures trees == [] && rocks == [] && bullets == [] && targets == [] && ammoBoxes == [] && explosions == []
    {
      this.rand := rand;
      this.trig := trig;
      randCursor := 0;
      trees, rocks, bullets, targets, ammoBoxes, explosions := [], [], [], [], [], [];
      progress := Progress(1, 0, false, NO_DOOR, false, false);
      levelCompleted, gameTimer := false, GAME_TIME_LIMIT;
      playerX, playerZ, playerRotation := 0.0, 0.0, 0.0;
      body := Body(0.0, 0.0, false);
      vitals := Vitals(MAX_HEALTH, 0.0, 0.0);
      isSpacePressed, isFirstPerson, isAiming, isShooting := false, false, false, false;
      mag := Magazine(MAX_AMMO, 0, false, 0.0);
      lastShotTime, shootingCooldown, currentBulletDamage := 0.0, NORMAL_FIRE_COOLDOWN, REGULAR_DAMAGE;
    }

    /** StartReload. */
    method StartReload()
      requires MagazineOk(mag)
      modifies this`mag
      ensures MagazineOk(mag) && mag == Ammo.StartReload(old(mag))
    {
      MagazineOkPreserved(mag);
      if !mag.reloading && mag.ammo < MAX_AMMO && mag.reserves > 0 {
        mag := mag.(reloading := true, reloadTime := 0.0);
      }
    }

    /** UpdateReload: one tick of the reload timer, completing the reload when
        the reload time is reached. */
    method UpdateReload()
      requires MagazineOk(mag)
      modifies this`mag
      ensures MagazineOk(mag) && mag == ReloadTick(old(mag))
    {
      MagazineOkPreserved(mag);
      if mag.reloading {
        mag := mag.(reloadTime := mag.reloadTime + TICK);
        if mag.reloadTime >= RELOAD_TIME {
          var ammoNeeded := MAX_AMMO - mag.ammo;
          var ammoToAdd := Min(ammoNeeded, mag.reserves);
          mag := Magazine(mag.ammo + ammoToAdd, mag.reserves - ammoToAdd, false, 0.0);
        }
      }
    }

    /** ShootBullet at time `now`, along the unit direction `aim`, with the
        camera at `eye`: when the gate lets the shot through, the bullet takes
        the first free slot (or a new one), one round leaves the magazine and
        the time is recorded; otherwise nothing changes. */
    method ShootBullet(now: real, aim: Vec3, eye: Vec3)
      requires MagazineOk(mag) && LifetimesOk(bullets)
      modifies this`bullets, this`mag, this`lastShotTime
      ensures MagazineOk(mag) && LifetimesOk(bullets)
      ensures !ShotAllowed(progress.gameOver, now, old(lastShotTime), shootingCooldown, old(mag)) ==>
        bullets == old(bullets) && mag == old(mag) && lastShotTime == old(lastShotTime)
      ensures ShotAllowed(progress.gameOver, now, old(lastShotTime), shootingCooldown, old(mag)) ==>
        var m := Muzzle(isAiming || isFirstPerson, eye, playerX, body.y, playerZ, aim);
        bullets == Acquire(old(bullets), Fired(m.x, m.y, m.z, aim.x, aim.y, aim.z, playerRotation)) &&
        mag == Fire(old(mag)) && lastShotTime == now
    {
      if progress.gameOver {
        return;
      }
      if now - lastShotTime < shootingCooldown {
        return;
      }
      if mag.ammo <= 0 || mag.reloading {
        return;
      }
      var spawn := Muzzle(isAiming || isFirstPerson, eye, playerX, body.y, playerZ, aim);
      var nb := Fired(spawn.x, spawn.y, spawn.z, aim.x, aim.y, aim.z, playerRotation);
      var bs := bullets;
      var i := 0;
      while i < |bs| && bs[i].active
        invariant 0 <= i <= |bs|
        invariant forall j :: 0 <= j < i ==> bs[j].active
      {
        i := i + 1;
      }
      FirstFreeUnique(bs, i);
      LifetimesPreserved(bs, nb);
      MagazineOkPreserved(mag);
      if i < |bs| {
        bullets := bs[i := nb];
      } else {
        bullets := bs + [nb];
      }
      mag := mag.(ammo := mag.ammo - 1);
      lastShotTime := now;
    }

    /** UpdateBullets: every bullet in flight moves and ages, and is retired on
        reaching its maximum lifetime. */
    method UpdateBullets()
      requires LifetimesOk(bullets)
      modifies this`bullets
      ensures LifetimesOk(bullets) && bullets == AgeBullets(old(bullets))
    {
      LifetimesPreserved(bullets, Fired(0.0, 0.0, 0.0, 0.0, 0.0, 0.0, 0.0));
      var bs := bullets;
      var i := 0;
      while i < |bs|
        invariant 0 <= i <= |bs| == |bullets|
        invariant forall j :: 0 <= j < i ==> bs[j] == AgeBullet(bullets[j])
        invariant forall j :: i <= j < |bs| ==> bs[j] == bullets[j]
      {
        bs := bs[i := AgeBullet(bs[i])];
        i := i + 1;
      }
      bullets := bs;
    }

    /** updateScreenShake: the shake decays, drawing two rand() results for
        the jitter of this frame while it is still on. */
    method UpdateScreenShake()
      requires VitalsOk(vitals)
      modifies this`vitals, this`randCursor
      ensures VitalsOk(vitals) && vitals == old(vitals).(shake := ShakeDecay(old(vitals).shake))
      ensures randCursor == old(randCursor) + if old(vitals).shake > SHAKE_THRESHOLD then SHAKE_DRAWS else 0
    {
      ShakeDecaySpec(vitals.shake);
      if vitals.shake > SHAKE_THRESHOLD {
        randCursor := randCursor + SHAKE_DRAWS;
        vitals := vitals.(shake := vitals.shake * SHAKE_DECAY);
      } else {
        vitals := vitals.(shake := 0.0);
      }
    }

    /** The jump integration of updateScene. */
    method IntegrateJump()
      requires BodyOk(body)
      modifies this`body
      ensures BodyOk(body) && body == JumpStep(old(body))
    {
      JumpStepSpec(body);
      if body.jumping {
        var nextY := body.y + body.velocity;
        body := body.(velocity := body.velocity - GRAVITY);
        if nextY <= 0.0 {
          body := Body(0.0, 0.0, false);
        } else {
          body := body.(y := nextY);
        }
      } else {
        body := body.(y := if body.y < 0.0 then 0.0 else body.y);
      }
    }

    /** checkRockDamage at time `now`: outside the cooldown, the first rock the
        player touches costs 25 health, records the time and starts the shake. */
    method CheckRockDamage(now: real)
      requires VitalsOk(vitals)
      modifies this`vitals
      ensures VitalsOk(vitals) && vitals == RockDamage(old(vitals), now, rocks, playerX, body.y, playerZ)
    {
      RockDamageSpec(vitals, now, rocks, playerX, body.y, playerZ);
      vitals := ScanRocks(vitals, now, rocks, playerX, body.y, playerZ);
    }

    /** myKeyboard: nothing once the game is over; otherwise the key's effect
        as Press describes it. */
    method Keyboard(key: Key)
      requires MagazineOk(mag) && BodyOk(body) && IsYaw(playerRotation) && IsWithinMapBounds(playerX, playerZ)
      modifies this`mag, this`isFirstPerson, this`playerX, this`playerZ, this`playerRotation, this`body,
               this`isSpacePressed
      ensures MagazineOk(mag) && BodyOk(body) && IsYaw(playerRotation) && IsWithinMapBounds(playerX, playerZ)
      ensures Ctl() == if progress.gameOver then old(Ctl()) else Press(old(Ctl()), key, trees, progress.level, trig)
    {
      if progress.gameOver {
        return;
      }
      match key {
        case ReloadKey =>
          StartReload();
        case FirstPersonKey =>
          isFirstPerson := true;
        case ThirdPersonKey =>
          isFirstPerson := false;
        case ForwardKey =>
          Step(true);
        case BackwardKey =>
          Step(false);
        case TurnLeftKey =>
          Turn(true);
        case TurnRightKey =>
          Turn(false);
        case JumpKey =>
          Jump();
        case OtherKey =>
      }
    }

    /** The 'w' (forward) and 's' (backward) step of myKeyboard. */
    method Step(forward: bool)
      requires IsWithinMapBounds(playerX, playerZ)
      modifies this`playerX, this`playerZ
      ensures IsWithinMapBounds(playerX, playerZ)
      ensures var c := Walk(old(Ctl()), trees, progress.level, trig, forward); playerX == c.x && playerZ == c.z
    {
      var h := trig(playerRotation);
      var dx := MOVE_SPEED * h.sin;
      var dz := MOVE_SPEED * h.cos;
      if body.y >= 0.0 {
        var newX := if forward then playerX + dx else playerX - dx;
        var newZ := if forward then playerZ + dz else playerZ - dz;
        if !CheckCollision(trees, progress.level, trig, newX, newZ) && IsWithinMapBounds(newX, newZ) {
          playerX, playerZ := newX, newZ;
        }
      }
    }

    /** The 'a' (left) and 'd' (right) turn of myKeyboard, wrapped back into
        [0, 360). */
    method Turn(left: bool)
      requires IsYaw(playerRotation)
      modifies this`playerRotation
      ensures IsYaw(playerRotation)
      ensures playerRotation == if left then TurnLeft(old(playerRotation)) else TurnRight(old(playerRotation))
    {
      TurnSpec(playerRotation);
      if left {
        playerRotation := playerRotation + TURN_STEP;
        if playerRotation >= 360.0 {
          playerRotation := playerRotation - 360.0;
        }
      } else {
        playerRotation := playerRotation - TURN_STEP;
        if playerRotation < 0.0 {
          playerRotation := playerRotation + 360.0;
        }
      }
    }

    /** The turning part of myMotion: while aiming, a horizontal mouse
        offset of `dx` pixels turns the player. */
    method MouseLook(dx: int)
      modifies this`playerRotation
      ensures playerRotation == if isAiming then MouseTurn(old(playerRotation), dx) else old(playerRotation)
      ensures IsYaw(old(playerRotation)) && -MAX_WRAPPED_OFFSET <= dx <= MAX_WRAPPED_OFFSET ==> IsYaw(playerRotation)
    {
      if isAiming {
        if IsYaw(playerRotation) {
          MouseTurnSpec(playerRotation, dx);
        }
        playerRotation := playerRotation - dx as real * MOUSE_SENSITIVITY;
        if playerRotation >= 360.0 {
          playerRotation := playerRotation - 360.0;
        }
        if playerRotation < 0.0 {
          playerRotation := playerRotation + 360.0;
        }
      }
    }

    /** The space bar of myKeyboard: a grounded player takes off. */
    method Jump()
      requires BodyOk(body)
      modifies this`body, this`isSpacePressed
      ensures BodyOk(body) && body == StartJump(old(body)) && isSpacePressed
    {
      StartJumpSpec(body);
      if !body.jumping && body.y <= 0.0 {
        body := body.(jumping := true, velocity := JUMP_FORCE);
      }
      isSpacePressed := true;
    }

    /** CreateExplosion at (x, y, z): thirty fresh particles, each drawing four
        rand() results (direction, elevation, speed, colour). */
    method CreateExplosion(x: real, y: real, z: real)
      modifies this`explosions, this`randCursor
      ensures explosions == old(explosions) + [Burst(x, y, z)]
      ensures randCursor == old(randCursor) + PARTICLES_PER_EXPLOSION * PARTICLE_DRAWS
    {
      var particles: seq<Particle> := [];
      var next := randCursor;
      for i := 0 to PARTICLES_PER_EXPLOSION
        invariant |particles| == i && forall k :: 0 <= k < i ==> particles[k] == FreshParticle()
        invariant next == randCursor + PARTICLE_DRAWS * i
      {
        particles := particles + [FreshParticle()];
        next := next + PARTICLE_DRAWS;
      }
      assert particles == Burst(x, y, z).particles;
      explosions := explosions + [Explosion(x, y, z, particles, 0.0, EXPLOSION_LIFETIME, true)];
      randCursor := next;
    }

    /** UpdateExplosions: every active explosion ages; one that reaches its
        lifetime goes out, the others age their live particles. */
    method UpdateExplosions()
      requires ExplosionsOk(explosions)
      modifies this`explosions
      ensures ExplosionsOk(explosions) && explosions == TickExplosions(old(explosions))
    {
      var es := explosions;
      for i := 0 to |es|
        invariant |es| == |explosions|
        invariant forall k :: 0 <= k < i ==> es[k] == TickExplosion(explosions[k])
        invariant forall k :: i <= k < |es| ==> es[k] == explosions[k]
      {
        var e := es[i];
        if e.active {
          e := e.(lifetime := e.lifetime + TICK);
          if e.lifetime >= e.maxLifetime {
            e := e.(active := false);
          } else {
            var ps := e.particles;
            for j := 0 to |ps|
              invariant |ps| == |e.particles|
              invariant forall k :: 0 <= k < j ==> ps[k] == TickParticle(e.particles[k])
              invariant forall k :: j <= k < |ps| ==> ps[k] == e.particles[k]
            {
              var p := ps[j];
              if p.active {
                p := p.(lifetime := p.lifetime + TICK);
                if p.lifetime >= p.maxLifetime {
                  p := p.(active := false);
                }
              }
              ps := ps[j := p];
            }
            assert ps == TickParticles(e.particles);
            e := e.(particles := ps);
          }
        }
        es := es[i := e];
      }
      assert es == TickExplosions(explosions);
      TickExplosionsOk(explosions);
      explosions := es;
    }

    /** UpdateAmmoBoxRotations: every active box turns by its spin for one tick. */
    method UpdateAmmoBoxRotations()
      requires BoxesOk(ammoBoxes)
      modifies this`ammoBoxes
      ensures BoxesOk(ammoBoxes) && ammoBoxes == RotateBoxes(old(ammoBoxes))
    {
      var bs := ammoBoxes;
      for i := 0 to |bs|
        invariant |bs| == |ammoBoxes|
        invariant forall k :: 0 <= k < i ==> bs[k] == RotateBox(ammoBoxes[k])
        invariant forall k :: i <= k < |bs| ==> bs[k] == ammoBoxes[k]
      {
        var box := bs[i];
        if box.active {
          box := box.(rotation := box.rotation + box.rotationSpeed * TICK);
          if box.rotation >= 360.0 {
            box := box.(rotation := box.rotation - 360.0);
          }
        }
        bs := bs[i := box];
      }
      assert bs == RotateBoxes(ammoBoxes);
      RotateBoxesOk(ammoBoxes);
      ammoBoxes := bs;
    }

    /** UpdateAmmoBoxes: the respawn timers of collected boxes advance; a box
        whose timer reaches 30 s comes back at a fresh spot drawn from rand(). */
    method UpdateAmmoBoxes()
      requires BoxesOk(ammoBoxes)
      modifies this`ammoBoxes, this`randCursor
      ensures BoxesOk(ammoBoxes)
      ensures ammoBoxes == RespawnAll(old(ammoBoxes), rand, old(randCursor)).boxes
      ensures randCursor == RespawnAll(old(ammoBoxes), rand, old(randCursor)).next
    {
      RespawnAllOk(ammoBoxes, rand, randCursor);
      ammoBoxes, randCursor := RespawnBoxes(ammoBoxes, rand, randCursor);
    }

    /** CheckAmmoBoxCollection: every active box within reach is collected and
        applies its effect on the damage, the cooldown and the reserves. */
    method CheckAmmoBoxCollection()
      requires MagazineOk(mag) && CooldownOk(shootingCooldown) && BoxesOk(ammoBoxes)
      modifies this`ammoBoxes, this`currentBulletDamage, this`shootingCooldown, this`mag
      ensures MagazineOk(mag) && CooldownOk(shootingCooldown) && BoxesOk(ammoBoxes)
      ensures ammoBoxes == PickupBoxes(old(ammoBoxes), playerX, playerZ)
      ensures Kit() == PickupAll(progress.level, old(ammoBoxes), playerX, playerZ, old(Kit()))
      ensures mag == old(mag).(reserves := mag.reserves)
    {
      var boxes, kit := CollectBoxes(progress.level, ammoBoxes, playerX, playerZ, Kit());
      ammoBoxes := boxes;
      currentBulletDamage, shootingCooldown := kit.damage, kit.cooldown;
      mag := mag.(reserves := kit.reserves);
    }

    /** SpawnDoor: the exit door appears, active, at its fixed place. */
    method SpawnDoor()
      modifies this`progress
      ensures progress == old(progress).(doorSpawned := true, door := SpawnedDoor())
    {
      progress := progress.(door := Door(DOOR_X, DOOR_Y, DOOR_Z, 0.0, DOOR_SCALE, true));
      progress := progress.(doorSpawned := true);
    }

    /** CheckBulletTargetCollisions: the first bullet/target pair in scan
        order that collides blows up the target, retires both and scores a
        point; a batch with no target left is replaced at once. Nothing happens
        without a collision. */
    method CheckBulletTargetCollisions() returns (ghost scored: nat)
      requires LifetimesOk(bullets) && AnchoredIn(targets, |trees|) && ExplosionsOk(explosions)
      modifies this`bullets, this`targets, this`explosions, this`randCursor, this`progress
      ensures LifetimesOk(bullets) && AnchoredIn(targets, |trees|) && ExplosionsOk(explosions)
      ensures scored <= 1 && progress == old(progress).(score := old(progress).score + scored)
      ensures FirstHit(old(bullets), old(targets)).None? ==>
        scored == 0 && bullets == old(bullets) && targets == old(targets) && explosions == old(explosions) &&
        randCursor == old(randCursor)
      ensures FirstHit(old(bullets), old(targets)).Some? ==>
        var p := FirstHit(old(bullets), old(targets)).value;
        var t := old(targets)[p.target];
        var struck := old(targets)[p.target := t.(active := false)];
        var c := old(randCursor) + PARTICLES_PER_EXPLOSION * PARTICLE_DRAWS;
        scored == 1 &&
        bullets == old(bullets)[p.bullet := old(bullets)[p.bullet].(active := false)] &&
        explosions == old(explosions) + [Burst(t.x, t.y, t.z)] &&
        (if AllInactive(struck)
         then targets == Batch(progress.level, trees, rand, trig, c) &&
              randCursor == DrawStart(progress.level, c, |targets|)
         else targets == struck && randCursor == c)
    {
      var hit := ScanHits(bullets, targets);
      if hit.None? {
        return 0;
      }
      var p := hit.value;
      ghost var c, level := randCursor, progress.level;
      ghost var t := targets[p.target];
      ghost var struck := targets[p.target := t.(active := false)];
      assert c == old(randCursor) && hit == FirstHit(old(bullets), old(targets));
      Score(p.bullet, p.target);
      assert level == progress.level;
      assert AllInactive(struck) ==>
        targets == Batch(level, trees, rand, trig, c + PARTICLES_PER_EXPLOSION * PARTICLE_DRAWS);
      scored := 1;
    }

    /** What a hit of bullet `i` on target `j` sets off: the strike, then the
        refill of a batch with no target left. */
    method Score(i: nat, j: nat)
      requires i < |bullets| && j < |targets|
      requires LifetimesOk(bullets) && AnchoredIn(targets, |trees|) && ExplosionsOk(explosions)
      modifies this`bullets, this`targets, this`explosions, this`randCursor, this`progress
      ensures LifetimesOk(bullets) && AnchoredIn(targets, |trees|) && ExplosionsOk(explosions)
      ensures progress == old(progress).(score := old(progress).score + 1)
      ensures var t := old(targets)[j];
        var struck := old(targets)[j := t.(active := false)];
        var c := old(randCursor) + PARTICLES_PER_EXPLOSION * PARTICLE_DRAWS;
        bullets == old(bullets)[i := old(bullets)[i].(active := false)] &&
        explosions == old(explosions) + [Burst(t.x, t.y, t.z)] &&
        (if AllInactive(struck)
         then targets == Batch(progress.level, trees, rand, trig, c) &&
              randCursor == DrawStart(progress.level, c, |targets|)
         else targets == struck && randCursor == c)
    {
      Strike(i, j);
      RefillTargets();
    }

    /** The hit itself: an explosion at the target, the target and the bullet
        retired, one point scored. */
    method Strike(i: nat, j: nat)
      requires i < |bullets| && j < |targets|
      requires LifetimesOk(bullets) && AnchoredIn(targets, |trees|) && ExplosionsOk(explosions)
      modifies this`bullets, this`targets, this`explosions, this`randCursor, this`progress
      ensures LifetimesOk(bullets) && AnchoredIn(targets, |trees|) && ExplosionsOk(explosions)
      ensures var t := old(targets)[j];
        bullets == old(bullets)[i := old(bullets)[i].(active := false)] &&
        targets == old(targets)[j := t.(active := false)] &&
        explosions == old(explosions) + [Burst(t.x, t.y, t.z)] &&
        randCursor == old(randCursor) + PARTICLES_PER_EXPLOSION * PARTICLE_DRAWS &&
        progress == old(progress).(score := old(progress).score + 1)
    {
      var t := targets[j];
      BurstOk(t.x, t.y, t.z);
      ghost var before := explosions;
      CreateExplosion(t.x, t.y, t.z);
      assert forall k :: 0 <= k < |before| ==> explosions[k] == before[k];
      targets := targets[j := t.(active := false)];
      bullets := bullets[i := bullets[i].(active := false)];
      progress := progress.(score := progress.score + 1);
    }

    /** The allTargetsHit check after a hit: a batch with no target left is
        replaced by a fresh one. */
    method RefillTargets()
      requires AnchoredIn(targets, |trees|)
      modifies this`targets, this`randCursor
      ensures AnchoredIn(targets, |trees|)
      ensures if AllInactive(old(targets))
        then targets == Batch(progress.level, trees, rand, trig, old(randCursor)) &&
             randCursor == DrawStart(progress.level, old(randCursor), |targets|)
        else targets == old(targets) && randCursor == old(randCursor)
    {
      var allHit := NoneActive(targets);
      if allHit {
        SpawnTargets();
      }
    }

    /** CheckGameState: the first branch of the chain that applies fires. The
        door entry also starts the next level: fresh ammo boxes for it, a full
        magazine with no reserves, a full timer and the player back at the
        origin facing 0. */
    method CheckGameState()
      requires MagazineOk(mag) && ProgressOk(progress) && BodyOk(body) && IsYaw(playerRotation)
      requires IsWithinMapBounds(playerX, playerZ) && BoxesOk(ammoBoxes)
      modifies this`progress, this`levelCompleted, this`ammoBoxes, this`randCursor, this`mag, this`gameTimer,
               this`playerX, this`playerZ, this`playerRotation, this`body
      ensures MagazineOk(mag) && ProgressOk(progress) && BodyOk(body) && IsYaw(playerRotation)
      ensures IsWithinMapBounds(playerX, playerZ) && BoxesOk(ammoBoxes)
      ensures progress == GameState.CheckGameState(old(progress), AtDoor(old(progress).door, old(playerX), old(playerZ)),
                                                   old(gameTimer) <= 0.0, vitals.health <= 0.0)
      ensures var b := Decide(old(progress), AtDoor(old(progress).door, old(playerX), old(playerZ)),
                              old(gameTimer) <= 0.0, vitals.health <= 0.0);
        if b == EnterDoor then
          levelCompleted && ammoBoxes == BoxBatch(progress.level, rand, old(randCursor)) &&
          randCursor == old(randCursor) + BOX_DRAWS * NUM_AMMO_BOXES &&
          mag == FullMagazine() && gameTimer == GAME_TIME_LIMIT &&
          playerX == 0.0 && playerZ == 0.0 && playerRotation == 0.0 && body == old(body).(y := 0.0)
        else
          levelCompleted == old(levelCompleted) && ammoBoxes == old(ammoBoxes) && randCursor == old(randCursor) &&
          mag == old(mag) && gameTimer == old(gameTimer) && playerX == old(playerX) && playerZ == old(playerZ) &&
          playerRotation == old(playerRotation) && body == old(body)
    {
      if progress.gameOver {
        return;
      }
      if progress.level == MAX_LEVEL && progress.score >= WINNING_SCORE {
        progress := progress.(gameOver := true, won := true);
      } else if progress.level < MAX_LEVEL && progress.score >= WINNING_SCORE && !progress.doorSpawned {
        SpawnDoor();
      } else if progress.doorSpawned && progress.door.active {
        var d := progress.door;
        if DistSq2(playerX, playerZ, d.x, d.z) < DOOR_INTERACTION_RADIUS * DOOR_INTERACTION_RADIUS {
          EnterLevel();
        }
      } else if gameTimer <= 0.0 || vitals.health <= 0.0 {
        progress := progress.(gameOver := true, won := false);
      }
    }

    /** The door entry of CheckGameState: the next level starts with fresh
        ammo boxes, a full magazine with no reserves, a full timer and the
        player back at the origin facing 0 and on the ground. */
    method EnterLevel()
      requires MagazineOk(mag) && BodyOk(body) && BoxesOk(ammoBoxes) && ProgressOk(progress)
      requires progress.doorSpawned
      modifies this`progress, this`levelCompleted, this`ammoBoxes, this`randCursor, this`mag, this`gameTimer,
               this`playerX, this`playerZ, this`playerRotation, this`body
      ensures MagazineOk(mag) && BodyOk(body) && BoxesOk(ammoBoxes) && ProgressOk(progress)
      ensures progress == old(progress).(level := old(progress).level + 1, score := 0, doorSpawned := false,
                                         door := old(progress).door.(active := false))
      ensures levelCompleted && ammoBoxes == BoxBatch(progress.level, rand, old(randCursor))
      ensures randCursor == old(randCursor) + BOX_DRAWS * NUM_AMMO_BOXES
      ensures mag == FullMagazine() && gameTimer == GAME_TIME_LIMIT
      ensures playerX == 0.0 && playerZ == 0.0 && playerRotation == 0.0 && body == old(body).(y := 0.0)
    {
      levelCompleted := true;
      progress := progress.(level := progress.level + 1, score := 0, doorSpawned := false,
                            door := progress.door.(active := false));
      SpawnAmmoBoxes();
      mag := Magazine(MAX_AMMO, 0, false, 0.0);
      gameTimer := GAME_TIME_LIMIT;
      playerX, playerZ, playerRotation := 0.0, 0.0, 0.0;
      body := body.(y := 0.0);
    }

    /** updateScene, one timer tick at time `now`, shooting along `aim` from
        the camera at `eye` while the trigger is held: the box spin, the game
        timer and the state check; then, while the game still runs, the jump,
        the shake, the rock damage, the bullets, the explosions, the reload, the
        hits, the box respawns, the pickups and the shot, in that order. Seen
        from the state machine this is one Tick: the check, then the points of
        this tick's hit. */
    method UpdateScene(now: real, aim: Vec3, eye: Vec3) returns (ghost scored: nat)
      requires Valid()
      modifies this
      ensures Valid()
      ensures old(progress.gameOver) ==> unchanged(this)
      ensures !old(progress.gameOver) ==>
        var o := Observation(AtDoor(old(progress).door, old(playerX), old(playerZ)), old(gameTimer) - TICK <= 0.0,
                             old(vitals).health <= 0.0, scored);
        scored <= 1 && progress == Tick(old(progress), o) &&
        gameTimer == if Decide(old(progress), o.atDoor, o.timeUp, o.dead) == EnterDoor then GAME_TIME_LIMIT
                     else old(gameTimer) - TICK
    {
      scored := 0;
      if progress.gameOver {
        return;
      }
      BeginTick();
      if !progress.gameOver {
        scored := Advance(now, aim, eye);
      }
    }

    /** The part of updateScene that runs whether or not the check ends the
        game: the box spin, the game timer and the state check. */
    method BeginTick()
      requires Valid() && !progress.gameOver
      modifies this`progress, this`levelCompleted, this`ammoBoxes, this`randCursor, this`mag, this`gameTimer,
               this`playerX, this`playerZ, this`playerRotation, this`body
      ensures Valid()
      ensures var b := Decide(old(progress), AtDoor(old(progress).door, old(playerX), old(playerZ)),
                              old(gameTimer) - TICK <= 0.0, vitals.health <= 0.0);
        progress == GameState.CheckGameState(old(progress), AtDoor(old(progress).door, old(playerX), old(playerZ)),
                                             old(gameTimer) - TICK <= 0.0, vitals.health <= 0.0) &&
        gameTimer == if b == EnterDoor then GAME_TIME_LIMIT else old(gameTimer) - TICK
    {
      UpdateAmmoBoxRotations();
      gameTimer := gameTimer - TICK;
      CheckGameState();
    }

    /** The part of updateScene that runs while the game is not over. */
    method Advance(now: real, aim: Vec3, eye: Vec3) returns (ghost scored: nat)
      requires Valid()
      modifies this`body, this`vitals, this`randCursor, this`bullets, this`explosions, this`mag, this`targets,
               this`progress, this`ammoBoxes, this`currentBulletDamage, this`shootingCooldown, this`lastShotTime
      ensures Valid()
      ensures scored <= 1 && progress == old(progress).(score := old(progress).score + scored)
    {
      MoveAndAge(now);
      scored := Interact(now, aim, eye);
    }

    /** The first half of Advance: the player steps, then the timers. */
    method MoveAndAge(now: real)
      requires Valid()
      modifies this`body, this`vitals, this`randCursor, this`bullets, this`explosions, this`mag
      ensures Valid()
      ensures body == JumpStep(old(body))
      ensures vitals == RockDamage(old(vitals).(shake := ShakeDecay(old(vitals).shake)), now, rocks, playerX, body.y,
                                   playerZ)
      ensures bullets == AgeBullets(old(bullets)) && explosions == TickExplosions(old(explosions))
      ensures mag == ReloadTick(old(mag))
      ensures randCursor == old(randCursor) + if old(vitals).shake > SHAKE_THRESHOLD then SHAKE_DRAWS else 0
    {
      MovePlayer(now);
      AgeEffects();
    }

    /** The second half of Advance: the hits and respawns, then the pickups
        and the shot. */
    method Interact(now: real, aim: Vec3, eye: Vec3) returns (ghost scored: nat)
      requires Valid()
      modifies this`randCursor, this`bullets, this`explosions, this`mag, this`targets, this`progress,
               this`ammoBoxes, this`currentBulletDamage, this`shootingCooldown, this`lastShotTime
      ensures Valid()
      ensures scored <= 1 && progress == old(progress).(score := old(progress).score + scored)
    {
      scored := HitsAndRespawns();
      CollectAndShoot(now, aim, eye);
    }

    /** The player steps of updateScene: the jump, the shake, the rock damage
        (at the height after the jump step). */
    method MovePlayer(now: real)
      requires BodyOk(body) && VitalsOk(vitals)
      modifies this`body, this`vitals, this`randCursor
      ensures BodyOk(body) && VitalsOk(vitals)
      ensures body == JumpStep(old(body))
      ensures vitals == RockDamage(old(vitals).(shake := ShakeDecay(old(vitals).shake)), now, rocks, playerX, body.y,
                                   playerZ)
      ensures randCursor == old(randCursor) + if old(vitals).shake > SHAKE_THRESHOLD then SHAKE_DRAWS else 0
    {
      IntegrateJump();
      UpdateScreenShake();
      CheckRockDamage(now);
    }

    /** The timers of updateScene: the bullets, the explosions, the reload. */
    method AgeEffects()
      requires LifetimesOk(bullets) && ExplosionsOk(explosions) && MagazineOk(mag)
      modifies this`bullets, this`explosions, this`mag
      ensures LifetimesOk(bullets) && ExplosionsOk(explosions) && MagazineOk(mag)
      ensures bullets == AgeBullets(old(bullets)) && explosions == TickExplosions(old(explosions))
      ensures mag == ReloadTick(old(mag))
    {
      UpdateBullets();
      UpdateExplosions();
      UpdateReload();
    }

    /** The hits and the box respawns of updateScene. */
    method HitsAndRespawns() returns (ghost scored: nat)
      requires LifetimesOk(bullets) && AnchoredIn(targets, |trees|) && ExplosionsOk(explosions) && BoxesOk(ammoBoxes)
      modifies this`bullets, this`targets, this`explosions, this`randCursor, this`progress, this`ammoBoxes
      ensures LifetimesOk(bullets) && AnchoredIn(targets, |trees|) && ExplosionsOk(explosions) && BoxesOk(ammoBoxes)
      ensures scored <= 1 && progress == old(progress).(score := old(progress).score + scored)
    {
      scored := CheckBulletTargetCollisions();
      UpdateAmmoBoxes();
    }

    /** The pickups of updateScene, then the shot while the trigger is held. */
    method CollectAndShoot(now: real, aim: Vec3, eye: Vec3)
      requires BoxesOk(ammoBoxes) && MagazineOk(mag) && CooldownOk(shootingCooldown) && LifetimesOk(bullets)
      modifies this`ammoBoxes, this`currentBulletDamage, this`shootingCooldown, this`mag, this`bullets,
               this`lastShotTime
      ensures BoxesOk(ammoBoxes) && MagazineOk(mag) && CooldownOk(shootingCooldown) && LifetimesOk(bullets)
      ensures ammoBoxes == PickupBoxes(old(ammoBoxes), playerX, playerZ)
      ensures var kit := PickupAll(progress.level, old(ammoBoxes), playerX, playerZ, old(Kit()));
        currentBulletDamage == kit.damage && shootingCooldown == kit.cooldown
      ensures var loaded := old(mag).(reserves := PickupAll(progress.level, old(ammoBoxes), playerX, playerZ,
                                                            old(Kit())).reserves);
        if isShooting && ShotAllowed(progress.gameOver, now, old(lastShotTime), shootingCooldown, loaded) then
          var m := Muzzle(isAiming || isFirstPerson, eye, playerX, body.y, playerZ, aim);
          bullets == Acquire(old(bullets), Fired(m.x, m.y, m.z, aim.x, aim.y, aim.z, playerRotation)) &&
          mag == Fire(loaded) && lastShotTime == now
        else
          bullets == old(bullets) && mag == loaded && lastShotTime == old(lastShotTime)
    {
      CheckAmmoBoxCollection();
      if isShooting {
        ShootBullet(now, aim, eye);
      }
    }

    /** LoadAssets: the scene for the current level, then a batch of targets on
        it and a batch of ammo boxes, drawing rand() in that order; `sceneEnd`
        and `targetsEnd` are where the draws of the targets and of the boxes start. */
    method LoadAssets() returns (ghost sceneEnd: nat, ghost targetsEnd: nat)
      modifies this`trees, this`rocks, this`targets, this`ammoBoxes, this`randCursor
      ensures trees == SceneObstacles(progress.level, old(trees), rand, old(randCursor))
      ensures rocks == SceneHazards(progress.level, rand, old(randCursor))
      ensures sceneEnd == old(randCursor) + SceneDraws(progress.level)
      ensures targets == Batch(progress.level, trees, rand, trig, sceneEnd)
      ensures targetsEnd == DrawStart(progress.level, sceneEnd, |targets|)
      ensures ammoBoxes == BoxBatch(progress.level, rand, targetsEnd)
      ensures randCursor == targetsEnd + BOX_DRAWS * NUM_AMMO_BOXES
      ensures AnchoredIn(targets, |trees|) && BoxesOk(ammoBoxes)
    {
      var obstacles, hazards, batch, boxes, next;
      obstacles, hazards, batch, boxes, next, sceneEnd, targetsEnd :=
        LoadLevel(progress.level, trees, rand, trig, randCursor);
      trees, rocks, targets, ammoBoxes, randCursor := obstacles, hazards, batch, boxes, next;
    }

    /** SpawnTargets: a fresh batch for the current level on the current scene. */
    method SpawnTargets()
      modifies this`targets, this`randCursor
      ensures targets == Batch(progress.level, trees, rand, trig, old(randCursor))
      ensures randCursor == DrawStart(progress.level, old(randCursor), |targets|)
      ensures AnchoredIn(targets, |trees|)
    {
      var ts, next := BuildTargets(progress.level, trees, rand, trig, randCursor);
      BatchAnchored(progress.level, trees, rand, trig, randCursor);
      targets, randCursor := ts, next;
    }

    /** SpawnAmmoBoxes: five new boxes for the current level replace the old ones. */
    method SpawnAmmoBoxes()
      modifies this`ammoBoxes, this`randCursor
      ensures BoxesOk(ammoBoxes) && ammoBoxes == BoxBatch(progress.level, rand, old(randCursor))
      ensures randCursor == old(randCursor) + BOX_DRAWS * NUM_AMMO_BOXES
    {
      var boxes, next := PlaceBoxes(progress.level, rand, randCursor);
      BoxBatchSpec(progress.level, rand, randCursor);
      ammoBoxes, randCursor := boxes, next;
    }
  }
}
