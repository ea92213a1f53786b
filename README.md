# Thing-Shooter gameplay core in Dafny

Thing-Shooter (`OpenGLMeshLoader.cpp`) is a small first/third-person shooter. Across two levels the
player shoots targets hung on trees (level 1) or walls (level 2), collects ammo boxes, avoids rocks,
and walks through a door to reach the next level. This project models the rules behind the game,
which keep all their state in globals and run on a 16 ms timer. It leaves out the rendering and the
window system. The modelled rules are:

- **Ammo economy** (`Ammo`). A five-round magazine, up to thirty reserve rounds, and a reload that
  runs for two seconds. When it ends, the reload tops the magazine up from the reserves.
- **Bullet pool** (`Bullets`). A shot reuses the first retired slot and appends a new one only when
  every slot is in flight. Bullets move and age every tick and retire at 3.5 s.
- **Targets** (`Targets`). `SpawnTargets` hangs up to seven targets on distinct scene objects,
  drawn without replacement. `CheckBulletTargetCollisions` resolves only the first bullet/target pair
  in scan order. A batch with no target left is replaced at once.
- **Ammo boxes** (`AmmoBoxes`). Five boxes per placement, typed by level and by position in the
  batch. A box placed too close to the spawn point is pushed out. Active boxes spin. A collected box
  respawns after 30 s. Pickups change the reserves, the bullet damage and the fire cooldown.
- **Explosions** (`Explosions`). Thirty particles that live for half a second.
- **Game state machine** (`GameState`). `CheckGameState`'s else-if chain: win on the last level,
  open the door below it, advance through the door, lose on time or health. `SpawnDoor` is part of it.
- **Player** (`Player`, `Geometry`). Turning, walking against the collision resolver and the map
  bounds, jumping under gravity, and rock damage with its one-second cooldown and screen shake.
- **Scene placement of `LoadAssets`** (`Scene`). Trees and rocks in level 1. In level 2, walls with
  minimum distances from the spawn point and from each other, and chairs clear of the spawn point.
- **The world and the frame** (`Game`). The class `Game.World` holds the globals, and each game
  function is a method that updates them in place. `UpdateScene` calls those methods in the
  source's order.

The model's conventions are:

- **Grouped globals.** The globals that the rules always update together are grouped into value
  types:
  - `mag`: currentAmmo, ammoReserves, isReloading and currentReloadTime.
  - `body`: playerY, jumpVelocity and isJumping.
  - `vitals`: playerHealth, lastDamageTime and shakeAmplitude.
  - `progress`: currentLevel, playerScore, doorSpawned, levelDoor, gameOver and playerWon.
- **`rand()`** is a stream `RandStream = nat -> nat` that the world reads at `randCursor`. Each
  operation states exactly how many results it draws, so the spawn functions are deterministic
  functions of the stream.
- **Trigonometry** is a parameter `Trig` (the cosine and sine of an angle in degrees).
- **Distances.** Every `sqrt(d) < r` test is written as the equivalent `d < r * r`.
- **Clock and camera.** The elapsed-time clock is the parameter `now`. The shot direction and the
  camera eye are the parameters `aim` and `eye`.

## Model

| member | source | states |
|---|---|---|
| Ammo.FullMagazine | OpenGLMeshLoader.cpp:245-249 | the starting magazine is full (5 rounds), with no reserves and no reload, and satisfies the magazine bounds |
| Ammo.Fire | OpenGLMeshLoader.cpp:555 | a shot removes exactly one round from a non-empty magazine and changes nothing else |
| Ammo.StartReloadSpec | OpenGLMeshLoader.cpp:560-567 | a reload starts exactly when none is running, the magazine is not full and there are reserves; it starts with a zero timer and leaves the counters alone |
| Ammo.StartReloadIdempotent | OpenGLMeshLoader.cpp:560-567 | pressing reload again changes nothing; pressing it during a reload changes nothing |
| Ammo.RefillSpec | OpenGLMeshLoader.cpp:570-586 | a completed reload conserves rounds, moves at least one, and leaves the magazine full or the reserves empty; the flag and the timer are cleared |
| Ammo.RefillUnique | OpenGLMeshLoader.cpp:576-580 | the min(needed, reserves) transfer is the only split that fills the magazine or empties the reserves |
| Ammo.MagazineOkPreserved | OpenGLMeshLoader.cpp:555-586 | StartReload, a reload tick and an allowed shot all keep 0..5 rounds, 0..30 reserves, and a reload only when it can add something |
| Ammo.FireAndReloadExclusive | OpenGLMeshLoader.cpp:476-483 | an allowed shot never happens during a reload, and a started reload blocks every shot |
| Ammo.ReloadInProgress | OpenGLMeshLoader.cpp:570-586 | for k < 125 ticks after a reload starts, it is still running with a timer of k ticks |
| Ammo.ReloadDuration | OpenGLMeshLoader.cpp:570-586 | a reload takes exactly 125 ticks of 16 ms (two seconds): still running after 124, done after 125, rounds conserved |
| Bullets.FirstFree | OpenGLMeshLoader.cpp:518-536 | the first inactive slot, or the pool length when every slot is in flight |
| Bullets.FirstFreeUnique | OpenGLMeshLoader.cpp:519-536 | a scan that stops at the first inactive slot finds FirstFree |
| Bullets.AcquireFirstFit | OpenGLMeshLoader.cpp:517-553 | the pool grows by one exactly when all slots are active; the new bullet is in the first free slot and every other slot is unchanged |
| Bullets.AcquireHighWater | OpenGLMeshLoader.cpp:517-553 | a shot adds exactly one bullet in flight; the pool never grows beyond the larger of its old length and the bullets in flight |
| Bullets.AgeBulletsSpec | OpenGLMeshLoader.cpp:454-470 | an active bullet ages by one tick and stays active exactly while its lifetime is below the maximum; retired bullets are untouched |
| Bullets.LifetimesPreserved | OpenGLMeshLoader.cpp:454-553 | ageing and a shot both keep every in-flight lifetime in [0, maxLifetime) |
| Explosions.BurstOk | OpenGLMeshLoader.cpp:588-627 | a new explosion has 30 live particles with the explosion's own age and lifetime |
| Explosions.TickExplosionOk | OpenGLMeshLoader.cpp:1399-1425 | a tick keeps that shape; particles age in lockstep with their explosion; an explosion never comes back once out |
| Explosions.TickExplosionsOk | OpenGLMeshLoader.cpp:1396-1426 | UpdateExplosions keeps every explosion's shape |
| Explosions.BurstAge | OpenGLMeshLoader.cpp:1396-1426 | after n < 32 ticks an explosion is still active, aged n ticks |
| Explosions.ExplosionDuration | OpenGLMeshLoader.cpp:1396-1426 | an explosion is active after 31 ticks and out after 32 (0.5 s lifetime at 16 ms per tick) |
| Geometry.IsWithinMapBounds | OpenGLMeshLoader.cpp:1772-1777 | the walkable area is the square -45 <= x, z <= 45, borders included |
| Geometry.CheckCollision | OpenGLMeshLoader.cpp:1267-1303 | the early-exit scan returns true exactly when some obstacle blocks the point with the level's shape (circle on level 1, rotated box on level 2) |
| Geometry.WallAtRightAngle | OpenGLMeshLoader.cpp:1280-1300 | for walls at 0 or 90 degrees the rotated test is the axis-aligned box test with half extents 4·scale + 0.3 along the wall and 0.5·scale + 0.3 across it |
| Geometry.CollisionMonotone | OpenGLMeshLoader.cpp:1267-1303 | adding obstacles never unblocks a blocked position |
| Player.TurnSpec | OpenGLMeshLoader.cpp:1827-1836 | 'a' and 'd' keep the yaw in [0, 360), change it by 2 degrees modulo 360, and undo each other |
| Player.StartJumpSpec | OpenGLMeshLoader.cpp:1838-1843 | the space bar keeps the player above ground; a jump starts only from the ground (or continues), with velocity 0.3 |
| Player.JumpStepSpec | OpenGLMeshLoader.cpp:2041-2059 | the jump integration keeps the player above ground, and a landing rests at exactly height 0 with no velocity |
| Player.Airborne | OpenGLMeshLoader.cpp:2042-2053 | n ticks (1..60) into a jump the height is 0.3n - 0.005n(n-1) and the velocity is 0.3 - 0.01n |
| Player.JumpDuration | OpenGLMeshLoader.cpp:2042-2053 | a jump from the ground is airborne for exactly 60 ticks and lands at rest on the 61st |
| Player.FirstRockContact | OpenGLMeshLoader.cpp:1314-1330 | the index of the first rock the grounded player stands in, or the number of rocks |
| Player.Damaged | OpenGLMeshLoader.cpp:1322-1325 | a hit costs 25 health, clamped at 0 |
| Player.RockDamageSpec | OpenGLMeshLoader.cpp:1305-1331 | damage happens exactly when the cooldown has passed and some rock is touched; it is one hit, health stays in [0, 100] and never rises |
| Player.ScanRocks | OpenGLMeshLoader.cpp:1309-1330 | the cooldown check and the rock loop that breaks at the first contact compute RockDamage |
| Player.NoDamageWithinCooldown | OpenGLMeshLoader.cpp:1308-1311 | a second check less than a second after a hit changes nothing |
| Player.ShakeDecaySpec | OpenGLMeshLoader.cpp:389-403 | the shake never grows, loses at least a tenth per tick while on, and stops at or below 0.001 |
| GameState.Start | OpenGLMeshLoader.cpp:237-268 | the initial level 1, score 0, no door, running game is a valid state |
| GameState.CheckKeepsProgressOk | OpenGLMeshLoader.cpp:969-1016 | the check keeps the level in 1..2, the door flag matched with the door, doors below the last level only, wins only on the last level; the level rises by at most one |
| GameState.GameOverAbsorbing | OpenGLMeshLoader.cpp:969-970 | once the game is over the check changes nothing |
| GameState.DoorOnlyBelowMaxLevel | OpenGLMeshLoader.cpp:972-980 | a door opens only below the last level with score >= 5; on the last level score >= 5 wins instead |
| GameState.LevelAdvance | OpenGLMeshLoader.cpp:981-993 | the level rises exactly when an open door is entered, and then the score is 0 and the door is gone |
| GameState.OpenDoorDefersLoss | OpenGLMeshLoader.cpp:981-1015 | while a door is open the loss branch is never reached |
| GameState.NoDoorNoAdvance | OpenGLMeshLoader.cpp:981-992 | without an open door the level does not change |
| GameState.LossConditions | OpenGLMeshLoader.cpp:1011-1015 | a loss needs the time up or the health gone, no open door, and no winning score on the last level |
| GameState.RunSpec | OpenGLMeshLoader.cpp:2026-2050 | over any sequence of ticks the state stays valid, the level never decreases, and a finished game keeps its verdict |
| GameState.ScenarioDoorThenAdvance | OpenGLMeshLoader.cpp:977-993 | level 1 with score 5 opens the door at (0, -10); entering it starts level 2 with score 0 |
| GameState.ScenarioWinOnLastLevel | OpenGLMeshLoader.cpp:972-976 | score 5 on level 2 wins even with the time up and no health |
| GameState.ScenarioTimeUp | OpenGLMeshLoader.cpp:1011-1015 | the timer running out below the threshold loses |
| Targets.Placed | OpenGLMeshLoader.cpp:1141-1194 | a placed target is active and anchored to the chosen scene object |
| Targets.Remove | OpenGLMeshLoader.cpp:1139 | erasing position i keeps every other index in order |
| Targets.PicksDistinct | OpenGLMeshLoader.cpp:1136-1139 | drawing without replacement gives min(count, available) distinct indices, all among the available ones |
| Targets.DrawTarget | OpenGLMeshLoader.cpp:1137-1155 | one loop iteration picks `rand() % size`, erases it, and places the target of the level's rule on it |
| Targets.BatchFromAnchors | OpenGLMeshLoader.cpp:1136-1139 | the anchors of a batch are exactly the draw without replacement |
| Targets.BatchFromPlaced | OpenGLMeshLoader.cpp:1141-1196 | target k of a batch is placed with its own rand() draws |
| Targets.BatchSpec | OpenGLMeshLoader.cpp:1126-1199 | a batch has min(7, objects) active targets on pairwise distinct existing objects, each placed by its level's rule |
| Targets.BatchAnchored | OpenGLMeshLoader.cpp:1153 | every target's anchor index exists in the scene |
| Targets.BatchCharacterized | OpenGLMeshLoader.cpp:1126-1199 | any target list with the drawn anchors, each placed with its own draws, is the batch |
| Targets.BuildTargets | OpenGLMeshLoader.cpp:1126-1199 | the SpawnTargets loop builds the batch and consumes 2 (level 1) or 3 (level 2) draws per target |
| Targets.FirstTargetHit | OpenGLMeshLoader.cpp:1338-1347 | the first target the bullet hits, with no earlier target hit |
| Targets.FirstHitSpec | OpenGLMeshLoader.cpp:1335-1372 | no pair is found exactly when no bullet hits any target; otherwise the pair hits, no earlier bullet hits anything, and no earlier target is hit by that bullet |
| Targets.FirstHitUnique | OpenGLMeshLoader.cpp:1335-1347 | the pair with those three properties is the one FirstHit finds |
| Targets.ScanHits | OpenGLMeshLoader.cpp:1335-1372 | the nested loop with `continue` on inactive entries returns FirstHit |
| Targets.NoneActive | OpenGLMeshLoader.cpp:1356-1362 | allTargetsHit is true exactly when no target is active |
| Scene.Coord | OpenGLMeshLoader.cpp:2257-2258 | `(rand() % 80) - 40` lies in [-40, 40) |
| Scene.GreedyWallsSpread | OpenGLMeshLoader.cpp:2269-2295 | every kept wall is a candidate at distance >= 10 from the spawn point and >= 12 from every other kept wall |
| Scene.GreedyWallsMaximal | OpenGLMeshLoader.cpp:2269-2295 | conversely, a candidate at distance >= 10 from the spawn point that was not kept is within 12 of some kept wall |
| Scene.KeptChairsClear | OpenGLMeshLoader.cpp:2312-2325 | a chair is kept exactly when it is a candidate at distance >= 8 from the spawn point |
| Scene.PlaceTrees | OpenGLMeshLoader.cpp:2253-2263 | fifteen trees, tree k from the four draws at 4k |
| Scene.PlaceRocks | OpenGLMeshLoader.cpp:2298-2309 | ten rocks, rock k from the four draws at 4k |
| Scene.PlaceWalls | OpenGLMeshLoader.cpp:2264-2296 | fifteen candidates of three draws each, kept by the greedy clearance and spacing rule |
| Scene.PlacedWalls | OpenGLMeshLoader.cpp:2269-2295 | at most 15 walls, each of unit scale, rotated 0 or 90 degrees, at distance >= 10 from the spawn point and >= 12 from each other |
| Scene.CheckSpacing | OpenGLMeshLoader.cpp:2281-2290 | the tooClose scan is false exactly when the candidate is >= 12 from every kept wall |
| Scene.PlaceChairs | OpenGLMeshLoader.cpp:2310-2326 | fifteen candidates of four draws each, kept when clear of the spawn point by 8 |
| Scene.PlaceScene | OpenGLMeshLoader.cpp:2253-2326 | level 1 appends trees and draws new rocks; level 2 replaces both with the kept walls and chairs; the number of draws used |
| AmmoBoxes.BoxCoord | OpenGLMeshLoader.cpp:646-648 | `(rand() % 60) - 30` lies in [-30, 30) |
| AmmoBoxes.BoxRotation | OpenGLMeshLoader.cpp:649 | the orientation lies in [0, 360) |
| AmmoBoxes.BoxSpin | OpenGLMeshLoader.cpp:650 | the spin lies in [50, 100) degrees per second |
| AmmoBoxes.Nudge | OpenGLMeshLoader.cpp:669-670 | a nudged coordinate is at least 5 from 0 |
| AmmoBoxes.SpotClear | OpenGLMeshLoader.cpp:667-671 | after the nudge a box is always at distance >= 5 from the spawn point |
| AmmoBoxes.FreshBoxClearOfSpawn | OpenGLMeshLoader.cpp:644-674 | every freshly placed box is at distance >= 5 from the spawn point |
| AmmoBoxes.FreshBoxType | OpenGLMeshLoader.cpp:656-665 | level 1: boxes 0-1 high-damage, the rest regular; level 2: boxes 0-1 explosive, the rest fast-fire |
| AmmoBoxes.FreshBoxOk | OpenGLMeshLoader.cpp:645-654 | a fresh box is active with a zero timer, an orientation in [0, 360) and a spin in [50, 100) |
| AmmoBoxes.BoxBatch | OpenGLMeshLoader.cpp:642-644 | a placement holds five boxes |
| AmmoBoxes.BoxBatchSpec | OpenGLMeshLoader.cpp:640-675 | five active boxes within the box bounds, typed by level and position |
| AmmoBoxes.BoxBatchClear | OpenGLMeshLoader.cpp:667-671 | every box of a placement is at distance >= 5 from the spawn point |
| AmmoBoxes.PlaceBoxes | OpenGLMeshLoader.cpp:640-675 | the SpawnAmmoBoxes loop builds the batch with four draws per box |
| AmmoBoxes.PlaceBox | OpenGLMeshLoader.cpp:645-673 | one iteration: the draws, the type and the nudge give the fresh box |
| AmmoBoxes.RotationWraps | OpenGLMeshLoader.cpp:628-639 | an active box turns by its spin times the tick modulo 360, staying in [0, 360); inactive boxes do not turn |
| AmmoBoxes.RotateKeepsBoxOk | OpenGLMeshLoader.cpp:628-639 | spins below 100 degrees per second turn a box by less than 1.6 degrees a tick, so the single wrap suffices |
| AmmoBoxes.RotateBoxesOk | OpenGLMeshLoader.cpp:628-639 | UpdateAmmoBoxRotations keeps every box within the box bounds |
| AmmoBoxes.RespawnBoxSpec | OpenGLMeshLoader.cpp:1377-1391 | the respawn keeps the bounds and the type, draws four results exactly when a box returns, and leaves active boxes alone |
| AmmoBoxes.RespawnAllOk | OpenGLMeshLoader.cpp:1374-1392 | UpdateAmmoBoxes keeps every box's bounds and type and never moves the rand() cursor backwards |
| AmmoBoxes.RespawnBoxes | OpenGLMeshLoader.cpp:1374-1392 | the loop threads the rand() cursor through the boxes in order |
| AmmoBoxes.PickupEffectBounds | OpenGLMeshLoader.cpp:1100-1121 | a pickup never lowers the reserves, never exceeds 30, adds at most 3, and leaves the cooldown at 0.1 or 0.2 |
| AmmoBoxes.PickupFillsToCap | OpenGLMeshLoader.cpp:1103-1119 | a box that gives rounds adds its amount or fills to exactly 30 |
| AmmoBoxes.PickupAllBounds | OpenGLMeshLoader.cpp:1089-1124 | a whole collection pass keeps the reserves in [old, 30] and a known cooldown |
| AmmoBoxes.PickupAllNone | OpenGLMeshLoader.cpp:1089-1124 | with no box within reach the pass changes nothing |
| AmmoBoxes.AfterPickupOk | OpenGLMeshLoader.cpp:1097-1098 | a collected box goes inactive, keeping the bounds |
| AmmoBoxes.PickupBoxesOk | OpenGLMeshLoader.cpp:1089-1124 | after collection no active box is within reach |
| AmmoBoxes.CollectBoxes | OpenGLMeshLoader.cpp:1089-1124 | the loop deactivates every reached box and folds its effect into the loadout in pool order, keeping the bounds |
| Game.PressSpec | OpenGLMeshLoader.cpp:1778-1851 | a key keeps the controls valid; the magazine changes only on 'r', the yaw only on 'a'/'d', the body only on space, the position only on 'w'/'s' and only to a free spot inside the map |
| Game.TurnKeysCancel | OpenGLMeshLoader.cpp:1827-1836 | 'a' then 'd' (or 'd' then 'a') changes nothing |
| Game.PressIdempotent | OpenGLMeshLoader.cpp:1788-1845 | repeating a key that does not move the player has no further effect |
| Game.LoadLevel | OpenGLMeshLoader.cpp:2232-2330 | the scene, then the targets on it, then the boxes, each from the draws after the previous one; every target is anchored, every box within bounds |
| Game.World.constructor | OpenGLMeshLoader.cpp:176-284 | the initial globals: level 1, full magazine, 120 s; the player at the origin facing 0, on the ground, at full health with no shake and no damage time; no shot yet, the normal cooldown and regular damage; all flags false; empty pools; the world invariant holds |
| Game.World.StartReload | OpenGLMeshLoader.cpp:560-567 | the magazine becomes Ammo.StartReload of the old one |
| Game.World.UpdateReload | OpenGLMeshLoader.cpp:570-586 | the magazine becomes ReloadTick of the old one |
| Game.World.ShootBullet | OpenGLMeshLoader.cpp:472-557 | a blocked shot changes nothing; an allowed one puts the bullet at the muzzle into the first free slot, takes a round and records the time |
| Game.World.UpdateBullets | OpenGLMeshLoader.cpp:454-470 | the pool becomes AgeBullets of the old pool |
| Game.World.UpdateScreenShake | OpenGLMeshLoader.cpp:389-403 | the shake decays, and two rand() results are drawn exactly while it is above 0.001 |
| Game.World.IntegrateJump | OpenGLMeshLoader.cpp:2042-2059 | the body becomes JumpStep of the old body |
| Game.World.CheckRockDamage | OpenGLMeshLoader.cpp:1305-1331 | the vitals become RockDamage of the old vitals at the player's position |
| Game.World.Keyboard | OpenGLMeshLoader.cpp:1778-1851 | nothing once the game is over; otherwise the controls become Press of the key |
| Game.World.Step | OpenGLMeshLoader.cpp:1801-1826 | the position becomes the Walk of the step, and stays inside the map |
| Player.MouseTurnSpec | OpenGLMeshLoader.cpp:1869-1881 | the mouse turn is the offset times 0.2, modulo one full turn; offsets of at most 1800 pixels either way keep the yaw in [0, 360) |
| Player.MouseTurnLeavesYaw | OpenGLMeshLoader.cpp:1879-1881 | an offset of 1801 pixels from yaw 0 leaves the yaw at -0.2, outside [0, 360): the single wrap is not enough |
| Game.World.MouseLook | OpenGLMeshLoader.cpp:1860-1885 | while aiming the yaw becomes MouseTurn of the old yaw, otherwise it is unchanged; offsets of at most 1800 pixels keep it in [0, 360) |
| Game.World.Turn | OpenGLMeshLoader.cpp:1827-1836 | the yaw turns by 2 degrees, kept in [0, 360) |
| Game.World.Jump | OpenGLMeshLoader.cpp:1837-1845 | the body becomes StartJump of the old body and the space flag is set |
| Game.World.CreateExplosion | OpenGLMeshLoader.cpp:588-627 | one burst is appended and 120 rand() results are drawn |
| Game.World.UpdateExplosions | OpenGLMeshLoader.cpp:1396-1426 | the explosions become TickExplosions of the old ones, keeping their shape |
| Game.World.UpdateAmmoBoxRotations | OpenGLMeshLoader.cpp:628-639 | the boxes become RotateBoxes of the old ones, keeping their bounds |
| Game.World.UpdateAmmoBoxes | OpenGLMeshLoader.cpp:1374-1392 | the boxes and the rand() cursor become RespawnAll of the old ones |
| Game.World.CheckAmmoBoxCollection | OpenGLMeshLoader.cpp:1089-1124 | reached boxes are collected, the damage, cooldown and reserves become PickupAll, and the rest of the magazine is untouched |
| Game.World.SpawnDoor | OpenGLMeshLoader.cpp:405-413 | the door is active at (0, 1, -10), unrotated, scale 2, and doorSpawned is set |
| Game.World.CheckBulletTargetCollisions | OpenGLMeshLoader.cpp:1332-1372 | without a hit nothing changes; with one, the first pair's bullet and target retire, an explosion appears at the target, the score rises by one, and an all-hit batch is replaced |
| Game.World.Score | OpenGLMeshLoader.cpp:1348-1366 | the strike followed by the all-hit refill |
| Game.World.Strike | OpenGLMeshLoader.cpp:1349-1353 | explosion at the target, target and bullet retired, score + 1 |
| Game.World.RefillTargets | OpenGLMeshLoader.cpp:1356-1366 | a batch with no active target is replaced by a fresh one; otherwise nothing changes |
| Game.World.CheckGameState | OpenGLMeshLoader.cpp:969-1016 | the progress becomes GameState.CheckGameState of the old one; only the door entry resets boxes, magazine, timer and position |
| Game.World.EnterLevel | OpenGLMeshLoader.cpp:987-1009 | the next level starts: score 0, door gone, fresh boxes, full magazine with no reserves, 120 s, player at the origin facing 0 |
| Game.World.UpdateScene | OpenGLMeshLoader.cpp:2026-2076 | nothing once the game is over; otherwise one Tick of the state machine (the check, then this tick's points), and the timer loses one tick unless the door was entered |
| Game.World.BeginTick | OpenGLMeshLoader.cpp:2031-2037 | the box spin, the timer decrement and the state check, keeping the invariant |
| Game.World.Advance | OpenGLMeshLoader.cpp:2040-2075 | the gameplay steps keep the invariant and add at most one point |
| Game.World.MoveAndAge | OpenGLMeshLoader.cpp:2041-2066 | the jump, the shake, the rock damage, then the ageing of bullets, explosions and the reload; the shake draws two rand() results while it is above 0.001 |
| Game.World.Interact | OpenGLMeshLoader.cpp:2067-2074 | hits, respawns, pickups and the shot keep the invariant and add at most one point |
| Game.World.MovePlayer | OpenGLMeshLoader.cpp:2041-2063 | the jump step, then the shake decay, then rock damage at the new height; two rand() results are drawn while the shake is above 0.001 |
| Game.World.AgeEffects | OpenGLMeshLoader.cpp:2064-2066 | bullets, explosions and the reload each age by one tick |
| Game.World.HitsAndRespawns | OpenGLMeshLoader.cpp:2067-2068 | the hit check and the box respawns keep their invariants and add at most one point |
| Game.World.CollectAndShoot | OpenGLMeshLoader.cpp:2069-2074 | the pickups set the boxes, the damage, the cooldown and the reserves as PickupAll does; then, while the trigger is held and the gate (under the new cooldown) lets it through, the bullet takes the first free slot, one round leaves the magazine and the time is recorded; otherwise the bullets, the magazine and the shot time stay |
| Game.World.LoadAssets | OpenGLMeshLoader.cpp:2232-2330 | the scene for the current level, a target batch on it and a box batch, in rand() order |
| Game.World.SpawnTargets | OpenGLMeshLoader.cpp:1126-1199 | the targets become the batch for the current level and scene |
| Game.World.SpawnAmmoBoxes | OpenGLMeshLoader.cpp:640-675 | the boxes become the batch for the current level, within the box bounds |

## Left out

- Rendering, lighting, the sun and flashlight animation, sound, the on-screen UI, the camera and the
  field-of-view zoom: none of them feed back into the rules.
- The `levelCompleted` banner's timed reset in the UI: the model sets the flag on a door entry and
  nothing clears it.
- The screen-shake offsets (`shakeOffsetX/Y`): their two rand() draws are counted, their values are
  not kept.
- Particle motion and colour: particles keep only their lifetimes. Their four rand() draws each are
  counted.
- Floating point: positions and times are mathematical reals. `sqrt` comparisons become squared
  comparisons. Trigonometry is the parameter `trig`, and `atan2` in a level-1 target's facing is
  written as the drawn angle mapped into (-180, 180].
- The elapsed-time clock, the aim direction and the camera eye are parameters (`now`, `aim`, `eye`).
  The code derives the aim from the yaw and the vertical look angle; the model does not tie `aim` to
  its `playerRotation`.
- `myMouse` and `myKeyboardUp`: they only set `isShooting`, `isAiming` and `isSpacePressed`, which
  the model reads as state. Of `myMotion`, only the turn of the yaw is modelled (`MouseLook`, with
  the offset in pixels as a parameter); the vertical look angle and the first-event bookkeeping of
  the last mouse position are left out. The ESC key exits the process and is left out.
- The world invariant keeps the yaw in [0, 360). `myMotion` wraps it only once each way, so the
  invariant holds after `MouseLook` only for offsets of at most 1800 pixels per event
  (`MouseTurnSpec`); a larger offset leaves the yaw outside that range (`MouseTurnLeavesYaw`).
- `currentBulletDamage` is written by pickups but never read by any rule; it is kept as state only.
- Level loading: the code calls `LoadAssets` once, at start-up, on level 1. After the door, level 2
  keeps the level-1 trees, which collision and target placement then treat as walls. The level-1
  targets also stay up until a refill. The model follows the code. It does not regenerate the
  scene per level, though a level-2 `LoadAssets` is modelled.
- Game.World.EnterLevel: like the code, the door entry leaves `isJumping` and the jump velocity
  alone and only puts the player back on the ground.
- Game.World.UpdateScene: states the invariant, the progress (as one `Tick` of the state machine)
  and the game timer. The effects on the pools are stated by the step methods it calls, not composed
  into one post-condition.
- Game.World.Advance: states the invariant and the score only; MoveAndAge and CollectAndShoot
  state the step effects.
- Game.World.Interact: states the invariant and the score only; CheckBulletTargetCollisions,
  UpdateAmmoBoxes and CollectAndShoot state the step effects.
- Game.World.HitsAndRespawns: states the invariants and the score only; its two steps state their
  effects.
- Game.World.BeginTick: states the progress, the timer and the invariant; the box spin and the door
  entry's resets are stated by UpdateAmmoBoxRotations and CheckGameState.
