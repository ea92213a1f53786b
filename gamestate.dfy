/** The level and game state machine: winning on the last level, the door
    that opens once the score threshold is reached, the level advance through
    the door, and losing on time or health. */
module GameState {
  import opened Common

  const MAX_LEVEL: int := 2
  const WINNING_SCORE: int := 5
  const GAME_TIME_LIMIT: real := 120.0
  const DOOR_X: real := 0.0
  const DOOR_Y: real := 1.0
  const DOOR_Z: real := -10.0
  const DOOR_SCALE: real := 2.0
  const DOOR_INTERACTION_RADIUS: real := 2.0

  datatype Door = Door(x: real, y: real, z: real, rotation: real, scale: real, active: bool)

  /** levelDoor before SpawnDoor: a zero-initialised global. */
  const NO_DOOR: Door := Door(0.0, 0.0, 0.0, 0.0, 0.0, false)

  /** What SpawnDoor places: an active door at (0, 1, -10), unrotated, scale 2. */
  function SpawnedDoor(): Door
  {
    Door(DOOR_X, DOOR_Y, DOOR_Z, 0.0, DOOR_SCALE, true)
  }

  predicate AtDoor(d: Door, px: real, pz: real)
  {
    DistSq2(px, pz, d.x, d.z) < DOOR_INTERACTION_RADIUS * DOOR_INTERACTION_RADIUS
  }

  /** The part of the world CheckGameState decides on: currentLevel,
      playerScore, doorSpawned, levelDoor, gameOver and playerWon. */
  datatype Progress = Progress(level: int, score: int, doorSpawned: bool, door: Door,
                               gameOver: bool, won: bool)

  /** The one branch of CheckGameState's else-if chain that fires. */
  datatype Branch = Halted | Win | OpenDoor | EnterDoor | Lose | NoBranch

  /** The chain in its priority order; `atDoor` is the door-radius test,
      `timeUp` and `dead` the two loss conditions. */
  function Decide(p: Progress, atDoor: bool, timeUp: bool, dead: bool): Branch
  {
    if p.gameOver then Halted
    else if p.level == MAX_LEVEL && p.score >= WINNING_SCORE then Win
    else if p.level < MAX_LEVEL && p.score >= WINNING_SCORE && !p.doorSpawned then OpenDoor
    else if p.doorSpawned && p.door.active then (if atDoor then EnterDoor else NoBranch)
    else if timeUp || dead then Lose
    else NoBranch
  }

  /** The effect of CheckGameState's chosen branch on the progress. */
  function CheckGameState(p: Progress, atDoor: bool, timeUp: bool, dead: bool): Progress
  {
    match Decide(p, atDoor, timeUp, dead)
    case Win => p.(gameOver := true, won := true)
    case OpenDoor => p.(doorSpawned := true, door := SpawnedDoor())
    case EnterDoor => p.(level := p.level + 1, score := 0, doorSpawned := false, door := p.door.(active := false))
    case Lose => p.(gameOver := true, won := false)
    case _ => p
  }

  /** The states the machine can be in: a level between 1 and MAX_LEVEL, a door
      flag that matches the door, a door only below the last level, and a win
      only as the end of the last level. */
  predicate ProgressOk(p: Progress)
  {
    1 <= p.level <= MAX_LEVEL && p.score >= 0 &&
    p.doorSpawned == p.door.active &&
    (p.doorSpawned ==> p.level < MAX_LEVEL) &&
    (p.won ==> p.gameOver && p.level == MAX_LEVEL)
  }

  function Start(): (p: Progress)
    ensures ProgressOk(p)
  {
    Progress(1, 0, false, NO_DOOR, false, false)
  }

  /** CheckGameState keeps the machine's states reachable, never lowers the
      level, raises it by at most one, and so never past MAX_LEVEL. */
  lemma CheckKeepsProgressOk(p: Progress, atDoor: bool, timeUp: bool, dead: bool)
    requires ProgressOk(p)
    ensures var q := CheckGameState(p, atDoor, timeUp, dead);
      ProgressOk(q) && p.level <= q.level <= p.level + 1 && q.level <= MAX_LEVEL
  {
  }

  /** Once the game is over, CheckGameState changes nothing. */
  lemma GameOverAbsorbing(p: Progress, atDoor: bool, timeUp: bool, dead: bool)
    requires p.gameOver
    ensures CheckGameState(p, atDoor, timeUp, dead) == p
  {
  }

  /** A door opens only below the last level and only once the score threshold
      is reached; it never opens on the last level, where the threshold ends
      the game with a win instead. */
  lemma DoorOnlyBelowMaxLevel(p: Progress, atDoor: bool, timeUp: bool, dead: bool)
    requires ProgressOk(p)
    ensures var q := CheckGameState(p, atDoor, timeUp, dead);
      (!p.doorSpawned && q.doorSpawned ==> p.level < MAX_LEVEL && p.score >= WINNING_SCORE && !q.gameOver) &&
      (!p.gameOver && p.level == MAX_LEVEL && p.score >= WINNING_SCORE ==> q.gameOver && q.won && !q.doorSpawned)
  {
  }

  /** The level advances exactly when an open door is entered, and then the
      score starts again from 0 and the door is gone. */
  lemma LevelAdvance(p: Progress, atDoor: bool, timeUp: bool, dead: bool)
    requires ProgressOk(p)
    ensures var q := CheckGameState(p, atDoor, timeUp, dead);
      (q.level > p.level <==> !p.gameOver && p.doorSpawned && p.door.active && atDoor) &&
      (q.level > p.level ==> q.score == 0 && !q.doorSpawned && !q.door.active && !q.gameOver)
  {
  }

  /** While the door is open the loss conditions are not evaluated: with an
      open door the game cannot end on this check, however late or hurt. */
  lemma OpenDoorDefersLoss(p: Progress, atDoor: bool, timeUp: bool, dead: bool)
    requires ProgressOk(p) && !p.gameOver && p.doorSpawned
    ensures !CheckGameState(p, atDoor, timeUp, dead).gameOver
  {
  }

  /** Entering the door radius without an open door does nothing. */
  lemma NoDoorNoAdvance(p: Progress, atDoor: bool, timeUp: bool, dead: bool)
    requires ProgressOk(p) && !p.doorSpawned
    ensures CheckGameState(p, atDoor, timeUp, dead).level == p.level
  {
  }

  /** A loss happens only without an open door, below the score threshold on
      the last level, and with the time up or the health gone. */
  lemma LossConditions(p: Progress, atDoor: bool, timeUp: bool, dead: bool)
    requires ProgressOk(p) && !p.gameOver
    ensures var q := CheckGameState(p, atDoor, timeUp, dead);
      q.gameOver && !q.won ==>
        (timeUp || dead) && !p.doorSpawned &&
        !(p.level == MAX_LEVEL && p.score >= WINNING_SCORE)
  {
  }

  /** What one tick shows the machine: the door test, the two loss
      conditions, and the points scored after the check. */
  datatype Observation = Observation(atDoor: bool, timeUp: bool, dead: bool, scored: nat)

  /** One tick seen from the machine: the check, then the points scored after it. */
  function Tick(p: Progress, o: Observation): Progress
  {
    var q := CheckGameState(p, o.atDoor, o.timeUp, o.dead);
    if q.gameOver then q else q.(score := q.score + o.scored)
  }

  /** The progress after a sequence of ticks. */
  function Run(p: Progress, os: seq<Observation>): Progress
    decreases os
  {
    if os == [] then p else Run(Tick(p, os[0]), os[1..])
  }

  /** Over any run the states stay reachable, the level never decreases, and a
      finished game stays finished with its verdict. */
  lemma {:induction false} RunSpec(p: Progress, os: seq<Observation>)
    requires ProgressOk(p)
    ensures ProgressOk(Run(p, os))
    ensures p.level <= Run(p, os).level <= MAX_LEVEL
    ensures p.gameOver ==> Run(p, os) == p
    ensures Run(p, os).won ==> Run(p, os).level == MAX_LEVEL
    decreases os
  {
    if os != [] {
      CheckKeepsProgressOk(p, os[0].atDoor, os[0].timeUp, os[0].dead);
      RunSpec(Tick(p, os[0]), os[1..]);
    }
  }

  /** Scenario: on level 1 with the threshold reached the door opens; walking
      into it starts level 2 with a score of 0. */
  lemma ScenarioDoorThenAdvance()
    ensures var p1 := CheckGameState(Progress(1, WINNING_SCORE, false, NO_DOOR, false, false), false, false, false);
      p1.doorSpawned && p1.door == SpawnedDoor() && p1.level == 1 &&
      CheckGameState(p1, true, false, false) == Progress(2, 0, false, SpawnedDoor().(active := false), false, false)
  {
  }

  /** Scenario: on the last level the threshold wins at once; no door opens. */
  lemma ScenarioWinOnLastLevel()
    ensures CheckGameState(Progress(MAX_LEVEL, WINNING_SCORE, false, NO_DOOR, false, false), false, true, true)
      == Progress(MAX_LEVEL, WINNING_SCORE, false, NO_DOOR, true, true)
  {
  }

  /** Scenario: the timer running out below the threshold loses the game. */
  lemma ScenarioTimeUp()
    ensures CheckGameState(Progress(1, 4, false, NO_DOOR, false, false), false, true, false)
      == Progress(1, 4, false, NO_DOOR, true, false)
  {
  }
}
