/** The ammo economy: a five-round magazine, up to thirty reserve rounds, and
    a two-second reload that tops the magazine up from the reserves. */
module Ammo {
  import opened Common

  const MAX_AMMO: int := 5
  const MAX_AMMO_RESERVES: int := 30
  /** Seconds a reload takes. */
  const RELOAD_TIME: real := 2.0
  /** Ticks a reload takes: 125 ticks of 16 ms are exactly two seconds. */
  const RELOAD_TICKS: nat := 125

  /** currentAmmo, ammoReserves, isReloading and currentReloadTime. */
  datatype Magazine = Magazine(ammo: int, reserves: int, reloading: bool, reloadTime: real)

  /** The bounds every reachable magazine keeps: both counters within their
      caps, a reload only in progress when it can add something, and the reload
      timer at zero whenever no reload is in progress. */
  predicate MagazineOk(m: Magazine)
  {
    0 <= m.ammo <= MAX_AMMO && 0 <= m.reserves <= MAX_AMMO_RESERVES &&
    (m.reloading ==> m.ammo < MAX_AMMO && m.reserves > 0 && 0.0 <= m.reloadTime < RELOAD_TIME) &&
    (!m.reloading ==> m.reloadTime == 0.0)
  }

  /** Magazine of a fresh game or a fresh level: full, no reserves, no reload. */
  function FullMagazine(): (m: Magazine)
    ensures MagazineOk(m) && m.ammo == MAX_AMMO && m.reserves == 0 && !m.reloading
  {
    Magazine(MAX_AMMO, 0, false, 0.0)
  }

  predicate CanStartReload(m: Magazine)
  {
    !m.reloading && m.ammo < MAX_AMMO && m.reserves > 0
  }

  /** StartReload: begins a reload, or changes nothing when one is already
      running, the magazine is full or there are no reserves. */
  function StartReload(m: Magazine): Magazine
  {
    if CanStartReload(m) then m.(reloading := true, reloadTime := 0.0) else m
  }

  /** Rounds a completed reload moves from the reserves into the magazine. */
  function RefillAmount(m: Magazine): int
  {
    Min(MAX_AMMO - m.ammo, m.reserves)
  }

  /** UpdateReload: one tick of the reload timer; on reaching the reload time
      the magazine is topped up and the reload ends. */
  function ReloadTick(m: Magazine): Magazine
  {
    if !m.reloading then m
    else
      var t := m.reloadTime + TICK;
      if t >= RELOAD_TIME then
        var add := RefillAmount(m);
        Magazine(m.ammo + add, m.reserves - add, false, 0.0)
      else m.(reloadTime := t)
  }

  /** The gate of ShootBullet: the game is running, the cooldown since the last
      shot has elapsed, the magazine is not empty and no reload is in progress. */
  predicate ShotAllowed(gameOver: bool, now: real, lastShot: real, cooldown: real, m: Magazine)
  {
    !gameOver && !(now - lastShot < cooldown) && m.ammo > 0 && !m.reloading
  }

  /** A shot takes exactly one round from the magazine. */
  function Fire(m: Magazine): (r: Magazine)
    requires m.ammo > 0
    ensures r.ammo == m.ammo - 1 && r.ammo >= 0
    ensures r.reserves == m.reserves && r.reloading == m.reloading && r.reloadTime == m.reloadTime
  {
    m.(ammo := m.ammo - 1)
  }

  /** Repeating StartReload changes nothing more: in particular, pressing the
      reload key while reloading restarts nothing. */
  lemma StartReloadIdempotent(m: Magazine)
    ensures StartReload(StartReload(m)) == StartReload(m)
    ensures m.reloading ==> StartReload(m) == m
  {
  }

  /** StartReload starts a reload exactly when CanStartReload holds, and then
      with a zero timer and the counters unchanged. */
  lemma StartReloadSpec(m: Magazine)
    ensures StartReload(m).reloading <==> m.reloading || CanStartReload(m)
    ensures StartReload(m).ammo == m.ammo && StartReload(m).reserves == m.reserves
    ensures CanStartReload(m) ==> StartReload(m).reloadTime == 0.0
  {
  }

  /** A completed reload conserves rounds, moves at least one, and leaves the
      magazine full or the reserves empty; the reload flag and timer are cleared. */
  lemma RefillSpec(m: Magazine)
    requires MagazineOk(m) && m.reloading && m.reloadTime + TICK >= RELOAD_TIME
    ensures var r := ReloadTick(m);
      r.ammo + r.reserves == m.ammo + m.reserves &&
      m.ammo < r.ammo <= MAX_AMMO && 0 <= r.reserves < m.reserves &&
      (r.ammo == MAX_AMMO || r.reserves == 0) &&
      !r.reloading && r.reloadTime == 0.0
  {
  }

  /** The transfer is the largest one the caps allow: any split of the same
      rounds that fills no more than the magazine and leaves it full or the
      reserves empty is the one ReloadTick computes. */
  lemma RefillUnique(m: Magazine, ammo: int, reserves: int)
    requires MagazineOk(m) && m.reloading && m.reloadTime + TICK >= RELOAD_TIME
    requires ammo + reserves == m.ammo + m.reserves && m.ammo <= ammo <= MAX_AMMO && 0 <= reserves
    requires ammo == MAX_AMMO || reserves == 0
    ensures ReloadTick(m).ammo == ammo && ReloadTick(m).reserves == reserves
  {
  }

  /** Every magazine operation keeps the magazine bounds. */
  lemma MagazineOkPreserved(m: Magazine)
    requires MagazineOk(m)
    ensures MagazineOk(StartReload(m))
    ensures MagazineOk(ReloadTick(m))
    ensures m.ammo > 0 && !m.reloading ==> MagazineOk(Fire(m))
  {
  }

  /** Firing and reloading exclude each other: an allowed shot is never taken
      during a reload, and a reload that starts leaves no shot allowed until it ends. */
  lemma FireAndReloadExclusive(gameOver: bool, now: real, lastShot: real, cooldown: real, m: Magazine)
    ensures ShotAllowed(gameOver, now, lastShot, cooldown, m) ==> !m.reloading
    ensures CanStartReload(m) ==> !ShotAllowed(gameOver, now, lastShot, cooldown, StartReload(m))
  {
  }

  /** The magazine after n reload ticks. */
  function ReloadTicks(m: Magazine, n: nat): Magazine
  {
    if n == 0 then m else ReloadTick(ReloadTicks(m, n - 1))
  }

  /** While fewer than RELOAD_TICKS ticks have passed since a reload started,
      it is still running with a timer of exactly k ticks. */
  lemma {:induction false} ReloadInProgress(m: Magazine, k: nat)
    requires CanStartReload(m) && k < RELOAD_TICKS
    ensures ReloadTicks(StartReload(m), k) == StartReload(m).(reloadTime := k as real * TICK)
  {
    if k > 0 {
      ReloadInProgress(m, k - 1);
    }
  }

  /** A reload takes exactly RELOAD_TICKS ticks: after 124 ticks it is still
      running, the 125th completes it. */
  lemma ReloadDuration(m: Magazine)
    requires MagazineOk(m) && CanStartReload(m)
    ensures ReloadTicks(StartReload(m), RELOAD_TICKS - 1).reloading
    ensures !ReloadTicks(StartReload(m), RELOAD_TICKS).reloading
    ensures ReloadTicks(StartReload(m), RELOAD_TICKS).ammo + ReloadTicks(StartReload(m), RELOAD_TICKS).reserves
      == m.ammo + m.reserves
  {
    ReloadInProgress(m, RELOAD_TICKS - 1);
  }
}
