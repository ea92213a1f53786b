/** The bullet pool: slots are recycled first-fit and the pool only grows
    when every slot is in flight. */
module Bullets {
  import opened Common

  const BULLET_SPEED: real := 12.0
  const BULLET_SCALE: real := 0.01
  const BULLET_MAX_LIFETIME: real := 3.5
  /** Height of the player's eye above their feet, and how far ahead of the
      player a third-person shot starts. */
  const SPAWN_EYE_HEIGHT: real := 1.7
  const SPAWN_DISTANCE: real := 1.0

  datatype Bullet = Bullet(
    x: real, y: real, z: real,       // position
    dx: real, dy: real, dz: real,    // unit direction
    rotation: real,                  // yaw at the moment of firing, for drawing
    speed: real,
    active: bool,                    // in flight
    lifetime: real,                  // seconds since it was fired
    maxLifetime: real,
    scale: real)

  /** Every field a shot writes into its slot: nothing of the slot's previous
      occupant survives. */
  function Fired(x: real, y: real, z: real, dx: real, dy: real, dz: real, rotation: real): Bullet
  {
    Bullet(x, y, z, dx, dy, dz, rotation, BULLET_SPEED, true, 0.0, BULLET_MAX_LIFETIME, BULLET_SCALE)
  }

  predicate AllActive(bs: seq<Bullet>)
  {
    forall j :: 0 <= j < |bs| ==> bs[j].active
  }

  /** Index of the first inactive slot, or |bs| when every slot is in flight. */
  function FirstFree(bs: seq<Bullet>): (k: nat)
    ensures k <= |bs|
    ensures k < |bs| ==> !bs[k].active
    ensures forall j :: 0 <= j < k ==> bs[j].active
  {
    if bs == [] then 0
    else if !bs[0].active then 0
    else 1 + FirstFree(bs[1..])
  }

  /** A linear scan that stops at the first inactive slot finds FirstFree. */
  lemma FirstFreeUnique(bs: seq<Bullet>, k: nat)
    requires k <= |bs| && (k < |bs| ==> !bs[k].active)
    requires forall j :: 0 <= j < k ==> bs[j].active
    ensures k == FirstFree(bs)
  {
  }

  /** Where ShootBullet spawns a bullet travelling along `aim`: at the camera
      eye when aiming or in first person, otherwise one unit ahead of the
      player at eye level. */
  function Muzzle(fromCamera: bool, eye: Vec3, px: real, py: real, pz: real, aim: Vec3): Vec3
  {
    if fromCamera then eye
    else Vec3(px + aim.x * SPAWN_DISTANCE, py + SPAWN_EYE_HEIGHT, pz + aim.z * SPAWN_DISTANCE)
  }

  /** The pool after a shot: the first inactive slot takes the new bullet,
      or the bullet is appended when there is none. */
  function Acquire(bs: seq<Bullet>, nb: Bullet): seq<Bullet>
  {
    var k := FirstFree(bs);
    if k < |bs| then bs[k := nb] else bs + [nb]
  }

  /** Number of bullets in flight. */
  function ActiveCount(bs: seq<Bullet>): (n: nat)
    ensures n <= |bs|
  {
    if bs == [] then 0 else (if bs[0].active then 1 else 0) + ActiveCount(bs[1..])
  }

  /** The pool grows by one exactly when every slot was active; the new bullet
      lands in the first inactive slot (or at the end), and every other slot
      is left as it was. */
  lemma AcquireFirstFit(bs: seq<Bullet>, nb: Bullet)
    ensures |Acquire(bs, nb)| == if AllActive(bs) then |bs| + 1 else |bs|
    ensures Acquire(bs, nb)[FirstFree(bs)] == nb
    ensures forall j :: 0 <= j < FirstFree(bs) ==> bs[j].active
    ensures forall j :: 0 <= j < |bs| && j != FirstFree(bs) ==> Acquire(bs, nb)[j] == bs[j]
  {
    var k := FirstFree(bs);
    if k < |bs| {
      assert !AllActive(bs);
    } else {
      assert AllActive(bs);
    }
  }

  /** ActiveCount reaches the pool size exactly when every slot is active. */
  lemma {:induction false} ActiveCountFull(bs: seq<Bullet>)
    ensures ActiveCount(bs) == |bs| <==> AllActive(bs)
  {
    if bs != [] {
      ActiveCountFull(bs[1..]);
      assert AllActive(bs) <==> bs[0].active && AllActive(bs[1..]) by {
        forall j | 1 <= j < |bs| ensures bs[j] == bs[1..][j - 1] {}
      }
    }
  }

  /** Overwriting one slot changes the count by the difference of the two flags. */
  lemma {:induction false} ActiveCountUpdate(bs: seq<Bullet>, k: nat, b: Bullet)
    requires k < |bs|
    ensures ActiveCount(bs[k := b]) ==
      ActiveCount(bs) - (if bs[k].active then 1 else 0) + (if b.active then 1 else 0)
  {
    if k > 0 {
      assert bs[k := b][1..] == bs[1..][k - 1 := b];
      ActiveCountUpdate(bs[1..], k - 1, b);
    }
  }

  lemma {:induction false} ActiveCountAppend(bs: seq<Bullet>, b: Bullet)
    ensures ActiveCount(bs + [b]) == ActiveCount(bs) + (if b.active then 1 else 0)
  {
    if bs != [] {
      assert (bs + [b])[1..] == bs[1..] + [b];
      ActiveCountAppend(bs[1..], b);
    }
  }

  /** A shot puts exactly one more bullet in flight, and the pool is never
      longer than the larger of its old length and the number of bullets now
      in flight: reuse keeps the pool at its high-water mark. */
  lemma AcquireHighWater(bs: seq<Bullet>, nb: Bullet)
    requires nb.active
    ensures ActiveCount(Acquire(bs, nb)) == ActiveCount(bs) + 1
    ensures |Acquire(bs, nb)| <= if |bs| < ActiveCount(Acquire(bs, nb)) then ActiveCount(Acquire(bs, nb)) else |bs|
  {
    var k := FirstFree(bs);
    if k < |bs| {
      ActiveCountUpdate(bs, k, nb);
    } else {
      ActiveCountAppend(bs, nb);
      ActiveCountFull(bs);
    }
  }

  /** One tick of flight: an active bullet moves along its direction and ages;
      it is retired once its lifetime reaches its maximum. */
  function AgeBullet(b: Bullet): Bullet
  {
    if !b.active then b
    else
      var moved := b.(x := b.x + b.dx * b.speed * TICK,
                      y := b.y + b.dy * b.speed * TICK,
                      z := b.z + b.dz * b.speed * TICK,
                      lifetime := b.lifetime + TICK);
      if moved.lifetime >= moved.maxLifetime then moved.(active := false) else moved
  }

  function AgeBullets(bs: seq<Bullet>): (r: seq<Bullet>)
    ensures |r| == |bs|
  {
    seq(|bs|, i requires 0 <= i < |bs| => AgeBullet(bs[i]))
  }

  /** In-flight bullets have a lifetime in [0, maxLifetime). */
  predicate LifetimesOk(bs: seq<Bullet>)
  {
    forall i :: 0 <= i < |bs| && bs[i].active ==> 0.0 <= bs[i].lifetime < bs[i].maxLifetime
  }

  /** Ageing never shortens a lifetime, leaves retired bullets alone, and a
      bullet stays in flight exactly while its lifetime is below its maximum. */
  lemma AgeBulletsSpec(bs: seq<Bullet>)
    ensures forall i :: 0 <= i < |bs| ==> AgeBullets(bs)[i].lifetime >= bs[i].lifetime
    ensures forall i :: 0 <= i < |bs| && !bs[i].active ==> AgeBullets(bs)[i] == bs[i]
    ensures forall i :: 0 <= i < |bs| ==>
      (AgeBullets(bs)[i].active <==> bs[i].active && bs[i].lifetime + TICK < bs[i].maxLifetime)
    ensures forall i :: 0 <= i < |bs| && bs[i].active ==> AgeBullets(bs)[i].lifetime == bs[i].lifetime + TICK
  {
  }

  /** Both pool operations keep every in-flight lifetime in [0, maxLifetime). */
  lemma LifetimesPreserved(bs: seq<Bullet>, nb: Bullet)
    requires LifetimesOk(bs)
    requires nb.active ==> 0.0 <= nb.lifetime < nb.maxLifetime
    ensures LifetimesOk(AgeBullets(bs))
    ensures LifetimesOk(Acquire(bs, nb))
  {
    AcquireFirstFit(bs, nb);
    var r := Acquire(bs, nb);
    forall i | 0 <= i < |r| && r[i].active ensures 0.0 <= r[i].lifetime < r[i].maxLifetime {
      if i != FirstFree(bs) {
        assert r[i] == bs[i];
      }
    }
  }
}
