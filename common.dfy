/** Shared vocabulary of the simulation: the tick length, the optional value,
    and the two platform services the rules depend on but do not define
    (the C library's rand() and the trigonometric functions). */
module Common {

  /** One simulation tick, TIMER_INTERVAL (16 ms) expressed in seconds. */
  const TICK: real := 0.016

  datatype Option<T> = None | Some(value: T)

  /** A point or a direction in space. */
  datatype Vec3 = Vec3(x: real, y: real, z: real)

  /** Cosine and sine of an angle. */
  datatype Heading = Heading(cos: real, sin: real)

  /** The successive results of rand(): the k-th call made by the game returns
      `rand(k)`. Every result is non-negative, as rand() guarantees. */
  type RandStream = nat -> nat

  /** Cosine and sine of an angle given in degrees, as the platform computes them. */
  type Trig = real -> Heading

  /** std::min on ints. */
  function Min(a: int, b: int): (m: int)
    ensures m <= a && m <= b && (m == a || m == b)
  {
    if b < a then b else a
  }

  function Abs(r: real): (a: real)
    ensures a >= 0.0 && (a == r || a == -r)
  {
    if r < 0.0 then -r else r
  }

  /** Squared distance between two points of the ground plane. */
  function DistSq2(ax: real, az: real, bx: real, bz: real): real
  {
    (ax - bx) * (ax - bx) + (az - bz) * (az - bz)
  }

  /** Squared distance between two points in space. */
  function DistSq3(ax: real, ay: real, az: real, px: real, py: real, pz: real): real
  {
    (ax - px) * (ax - px) + (ay - py) * (ay - py) + (az - pz) * (az - pz)
  }
}
