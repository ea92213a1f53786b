/** Explosions: a burst of thirty particles at a hit target that lives for
    half a second. Particle motion and colour are not modelled; their
    lifetimes and the rand() draws that would pick motion and colour are. */
module Explosions {
  import opened Common

  const PARTICLES_PER_EXPLOSION: nat := 30
  const EXPLOSION_LIFETIME: real := 0.5
  /** rand() results one particle consumes: yaw, elevation, speed and colour. */
  const PARTICLE_DRAWS: nat := 4
  /** Ticks an explosion stays active: 32 ticks of 16 ms are 0.512 s. */
  const EXPLOSION_TICKS: nat := 32

  datatype Particle = Particle(lifetime: real, maxLifetime: real, active: bool)

  datatype Explosion = Explosion(
    x: real, y: real, z: real,
    particles: seq<Particle>,
    lifetime: real,
    maxLifetime: real,
    active: bool)

  function FreshParticle(): Particle
  {
    Particle(0.0, EXPLOSION_LIFETIME, true)
  }

  /** What CreateExplosion builds at (x, y, z). */
  function Burst(x: real, y: real, z: real): Explosion
  {
    Explosion(x, y, z, seq(PARTICLES_PER_EXPLOSION, _ => FreshParticle()), 0.0, EXPLOSION_LIFETIME, true)
  }

  /** One tick of a particle: it ages and goes out once its lifetime is reached. */
  function TickParticle(p: Particle): Particle
  {
    if !p.active then p
    else
      var t := p.lifetime + TICK;
      p.(lifetime := t, active := t < p.maxLifetime)
  }

  function TickParticles(ps: seq<Particle>): (r: seq<Particle>)
    ensures |r| == |ps|
    ensures forall i :: 0 <= i < |ps| ==> r[i] == TickParticle(ps[i])
  {
    seq(|ps|, i requires 0 <= i < |ps| => TickParticle(ps[i]))
  }

  /** UpdateExplosions for one explosion: it ages; once its lifetime is reached
      it goes out and its particles are left as they are, otherwise every
      particle ages. */
  function TickExplosion(e: Explosion): Explosion
  {
    if !e.active then e
    else
      var t := e.lifetime + TICK;
      if t >= e.maxLifetime then e.(lifetime := t, active := false)
      else e.(lifetime := t, particles := TickParticles(e.particles))
  }

  function TickExplosions(es: seq<Explosion>): (r: seq<Explosion>)
    ensures |r| == |es|
    ensures forall i :: 0 <= i < |es| ==> r[i] == TickExplosion(es[i])
  {
    seq(|es|, i requires 0 <= i < |es| => TickExplosion(es[i]))
  }

  /** The shape of every explosion: thirty particles, and while the explosion
      is active its lifetime is in [0, 0.5) and every particle is alive with the
      explosion's own age and maximum. */
  predicate ExplosionOk(e: Explosion)
  {
    |e.particles| == PARTICLES_PER_EXPLOSION && e.maxLifetime == EXPLOSION_LIFETIME &&
    (e.active ==>
       0.0 <= e.lifetime < e.maxLifetime &&
       forall i :: 0 <= i < |e.particles| ==>
         e.particles[i].active && e.particles[i].lifetime == e.lifetime &&
         e.particles[i].maxLifetime == e.maxLifetime)
  }

  predicate ExplosionsOk(es: seq<Explosion>)
  {
    forall i :: 0 <= i < |es| ==> ExplosionOk(es[i])
  }

  lemma BurstOk(x: real, y: real, z: real)
    ensures ExplosionOk(Burst(x, y, z))
  {
  }

  /** A tick keeps every explosion's shape: particles age in lockstep with
      their explosion and, sharing its maximum, never go out before it does. */
  lemma TickExplosionOk(e: Explosion)
    requires ExplosionOk(e)
    ensures ExplosionOk(TickExplosion(e))
    ensures TickExplosion(e).lifetime >= e.lifetime
    ensures TickExplosion(e).active ==> e.active
  {
    if e.active && e.lifetime + TICK < e.maxLifetime {
      var r := TickExplosion(e);
      forall i | 0 <= i < |r.particles|
        ensures r.particles[i].active && r.particles[i].lifetime == r.lifetime &&
          r.particles[i].maxLifetime == r.maxLifetime
      {
        assert r.particles[i] == TickParticle(e.particles[i]);
      }
    }
  }

  lemma TickExplosionsOk(es: seq<Explosion>)
    requires ExplosionsOk(es)
    ensures ExplosionsOk(TickExplosions(es))
  {
    forall i | 0 <= i < |es| ensures ExplosionOk(TickExplosions(es)[i]) {
      TickExplosionOk(es[i]);
    }
  }

  /** An explosion after n ticks. */
  function TickN(e: Explosion, n: nat): Explosion
  {
    if n == 0 then e else TickExplosion(TickN(e, n - 1))
  }

  lemma {:induction false} BurstAge(x: real, y: real, z: real, n: nat)
    requires n < EXPLOSION_TICKS
    ensures TickN(Burst(x, y, z), n).active
    ensures TickN(Burst(x, y, z), n).lifetime == n as real * TICK
    ensures TickN(Burst(x, y, z), n).maxLifetime == EXPLOSION_LIFETIME
  {
    if n > 0 {
      BurstAge(x, y, z, n - 1);
    }
  }

  /** An explosion is visible for exactly 32 ticks: active after 31, gone after 32. */
  lemma ExplosionDuration(x: real, y: real, z: real)
    ensures TickN(Burst(x, y, z), EXPLOSION_TICKS - 1).active
    ensures !TickN(Burst(x, y, z), EXPLOSION_TICKS).active
  {
    BurstAge(x, y, z, EXPLOSION_TICKS - 1);
  }
}
