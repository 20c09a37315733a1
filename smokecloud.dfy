/** The particle cloud of an explosion (class SmokeCloud): 10000 particles
    in spherical coordinates with a lifetime each, drawn from a uniform
    generator that is modelled as an input sequence of draws. */
module Smoke {
  import opened Common

  const NumParticles: nat := 10000
  /** Frames a particle lives at most. */
  const Lifetime: real := 200.0
  /** The cloud's scale factor. */
  const CloudScale: real := 2.0
  const White: Vec4 := Vec4(1.0, 1.0, 1.0, 1.0)

  /** The four draws of the generator one particle consumes, in order. */
  datatype Draws = Draws(phi: real, rho: real, radius: real, life: real)

  /** A value uniform_real_distribution<float> can produce. */
  predicate Unit(r: real)
  {
    0.0 <= r < 1.0
  }

  predicate UnitDraws(d: Draws)
  {
    Unit(d.phi) && Unit(d.rho) && Unit(d.radius) && Unit(d.life)
  }

  /** One particle: the two angles are a draw times pi360 reduced by fmod,
      the radius half a draw plus 0.3, clamped to [0.3, 1], and the lifetime
      a draw times LIFETIME. */
  function Particle(d: Draws): (p: Vec4)
    ensures 0.3 <= p.z <= 1.0
    ensures p.w == d.life * Lifetime
  {
    Vec4(FMod(d.phi * Pi360, Pi360), FMod(d.rho * Pi360, Pi360),
         Clamp(d.radius / 2.0 + 0.3, 0.3, 1.0), d.life * Lifetime)
  }

  /** For draws the distribution can produce, both angles lie in [0, pi360)
      and are the draw scaled to a full turn (the fmod leaves them as they
      are), the clamp leaves the radius as drawn, below 0.8, and the
      lifetime lies in [0, LIFETIME). */
  lemma ParticleBounds(d: Draws)
    requires UnitDraws(d)
    ensures var p := Particle(d);
            0.0 <= p.x < Pi360 && p.x == d.phi * Pi360 &&
            0.0 <= p.y < Pi360 && p.y == d.rho * Pi360 &&
            p.z == d.radius / 2.0 + 0.3 && 0.3 <= p.z < 0.8 &&
            0.0 <= p.w < Lifetime
  {
    UnitTurn(d.phi);
    UnitTurn(d.rho);
  }

  /** A unit draw times pi360 is in [0, pi360). */
  lemma UnitTurn(r: real)
    requires Unit(r)
    ensures 0.0 <= r * Pi360 < Pi360
  {
    assert Pi360 - r * Pi360 == (1.0 - r) * Pi360;
  }

  /** The particles initFire writes for the given draws. */
  function Cloud(draws: seq<Draws>): (ps: seq<Vec4>)
    ensures |ps| == |draws|
    ensures forall i :: 0 <= i < |ps| ==> 0.3 <= ps[i].z <= 1.0
  {
    seq(|draws|, i requires 0 <= i < |draws| => Particle(draws[i]))
  }

  /** Over unit draws every particle of the cloud is inside the bounds of a
      single particle. */
  lemma CloudBounds(draws: seq<Draws>, i: nat)
    requires i < |draws| && UnitDraws(draws[i])
    ensures var p := Cloud(draws)[i];
            0.0 <= p.x < Pi360 && 0.0 <= p.y < Pi360 && 0.3 <= p.z < 0.8 &&
            0.0 <= p.w < Lifetime && p.w == draws[i].life * Lifetime
  {
    ParticleBounds(draws[i]);
  }

  class SmokeCloud {
    const particles: array<Vec4>
    var color: Vec4
    var scaler: Transform

    predicate Valid()
      reads this
    {
      particles.Length == NumParticles
    }

    /** SmokeCloud(shader): the scale matrix, then initFire. */
    constructor(draws: seq<Draws>)
      requires |draws| == NumParticles
      ensures Valid() && fresh(particles)
      ensures particles[..] == Cloud(draws) && color == White
      ensures scaler == Scale(Identity, Vec3(CloudScale, CloudScale, CloudScale))
    {
      particles := new Vec4[NumParticles];
      color := White;
      scaler := Scale(Identity, Vec3(CloudScale, CloudScale, CloudScale));
      new;
      InitFire(draws);
    }

    /** initFire: every particle from its four draws, then the colour. */
    method InitFire(draws: seq<Draws>)
      requires Valid() && |draws| == NumParticles
      modifies this, particles
      ensures Valid() && particles[..] == Cloud(draws) && color == White
      ensures scaler == old(scaler)
    {
      FillParticles(particles, draws);
      color := White;
    }
  }

  /** The loop of initFire over the particle array. */
  method FillParticles(a: array<Vec4>, draws: seq<Draws>)
    requires a.Length == |draws|
    modifies a
    ensures a[..] == Cloud(draws)
  {
    var i := 0;
    while i < a.Length
      invariant 0 <= i <= a.Length
      invariant forall k :: 0 <= k < i ==> a[k] == Particle(draws[k])
    {
      var d := draws[i];
      var phi := FMod(d.phi * Pi360, Pi360);
      var rho := FMod(d.rho * Pi360, Pi360);
      var r := d.radius / 2.0 + 0.3;
      var radius := Clamp(r, 0.3, 1.0);
      var life := d.life * Lifetime;
      var p := Vec4(phi, rho, radius, life);
      assert p == Particle(d);
      a[i] := p;
      i := i + 1;
    }
    assert a[..] == Cloud(draws);
  }
}
