/** The particle of the Cyclone physics core and its Newton-Euler integrator.

    A particle holds its position, velocity and acceleration as three
    `Vec3` objects of its own, and two scalars: the damping factor and the
    inverse mass (zero or less means infinite mass, an immovable particle).
    `Integrate` updates the position and velocity vectors in place; what it
    computes is stated by the pure function `Step`. The power function of
    the C++ code is not part of this model: it is passed in as the function
    parameter `pow`. */
module Particles {
  import opened Vectors

  /** The value of a particle: everything `integrate` reads or writes. */
  datatype ParticleState = ParticleState(
    position: V3,
    velocity: V3,
    acceleration: V3,
    damping: real,
    inverseMass: real)

  /** What `integrate` demands of its caller: a positive duration, unless the
      particle has infinite mass and the call returns at once. */
  predicate DurationAccepted(s: ParticleState, duration: real) {
    s.inverseMass > 0.0 ==> duration > 0.0
  }

  /** One integration step of `duration`. A particle with infinite mass is
      left alone. Otherwise the position moves by the old velocity times the
      duration, the velocity gains the acceleration times the duration, and
      the new velocity is then damped by `pow(damping, duration)`. The
      acceleration, the damping and the inverse mass are kept. */
  function Step(s: ParticleState, duration: real, pow: (real, real) -> real): ParticleState
    requires DurationAccepted(s, duration)
  {
    if s.inverseMass <= 0.0 then
      s
    else
      var position := s.position.Plus(s.velocity.Scaled(duration));
      var velocity := s.velocity.Plus(s.acceleration.Scaled(duration));
      s.(position := position,
         velocity := velocity.Scaled(pow(s.damping, duration)))
  }

  /** A particle: `position`, `velocity` and `acceleration` are the vector
      members the C++ class holds by value, so they are three distinct objects
      owned by the particle. */
  class Particle {
    const position: Vec3
    const velocity: Vec3
    const acceleration: Vec3
    var damping: real
    var inverseMass: real

    /** The three vector members are distinct objects. */
    ghost predicate Valid()
      reads this
    {
      position != velocity && position != acceleration && velocity != acceleration
    }

    /** The current value of the particle. */
    function State(): ParticleState
      reads this, position, velocity, acceleration
    {
      ParticleState(position.Value(), velocity.Value(), acceleration.Value(),
                    damping, inverseMass)
    }

    /** A particle holding the given state. */
    constructor (initial: ParticleState)
      ensures Valid()
      ensures State() == initial
      ensures fresh(position) && fresh(velocity) && fresh(acceleration)
    {
      position := new Vec3.FromComponents(
        initial.position.x, initial.position.y, initial.position.z);
      velocity := new Vec3.FromComponents(
        initial.velocity.x, initial.velocity.y, initial.velocity.z);
      acceleration := new Vec3.FromComponents(
        initial.acceleration.x, initial.acceleration.y, initial.acceleration.z);
      damping := initial.damping;
      inverseMass := initial.inverseMass;
    }

    /** `integrate`: returns at once for a particle with infinite mass;
        otherwise moves the position by the velocity, adds the acceleration,
        copied into a temporary vector, to the velocity, and damps the
        velocity. Only the position and velocity vectors change. */
    method Integrate(duration: real, pow: (real, real) -> real)
      requires Valid()
      requires DurationAccepted(State(), duration)
      modifies position, velocity
      ensures Valid()
      ensures State() == Step(old(State()), duration, pow)
      ensures unchanged(acceleration)
    {
      if inverseMass <= 0.0 {
        return;
      }
      position.AddScaledVec(velocity, duration);
      var resultingAcc := new Vec3();
      resultingAcc.Assign(acceleration.Value());
      velocity.AddScaledVec(resultingAcc, duration);
      velocity.ScaleBy(pow(damping, duration));
    }
  }

  // ---------------------------------------------------------------------
  // Properties of the integration step

  /** A particle with zero or negative inverse mass never moves. */
  lemma StepImmovable(s: ParticleState, duration: real, pow: (real, real) -> real)
    requires s.inverseMass <= 0.0
    ensures Step(s, duration, pow) == s
  {
  }

  /** A step keeps the acceleration, the damping and the inverse mass. */
  lemma StepKeepsInputs(s: ParticleState, duration: real, pow: (real, real) -> real)
    requires DurationAccepted(s, duration)
    ensures var r := Step(s, duration, pow);
            r.acceleration == s.acceleration && r.damping == s.damping &&
            r.inverseMass == s.inverseMass
  {
  }

  /** For a movable particle the displacement is the old velocity times the
      duration: the position is updated before the velocity. */
  lemma StepDisplacement(s: ParticleState, duration: real, pow: (real, real) -> real)
    requires s.inverseMass > 0.0 && duration > 0.0
    ensures Step(s, duration, pow).position.Minus(s.position)
            == s.velocity.Scaled(duration)
  {
  }

  /** For a movable particle the new velocity is the old one damped by
      `k = pow(damping, duration)`, plus the acceleration times
      `duration * k`. */
  lemma StepVelocity(s: ParticleState, duration: real, pow: (real, real) -> real)
    requires s.inverseMass > 0.0 && duration > 0.0
    ensures var k := pow(s.damping, duration);
            Step(s, duration, pow).velocity
            == s.velocity.Scaled(k).Plus(s.acceleration.Scaled(duration * k))
  {
    var k := pow(s.damping, duration);
    var v, a := s.velocity, s.acceleration;
    DampedComponent(v.x, a.x, duration, k);
    DampedComponent(v.y, a.y, duration, k);
    DampedComponent(v.z, a.z, duration, k);
  }

  /** One component of `StepVelocity`, on plain reals. */
  lemma DampedComponent(v: real, a: real, duration: real, k: real)
    ensures (v + a * duration) * k == v * k + a * (duration * k)
  {
  }

  /** A damping factor of one (`pow(damping, duration) == 1`) removes no
      energy: the step is then the plain Newton-Euler step. */
  lemma StepUndamped(s: ParticleState, duration: real, pow: (real, real) -> real)
    requires s.inverseMass > 0.0 && duration > 0.0
    requires pow(s.damping, duration) == 1.0
    ensures Step(s, duration, pow).velocity == s.velocity.Plus(s.acceleration.Scaled(duration))
  {
  }

  /** Without acceleration a movable particle only coasts: its velocity is
      scaled by `k = pow(damping, duration)`, and its square speed by `k * k`. */
  lemma StepZeroAcceleration(s: ParticleState, duration: real, pow: (real, real) -> real)
    requires s.inverseMass > 0.0 && duration > 0.0
    requires s.acceleration == Zero
    ensures var k := pow(s.damping, duration);
            var r := Step(s, duration, pow);
            r.velocity == s.velocity.Scaled(k) &&
            r.velocity.SquareMagnitude() == k * k * s.velocity.SquareMagnitude()
  {
    var k := pow(s.damping, duration);
    assert s.velocity.Plus(s.acceleration.Scaled(duration)) == s.velocity;
    ScaledSquareMagnitude(s.velocity, k);
  }

  /** A particle at rest without acceleration stays where it is, at rest. */
  lemma StepAtRest(s: ParticleState, duration: real, pow: (real, real) -> real)
    requires DurationAccepted(s, duration)
    requires s.velocity == Zero && s.acceleration == Zero
    ensures Step(s, duration, pow).position == s.position
    ensures Step(s, duration, pow).velocity == Zero
  {
    if s.inverseMass > 0.0 {
      ZeroScaled(duration);
      ZeroScaled(pow(s.damping, duration));
      assert s.position.Plus(Zero) == s.position;
      assert Zero.Plus(Zero) == Zero;
    }
  }

  /** A concrete example: a particle at the origin with unit velocity along
      `x`, gravity `-9.8` along `y`, damping `0.99` and unit inverse mass. */
  predicate Falling(s: ParticleState) {
    s.position == Zero && s.velocity == V3(1.0, 0.0, 0.0) &&
    s.acceleration == V3(0.0, -9.8, 0.0) && s.damping == 0.99 && s.inverseMass == 1.0
  }

  lemma FallingPosition(s: ParticleState, pow: (real, real) -> real)
    requires Falling(s)
    ensures Step(s, 1.0, pow).position == V3(1.0, 0.0, 0.0)
  {
    StepDisplacement(s, 1.0, pow);
  }

  lemma FallingVelocity(s: ParticleState, pow: (real, real) -> real)
    requires Falling(s)
    ensures Step(s, 1.0, pow).velocity == V3(1.0, -9.8, 0.0).Scaled(pow(s.damping, 1.0))
  {
  }

  lemma FallingDamped(k: real)
    requires k == 0.99
    ensures V3(1.0, -9.8, 0.0).Scaled(k) == V3(0.99, -9.702, 0.0)
  {
  }

  /** One second of integration of a `Falling` particle, given that `pow`
      yields `0.99` for `pow(0.99, 1)`: the particle moves to `(1, 0, 0)`
      and its velocity becomes `(0.99, -9.702, 0)`. */
  lemma StepFalling(s: ParticleState, pow: (real, real) -> real)
    requires Falling(s)
    requires pow(0.99, 1.0) == 0.99
    ensures Step(s, 1.0, pow).position == V3(1.0, 0.0, 0.0)
    ensures Step(s, 1.0, pow).velocity == V3(0.99, -9.702, 0.0)
  {
    FallingPosition(s, pow);
    FallingVelocity(s, pow);
    FallingDamped(pow(s.damping, 1.0));
  }

  /** A `Falling` particle run through the in-place integrator: a particle is
      built, integrated once, and its new position and velocity read back. */
  method IntegrateExample(pow: (real, real) -> real) returns (position: V3, velocity: V3)
    requires pow(0.99, 1.0) == 0.99
    ensures position == V3(1.0, 0.0, 0.0)
    ensures velocity == V3(0.99, -9.702, 0.0)
  {
    var initial := ParticleState(Zero, V3(1.0, 0.0, 0.0), V3(0.0, -9.8, 0.0), 0.99, 1.0);
    var p := new Particle(initial);
    p.Integrate(1.0, pow);
    StepFalling(initial, pow);
    position, velocity := p.position.Value(), p.velocity.Value();
  }
}
