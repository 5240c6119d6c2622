# Cyclone vector algebra and particle integrator, in Dafny

This project models the core of the Cyclone physics engine. That core is
the three-dimensional vector class `cyclone::Vec3` and the `Particle`
class, whose `integrate` member advances a point mass by one Newton-Euler
step. Scalars are Dafny `real`s.

- `vectors.dfy` (module `Vectors`) holds the vector algebra.
  - The datatype `V3` is the value of a vector. Its functions are the
    `const` members of `Vec3`: `operator*` by a scalar, `operator+`,
    `operator-`, the dot product `operator*`, `crossProduct`,
    `componentProductUpdate`, `squareMagnitude` and `Magnitude`. They also
    include the values `invert` and `normalize` leave behind.
  - The class `Vec3` has mutable `x`, `y`, `z` and the in-place members.
    Each method's postcondition states the new value as a function of the
    old one.
  - `OrthonormalBasis` is the pure description of `makeOrthonormalBasis`.
- `particles.dfy` (module `Particles`) holds the particle.
  - The datatype `ParticleState` is the value of a particle.
  - `Step` is the pure description of one integration step.
  - The class `Particle` owns three `Vec3` objects: position, velocity and
    acceleration. `Integrate` updates them in place through the `Vec3`
    methods, in the order the C++ code uses, and is proved to reach
    `Step` of the old state.

The square root and power functions of the C++ code are supplied by a
precision header. That header is not part of this model, so the two
functions are parameters: `sqrt: real -> real` and
`pow: (real, real) -> real`. A lemma assumes only what it states about them.

The model follows the code as written, also in three places a reader
might not expect.

- `normalize` is documented (core.h:39) to produce a unit vector. It
  multiplies by `len / len`, which is one, so it never changes the vector
  (`NormalizedIsIdentity`).
- `makeOrthonormalBasis` is named for an orthonormal basis, but it
  normalizes through that `normalize` and so inherits the same difference:
  the basis it builds is orthogonal but in general not of unit length
  (`BasisOrthogonal`, `BasisRightHanded`, `BasisNotUnit`).
- `makeOrthonormalBasis` writes `a x b` into `c` before it
  checks whether that product is zero. So even in the degenerate case `c`
  is overwritten, and only `a` and `b` keep their values
  (`BasisDegenerate`).

## Model

| member | source | states |
|---|---|---|
| Vectors.V3.Scaled | Cyclone/include/cyclone/core.h:66-69 | definition without a contract of its own (`operator*` by a scalar); its properties are in `ScaledLinear`, `ScaledTwice`, `ScaledSquareMagnitude`, `ScaledNonZero` and `Vec3.ScaleBy` |
| Vectors.V3.Plus | Cyclone/include/cyclone/core.h:81-84 | definition without a contract of its own (`operator+`); its properties are in `MinusIsPlusNegated`, `ScaledLinear` and `Vec3.AddAssign` |
| Vectors.V3.Minus | Cyclone/include/cyclone/core.h:95-98 | definition without a contract of its own (`operator-`); its properties are in `MinusIsPlusNegated` and `Vec3.SubAssign` |
| Vectors.V3.Negated | Cyclone/include/cyclone/core.h:20-25 | definition without a contract of its own (the value `invert` leaves); its properties are in `NegatedTwice`, `ScaledLinear` and `Vec3.Invert` |
| Vectors.V3.ComponentProductUpdate | Cyclone/include/cyclone/core.h:115-118 | definition without a contract of its own; its properties are in `ComponentProductCommutes` and `Vec3.ComponentProduct` |
| Vectors.V3.Dot | Cyclone/include/cyclone/core.h:121-124 | definition without a contract of its own (the dot `operator*`); its properties are in `DotSymmetric`, `DotScaled`, `V3.SquareMagnitude` and `CrossOrthogonal` |
| Vectors.V3.CrossProduct | Cyclone/include/cyclone/core.h:126-131 | definition without a contract of its own; its properties are in `CrossOrthogonal`, `CrossAntiCommutative`, `CrossSelfZero`, `CrossScaled`, `CrossSquareMagnitude`, `CrossBackAndForth` and `Vec3.CrossProductUpdate` |
| Vectors.V3.Magnitude | Cyclone/include/cyclone/core.h:28-31 | definition without a contract of its own (the given `sqrt` of the square magnitude); its properties are in `MagnitudePositive` and `MagnitudeOfNonZero` |
| Vectors.V3.Normalized | Cyclone/include/cyclone/core.h:40-47 | definition without a contract of its own (the value `normalize` leaves); its properties are in `NormalizedIsIdentity`, `NormalizeNotUnit` and `Vec3.Normalize` |
| Vectors.V3.UnitNormalized | Cyclone/include/cyclone/core.h:39 | definition without a contract of its own (normalization as the comment describes it); its properties are in `UnitNormalizedLength` and `NormalizeNotUnit` |
| Vectors.OrthonormalBasis | Cyclone/include/cyclone/core.h:138-146 | definition without a contract of its own (the values `makeOrthonormalBasis` leaves); its properties are in `BasisKeepsPrimaryAxis`, `BasisDegenerate`, `BasisOrthogonal`, `BasisSummary`, `BasisRightHanded`, `BasisNotUnit` and `Vec3.MakeOrthonormalBasis` |
| Vectors.IntendedOrthonormalBasis | Cyclone/include/cyclone/core.h:39 | definition without a contract of its own (the basis built with the documented normalization); its properties are in `IntendedBasisOrthonormal` |
| Particles.Step | Cyclone/src/particle.cpp:4-27 | definition without a contract of its own (one integration step on a particle value); its properties are in `StepImmovable`, `StepKeepsInputs`, `StepDisplacement`, `StepVelocity`, `StepUndamped`, `StepZeroAcceleration`, `StepAtRest`, `StepFalling` and `Particle.Integrate` |
| Vectors.V3.SquareMagnitude | Cyclone/include/cyclone/core.h:34-37 | the square magnitude is never negative and equals the dot product of the vector with itself |
| Vectors.SquareMagnitudePositive | Cyclone/include/cyclone/core.h:34-37 | every non-zero vector has a positive square magnitude |
| Vectors.SquareMagnitudeZero | Cyclone/include/cyclone/core.h:34-37 | the square magnitude is zero exactly for the zero vector, in both directions |
| Vectors.MagnitudePositive | Cyclone/include/cyclone/core.h:42-43 | for a square root positive exactly on positive arguments, the `len > 0` guard of `normalize` holds exactly for non-zero vectors |
| Vectors.MagnitudeOfNonZero | Cyclone/include/cyclone/core.h:28-31 | with a true square root, a non-zero vector has positive magnitude, and the magnitude squared is the square magnitude |
| Vectors.Vec3.constructor | Cyclone/include/cyclone/core.h:15 | the default vector is zero |
| Vectors.Vec3.FromComponents | Cyclone/include/cyclone/core.h:16-17 | the vector holds the given components |
| Vectors.Vec3.Invert | Cyclone/include/cyclone/core.h:20-25 | every component is negated in place |
| Vectors.NegatedTwice | Cyclone/include/cyclone/core.h:20-25 | inverting twice restores the vector |
| Vectors.Vec3.Assign | Cyclone/include/cyclone/core.h:50-55 | the vector takes the given value |
| Vectors.Vec3.ScaleBy | Cyclone/include/cyclone/core.h:58-63 | scaling in place leaves the value `operator*` returns |
| Vectors.ScaledLinear | Cyclone/include/cyclone/core.h:66-69 | scaling by minus one is inversion, and scaling distributes over addition |
| Vectors.ScaledTwice | Cyclone/include/cyclone/core.h:66-69 | scaling by `d` then `k` is scaling by `d * k` |
| Vectors.ScaledSquareMagnitude | Cyclone/include/cyclone/core.h:66-69 | scaling by `k` multiplies the square magnitude by `k * k` |
| Vectors.ScaledNonZero | Cyclone/include/cyclone/core.h:66-69 | a non-zero vector scaled by a non-zero factor is not zero |
| Vectors.Vec3.AddAssign | Cyclone/include/cyclone/core.h:72-78 | adding in place leaves the value `operator+` returns, even when the argument is the vector itself; a distinct argument is unchanged |
| Vectors.MinusIsPlusNegated | Cyclone/include/cyclone/core.h:94-98 | `operator-` is `operator+` of the inverted vector, and subtracting undoes adding |
| Vectors.Vec3.SubAssign | Cyclone/include/cyclone/core.h:87-92 | subtracting in place leaves the value `operator-` returns, aliasing included |
| Vectors.Vec3.AddScaledVec | Cyclone/include/cyclone/core.h:101-104 | the vector gains the argument times the scalar; a distinct argument is unchanged |
| Vectors.Vec3.ComponentProduct | Cyclone/include/cyclone/core.h:107-112 | multiplying elementwise in place leaves the value `componentProductUpdate` returns, aliasing included |
| Vectors.ComponentProductCommutes | Cyclone/include/cyclone/core.h:115-118 | the elementwise product is commutative and has `(1, 1, 1)` as unit |
| Vectors.DotSymmetric | Cyclone/include/cyclone/core.h:121-124 | the dot product is symmetric |
| Vectors.DotScaled | Cyclone/include/cyclone/core.h:121-124 | scaling an operand by `k` scales the dot product by `k` |
| Vectors.CrossOrthogonal | Cyclone/include/cyclone/core.h:126-131 | the cross product is orthogonal to both operands |
| Vectors.CrossAntiCommutative | Cyclone/include/cyclone/core.h:126-131 | swapping the operands inverts the cross product |
| Vectors.CrossSelfZero | Cyclone/include/cyclone/core.h:126-131 | a vector crossed with itself is zero |
| Vectors.CrossScaled | Cyclone/include/cyclone/core.h:126-131 | scaling the first operand scales the cross product |
| Vectors.CrossSquareMagnitude | Cyclone/include/cyclone/core.h:126-131 | Lagrange's identity: the square magnitude of `a x b` is the product of the square magnitudes minus the square of `a . b` |
| Vectors.CrossBackAndForth | Cyclone/include/cyclone/core.h:126-131 | `a x (c x a)` is `c` scaled by the square magnitude of `a`, minus `a` scaled by `a . c` |
| Vectors.PerpendicularBackAndForth | Cyclone/include/cyclone/core.h:126-131 | for perpendicular `a` and `c`, `a x (c x a)` is `c` scaled by the square magnitude of `a` |
| Vectors.CrossOfPerpendicularSquareMagnitude | Cyclone/include/cyclone/core.h:126-131 | the cross product of perpendicular vectors has the product of their square magnitudes as its square magnitude |
| Vectors.CrossOfPerpendicular | Cyclone/include/cyclone/core.h:126-131 | the cross product of two non-zero perpendicular vectors is not zero |
| Vectors.Vec3.CrossProductUpdate | Cyclone/include/cyclone/core.h:133-136 | the vector becomes its old value crossed with the argument's old value, aliasing included |
| Vectors.NormalizedIsIdentity | Cyclone/include/cyclone/core.h:40-47 | `normalize`, for any square root, leaves every vector unchanged |
| Vectors.Vec3.Normalize | Cyclone/include/cyclone/core.h:40-47 | the vector is multiplied by `len / len` when its magnitude is positive, so it keeps its value |
| Vectors.NormalizeNotUnit | Cyclone/include/cyclone/core.h:45 | even with a true square root, `normalize` leaves `(2, 0, 0)` at square magnitude four; the documented normalization brings it to one |
| Vectors.UnitNormalizedLength | Cyclone/include/cyclone/core.h:39-47 | with a true square root, the documented normalization of a non-zero vector scales it by a positive factor to unit length |
| Vectors.Vec3.MakeOrthonormalBasis | Cyclone/include/cyclone/core.h:138-146 | the three vectors take the values of `OrthonormalBasis`: `a` is kept and `c` becomes `a x b`; in the degenerate case `b` is kept, otherwise `b` becomes `c x a`; `a . c` is zero, and outside the degenerate case the three vectors are pairwise orthogonal |
| Vectors.BasisKeepsPrimaryAxis | Cyclone/include/cyclone/core.h:140-141 | `a` keeps its value and `c` becomes `a x b`, on both paths |
| Vectors.BasisDegenerate | Cyclone/include/cyclone/core.h:143 | the early return happens exactly when `a x b` is zero, and then the result is `a`, the old `b` and the zero vector |
| Vectors.BasisOrthogonal | Cyclone/include/cyclone/core.h:144-145 | `a . c` is zero; outside the degenerate case `b` becomes `(a x b) x a` and is orthogonal to `a` and to `c` |
| Vectors.BasisSummary | Cyclone/include/cyclone/core.h:138-146 | the facts above, stated in terms of the three result vectors alone |
| Vectors.BasisRightHanded | Cyclone/include/cyclone/core.h:144-145 | outside the degenerate case `a x b` (with the new `b`) is `c` scaled by the square magnitude of `a`, and the new `b` is non-zero with square magnitude equal to that of `c` times that of `a` |
| Vectors.BasisNotUnit | Cyclone/include/cyclone/core.h:138-146 | the basis as written keeps the square magnitude of `a` and gives `c` the square magnitude of `a x b`, so `a` and `c` come out of unit length only when `a` and `a x b` already are; for `a = (2, 0, 0)` and `b = (0, 1, 0)` it has `c = (0, 0, 2)`, and `a` and `c` have square magnitude four |
| Vectors.IntendedBasisOrthonormal | Cyclone/include/cyclone/core.h:138-146 | with a true square root and `a x b` non-zero, the documented basis consists of three pairwise orthogonal unit vectors |
| Particles.Particle.constructor | Cyclone/include/cyclone/particle.h:9-36 | the particle holds the given state in three distinct, fresh vectors |
| Particles.Particle.Integrate | Cyclone/src/particle.cpp:4-27 | the particle's new state is `Step` of its old state; the acceleration vector is unchanged and the three vectors stay distinct |
| Particles.StepImmovable | Cyclone/src/particle.cpp:7 | a particle with zero or negative inverse mass is left exactly as it was |
| Particles.StepKeepsInputs | Cyclone/src/particle.cpp:4-27 | a step never changes the acceleration, the damping or the inverse mass |
| Particles.StepDisplacement | Cyclone/src/particle.cpp:12 | a movable particle moves by its old velocity times the duration |
| Particles.StepVelocity | Cyclone/src/particle.cpp:16-23 | the new velocity is the old one damped by `k = pow(damping, duration)`, plus the acceleration times `duration * k` |
| Particles.StepUndamped | Cyclone/src/particle.cpp:20-23 | when `pow(damping, duration)` is one, the new velocity is the old one plus the acceleration times the duration |
| Particles.StepZeroAcceleration | Cyclone/src/particle.cpp:16-23 | without acceleration the velocity is only damped, and its square magnitude is scaled by `k * k` |
| Particles.StepAtRest | Cyclone/src/particle.cpp:12-23 | a particle at rest without acceleration keeps its position and stays at rest |
| Particles.StepFalling | Cyclone/src/particle.cpp:4-27 | a `Falling` particle, one second from the origin, with velocity `(1, 0, 0)`, gravity `(0, -9.8, 0)` and damping `0.99`, ends at position `(1, 0, 0)` with velocity `(0.99, -9.702, 0)` |
| Particles.IntegrateExample | Cyclone/src/particle.cpp:4-27 | the in-place integrator, run on the same particle, produces the same position and velocity |

## Left out

- Floating point: `cyclone::real` is `float`, and the model uses exact reals. Rounding, overflow, infinities and NaN are not modelled. So, for example, the model's `len / len` is exactly one.
- `real_sqrt` and `real_pow` come from a precision header that is not part of this model. They are the parameters `sqrt` and `pow`. Lemmas that need a property of them state it as a precondition.
- Vectors.V3.Magnitude: no contract of its own. It is the given `sqrt` applied to the square magnitude, and `MagnitudePositive` and `MagnitudeOfNonZero` state its properties under assumptions about `sqrt`.
- The `padding` member of `Vec3` carries no state and is not modelled.
- Vectors.Vec3.MakeOrthonormalBasis: requires the three vectors to be distinct, and null arguments do not arise. The C++ member accepts aliased arguments, and it does not use `this`, so the model makes it static.
- Vectors.Vec3.Assign: takes a vector value rather than a `const Vec3 &`. `operator=` copies the three components one by one, and each component is read before it is written, so reading the argument's value first gives the same result, self-assignment included. In `integrate`, `resultingAcc = acceleration` therefore becomes an assignment of the acceleration's current value.
- Particles.Particle.constructor: the C++ class has no constructor. Its `damping` and `inverseMass` are left uninitialized, and no setter is part of the core. The model's constructor builds a particle from a given state.
- Particles.Particle.Integrate: the debug `assert(duration > 0.0)` becomes a precondition, which applies only when the inverse mass is positive. Builds without assertions do not check it.
- The force accumulator (`clearAccumulator`, commented out in `integrate`) is not part of this model.
- Access control (`protected`, `public`) is not modelled.
- Vectors.IntendedOrthonormalBasis and Vectors.V3.UnitNormalized: these describe the documented behaviour. The mutating `Vec3` methods keep the behaviour of the code as written.

## Findings

| source | as written | input that shows it | evidently intended | confidence | as-written member | corrected member |
|---|---|---|---|---|---|---|
| Cyclone/include/cyclone/core.h:45 | `normalize` multiplies the vector by `len / len`, which is one | `(2, 0, 0)` keeps square magnitude four | multiply by `1 / len`, giving a unit vector as the comment says | not executed; high | Vectors.NormalizeNotUnit | Vectors.UnitNormalizedLength |
| Cyclone/include/cyclone/core.h:138-146 | `makeOrthonormalBasis` calls that `normalize`, so its basis is orthogonal but not of unit length | `a = (2, 0, 0)`, `b = (0, 1, 0)` gives `c = (0, 0, 2)` | three pairwise orthogonal unit vectors | not executed; high | Vectors.BasisNotUnit | Vectors.IntendedBasisOrthonormal |
