/** Three-dimensional vector algebra of the Cyclone physics core.

    `V3` is the value of a `cyclone::Vec3` and carries the `const` members of
    that C++ class as functions; `Vec3` is the class whose methods update the
    components `x`, `y`, `z` in place. Scalars are mathematical reals, so every
    operation except the magnitude is exact polynomial arithmetic. The square
    root of the C++ code is not part of this model: it is passed in as the
    function parameter `sqrt`, about which nothing is assumed unless a lemma
    says so. */
module Vectors {

  /** The value of a vector: its three components. */
  datatype V3 = V3(x: real, y: real, z: real) {

    /** `operator*(real)`: a copy of this vector scaled by `scalar`. */
    function Scaled(scalar: real): V3 {
      V3(x * scalar, y * scalar, z * scalar)
    }

    /** `operator+`: the componentwise sum. */
    function Plus(v: V3): V3 {
      V3(x + v.x, y + v.y, z + v.z)
    }

    /** `operator-`: the componentwise difference. */
    function Minus(v: V3): V3 {
      V3(x - v.x, y - v.y, z - v.z)
    }

    /** The value `invert` leaves in a vector: every component negated. */
    function Negated(): V3 {
      V3(-x, -y, -z)
    }

    /** `componentProductUpdate`: the elementwise (Hadamard) product, returned
        as a new value. */
    function ComponentProductUpdate(v: V3): V3 {
      V3(x * v.x, y * v.y, z * v.z)
    }

    /** `operator*(const Vec3 &)`: the dot product. */
    function Dot(v: V3): real {
      x * v.x + y * v.y + z * v.z
    }

    /** `crossProduct`: the right-handed cross product. */
    function CrossProduct(v: V3): V3 {
      V3(y * v.z - z * v.y, z * v.x - x * v.z, x * v.y - y * v.x)
    }

    /** `squareMagnitude`: the dot product of the vector with itself, never
        negative. */
    function SquareMagnitude(): (r: real)
      ensures r == Dot(this)
      ensures r >= 0.0
    {
      assert x * x >= 0.0 && y * y >= 0.0 && z * z >= 0.0;
      x * x + y * y + z * z
    }

    /** `Magnitude`: the square root, as given by `sqrt`, of the sum of the
        squared components. */
    function Magnitude(sqrt: real -> real): real {
      sqrt(SquareMagnitude())
    }

    /** The value `normalize` leaves in a vector: when the magnitude `len` is
        positive the vector is multiplied by `len / len`, otherwise it is left
        alone. */
    function Normalized(sqrt: real -> real): V3 {
      var len := Magnitude(sqrt);
      if len > 0.0 then Scaled(len / len) else this
    }

    /** The value `normalize` is documented to produce: the vector divided by
        its magnitude `len` when that is positive, otherwise the vector
        itself. */
    function UnitNormalized(sqrt: real -> real): V3 {
      var len := Magnitude(sqrt);
      if len > 0.0 then Scaled(1.0 / len) else this
    }
  }

  /** The vector a default-constructed `Vec3` holds. */
  const Zero := V3(0.0, 0.0, 0.0)

  /** The three vectors `makeOrthonormalBasis` writes through its three arguments. */
  datatype Basis = Basis(a: V3, b: V3, c: V3)

  /** The values `makeOrthonormalBasis` leaves in its three vectors, given the
      old values of `a` and `b`: `a` is normalized, `c` becomes `a x b`; when
      `c` has square magnitude zero the operation stops there, otherwise `c`
      is normalized and `b` becomes `c x a`. */
  function OrthonormalBasis(a: V3, b: V3, sqrt: real -> real): Basis {
    var a1 := a.Normalized(sqrt);
    var c1 := a1.CrossProduct(b);
    if c1.SquareMagnitude() == 0.0 then
      Basis(a1, b, c1)
    else
      var c2 := c1.Normalized(sqrt);
      Basis(a1, c2.CrossProduct(a1), c2)
  }

  /** `makeOrthonormalBasis` as documented, with `UnitNormalized` in place of
      `Normalized`. */
  function IntendedOrthonormalBasis(a: V3, b: V3, sqrt: real -> real): Basis {
    var a1 := a.UnitNormalized(sqrt);
    var c1 := a1.CrossProduct(b);
    if c1.SquareMagnitude() == 0.0 then
      Basis(a1, b, c1)
    else
      var c2 := c1.UnitNormalized(sqrt);
      Basis(a1, c2.CrossProduct(a1), c2)
  }

  /** `sqrt` is a square root on the non-negative reals. */
  ghost predicate IsSquareRoot(sqrt: real -> real) {
    forall t :: t >= 0.0 ==> sqrt(t) >= 0.0 && sqrt(t) * sqrt(t) == t
  }

  /** A mutable vector, the in-place half of `cyclone::Vec3`. The alignment
      padding of the C++ class carries no state and is not modelled. */
  class Vec3 {
    var x: real
    var y: real
    var z: real

    /** The current value of the vector. */
    function Value(): V3
      reads this
    {
      V3(x, y, z)
    }

    /** `Vec3()`: the zero vector. */
    constructor ()
      ensures Value() == Zero
    {
      x, y, z := 0.0, 0.0, 0.0;
    }

    /** `Vec3(x, y, z)`. */
    constructor FromComponents(x: real, y: real, z: real)
      ensures Value() == V3(x, y, z)
    {
      this.x, this.y, this.z := x, y, z;
    }

    /** `invert`: negates each component in place. */
    method Invert()
      modifies this
      ensures Value() == old(Value()).Negated()
    {
      x := -x;
      y := -y;
      z := -z;
    }

    /** `operator=`: copies the components of `v` into this vector. */
    method Assign(v: V3)
      modifies this
      ensures Value() == v
    {
      x := v.x;
      y := v.y;
      z := v.z;
    }

    /** `operator*=`: scales this vector in place, to the value `operator*`
        returns. */
    method ScaleBy(scalar: real)
      modifies this
      ensures Value() == old(Value()).Scaled(scalar)
    {
      x := x * scalar;
      y := y * scalar;
      z := z * scalar;
    }

    /** `operator+=`: adds `v` in place, to the value `operator+` returns; this
        holds even when `v` is this very vector. */
    method AddAssign(v: Vec3)
      modifies this
      ensures Value() == old(Value()).Plus(old(v.Value()))
      ensures v != this ==> v.Value() == old(v.Value())
    {
      x := x + v.x;
      y := y + v.y;
      z := z + v.z;
    }

    /** `operator-=`: subtracts `v` in place, to the value `operator-`
        returns. */
    method SubAssign(v: Vec3)
      modifies this
      ensures Value() == old(Value()).Minus(old(v.Value()))
      ensures v != this ==> v.Value() == old(v.Value())
    {
      x := x - v.x;
      y := y - v.y;
      z := z - v.z;
    }

    /** `addScaledVec`: adds `v * scalar`, built as a temporary vector, to this
        vector; `v` itself is left unchanged. */
    method AddScaledVec(v: Vec3, scalar: real)
      modifies this
      ensures Value() == old(Value()).Plus(old(v.Value()).Scaled(scalar))
      ensures v != this ==> v.Value() == old(v.Value())
    {
      var scaled := v.Value().Scaled(scalar);
      var temporary := new Vec3.FromComponents(scaled.x, scaled.y, scaled.z);
      AddAssign(temporary);
    }

    /** `componentProduct`: multiplies this vector elementwise by `v` in place,
        to the value `componentProductUpdate` returns. */
    method ComponentProduct(v: Vec3)
      modifies this
      ensures Value() == old(Value()).ComponentProductUpdate(old(v.Value()))
      ensures v != this ==> v.Value() == old(v.Value())
    {
      x := x * v.x;
      y := y * v.y;
      z := z * v.z;
    }

    /** `crossProductUpdate`: sets this vector to `this x v`. */
    method CrossProductUpdate(v: Vec3)
      modifies this
      ensures Value() == old(Value()).CrossProduct(old(v.Value()))
      ensures v != this ==> v.Value() == old(v.Value())
    {
      Assign(Value().CrossProduct(v.Value()));
    }

    /** `normalize`: multiplies the vector by `len / len` when its magnitude
        `len` is positive. That factor is one, so the vector never changes. */
    method Normalize(sqrt: real -> real)
      modifies this
      ensures Value() == old(Value()).Normalized(sqrt)
      ensures Value() == old(Value())
    {
      NormalizedIsIdentity(Value(), sqrt);
      var len := Value().Magnitude(sqrt);
      if len > 0.0 {
        ScaleBy(len / len);
      }
    }

    /** `makeOrthonormalBasis`, on three distinct vectors (the C++ member does
        not use `this`). `c` is always overwritten with `a x b`; when that has
        square magnitude zero `b` keeps its value, otherwise `b` becomes
        `c x a` and the three vectors are pairwise orthogonal. */
    static method MakeOrthonormalBasis(a: Vec3, b: Vec3, c: Vec3, sqrt: real -> real)
      requires a != b && a != c && b != c
      modifies a, b, c
      ensures Basis(a.Value(), b.Value(), c.Value())
              == OrthonormalBasis(old(a.Value()), old(b.Value()), sqrt)
      ensures a.Value() == old(a.Value())
      ensures c.Value() == old(a.Value()).CrossProduct(old(b.Value()))
      ensures c.Value().SquareMagnitude() == 0.0 ==> b.Value() == old(b.Value())
      ensures c.Value().SquareMagnitude() != 0.0 ==> b.Value() == c.Value().CrossProduct(a.Value())
      ensures a.Value().Dot(c.Value()) == 0.0
      ensures c.Value().SquareMagnitude() != 0.0 ==>
                a.Value().Dot(b.Value()) == 0.0 && b.Value().Dot(c.Value()) == 0.0
    {
      ghost var a0, b0 := a.Value(), b.Value();
      a.Normalize(sqrt);
      c.Assign(a.Value().CrossProduct(b.Value()));
      if c.Value().SquareMagnitude() == 0.0 {
        BasisSummary(a0, b0, sqrt);
        return;
      }
      c.Normalize(sqrt);
      b.Assign(c.Value().CrossProduct(a.Value()));
      BasisSummary(a0, b0, sqrt);
    }
  }

  // ---------------------------------------------------------------------
  // Properties of the vector operations

  /** Inverting twice restores the vector. */
  lemma NegatedTwice(v: V3)
    ensures v.Negated().Negated() == v
  {
  }

  /** `operator-` is `operator+` of the inverted vector, and subtracting undoes
      adding. */
  lemma MinusIsPlusNegated(a: V3, b: V3)
    ensures a.Minus(b) == a.Plus(b.Negated())
    ensures a.Plus(b).Minus(b) == a
  {
  }

  /** Scaling by minus one inverts; scaling distributes over addition. */
  lemma ScaledLinear(a: V3, b: V3, s: real)
    ensures a.Scaled(-1.0) == a.Negated()
    ensures a.Plus(b).Scaled(s) == a.Scaled(s).Plus(b.Scaled(s))
  {
  }

  /** Scaling the zero vector gives the zero vector. */
  lemma ZeroScaled(k: real)
    ensures Zero.Scaled(k) == Zero
  {
  }

  /** Scaling twice is scaling by the product of the factors. */
  lemma ScaledTwice(v: V3, d: real, k: real)
    ensures v.Scaled(d).Scaled(k) == v.Scaled(d * k)
  {
    assert (v.x * d) * k == v.x * (d * k);
    assert (v.y * d) * k == v.y * (d * k);
    assert (v.z * d) * k == v.z * (d * k);
  }

  /** Scaling by `k` scales the square magnitude by `k * k`. */
  lemma ScaledSquareMagnitude(v: V3, k: real)
    ensures v.Scaled(k).SquareMagnitude() == k * k * v.SquareMagnitude()
  {
    calc {
      v.Scaled(k).SquareMagnitude();
      (v.x * k) * (v.x * k) + (v.y * k) * (v.y * k) + (v.z * k) * (v.z * k);
      k * k * (v.x * v.x + v.y * v.y + v.z * v.z);
    }
  }

  /** The dot product is symmetric. */
  lemma DotSymmetric(a: V3, b: V3)
    ensures a.Dot(b) == b.Dot(a)
  {
  }

  /** The elementwise product is commutative and has `(1, 1, 1)` as unit. */
  lemma ComponentProductCommutes(a: V3, b: V3)
    ensures a.ComponentProductUpdate(b) == b.ComponentProductUpdate(a)
    ensures a.ComponentProductUpdate(V3(1.0, 1.0, 1.0)) == a
  {
  }

  /** A non-zero real has a positive square. */
  lemma SquarePositive(r: real)
    ensures r != 0.0 ==> r * r > 0.0
    ensures r * r >= 0.0
  {
    if r < 0.0 {
      assert (-r) * (-r) > 0.0;
      assert r * r == (-r) * (-r);
    }
  }

  /** Three reals, not all zero, have a positive sum of squares. */
  lemma SumOfSquaresPositive(x: real, y: real, z: real)
    requires x != 0.0 || y != 0.0 || z != 0.0
    ensures x * x + y * y + z * z > 0.0
  {
    SquarePositive(x);
    SquarePositive(y);
    SquarePositive(z);
  }

  /** A non-zero vector has a positive square magnitude. */
  lemma SquareMagnitudePositive(v: V3)
    requires v != Zero
    ensures v.SquareMagnitude() > 0.0
  {
    calc {
      v.SquareMagnitude();
      v.x * v.x + v.y * v.y + v.z * v.z;
    > { SumOfSquaresPositive(v.x, v.y, v.z); }
      0.0;
    }
  }

  /** Only the zero vector has square magnitude zero. */
  lemma SquareMagnitudeZero(v: V3)
    ensures v.SquareMagnitude() == 0.0 <==> v == Zero
  {
    if v != Zero {
      SquareMagnitudePositive(v);
    }
  }

  /** For a square root that is positive exactly on the positive reals, the
      guard `len > 0` of `normalize` holds exactly for the non-zero vectors. */
  lemma MagnitudePositive(v: V3, sqrt: real -> real)
    requires forall t :: t >= 0.0 ==> (sqrt(t) > 0.0 <==> t > 0.0)
    ensures v.Magnitude(sqrt) > 0.0 <==> v != Zero
  {
    SquareMagnitudeZero(v);
  }

  /** `normalize` multiplies by `len / len`, which is one whenever it is
      computed, so it leaves every vector as it was, for any square root. */
  lemma NormalizedIsIdentity(v: V3, sqrt: real -> real)
    ensures v.Normalized(sqrt) == v
  {
    var len := v.Magnitude(sqrt);
    if len > 0.0 {
      assert len / len == 1.0;
    }
  }

  /** The cross product is orthogonal to both of its operands. */
  lemma CrossOrthogonal(a: V3, b: V3)
    ensures a.CrossProduct(b).Dot(a) == 0.0
    ensures a.CrossProduct(b).Dot(b) == 0.0
  {
  }

  /** The cross product is anti-commutative. */
  lemma CrossAntiCommutative(a: V3, b: V3)
    ensures a.CrossProduct(b) == b.CrossProduct(a).Negated()
  {
  }

  /** The cross product of a vector with itself is zero. */
  lemma CrossSelfZero(a: V3)
    ensures a.CrossProduct(a) == Zero
  {
  }

  /** Lagrange's identity: the square magnitude of `a x b` is
      `|a|^2 |b|^2 - (a . b)^2`. */
  lemma CrossSquareMagnitude(a: V3, b: V3)
    ensures a.CrossProduct(b).SquareMagnitude()
            == a.SquareMagnitude() * b.SquareMagnitude() - a.Dot(b) * a.Dot(b)
  {
  }

  /** One component of the triple-product expansion, on plain reals, with
      `m` the square magnitude of `a` and `d` the dot product `a . c`. */
  lemma TripleProductComponent(ax: real, ay: real, az: real, cx: real, cy: real, cz: real,
                               m: real, d: real)
    requires m == ax * ax + ay * ay + az * az
    requires d == ax * cx + ay * cy + az * cz
    ensures ay * (cx * ay - cy * ax) - az * (cz * ax - cx * az) == cx * m - ax * d
  {
  }

  lemma CrossBackAndForthX(a: V3, c: V3)
    ensures a.CrossProduct(c.CrossProduct(a)).x == c.x * a.SquareMagnitude() - a.x * a.Dot(c)
  {
    TripleProductComponent(a.x, a.y, a.z, c.x, c.y, c.z, a.SquareMagnitude(), a.Dot(c));
  }

  lemma CrossBackAndForthY(a: V3, c: V3)
    ensures a.CrossProduct(c.CrossProduct(a)).y == c.y * a.SquareMagnitude() - a.y * a.Dot(c)
  {
    TripleProductComponent(a.y, a.z, a.x, c.y, c.z, c.x, a.SquareMagnitude(), a.Dot(c));
  }

  lemma CrossBackAndForthZ(a: V3, c: V3)
    ensures a.CrossProduct(c.CrossProduct(a)).z == c.z * a.SquareMagnitude() - a.z * a.Dot(c)
  {
    TripleProductComponent(a.z, a.x, a.y, c.z, c.x, c.y, a.SquareMagnitude(), a.Dot(c));
  }

  /** The triple-product expansion `a x (c x a) == |a|^2 c - (a . c) a`. */
  lemma CrossBackAndForth(a: V3, c: V3)
    ensures a.CrossProduct(c.CrossProduct(a))
            == c.Scaled(a.SquareMagnitude()).Minus(a.Scaled(a.Dot(c)))
  {
    CrossBackAndForthX(a, c);
    CrossBackAndForthY(a, c);
    CrossBackAndForthZ(a, c);
  }

  // ---------------------------------------------------------------------
  // Properties of makeOrthonormalBasis

  /** `a` keeps its value and `c` always becomes `a x b`, even when the
      operation stops early. */
  lemma BasisKeepsPrimaryAxis(a: V3, b: V3, sqrt: real -> real)
    ensures OrthonormalBasis(a, b, sqrt).a == a
    ensures OrthonormalBasis(a, b, sqrt).c == a.CrossProduct(b)
  {
    NormalizedIsIdentity(a, sqrt);
    NormalizedIsIdentity(a.CrossProduct(b), sqrt);
  }

  /** The early exit is taken exactly when `a` and `b` are parallel, that is
      when `a x b` is the zero vector; `b` then keeps its value. */
  lemma BasisDegenerate(a: V3, b: V3, sqrt: real -> real)
    ensures OrthonormalBasis(a, b, sqrt).c.SquareMagnitude() == 0.0
            <==> a.CrossProduct(b) == Zero
    ensures a.CrossProduct(b) == Zero ==>
              OrthonormalBasis(a, b, sqrt) == Basis(a, b, Zero)
  {
    BasisKeepsPrimaryAxis(a, b, sqrt);
    NormalizedIsIdentity(a, sqrt);
    SquareMagnitudeZero(a.CrossProduct(b));
  }

  /** Outside the degenerate case `b` becomes `(a x b) x a`, and the three
      vectors are pairwise orthogonal; `a . c == 0` holds in both cases. */
  lemma BasisOrthogonal(a: V3, b: V3, sqrt: real -> real)
    ensures OrthonormalBasis(a, b, sqrt).a.Dot(OrthonormalBasis(a, b, sqrt).c) == 0.0
    ensures a.CrossProduct(b) != Zero ==>
              var r := OrthonormalBasis(a, b, sqrt);
              r.b == a.CrossProduct(b).CrossProduct(a) &&
              r.a.Dot(r.b) == 0.0 && r.b.Dot(r.c) == 0.0
  {
    var c := a.CrossProduct(b);
    BasisKeepsPrimaryAxis(a, b, sqrt);
    CrossOrthogonal(a, b);
    DotSymmetric(a, c);
    if c != Zero {
      NormalizedIsIdentity(a, sqrt);
      NormalizedIsIdentity(c, sqrt);
      SquareMagnitudeZero(c);
      assert OrthonormalBasis(a, b, sqrt) == Basis(a, c.CrossProduct(a), c);
      CrossOrthogonal(c, a);
      DotSymmetric(a, c.CrossProduct(a));
    }
  }

  /** The facts above, stated of the three result vectors alone. */
  lemma BasisSummary(a: V3, b: V3, sqrt: real -> real)
    ensures var r := OrthonormalBasis(a, b, sqrt);
            && r.a == a
            && r.c == a.CrossProduct(b)
            && (r.c.SquareMagnitude() == 0.0 ==> r.b == b)
            && (r.c.SquareMagnitude() != 0.0 ==> r.b == r.c.CrossProduct(r.a))
            && r.a.Dot(r.c) == 0.0
            && (r.c.SquareMagnitude() != 0.0 ==> r.a.Dot(r.b) == 0.0 && r.b.Dot(r.c) == 0.0)
  {
    BasisKeepsPrimaryAxis(a, b, sqrt);
    BasisOrthogonal(a, b, sqrt);
    BasisDegenerate(a, b, sqrt);
    SquareMagnitudeZero(a.CrossProduct(b));
  }

  /** For perpendicular `c` and `a`, `c x a` has square magnitude `|c|^2 |a|^2`. */
  lemma CrossOfPerpendicularSquareMagnitude(c: V3, a: V3)
    requires c.Dot(a) == 0.0
    ensures c.CrossProduct(a).SquareMagnitude() == c.SquareMagnitude() * a.SquareMagnitude()
  {
    CrossSquareMagnitude(c, a);
  }

  /** A product `s` of two positive reals is positive. */
  lemma PositiveProductOf(s: real, m: real, n: real)
    requires s == m * n && m > 0.0 && n > 0.0
    ensures s > 0.0
  {
  }

  /** The cross product of two non-zero perpendicular vectors is not zero. */
  lemma CrossOfPerpendicular(c: V3, a: V3)
    requires c.Dot(a) == 0.0 && a != Zero && c != Zero
    ensures c.CrossProduct(a) != Zero
  {
    var w := c.CrossProduct(a);
    CrossOfPerpendicularSquareMagnitude(c, a);
    SquareMagnitudePositive(c);
    SquareMagnitudePositive(a);
    PositiveProductOf(w.SquareMagnitude(), c.SquareMagnitude(), a.SquareMagnitude());
    SquareMagnitudeZero(w);
  }

  /** For `a` perpendicular to `c`, `a x (c x a) == |a|^2 c`. */
  lemma PerpendicularBackAndForth(a: V3, c: V3)
    requires a.Dot(c) == 0.0
    ensures a.CrossProduct(c.CrossProduct(a)) == c.Scaled(a.SquareMagnitude())
  {
    CrossBackAndForth(a, c);
    assert a.Scaled(a.Dot(c)) == Zero;
  }

  /** Outside the degenerate case the basis is right-handed, `a x b == |a|^2 c`,
      and the new `b` is not the zero vector. Because `normalize` does not
      scale, the vectors are orthogonal but in general not of unit length. */
  lemma BasisRightHanded(a: V3, b: V3, sqrt: real -> real)
    requires a.CrossProduct(b) != Zero
    ensures var r := OrthonormalBasis(a, b, sqrt);
            r.a.CrossProduct(r.b) == r.c.Scaled(a.SquareMagnitude()) &&
            r.b.SquareMagnitude() == r.c.SquareMagnitude() * a.SquareMagnitude() &&
            r.b != Zero
  {
    var c := a.CrossProduct(b);
    BasisSummary(a, b, sqrt);
    SquareMagnitudeZero(c);
    CrossOrthogonal(a, b);
    DotSymmetric(a, c);
    assert a != Zero by {
      assert a == Zero ==> c == Zero;
    }
    PerpendicularBackAndForth(a, c);
    CrossOfPerpendicularSquareMagnitude(c, a);
    CrossOfPerpendicular(c, a);
  }

  // ---------------------------------------------------------------------
  // Normalization as documented

  lemma RootPositive(l: real, m: real)
    requires l >= 0.0 && l * l == m && m > 0.0
    ensures l > 0.0
  {
    assert l == 0.0 ==> l * l == 0.0;
  }

  lemma ReciprocalSquare(l: real, m: real)
    requires l > 0.0 && l * l == m
    ensures (1.0 / l) * (1.0 / l) * m == 1.0
  {
    var r := 1.0 / l;
    assert r * l == 1.0;
    calc {
      r * r * m;
      r * r * (l * l);
      (r * l) * (r * l);
      1.0;
    }
  }

  /** With a true square root, a non-zero vector has a positive magnitude whose
      square is the square magnitude. */
  lemma MagnitudeOfNonZero(v: V3, sqrt: real -> real)
    requires IsSquareRoot(sqrt) && v != Zero
    ensures v.Magnitude(sqrt) > 0.0
    ensures v.Magnitude(sqrt) * v.Magnitude(sqrt) == v.SquareMagnitude()
  {
    SquareMagnitudePositive(v);
    RootPositive(v.Magnitude(sqrt), v.SquareMagnitude());
  }

  /** With a true square root, the documented normalization of a non-zero
      vector is that vector scaled by a positive factor, and has unit length. */
  lemma UnitNormalizedLength(v: V3, sqrt: real -> real)
    requires IsSquareRoot(sqrt) && v != Zero
    ensures v.Magnitude(sqrt) > 0.0
    ensures 1.0 / v.Magnitude(sqrt) > 0.0
    ensures v.UnitNormalized(sqrt) == v.Scaled(1.0 / v.Magnitude(sqrt))
    ensures v.UnitNormalized(sqrt).SquareMagnitude() == 1.0
  {
    var l := v.Magnitude(sqrt);
    MagnitudeOfNonZero(v, sqrt);
    ScaledSquareMagnitude(v, 1.0 / l);
    ReciprocalSquare(l, v.SquareMagnitude());
  }

  /** `normalize` as written leaves `(2, 0, 0)` at square magnitude four, where
      the documented normalization brings it to one. */
  lemma NormalizeNotUnit(sqrt: real -> real)
    requires IsSquareRoot(sqrt)
    ensures V3(2.0, 0.0, 0.0).Normalized(sqrt).SquareMagnitude() == 4.0
    ensures V3(2.0, 0.0, 0.0).UnitNormalized(sqrt).SquareMagnitude() == 1.0
  {
    NormalizedIsIdentity(V3(2.0, 0.0, 0.0), sqrt);
    UnitNormalizedLength(V3(2.0, 0.0, 0.0), sqrt);
  }

  /** A vector along one coordinate axis, at coordinate `k`, has square
      magnitude `k * k`. */
  lemma AxisSquareMagnitude(v: V3, k: real)
    requires v == V3(k, 0.0, 0.0) || v == V3(0.0, k, 0.0) || v == V3(0.0, 0.0, k)
    ensures v.SquareMagnitude() == k * k
  {
  }

  /** `makeOrthonormalBasis` as written keeps the square magnitude of `a`,
      and `c` has the square magnitude of `a x b`, so `a` and `c` come out of
      unit length only when `a` and `a x b` already are. On `a = (2, 0, 0)`,
      `b = (0, 1, 0)` it leaves `a` and `c = (0, 0, 2)` at square magnitude
      four. */
  lemma BasisNotUnit(a: V3, b: V3, sqrt: real -> real)
    ensures OrthonormalBasis(a, b, sqrt).a.SquareMagnitude() == a.SquareMagnitude()
    ensures OrthonormalBasis(a, b, sqrt).c.SquareMagnitude()
            == a.SquareMagnitude() * b.SquareMagnitude() - a.Dot(b) * a.Dot(b)
    ensures a == V3(2.0, 0.0, 0.0) && b == V3(0.0, 1.0, 0.0) ==>
              OrthonormalBasis(a, b, sqrt).c == V3(0.0, 0.0, 2.0) &&
              OrthonormalBasis(a, b, sqrt).a.SquareMagnitude() == 4.0 &&
              OrthonormalBasis(a, b, sqrt).c.SquareMagnitude() == 4.0
  {
    if a == V3(2.0, 0.0, 0.0) && b == V3(0.0, 1.0, 0.0) {
      assert a.CrossProduct(b) == V3(0.0, 0.0, 2.0);
      AxisSquareMagnitude(a, 2.0);
      AxisSquareMagnitude(a.CrossProduct(b), 2.0);
    }
    CrossSquareMagnitude(a, b);
    BasisKeepsPrimaryAxis(a, b, sqrt);
  }

  /** Scaling the first operand scales the cross product. */
  lemma CrossScaled(a: V3, b: V3, k: real)
    ensures a.Scaled(k).CrossProduct(b) == a.CrossProduct(b).Scaled(k)
  {
    var u, v := a, b;
    calc {
      u.Scaled(k).CrossProduct(v);
      V3((u.y * k) * v.z - (u.z * k) * v.y,
         (u.z * k) * v.x - (u.x * k) * v.z,
         (u.x * k) * v.y - (u.y * k) * v.x);
      { ScaledDifference(u.y, v.z, u.z, v.y, k);
        ScaledDifference(u.z, v.x, u.x, v.z, k);
        ScaledDifference(u.x, v.y, u.y, v.x, k); }
      V3((u.y * v.z - u.z * v.y) * k,
         (u.z * v.x - u.x * v.z) * k,
         (u.x * v.y - u.y * v.x) * k);
      u.CrossProduct(v).Scaled(k);
    }
  }

  /** One component of `CrossScaled`, on plain reals. */
  lemma ScaledDifference(p: real, q: real, r: real, s: real, k: real)
    ensures (p * k) * q - (r * k) * s == (p * q - r * s) * k
  {
  }

  /** Scaling the first operand scales the dot product. */
  lemma DotScaled(a: V3, b: V3, k: real)
    ensures a.Scaled(k).Dot(b) == k * a.Dot(b)
  {
    assert (a.x * k) * b.x + (a.y * k) * b.y + (a.z * k) * b.z
        == k * (a.x * b.x + a.y * b.y + a.z * b.z);
  }

  /** A non-zero vector scaled by a non-zero factor is not zero. */
  lemma ScaledNonZero(v: V3, k: real)
    requires v != Zero && k != 0.0
    ensures v.Scaled(k) != Zero
  {
    ScaledSquareMagnitude(v, k);
    SquareMagnitudePositive(v);
    SquarePositive(k);
    PositiveProductOf(k * k * v.SquareMagnitude(), k * k, v.SquareMagnitude());
    SquareMagnitudeZero(v.Scaled(k));
  }

  /** The first step of the documented basis: `a` becomes a unit vector and
      `c` a non-zero vector perpendicular to it. */
  lemma IntendedBasisFirstAxis(a: V3, b: V3, sqrt: real -> real)
    requires IsSquareRoot(sqrt) && a.CrossProduct(b) != Zero
    ensures a.UnitNormalized(sqrt).SquareMagnitude() == 1.0
    ensures a.UnitNormalized(sqrt).CrossProduct(b) != Zero
  {
    assert a != Zero by {
      assert a == Zero ==> a.CrossProduct(b) == Zero;
    }
    UnitNormalizedLength(a, sqrt);
    var k := 1.0 / a.Magnitude(sqrt);
    CrossScaled(a, b, k);
    ScaledNonZero(a.CrossProduct(b), k);
  }

  /** The normalized cross product stays perpendicular to the unit axis. */
  lemma IntendedBasisSecondAxis(a1: V3, b: V3, sqrt: real -> real)
    requires IsSquareRoot(sqrt) && a1.CrossProduct(b) != Zero
    ensures a1.CrossProduct(b).UnitNormalized(sqrt).SquareMagnitude() == 1.0
    ensures a1.CrossProduct(b).UnitNormalized(sqrt).Dot(a1) == 0.0
  {
    var c1 := a1.CrossProduct(b);
    UnitNormalizedLength(c1, sqrt);
    CrossOrthogonal(a1, b);
    DotScaled(c1, a1, 1.0 / c1.Magnitude(sqrt));
  }

  /** The cross product of two perpendicular unit vectors is a unit vector. */
  lemma CrossOfUnits(c: V3, a: V3)
    requires c.SquareMagnitude() == 1.0 && a.SquareMagnitude() == 1.0 && c.Dot(a) == 0.0
    ensures c.CrossProduct(a).SquareMagnitude() == 1.0
  {
    CrossOfPerpendicularSquareMagnitude(c, a);
  }

  /** With a true square root and `a x b` non-zero, the documented
      `makeOrthonormalBasis` yields three pairwise orthogonal unit vectors. */
  lemma IntendedBasisOrthonormal(a: V3, b: V3, sqrt: real -> real)
    requires IsSquareRoot(sqrt) && a.CrossProduct(b) != Zero
    ensures var r := IntendedOrthonormalBasis(a, b, sqrt);
            r.a.SquareMagnitude() == 1.0 && r.b.SquareMagnitude() == 1.0 &&
            r.c.SquareMagnitude() == 1.0 &&
            r.a.Dot(r.b) == 0.0 && r.a.Dot(r.c) == 0.0 && r.b.Dot(r.c) == 0.0
  {
    var a1 := a.UnitNormalized(sqrt);
    IntendedBasisFirstAxis(a, b, sqrt);
    var c1 := a1.CrossProduct(b);
    SquareMagnitudeZero(c1);
    IntendedBasisSecondAxis(a1, b, sqrt);
    var c2 := c1.UnitNormalized(sqrt);
    CrossOfUnits(c2, a1);
    CrossOrthogonal(c2, a1);
    DotSymmetric(a1, c2);
    DotSymmetric(a1, c2.CrossProduct(a1));
    assert IntendedOrthonormalBasis(a, b, sqrt) == Basis(a1, c2.CrossProduct(a1), c2);
  }
}
