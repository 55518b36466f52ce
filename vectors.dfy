/**
 * The vector and quaternion algebra of app/3dTypes.ts over `real`.
 *
 * The pure operations (`add`, `cross`, `multiply`, ...) return new objects in the
 * source; here they are functions on the values `Vec3` and `Quat`, so they cannot
 * change their receiver. The in-place operations (`addEq`, `crossEq`, ...) change
 * the fields of a `Point` or `Quaternion` object and return that object; here they
 * are methods of the classes `Point` and `Quaternion`, specified by the pure
 * functions.
 */
module Vectors {

  /** A point or vector: the value held by a `Point`. */
  datatype Vec3 = Vec3(x: real, y: real, z: real) {
    function Add(o: Vec3): Vec3 { Vec3(x + o.x, y + o.y, z + o.z) }
    function Sub(o: Vec3): Vec3 { Vec3(x - o.x, y - o.y, z - o.z) }
    function Scale(s: real): Vec3 { Vec3(x * s, y * s, z * s) }
    function Mul(o: Vec3): Vec3 { Vec3(x * o.x, y * o.y, z * o.z) }
    function Div(o: Vec3): Vec3
      requires o.x != 0.0 && o.y != 0.0 && o.z != 0.0
    {
      Vec3(x / o.x, y / o.y, z / o.z)
    }
    function Neg(): Vec3 { Vec3(-x, -y, -z) }
    function Dot(o: Vec3): real { x * o.x + y * o.y + z * o.z }
    /** `mag2(f)`: the squared magnitude of the vector scaled by `f`. */
    function Mag2Scaled(f: real): real { (x * f) * (x * f) + (y * f) * (y * f) + (z * f) * (z * f) }
    /** `mag2()`, whose factor defaults to 1. */
    function Mag2(): real { x * x + y * y + z * z }
    function Cross(o: Vec3): Vec3 {
      Vec3(y * o.z - z * o.y, z * o.x - x * o.z, x * o.y - y * o.x)
    }
    /** The vector minus its projection on `v`. */
    function RemoveComponent(v: Vec3): Vec3
      requires v.Mag2() != 0.0
    {
      var m := Dot(v) / v.Mag2();
      Sub(v.Scale(m))
    }
    /** Reflection against `n` with restitution `r`, for any nonzero `n`. */
    function Bounce(n: Vec3, r: real): Vec3
      requires n.Mag2() != 0.0
    {
      var m := Dot(n) / n.Mag2();
      Sub(n.Scale(m * (1.0 + r)))
    }
    /** Reflection against `n` with restitution `r`, correct when `n` is a unit vector. */
    function BounceNormal(n: Vec3, r: real): Vec3 {
      var m := Dot(n);
      Sub(n.Scale(m * (1.0 + r)))
    }
    /** The `xyz` getter. */
    function Xyz(): seq<real> { [x, y, z] }
  }

  /** What `new Point()` holds. */
  const Zero := Vec3(0.0, 0.0, 0.0)

  /** The value the `xyz` setter stores. */
  function FromXyz(v: seq<real>): Vec3
    requires |v| >= 3
  {
    Vec3(v[0], v[1], v[2])
  }

  lemma AddSubCancels(p: Vec3, o: Vec3)
    ensures p.Add(o).Sub(o) == p
  {
  }

  lemma AddCommutes(p: Vec3, o: Vec3)
    ensures p.Add(o) == o.Add(p)
  {
  }

  lemma ScaleDistributesOverAdd(p: Vec3, o: Vec3, s: real)
    ensures p.Add(o).Scale(s) == p.Scale(s).Add(o.Scale(s))
  {
  }

  lemma XyzRoundTrip(p: Vec3, v: seq<real>)
    requires |v| == 3
    ensures FromXyz(p.Xyz()) == p
    ensures FromXyz(v).Xyz() == v
  {
  }

  /** `mag2(f)` is `f * f` times `mag2()`. */
  lemma Mag2ScaledIsScaledMag2(p: Vec3, f: real)
    ensures p.Mag2Scaled(f) == f * f * p.Mag2()
    ensures p.Mag2Scaled(1.0) == p.Mag2()
  {
  }

  lemma SquareIsPositive(a: real)
    ensures a * a >= 0.0
    ensures a != 0.0 ==> a * a > 0.0
  {
    if a < 0.0 {
      var b := -a;
      assert b * b > 0.0;
      assert b * b == a * a;
    }
  }

  lemma SumOfSquaresIsNonNegative(a: real, b: real, c: real)
    ensures a * a + b * b + c * c >= 0.0
  {
    SquareIsPositive(a);
    SquareIsPositive(b);
    SquareIsPositive(c);
  }

  /** `mag2()` is never negative. */
  lemma Mag2NonNegative(p: Vec3)
    ensures p.Mag2() >= 0.0
  {
    SumOfSquaresIsNonNegative(p.x, p.y, p.z);
  }

  /** The vector is orthogonal to both operands of the cross product. */
  lemma CrossIsOrthogonal(p: Vec3, o: Vec3)
    ensures p.Cross(o).Dot(p) == 0.0
    ensures p.Cross(o).Dot(o) == 0.0
  {
  }

  /** Removing the component along a nonzero `v` leaves a vector orthogonal to `v`. */
  lemma RemoveComponentIsOrthogonal(p: Vec3, v: Vec3)
    requires v.Mag2() != 0.0
    ensures p.RemoveComponent(v).Dot(v) == 0.0
  {
    var m := p.Dot(v) / v.Mag2();
    assert m * v.Mag2() == p.Dot(v);
    assert v.Dot(v) == v.Mag2();
    DotOfSubScaled(p, v, m, v);
  }

  /** Removing the component along `v` changes nothing orthogonal to `v`. */
  lemma RemoveComponentKeepsOrthogonal(p: Vec3, v: Vec3, w: Vec3)
    requires v.Mag2() != 0.0 && w.Dot(v) == 0.0
    ensures p.RemoveComponent(v).Dot(w) == p.Dot(w)
  {
    DotOfSubScaled(p, v, p.Dot(v) / v.Mag2(), w);
  }

  lemma DotOfSubScaled(p: Vec3, n: Vec3, s: real, w: Vec3)
    ensures p.Sub(n.Scale(s)).Dot(w) == p.Dot(w) - s * n.Dot(w)
  {
  }

  /** After a bounce the speed along the normal is `-r` times the speed before it. */
  lemma BounceReflects(p: Vec3, n: Vec3, r: real)
    requires n.Mag2() != 0.0
    ensures p.Bounce(n, r).Dot(n) == -r * p.Dot(n)
  {
    var d, nn := p.Dot(n), n.Mag2();
    var m := d / nn;
    assert m * nn == d;
    assert n.Dot(n) == nn;
    DotOfSubScaled(p, n, m * (1.0 + r), n);
    assert (m * (1.0 + r)) * nn == (1.0 + r) * (m * nn);
  }

  /** For a unit normal, `bounceNormal` reflects like `bounce`. */
  lemma BounceNormalReflects(p: Vec3, n: Vec3, r: real)
    requires n.Mag2() == 1.0
    ensures p.BounceNormal(n, r).Dot(n) == -r * p.Dot(n)
    ensures p.BounceNormal(n, r) == p.Bounce(n, r)
  {
    var d := p.Dot(n);
    assert n.Dot(n) == 1.0;
    DotOfSubScaled(p, n, d * (1.0 + r), n);
    assert d / n.Mag2() == d;
  }

  /** `bounceNormal` leaves the part of the vector orthogonal to the normal unchanged. */
  lemma BounceNormalKeepsTangent(p: Vec3, n: Vec3, r: real, w: Vec3)
    requires w.Dot(n) == 0.0
    ensures p.BounceNormal(n, r).Dot(w) == p.Dot(w)
  {
    DotOfSubScaled(p, n, p.Dot(n) * (1.0 + r), w);
  }

  /** A quaternion `r + i·I + j·J + k·K`: the value held by a `Quaternion`. */
  datatype Quat = Quat(r: real, i: real, j: real, k: real) {
    function Add(o: Quat): Quat { Quat(r + o.r, i + o.i, j + o.j, k + o.k) }
    function Sub(o: Quat): Quat { Quat(r - o.r, i - o.i, j - o.j, k - o.k) }
    function Scale(s: real): Quat { Quat(r * s, i * s, j * s, k * s) }
    function Neg(): Quat { Quat(-r, -i, -j, -k) }
    function Conjugate(): Quat { Quat(r, -i, -j, -k) }
    function Norm2(): real { r * r + i * i + j * j + k * k }
    /** The Hamilton product `this · o`. */
    function Multiply(o: Quat): Quat {
      Quat(r * o.r - i * o.i - j * o.j - k * o.k,
           r * o.i + i * o.r + j * o.k - k * o.j,
           r * o.j - i * o.k + j * o.r + k * o.i,
           r * o.k + i * o.j - j * o.i + k * o.r)
    }
    function Inverse(): Quat
      requires Norm2() != 0.0
    {
      Conjugate().Scale(1.0 / Norm2())
    }
    /** Rotates `p`: the vector part of `this · p · conjugate`. */
    function Apply(p: Vec3): Vec3 {
      Multiply(Pure(p)).Multiply(Conjugate()).V()
    }
    /** Rotates `p` back: the vector part of `conjugate · p · this`. */
    function Unapply(p: Vec3): Vec3 {
      Conjugate().Multiply(Pure(p)).Multiply(this).V()
    }
    function After(o: Quat): Quat { Multiply(o) }
    function Before(o: Quat): Quat { o.Multiply(this) }
    /** The `v` getter: the vector part. */
    function V(): Vec3 { Vec3(i, j, k) }
    function Rijk(): seq<real> { [r, i, j, k] }
    function Xyzw(): seq<real> { [i, j, k, r] }
  }

  /** What `new Quaternion()` holds. */
  const Identity := Quat(1.0, 0.0, 0.0, 0.0)

  /** `new Quaternion(0, p.x, p.y, p.z)`. */
  function Pure(p: Vec3): Quat { Quat(0.0, p.x, p.y, p.z) }

  /** The value the `rijk` setter stores. */
  function FromRijk(v: seq<real>): Quat
    requires |v| >= 4
  {
    Quat(v[0], v[1], v[2], v[3])
  }

  /** The value the `xyzw` setter stores. */
  function FromXyzw(v: seq<real>): Quat
    requires |v| >= 4
  {
    Quat(v[3], v[0], v[1], v[2])
  }

  /** The value the `v` setter stores. */
  function WithV(q: Quat, p: Vec3): Quat {
    Quat(q.r, p.x, p.y, p.z)
  }

  /** `normalize()`, where `m` is the `norm()` the source obtains with `Math.sqrt`. */
  function Normalize(q: Quat, m: real): Quat
    requires m != 0.0
  {
    Quat(q.r / m, q.i / m, q.j / m, q.k / m)
  }

  /** The projection of the vector part of `q` on the axis `(x, y, z)`. */
  function AxisProjection(q: Quat, x: real, y: real, z: real): real {
    x * q.i + y * q.j + z * q.k
  }

  /** Whether `swingTwistDecomp` takes its early exit (`|pm| < .001`). */
  predicate NearlyOrthogonal(q: Quat, x: real, y: real, z: real) {
    var pm := AxisProjection(q, x, y, z);
    (if pm < 0.0 then -pm else pm) < 0.001
  }

  /** The twist before `normalize()`. */
  function RawTwist(q: Quat, x: real, y: real, z: real): Quat {
    var pm := AxisProjection(q, x, y, z);
    Quat(q.r, x * pm, y * pm, z * pm)
  }

  /**
   * `swingTwistDecomp(x, y, z)` as `(swing, twist)`. `m` stands for the norm of the raw
   * twist, a square root the model takes as given.
   */
  function SwingTwistDecomp(q: Quat, x: real, y: real, z: real, m: real): (Quat, Quat)
    requires !NearlyOrthogonal(q, x, y, z) ==> m != 0.0
  {
    if NearlyOrthogonal(q, x, y, z) then
      (q, Identity)
    else
      var twist := Normalize(RawTwist(q, x, y, z), m);
      (q.Multiply(twist.Conjugate()), twist)
  }

  lemma AccessorsRoundTrip(q: Quat, v: seq<real>, p: Vec3)
    requires |v| == 4
    ensures FromRijk(q.Rijk()) == q && FromRijk(v).Rijk() == v
    ensures FromXyzw(q.Xyzw()) == q && FromXyzw(v).Xyzw() == v
    ensures q.Xyzw() == [q.i, q.j, q.k, q.r]
    ensures WithV(q, p).V() == p && WithV(q, q.V()) == q
  {
  }

  lemma ConjugateIsInvolution(q: Quat)
    ensures q.Conjugate().Conjugate() == q
  {
  }

  /** The Hamilton product is associative. */
  lemma MultiplyIsAssociative(a: Quat, b: Quat, c: Quat)
    ensures a.Multiply(b).Multiply(c) == a.Multiply(b.Multiply(c))
  {
    AssociativeR(a, b, c);
    AssociativeI(a, b, c);
    AssociativeJ(a, b, c);
    AssociativeK(a, b, c);
  }

  /*
   * The proof of associativity goes component by component. Each component of
   * `(a · b) · c` and of `a · (b · c)` is a sum of four products; each such product is
   * expanded into degree-three monomials by its own lemma (one product per proof keeps
   * the nonlinear reasoning small), pairs of products are collected into halves, and the
   * two halves of either side add up to the same sixteen monomials.
   */

  lemma AssociativeR(a: Quat, b: Quat, c: Quat)
    ensures a.Multiply(b).Multiply(c).r == a.Multiply(b.Multiply(c)).r
  {
    LeftHalf1R(a, b, c);
    LeftHalf2R(a, b, c);
    RightHalf1R(a, b, c);
    RightHalf2R(a, b, c);
  }

  lemma AssociativeI(a: Quat, b: Quat, c: Quat)
    ensures a.Multiply(b).Multiply(c).i == a.Multiply(b.Multiply(c)).i
  {
    LeftHalf1I(a, b, c);
    LeftHalf2I(a, b, c);
    RightHalf1I(a, b, c);
    RightHalf2I(a, b, c);
  }

  lemma AssociativeJ(a: Quat, b: Quat, c: Quat)
    ensures a.Multiply(b).Multiply(c).j == a.Multiply(b.Multiply(c)).j
  {
    LeftHalf1J(a, b, c);
    LeftHalf2J(a, b, c);
    RightHalf1J(a, b, c);
    RightHalf2J(a, b, c);
  }

  lemma AssociativeK(a: Quat, b: Quat, c: Quat)
    ensures a.Multiply(b).Multiply(c).k == a.Multiply(b.Multiply(c)).k
  {
    LeftHalf1K(a, b, c);
    LeftHalf2K(a, b, c);
    RightHalf1K(a, b, c);
    RightHalf2K(a, b, c);
  }

  lemma LeftHalf1R(a: Quat, b: Quat, c: Quat)
    ensures a.Multiply(b).r * c.r - a.Multiply(b).i * c.i
      == a.r * b.r * c.r - a.i * b.i * c.r - a.j * b.j * c.r - a.k * b.k * c.r - a.r * b.i * c.i - a.i * b.r * c.i - a.j * b.k * c.i + a.k * b.j * c.i
  {
    LeftTermRR(a, b, c);
    LeftTermII(a, b, c);
  }

  lemma LeftHalf2R(a: Quat, b: Quat, c: Quat)
    ensures -a.Multiply(b).j * c.j - a.Multiply(b).k * c.k
      == -a.r * b.j * c.j + a.i * b.k * c.j - a.j * b.r * c.j - a.k * b.i * c.j - a.r * b.k * c.k - a.i * b.j * c.k + a.j * b.i * c.k - a.k * b.r * c.k
  {
    LeftTermJJ(a, b, c);
    LeftTermKK(a, b, c);
  }

  lemma RightHalf1R(a: Quat, b: Quat, c: Quat)
    ensures a.r * b.Multiply(c).r - a.i * b.Multiply(c).i
      == a.r * b.r * c.r - a.r * b.i * c.i - a.r * b.j * c.j - a.r * b.k * c.k - a.i * b.r * c.i - a.i * b.i * c.r - a.i * b.j * c.k + a.i * b.k * c.j
  {
    RightTermRR(a, b, c);
    RightTermII(a, b, c);
  }

  lemma RightHalf2R(a: Quat, b: Quat, c: Quat)
    ensures -a.j * b.Multiply(c).j - a.k * b.Multiply(c).k
      == -a.j * b.r * c.j + a.j * b.i * c.k - a.j * b.j * c.r - a.j * b.k * c.i - a.k * b.r * c.k - a.k * b.i * c.j + a.k * b.j * c.i - a.k * b.k * c.r
  {
    RightTermJJ(a, b, c);
    RightTermKK(a, b, c);
  }

  lemma LeftHalf1I(a: Quat, b: Quat, c: Quat)
    ensures a.Multiply(b).r * c.i + a.Multiply(b).i * c.r
      == a.r * b.r * c.i - a.i * b.i * c.i - a.j * b.j * c.i - a.k * b.k * c.i + a.r * b.i * c.r + a.i * b.r * c.r + a.j * b.k * c.r - a.k * b.j * c.r
  {
    LeftTermRI(a, b, c);
    LeftTermIR(a, b, c);
  }

  lemma LeftHalf2I(a: Quat, b: Quat, c: Quat)
    ensures a.Multiply(b).j * c.k - a.Multiply(b).k * c.j
      == a.r * b.j * c.k - a.i * b.k * c.k + a.j * b.r * c.k + a.k * b.i * c.k - a.r * b.k * c.j - a.i * b.j * c.j + a.j * b.i * c.j - a.k * b.r * c.j
  {
    LeftTermJK(a, b, c);
    LeftTermKJ(a, b, c);
  }

  lemma RightHalf1I(a: Quat, b: Quat, c: Quat)
    ensures a.r * b.Multiply(c).i + a.i * b.Multiply(c).r
      == a.r * b.r * c.i + a.r * b.i * c.r + a.r * b.j * c.k - a.r * b.k * c.j + a.i * b.r * c.r - a.i * b.i * c.i - a.i * b.j * c.j - a.i * b.k * c.k
  {
    RightTermRI(a, b, c);
    RightTermIR(a, b, c);
  }

  lemma RightHalf2I(a: Quat, b: Quat, c: Quat)
    ensures a.j * b.Multiply(c).k - a.k * b.Multiply(c).j
      == a.j * b.r * c.k + a.j * b.i * c.j - a.j * b.j * c.i + a.j * b.k * c.r - a.k * b.r * c.j + a.k * b.i * c.k - a.k * b.j * c.r - a.k * b.k * c.i
  {
    RightTermJK(a, b, c);
    RightTermKJ(a, b, c);
  }

  lemma LeftHalf1J(a: Quat, b: Quat, c: Quat)
    ensures a.Multiply(b).r * c.j - a.Multiply(b).i * c.k
      == a.r * b.r * c.j - a.i * b.i * c.j - a.j * b.j * c.j - a.k * b.k * c.j - a.r * b.i * c.k - a.i * b.r * c.k - a.j * b.k * c.k + a.k * b.j * c.k
  {
    LeftTermRJ(a, b, c);
    LeftTermIK(a, b, c);
  }

  lemma LeftHalf2J(a: Quat, b: Quat, c: Quat)
    ensures a.Multiply(b).j * c.r + a.Multiply(b).k * c.i
      == a.r * b.j * c.r - a.i * b.k * c.r + a.j * b.r * c.r + a.k * b.i * c.r + a.r * b.k * c.i + a.i * b.j * c.i - a.j * b.i * c.i + a.k * b.r * c.i
  {
    LeftTermJR(a, b, c);
    LeftTermKI(a, b, c);
  }

  lemma RightHalf1J(a: Quat, b: Quat, c: Quat)
    ensures a.r * b.Multiply(c).j - a.i * b.Multiply(c).k
      == a.r * b.r * c.j - a.r * b.i * c.k + a.r * b.j * c.r + a.r * b.k * c.i - a.i * b.r * c.k - a.i * b.i * c.j + a.i * b.j * c.i - a.i * b.k * c.r
  {
    RightTermRJ(a, b, c);
    RightTermIK(a, b, c);
  }

  lemma RightHalf2J(a: Quat, b: Quat, c: Quat)
    ensures a.j * b.Multiply(c).r + a.k * b.Multiply(c).i
      == a.j * b.r * c.r - a.j * b.i * c.i - a.j * b.j * c.j - a.j * b.k * c.k + a.k * b.r * c.i + a.k * b.i * c.r + a.k * b.j * c.k - a.k * b.k * c.j
  {
    RightTermJR(a, b, c);
    RightTermKI(a, b, c);
  }

  lemma LeftHalf1K(a: Quat, b: Quat, c: Quat)
    ensures a.Multiply(b).r * c.k + a.Multiply(b).i * c.j
      == a.r * b.r * c.k - a.i * b.i * c.k - a.j * b.j * c.k - a.k * b.k * c.k + a.r * b.i * c.j + a.i * b.r * c.j + a.j * b.k * c.j - a.k * b.j * c.j
  {
    LeftTermRK(a, b, c);
    LeftTermIJ(a, b, c);
  }

  lemma LeftHalf2K(a: Quat, b: Quat, c: Quat)
    ensures -a.Multiply(b).j * c.i + a.Multiply(b).k * c.r
      == -a.r * b.j * c.i + a.i * b.k * c.i - a.j * b.r * c.i - a.k * b.i * c.i + a.r * b.k * c.r + a.i * b.j * c.r - a.j * b.i * c.r + a.k * b.r * c.r
  {
    LeftTermJI(a, b, c);
    LeftTermKR(a, b, c);
  }

  lemma RightHalf1K(a: Quat, b: Quat, c: Quat)
    ensures a.r * b.Multiply(c).k + a.i * b.Multiply(c).j
      == a.r * b.r * c.k + a.r * b.i * c.j - a.r * b.j * c.i + a.r * b.k * c.r + a.i * b.r * c.j - a.i * b.i * c.k + a.i * b.j * c.r + a.i * b.k * c.i
  {
    RightTermRK(a, b, c);
    RightTermIJ(a, b, c);
  }

  lemma RightHalf2K(a: Quat, b: Quat, c: Quat)
    ensures -a.j * b.Multiply(c).i + a.k * b.Multiply(c).r
      == -a.j * b.r * c.i - a.j * b.i * c.r - a.j * b.j * c.k + a.j * b.k * c.j + a.k * b.r * c.r - a.k * b.i * c.i - a.k * b.j * c.j - a.k * b.k * c.k
  {
    RightTermJI(a, b, c);
    RightTermKR(a, b, c);
  }

  lemma LeftTermRR(a: Quat, b: Quat, c: Quat)
    ensures a.Multiply(b).r * c.r == a.r * b.r * c.r - a.i * b.i * c.r - a.j * b.j * c.r - a.k * b.k * c.r
  {
  }

  lemma LeftTermRI(a: Quat, b: Quat, c: Quat)
    ensures a.Multiply(b).r * c.i == a.r * b.r * c.i - a.i * b.i * c.i - a.j * b.j * c.i - a.k * b.k * c.i
  {
  }

  lemma LeftTermRJ(a: Quat, b: Quat, c: Quat)
    ensures a.Multiply(b).r * c.j == a.r * b.r * c.j - a.i * b.i * c.j - a.j * b.j * c.j - a.k * b.k * c.j
  {
  }

  lemma LeftTermRK(a: Quat, b: Quat, c: Quat)
    ensures a.Multiply(b).r * c.k == a.r * b.r * c.k - a.i * b.i * c.k - a.j * b.j * c.k - a.k * b.k * c.k
  {
  }

  lemma LeftTermIR(a: Quat, b: Quat, c: Quat)
    ensures a.Multiply(b).i * c.r == a.r * b.i * c.r + a.i * b.r * c.r + a.j * b.k * c.r - a.k * b.j * c.r
  {
  }

  lemma LeftTermII(a: Quat, b: Quat, c: Quat)
    ensures a.Multiply(b).i * c.i == a.r * b.i * c.i + a.i * b.r * c.i + a.j * b.k * c.i - a.k * b.j * c.i
  {
  }

  lemma LeftTermIJ(a: Quat, b: Quat, c: Quat)
    ensures a.Multiply(b).i * c.j == a.r * b.i * c.j + a.i * b.r * c.j + a.j * b.k * c.j - a.k * b.j * c.j
  {
  }

  lemma LeftTermIK(a: Quat, b: Quat, c: Quat)
    ensures a.Multiply(b).i * c.k == a.r * b.i * c.k + a.i * b.r * c.k + a.j * b.k * c.k - a.k * b.j * c.k
  {
  }

  lemma LeftTermJR(a: Quat, b: Quat, c: Quat)
    ensures a.Multiply(b).j * c.r == a.r * b.j * c.r - a.i * b.k * c.r + a.j * b.r * c.r + a.k * b.i * c.r
  {
  }

  lemma LeftTermJI(a: Quat, b: Quat, c: Quat)
    ensures a.Multiply(b).j * c.i == a.r * b.j * c.i - a.i * b.k * c.i + a.j * b.r * c.i + a.k * b.i * c.i
  {
  }

  lemma LeftTermJJ(a: Quat, b: Quat, c: Quat)
    ensures a.Multiply(b).j * c.j == a.r * b.j * c.j - a.i * b.k * c.j + a.j * b.r * c.j + a.k * b.i * c.j
  {
  }

  lemma LeftTermJK(a: Quat, b: Quat, c: Quat)
    ensures a.Multiply(b).j * c.k == a.r * b.j * c.k - a.i * b.k * c.k + a.j * b.r * c.k + a.k * b.i * c.k
  {
  }

  lemma LeftTermKR(a: Quat, b: Quat, c: Quat)
    ensures a.Multiply(b).k * c.r == a.r * b.k * c.r + a.i * b.j * c.r - a.j * b.i * c.r + a.k * b.r * c.r
  {
  }

  lemma LeftTermKI(a: Quat, b: Quat, c: Quat)
    ensures a.Multiply(b).k * c.i == a.r * b.k * c.i + a.i * b.j * c.i - a.j * b.i * c.i + a.k * b.r * c.i
  {
  }

  lemma LeftTermKJ(a: Quat, b: Quat, c: Quat)
    ensures a.Multiply(b).k * c.j == a.r * b.k * c.j + a.i * b.j * c.j - a.j * b.i * c.j + a.k * b.r * c.j
  {
  }

  lemma LeftTermKK(a: Quat, b: Quat, c: Quat)
    ensures a.Multiply(b).k * c.k == a.r * b.k * c.k + a.i * b.j * c.k - a.j * b.i * c.k + a.k * b.r * c.k
  {
  }

  lemma RightTermRR(a: Quat, b: Quat, c: Quat)
    ensures a.r * b.Multiply(c).r == a.r * b.r * c.r - a.r * b.i * c.i - a.r * b.j * c.j - a.r * b.k * c.k
  {
  }

  lemma RightTermRI(a: Quat, b: Quat, c: Quat)
    ensures a.r * b.Multiply(c).i == a.r * b.r * c.i + a.r * b.i * c.r + a.r * b.j * c.k - a.r * b.k * c.j
  {
  }

  lemma RightTermRJ(a: Quat, b: Quat, c: Quat)
    ensures a.r * b.Multiply(c).j == a.r * b.r * c.j - a.r * b.i * c.k + a.r * b.j * c.r + a.r * b.k * c.i
  {
  }

  lemma RightTermRK(a: Quat, b: Quat, c: Quat)
    ensures a.r * b.Multiply(c).k == a.r * b.r * c.k + a.r * b.i * c.j - a.r * b.j * c.i + a.r * b.k * c.r
  {
  }

  lemma RightTermIR(a: Quat, b: Quat, c: Quat)
    ensures a.i * b.Multiply(c).r == a.i * b.r * c.r - a.i * b.i * c.i - a.i * b.j * c.j - a.i * b.k * c.k
  {
  }

  lemma RightTermII(a: Quat, b: Quat, c: Quat)
    ensures a.i * b.Multiply(c).i == a.i * b.r * c.i + a.i * b.i * c.r + a.i * b.j * c.k - a.i * b.k * c.j
  {
  }

  lemma RightTermIJ(a: Quat, b: Quat, c: Quat)
    ensures a.i * b.Multiply(c).j == a.i * b.r * c.j - a.i * b.i * c.k + a.i * b.j * c.r + a.i * b.k * c.i
  {
  }

  lemma RightTermIK(a: Quat, b: Quat, c: Quat)
    ensures a.i * b.Multiply(c).k == a.i * b.r * c.k + a.i * b.i * c.j - a.i * b.j * c.i + a.i * b.k * c.r
  {
  }

  lemma RightTermJR(a: Quat, b: Quat, c: Quat)
    ensures a.j * b.Multiply(c).r == a.j * b.r * c.r - a.j * b.i * c.i - a.j * b.j * c.j - a.j * b.k * c.k
  {
  }

  lemma RightTermJI(a: Quat, b: Quat, c: Quat)
    ensures a.j * b.Multiply(c).i == a.j * b.r * c.i + a.j * b.i * c.r + a.j * b.j * c.k - a.j * b.k * c.j
  {
  }

  lemma RightTermJJ(a: Quat, b: Quat, c: Quat)
    ensures a.j * b.Multiply(c).j == a.j * b.r * c.j - a.j * b.i * c.k + a.j * b.j * c.r + a.j * b.k * c.i
  {
  }

  lemma RightTermJK(a: Quat, b: Quat, c: Quat)
    ensures a.j * b.Multiply(c).k == a.j * b.r * c.k + a.j * b.i * c.j - a.j * b.j * c.i + a.j * b.k * c.r
  {
  }

  lemma RightTermKR(a: Quat, b: Quat, c: Quat)
    ensures a.k * b.Multiply(c).r == a.k * b.r * c.r - a.k * b.i * c.i - a.k * b.j * c.j - a.k * b.k * c.k
  {
  }

  lemma RightTermKI(a: Quat, b: Quat, c: Quat)
    ensures a.k * b.Multiply(c).i == a.k * b.r * c.i + a.k * b.i * c.r + a.k * b.j * c.k - a.k * b.k * c.j
  {
  }

  lemma RightTermKJ(a: Quat, b: Quat, c: Quat)
    ensures a.k * b.Multiply(c).j == a.k * b.r * c.j - a.k * b.i * c.k + a.k * b.j * c.r + a.k * b.k * c.i
  {
  }

  lemma RightTermKK(a: Quat, b: Quat, c: Quat)
    ensures a.k * b.Multiply(c).k == a.k * b.r * c.k + a.k * b.i * c.j - a.k * b.j * c.i + a.k * b.k * c.r
  {
  }

  /** `norm2(p · q) == norm2(p) · norm2(q)`. */
  lemma Norm2IsMultiplicative(p: Quat, q: Quat)
    ensures p.Multiply(q).Norm2() == p.Norm2() * q.Norm2()
  {
    var x, pc, qc := p.Multiply(q), p.Conjugate(), q.Conjugate();
    var np, nq := p.Norm2(), q.Norm2();
    calc {
      Quat(x.Norm2(), 0.0, 0.0, 0.0);
      { ConjugateProductIsNorm2(x); }
      x.Multiply(x.Conjugate());
      { ConjugateOfProduct(p, q); }
      x.Multiply(qc.Multiply(pc));
      { MultiplyIsAssociative(x, qc, pc); }
      x.Multiply(qc).Multiply(pc);
      { MultiplyIsAssociative(p, q, qc); }
      p.Multiply(q.Multiply(qc)).Multiply(pc);
      { ConjugateProductIsNorm2(q); }
      p.Multiply(Quat(nq, 0.0, 0.0, 0.0)).Multiply(pc);
      { RealMultiplyScales(nq, p); }
      p.Scale(nq).Multiply(pc);
      { ScaledMultiply(p, pc, nq); }
      p.Multiply(pc).Scale(nq);
      { ConjugateProductIsNorm2(p); }
      Quat(np, 0.0, 0.0, 0.0).Scale(nq);
    }
  }

  /** `q · conjugate(q)` is the real quaternion `norm2(q)`. */
  lemma ConjugateProductIsNorm2(q: Quat)
    ensures q.Multiply(q.Conjugate()) == Quat(q.Norm2(), 0.0, 0.0, 0.0)
  {
  }

  /** `conjugate(q) · q` is the real quaternion `norm2(q)` as well. */
  lemma ConjugateFirstProductIsNorm2(q: Quat)
    ensures q.Conjugate().Multiply(q) == Quat(q.Norm2(), 0.0, 0.0, 0.0)
  {
  }

  /** Conjugation reverses products. */
  lemma ConjugateOfProduct(p: Quat, q: Quat)
    ensures p.Multiply(q).Conjugate() == q.Conjugate().Multiply(p.Conjugate())
  {
    ConjugateOfProductR(p, q);
    ConjugateOfProductI(p, q);
    ConjugateOfProductJ(p, q);
    ConjugateOfProductK(p, q);
  }

  /** Scaling a factor scales the product. */
  lemma MultiplyByScaled(p: Quat, q: Quat, s: real)
    ensures p.Multiply(q.Scale(s)) == p.Multiply(q).Scale(s)
  {
    MultiplyByScaledR();
    MultiplyByScaledI();
    MultiplyByScaledJ();
    MultiplyByScaledK();
  }

  lemma ScaledMultiply(p: Quat, q: Quat, s: real)
    ensures p.Scale(s).Multiply(q) == p.Multiply(q).Scale(s)
  {
    ScaledMultiplyR();
    ScaledMultiplyI();
    ScaledMultiplyJ();
    ScaledMultiplyK();
  }

  lemma MultiplyByScaledR()
    ensures forall p: Quat, q: Quat, s: real {:trigger p.Multiply(q.Scale(s))} :: p.Multiply(q.Scale(s)).r == p.Multiply(q).r * s
  {
    forall p: Quat, q: Quat, s: real ensures p.Multiply(q.Scale(s)).r == p.Multiply(q).r * s { }
  }

  lemma ScaledMultiplyR()
    ensures forall p: Quat, q: Quat, s: real {:trigger p.Scale(s).Multiply(q)} :: p.Scale(s).Multiply(q).r == p.Multiply(q).r * s
  {
    forall p: Quat, q: Quat, s: real ensures p.Scale(s).Multiply(q).r == p.Multiply(q).r * s { }
  }

  lemma ConjugateOfProductR(p: Quat, q: Quat)
    ensures p.Multiply(q).Conjugate().r == q.Conjugate().Multiply(p.Conjugate()).r
  {
  }

  lemma MultiplyByScaledI()
    ensures forall p: Quat, q: Quat, s: real {:trigger p.Multiply(q.Scale(s))} :: p.Multiply(q.Scale(s)).i == p.Multiply(q).i * s
  {
    forall p: Quat, q: Quat, s: real ensures p.Multiply(q.Scale(s)).i == p.Multiply(q).i * s { }
  }

  lemma ScaledMultiplyI()
    ensures forall p: Quat, q: Quat, s: real {:trigger p.Scale(s).Multiply(q)} :: p.Scale(s).Multiply(q).i == p.Multiply(q).i * s
  {
    forall p: Quat, q: Quat, s: real ensures p.Scale(s).Multiply(q).i == p.Multiply(q).i * s { }
  }

  lemma ConjugateOfProductI(p: Quat, q: Quat)
    ensures p.Multiply(q).Conjugate().i == q.Conjugate().Multiply(p.Conjugate()).i
  {
  }

  lemma MultiplyByScaledJ()
    ensures forall p: Quat, q: Quat, s: real {:trigger p.Multiply(q.Scale(s))} :: p.Multiply(q.Scale(s)).j == p.Multiply(q).j * s
  {
    forall p: Quat, q: Quat, s: real ensures p.Multiply(q.Scale(s)).j == p.Multiply(q).j * s { }
  }

  lemma ScaledMultiplyJ()
    ensures forall p: Quat, q: Quat, s: real {:trigger p.Scale(s).Multiply(q)} :: p.Scale(s).Multiply(q).j == p.Multiply(q).j * s
  {
    forall p: Quat, q: Quat, s: real ensures p.Scale(s).Multiply(q).j == p.Multiply(q).j * s { }
  }

  lemma ConjugateOfProductJ(p: Quat, q: Quat)
    ensures p.Multiply(q).Conjugate().j == q.Conjugate().Multiply(p.Conjugate()).j
  {
  }

  lemma MultiplyByScaledK()
    ensures forall p: Quat, q: Quat, s: real {:trigger p.Multiply(q.Scale(s))} :: p.Multiply(q.Scale(s)).k == p.Multiply(q).k * s
  {
    forall p: Quat, q: Quat, s: real ensures p.Multiply(q.Scale(s)).k == p.Multiply(q).k * s { }
  }

  lemma ScaledMultiplyK()
    ensures forall p: Quat, q: Quat, s: real {:trigger p.Scale(s).Multiply(q)} :: p.Scale(s).Multiply(q).k == p.Multiply(q).k * s
  {
    forall p: Quat, q: Quat, s: real ensures p.Scale(s).Multiply(q).k == p.Multiply(q).k * s { }
  }

  lemma ConjugateOfProductK(p: Quat, q: Quat)
    ensures p.Multiply(q).Conjugate().k == q.Conjugate().Multiply(p.Conjugate()).k
  {
  }

  lemma Norm2OfConjugate(q: Quat)
    ensures q.Conjugate().Norm2() == q.Norm2()
  {
  }

  /** `q · q.inverse()` is the identity whenever `q` is nonzero. */
  lemma MultiplyInverseIsIdentity(q: Quat)
    requires q.Norm2() != 0.0
    ensures q.Multiply(q.Inverse()) == Identity
  {
    MultiplyByScaled(q, q.Conjugate(), 1.0 / q.Norm2());
    ConjugateProductIsNorm2(q);
  }

  /** A real quaternion `(s, 0, 0, 0)` scales whatever it multiplies. */
  lemma RealMultiplyScales(s: real, q: Quat)
    ensures Quat(s, 0.0, 0.0, 0.0).Multiply(q) == q.Scale(s)
    ensures q.Multiply(Quat(s, 0.0, 0.0, 0.0)) == q.Scale(s)
  {
  }

  /** Conjugating a pure quaternion by any `q` gives a pure quaternion. */
  lemma SandwichIsPure(q: Quat, p: Vec3)
    ensures q.Multiply(Pure(p)).Multiply(q.Conjugate()).r == 0.0
  {
  }

  /** `apply` preserves the squared magnitude when `q` has unit norm. */
  lemma ApplyPreservesMag2(q: Quat, p: Vec3)
    requires q.Norm2() == 1.0
    ensures q.Apply(p).Mag2() == p.Mag2()
  {
    var s := q.Multiply(Pure(p)).Multiply(q.Conjugate());
    SandwichIsPure(q, p);
    Norm2IsMultiplicative(q.Multiply(Pure(p)), q.Conjugate());
    Norm2IsMultiplicative(q, Pure(p));
    Norm2OfConjugate(q);
    assert s.Norm2() == Pure(p).Norm2();
    assert Pure(s.V()) == s;
  }

  /** `unapply` undoes `apply` when `q` has unit norm. */
  lemma UnapplyUndoesApply(q: Quat, p: Vec3)
    requires q.Norm2() == 1.0
    ensures q.Unapply(q.Apply(p)) == p
  {
    var c := q.Conjugate();
    var s := q.Multiply(Pure(p)).Multiply(c);
    SandwichIsPure(q, p);
    assert Pure(q.Apply(p)) == s;
    ConjugateProductIsNorm2(q);
    ConjugateFirstProductIsNorm2(q);
    var one := Quat(1.0, 0.0, 0.0, 0.0);
    assert c.Multiply(q) == one && q.Multiply(c) == one;
    calc {
      c.Multiply(s).Multiply(q);
      { MultiplyIsAssociative(q, Pure(p), c);
        assert s == q.Multiply(Pure(p).Multiply(c)); }
      c.Multiply(q.Multiply(Pure(p).Multiply(c))).Multiply(q);
      { MultiplyIsAssociative(c, q, Pure(p).Multiply(c)); }
      c.Multiply(q).Multiply(Pure(p).Multiply(c)).Multiply(q);
      one.Multiply(Pure(p).Multiply(c)).Multiply(q);
      { RealMultiplyScales(1.0, Pure(p).Multiply(c)); }
      Pure(p).Multiply(c).Multiply(q);
      { MultiplyIsAssociative(Pure(p), c, q); }
      Pure(p).Multiply(c.Multiply(q));
      Pure(p).Multiply(one);
      { RealMultiplyScales(1.0, Pure(p)); }
      Pure(p);
    }
  }

  /** An axis nearly orthogonal to the vector part exits early with `[copy, identity]`. */
  lemma SwingTwistEarlyExit(q: Quat, x: real, y: real, z: real, m: real)
    requires NearlyOrthogonal(q, x, y, z)
    ensures SwingTwistDecomp(q, x, y, z, m) == (q, Identity)
    ensures SwingTwistDecomp(q, x, y, z, m).0.Multiply(SwingTwistDecomp(q, x, y, z, m).1) == q
  {
    RealMultiplyScales(1.0, q);
  }

  /**
   * Otherwise, when `m` normalizes the raw twist (the square root is not modelled),
   * swing times twist gives back the rotation.
   */
  lemma SwingTimesTwist(q: Quat, x: real, y: real, z: real, m: real)
    requires !NearlyOrthogonal(q, x, y, z)
    requires m != 0.0 && Normalize(RawTwist(q, x, y, z), m).Norm2() == 1.0
    ensures SwingTwistDecomp(q, x, y, z, m).0.Multiply(SwingTwistDecomp(q, x, y, z, m).1) == q
  {
    var twist := Normalize(RawTwist(q, x, y, z), m);
    MultiplyIsAssociative(q, twist.Conjugate(), twist);
    ConjugateFirstProductIsNorm2(twist);
    RealMultiplyScales(1.0, q);
  }

  /** A `Point`: three coordinates changed in place by the `...Eq` methods. */
  class Point {
    var x: real
    var y: real
    var z: real

    /** `new Point(x, y, z)`; `new Point()` is `new Point(0, 0, 0)`. */
    constructor (x: real, y: real, z: real)
      ensures Value() == Vec3(x, y, z)
    {
      this.x, this.y, this.z := x, y, z;
    }

    function Value(): Vec3
      reads this
    {
      Vec3(x, y, z)
    }

    method Copy() returns (p: Point)
      ensures fresh(p) && p.Value() == Value()
    {
      p := new Point(x, y, z);
    }

    /** `scale(s)`: a new point, this one scaled. */
    method Scale(s: real) returns (p: Point)
      ensures fresh(p) && p.Value() == Value().Scale(s)
    {
      p := new Point(x * s, y * s, z * s);
    }

    method Set(o: Point) returns (self: Point)
      modifies this
      ensures self == this && Value() == old(o.Value())
    {
      x, y, z := o.x, o.y, o.z;
      self := this;
    }

    method AddEq(o: Point) returns (self: Point)
      modifies this
      ensures self == this && Value() == old(Value()).Add(old(o.Value()))
    {
      x := x + o.x;
      y := y + o.y;
      z := z + o.z;
      self := this;
    }

    method SubEq(o: Point) returns (self: Point)
      modifies this
      ensures self == this && Value() == old(Value()).Sub(old(o.Value()))
    {
      x := x - o.x;
      y := y - o.y;
      z := z - o.z;
      self := this;
    }

    method ScaleEq(s: real) returns (self: Point)
      modifies this
      ensures self == this && Value() == old(Value()).Scale(s)
    {
      x, y, z := x * s, y * s, z * s;
      self := this;
    }

    method MulEq(o: Point) returns (self: Point)
      modifies this
      ensures self == this && Value() == old(Value()).Mul(old(o.Value()))
    {
      x := x * o.x;
      y := y * o.y;
      z := z * o.z;
      self := this;
    }

    method DivEq(o: Point) returns (self: Point)
      requires o.x != 0.0 && o.y != 0.0 && o.z != 0.0
      modifies this
      ensures self == this && Value() == old(Value()).Div(old(o.Value()))
    {
      var ox, oy, oz := o.x, o.y, o.z;
      x, y, z := x / ox, y / oy, z / oz;
      self := this;
    }

    method NegEq() returns (self: Point)
      modifies this
      ensures self == this && Value() == old(Value()).Neg()
    {
      x, y, z := -x, -y, -z;
      self := this;
    }

    /**
     * `crossEq` saves the old x and y before overwriting them, so with a distinct
     * argument it stores the cross product. The argument's coordinates are read at the
     * points where the source reads them.
     */
    method CrossEq(o: Point) returns (self: Point)
      modifies this
      ensures self == this
      ensures o != this ==> Value() == old(Value()).Cross(old(o.Value()))
    {
      ghost var p, q := Value(), o.Value();
      var ox := x;
      var oz1, oy1 := o.z, o.y;
      x := y * oz1 - z * oy1;
      var oy := y;
      var ox2, oz2 := o.x, o.z;
      y := z * ox2 - ox * oz2;
      var oy3, ox3 := o.y, o.x;
      z := ox * oy3 - oy * ox3;
      self := this;
      if o != this {
        assert x == p.Cross(q).x;
        assert y == p.Cross(q).y;
        assert z == p.Cross(q).z;
      }
    }

    method RemoveComponentEq(v: Point) returns (self: Point)
      requires v.Value().Mag2() != 0.0
      modifies this
      ensures self == this && Value() == old(Value()).RemoveComponent(old(v.Value()))
    {
      var p := Value().RemoveComponent(v.Value());
      x, y, z := p.x, p.y, p.z;
      self := this;
    }

    method BounceEq(n: Point, r: real) returns (self: Point)
      requires n.Value().Mag2() != 0.0
      modifies this
      ensures self == this && Value() == old(Value()).Bounce(old(n.Value()), r)
    {
      var p := Value().Bounce(n.Value(), r);
      x, y, z := p.x, p.y, p.z;
      self := this;
    }

    method BounceNormalEq(n: Point, r: real) returns (self: Point)
      modifies this
      ensures self == this && Value() == old(Value()).BounceNormal(old(n.Value()), r)
    {
      var p := Value().BounceNormal(n.Value(), r);
      x, y, z := p.x, p.y, p.z;
      self := this;
    }

    /** The `xyz` setter. */
    method SetXyz(v: seq<real>)
      requires |v| >= 3
      modifies this
      ensures Value() == FromXyz(v) && Value().Xyz() == v[..3]
    {
      x, y, z := v[0], v[1], v[2];
    }
  }

  /** A `Quaternion`: four components changed in place by the `...Eq` methods and setters. */
  class Quaternion {
    var r: real
    var i: real
    var j: real
    var k: real

    /** `new Quaternion()`. */
    constructor Unit()
      ensures Value() == Identity
    {
      r, i, j, k := 1.0, 0.0, 0.0, 0.0;
    }

    /** `new Quaternion(r, i, j, k)`. */
    constructor (r: real, i: real, j: real, k: real)
      ensures Value() == Quat(r, i, j, k)
    {
      this.r, this.i, this.j, this.k := r, i, j, k;
    }

    function Value(): Quat
      reads this
    {
      Quat(r, i, j, k)
    }

    method Set(o: Quaternion) returns (self: Quaternion)
      modifies this
      ensures self == this && Value() == old(o.Value())
    {
      r, i, j, k := o.r, o.i, o.j, o.k;
      self := this;
    }

    method AddEq(o: Quaternion) returns (self: Quaternion)
      modifies this
      ensures self == this && Value() == old(Value()).Add(old(o.Value()))
    {
      var q := Value().Add(o.Value());
      r, i, j, k := q.r, q.i, q.j, q.k;
      self := this;
    }

    method SubEq(o: Quaternion) returns (self: Quaternion)
      modifies this
      ensures self == this && Value() == old(Value()).Sub(old(o.Value()))
    {
      var q := Value().Sub(o.Value());
      r, i, j, k := q.r, q.i, q.j, q.k;
      self := this;
    }

    method ScaleEq(s: real) returns (self: Quaternion)
      modifies this
      ensures self == this && Value() == old(Value()).Scale(s)
    {
      r, i, j, k := r * s, i * s, j * s, k * s;
      self := this;
    }

    method NegEq() returns (self: Quaternion)
      modifies this
      ensures self == this && Value() == old(Value()).Neg()
    {
      r, i, j, k := -r, -i, -j, -k;
      self := this;
    }

    method ConjugateEq() returns (self: Quaternion)
      modifies this
      ensures self == this && Value() == old(Value()).Conjugate()
    {
      i, j, k := -i, -j, -k;
      self := this;
    }

    /** `inverseEq`: conjugates in place, then scales by `1 / norm2` of the old value. */
    method InverseEq() returns (self: Quaternion)
      requires Value().Norm2() != 0.0
      modifies this
      ensures self == this && Value() == old(Value()).Inverse()
    {
      var m2 := Value().Norm2();
      self := ConjugateEq();
      self := ScaleEq(1.0 / m2);
    }

    /** `multiplyEq` computes the product first, so `o` may be this object. */
    method MultiplyEq(o: Quaternion) returns (self: Quaternion)
      modifies this
      ensures self == this && Value() == old(Value()).Multiply(old(o.Value()))
    {
      var q := Value().Multiply(o.Value());
      r, i, j, k := q.r, q.i, q.j, q.k;
      self := this;
    }

    /** The `rijk` setter. */
    method SetRijk(v: seq<real>)
      requires |v| >= 4
      modifies this
      ensures Value() == FromRijk(v) && Value().Rijk() == v[..4]
    {
      r, i, j, k := v[0], v[1], v[2], v[3];
    }

    /** The `xyzw` setter. */
    method SetXyzw(v: seq<real>)
      requires |v| >= 4
      modifies this
      ensures Value() == FromXyzw(v) && Value().Xyzw() == v[..4]
    {
      i, j, k, r := v[0], v[1], v[2], v[3];
    }

    /** The `v` setter: copies the coordinates of `p` into the vector part. */
    method SetV(p: Point)
      modifies this
      ensures Value() == WithV(old(Value()), old(p.Value())) && Value().V() == old(p.Value())
    {
      i, j, k := p.x, p.y, p.z;
    }
  }
}
