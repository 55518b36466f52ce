/**
 * The collision responses of app/physics.ts.
 *
 * A collision's `apply(m)` changes the velocity of the kinematic object `m`
 * in place and returns the weight of the contact along its normal. Here a
 * collision is a value (`Colision`), the velocity is the `Point` object the
 * method changes, and `Respond` is the rule the method is proved to follow.
 */
module Physics {
  import opened Wrappers
  import opened Vectors

  /** A `Material`: the members that hold a number (a missing or null member is absent). */
  type Material = map<string, real>

  /** `defaultMaterial` of app/material.ts. */
  const DefaultMaterial: Material := map[
    "bounceRestitution" := 1.0, "staticFriction" := 1.0,
    "kineticFriction" := 250.0, "bounceKineticFriction" := 2.0]

  /** `get(o, p, d)`: the member `p` of `o` unless it is missing or null, and `d` then. */
  function Get(o: Material, p: string, d: real): (r: real)
    ensures p in o ==> r == o[p]
    ensures p !in o ==> r == d
  {
    if p in o then o[p] else d
  }

  /** Setting a member changes what `get` reads for it and for no other member. */
  lemma GetAfterSet(o: Material, q: string, v: real, p: string, d: real)
    ensures Get(o[q := v], p, d) == if p == q then v else Get(o, p, d)
  {
  }

  /** Removing a member makes `get` fall back to the default for it, and only for it. */
  lemma GetAfterRemove(o: Material, q: string, p: string, d: real)
    ensures Get(o - {q}, p, d) == if p == q then d else Get(o, p, d)
  {
  }

  /**
   * The collisions: `BasicColision(normal)`, `MovingColision(base, velocity)`
   * and `MaterialColision(normal, material)`.
   */
  datatype Colision =
    | Basic(normal: Vec3)
    | Moving(base: Colision, velocity: Vec3)
    | WithMaterial(normal: Vec3, material: Material)

  /** The `normal` member; a moving collision's getter reads its base's. */
  function Normal(c: Colision): Vec3 {
    match c
    case Basic(n) => n
    case Moving(b, _) => Normal(b)
    case WithMaterial(n, _) => n
  }

  /** Assigning `normal`; a moving collision's setter assigns its base's. */
  function SetNormal(c: Colision, p: Vec3): (r: Colision)
    ensures Normal(r) == p
    ensures r.Moving? <==> c.Moving?
    ensures c.Moving? ==> r.velocity == c.velocity && r.base == SetNormal(c.base, p)
    ensures c.WithMaterial? ==> r == WithMaterial(p, c.material)
  {
    match c
    case Basic(_) => Basic(p)
    case Moving(b, v) => Moving(SetNormal(b, p), v)
    case WithMaterial(_, m) => WithMaterial(p, m)
  }

  /** A velocity can only approach a surface along a normal of nonzero length. */
  lemma ApproachNeedsNormal(v: Vec3, n: Vec3)
    requires v.Dot(n) < 0.0
    ensures n.Mag2() > 0.0
  {
    if n == Vec3(0.0, 0.0, 0.0) {
      NothingAlongZero(v);
      assert false;
    }
    SquaresArePositive(n.x, n.y, n.z, n.Mag2());
  }

  lemma NothingAlongZero(v: Vec3)
    ensures v.Dot(Vec3(0.0, 0.0, 0.0)) == 0.0
  {
  }

  /** The steps below keep every product behind a named real, one fact per lemma. */
  lemma SquaresArePositive(a: real, b: real, c: real, s: real)
    requires s == a * a + b * b + c * c
    requires a != 0.0 || b != 0.0 || c != 0.0
    ensures s > 0.0
  {
    var pa, pb, pc := a * a, b * b, c * c;
    Square(a, pa);
    Square(b, pb);
    Square(c, pc);
    PositiveSum(pa, pb, pc, s);
  }

  lemma Square(a: real, p: real)
    requires p == a * a
    ensures p >= 0.0
    ensures a != 0.0 ==> p > 0.0
  {
    if a < 0.0 {
      PositiveProduct(-a, -a, p);
    } else if a > 0.0 {
      PositiveProduct(a, a, p);
    }
  }

  lemma PositiveProduct(x: real, y: real, p: real)
    requires x > 0.0 && y > 0.0 && p == x * y
    ensures p > 0.0
  {
  }

  lemma PositiveSum(pa: real, pb: real, pc: real, s: real)
    requires s == pa + pb + pc && pa >= 0.0 && pb >= 0.0 && pc >= 0.0
    requires pa > 0.0 || pb > 0.0 || pc > 0.0
    ensures s > 0.0
  {
  }

  /** The material a collision reads from the kinematic: its own, or `defaultMaterial` when it has none. */
  function MaterialOf(mat: Option<Material>): Material {
    if mat.Some? then mat.value else DefaultMaterial
  }

  /** The restitution of a material collision: the kinematic's (or the default's) times the collision's. */
  function Restitution(kinematic: Material, colision: Material): real {
    Get(kinematic, "bounceRestitution", 1.0) * Get(colision, "bounceRestitution", 1.0)
  }

  /**
   * What `c.apply(m)` returns and the velocity it leaves, for the velocity
   * `v` and the material `mat` of `m` (None when it is null).
   */
  function Respond(c: Colision, v: Vec3, mat: Option<Material>): (real, Vec3) {
    match c
    case Basic(n) =>
      var r := -v.Dot(n);
      if r > 0.0 then
        ApproachNeedsNormal(v, n);
        (r, v.RemoveComponent(n))
      else (0.0, v)
    case Moving(b, w) =>
      var inner := Respond(b, v.Sub(w), mat);
      (inner.0, inner.1.Add(w))
    case WithMaterial(n, cm) =>
      var bounce := -v.Dot(n);
      if bounce > 0.0 then (bounce, v.BounceNormal(n, Restitution(MaterialOf(mat), cm)))
      else (0.0, v)
  }

  /** Every collision's weight is `max(0, …)`, never negative. */
  lemma {:induction false} WeightIsNonNegative(c: Colision, v: Vec3, mat: Option<Material>)
    ensures Respond(c, v, mat).0 >= 0.0
  {
    match c
    case Basic(_) =>
    case Moving(b, w) => WeightIsNonNegative(b, v.Sub(w), mat);
    case WithMaterial(_, _) =>
  }

  /**
   * A basic collision returns `max(0, -v·n)`; when the velocity approaches
   * the surface it leaves no velocity along the normal, and otherwise it
   * leaves the velocity as it was.
   */
  lemma BasicStopsApproach(n: Vec3, v: Vec3, mat: Option<Material>)
    ensures var (r, u) := Respond(Basic(n), v, mat);
      && (-v.Dot(n) > 0.0 ==> r == -v.Dot(n) && u.Dot(n) == 0.0)
      && (-v.Dot(n) <= 0.0 ==> r == 0.0 && u == v)
  {
    if -v.Dot(n) > 0.0 {
      ApproachNeedsNormal(v, n);
      RemoveComponentIsOrthogonal(v, n);
    }
  }

  /**
   * A moving collision works in the frame that moves with `w`: the
   * velocity relative to the frame is what the base rule makes of the
   * relative velocity before, and the weight is the base rule's.
   */
  lemma MovingWorksInItsFrame(b: Colision, w: Vec3, v: Vec3, mat: Option<Material>)
    ensures Respond(Moving(b, w), v, mat).1.Sub(w) == Respond(b, v.Sub(w), mat).1
    ensures Respond(Moving(b, w), v, mat).0 == Respond(b, v.Sub(w), mat).0
  {
    var u := Respond(b, v.Sub(w), mat).1;
    assert u.Add(w).Sub(w) == u;
  }

  /** A moving frame over a basic collision stops the approach relative to the frame. */
  lemma MovingBasicStopsRelativeApproach(n: Vec3, w: Vec3, v: Vec3, mat: Option<Material>)
    requires -v.Sub(w).Dot(n) > 0.0
    ensures Respond(Moving(Basic(n), w), v, mat).1.Sub(w).Dot(n) == 0.0
  {
    MovingWorksInItsFrame(Basic(n), w, v, mat);
    BasicStopsApproach(n, v.Sub(w), mat);
  }

  /**
   * For a unit normal and an approaching velocity, a material collision
   * reverses the speed along the normal scaled by the restitution, keeps
   * every direction orthogonal to the normal, and returns `-v·n`.
   */
  lemma MaterialBounces(n: Vec3, cm: Material, v: Vec3, mat: Option<Material>, t: Vec3)
    requires n.Mag2() == 1.0 && -v.Dot(n) > 0.0 && t.Dot(n) == 0.0
    ensures Respond(WithMaterial(n, cm), v, mat).0 == -v.Dot(n)
    ensures Respond(WithMaterial(n, cm), v, mat).1.Dot(n) == -Restitution(MaterialOf(mat), cm) * v.Dot(n)
    ensures Respond(WithMaterial(n, cm), v, mat).1.Dot(t) == v.Dot(t)
  {
    MaterialReflects(n, cm, v, mat);
    MaterialKeepsTangent(n, cm, v, mat, t);
  }

  /** The speed along a unit normal is reversed and scaled by the restitution. */
  lemma MaterialReflects(n: Vec3, cm: Material, v: Vec3, mat: Option<Material>)
    requires n.Mag2() == 1.0 && -v.Dot(n) > 0.0
    ensures Respond(WithMaterial(n, cm), v, mat).1.Dot(n) == -Restitution(MaterialOf(mat), cm) * v.Dot(n)
  {
    BounceNormalReflects(v, n, Restitution(MaterialOf(mat), cm));
  }

  /** Every direction orthogonal to the normal keeps its speed. */
  lemma MaterialKeepsTangent(n: Vec3, cm: Material, v: Vec3, mat: Option<Material>, t: Vec3)
    requires -v.Dot(n) > 0.0 && t.Dot(n) == 0.0
    ensures Respond(WithMaterial(n, cm), v, mat).1.Dot(t) == v.Dot(t)
  {
    BounceNormalKeepsTangent(v, n, Restitution(MaterialOf(mat), cm), t);
  }

  /** A kinematic without a material bounces off a collision without one rigidly (restitution 1). */
  lemma DefaultRestitutionIsOne(n: Vec3, v: Vec3)
    requires n.Mag2() == 1.0 && -v.Dot(n) > 0.0
    ensures Respond(WithMaterial(n, map[]), v, None).1.Dot(n) == -v.Dot(n)
  {
    assert Restitution(DefaultMaterial, map[]) == 1.0;
    BounceNormalReflects(v, n, 1.0);
  }

  /**
   * `c.apply(m)` on the velocity `velocity` of a kinematic whose material
   * is `mat`: the velocity is changed in place (through `removeComponentEq`,
   * `subEq`, `addEq` and `bounceNormalEq`) as `Respond` says, and nothing
   * else of the kinematic is touched.
   */
  method Apply(c: Colision, velocity: Point, mat: Option<Material>) returns (r: real)
    modifies velocity
    ensures (r, velocity.Value()) == Respond(c, old(velocity.Value()), mat)
    decreases c
  {
    match c {
      case Basic(n) =>
        var normal := new Point(n.x, n.y, n.z);
        var weight := -velocity.Value().Dot(normal.Value());
        if weight > 0.0 {
          ApproachNeedsNormal(velocity.Value(), n);
          var _ := velocity.RemoveComponentEq(normal);
        }
        r := if 0.0 < weight then weight else 0.0;
        assert (r, velocity.Value()) == Respond(c, old(velocity.Value()), mat);
      case Moving(b, w) =>
        var frame := new Point(w.x, w.y, w.z);
        var _ := velocity.SubEq(frame);
        ghost var relative := velocity.Value();
        r := Apply(b, velocity, mat);
        assert (r, velocity.Value()) == Respond(b, relative, mat);
        var _ := velocity.AddEq(frame);
        assert (r, velocity.Value()) == Respond(c, old(velocity.Value()), mat);
      case WithMaterial(n, cm) =>
        var km := MaterialOf(mat);
        var normal := new Point(n.x, n.y, n.z);
        var bounce := -velocity.Value().Dot(normal.Value());
        if bounce > 0.0 {
          var e := Get(km, "bounceRestitution", 1.0) * Get(cm, "bounceRestitution", 1.0);
          assert e == Restitution(km, cm);
          var _ := velocity.BounceNormalEq(normal, e);
        }
        r := if bounce > 0.0 then bounce else 0.0;
        assert (r, velocity.Value()) == Respond(c, old(velocity.Value()), mat);
    }
  }
}
