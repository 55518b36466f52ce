/**
 * The distance-function combinators of app/distanceFunctions.ts.
 *
 * Distances are extended reals (`ExtReal`), since `Infinity` is both the
 * distance of the empty shape and the "far enough" answer of any shape.
 * A distance function is a value (`DF`); the shapes the combinators are
 * built from (`Leaf`) are answered by functions the caller supplies, and
 * affine transforms are opaque (`Transform`), composed only by `after`.
 */
module DistanceFunctions {
  import opened Wrappers
  import opened Vectors

  datatype ExtReal = NegInf | Fin(r: real) | PosInf {
    /** `<` on numbers with infinities. */
    predicate Below(o: ExtReal) {
      match (this, o)
      case (NegInf, NegInf) => false
      case (NegInf, _) => true
      case (Fin(a), Fin(b)) => a < b
      case (Fin(_), PosInf) => true
      case (_, _) => false
    }

    predicate AtMost(o: ExtReal) {
      !o.Below(this)
    }

    /** Unary minus. */
    function Negate(): ExtReal {
      match this
      case NegInf => PosInf
      case Fin(a) => Fin(-a)
      case PosInf => NegInf
    }
  }

  /** `Math.min(a, b)`. */
  function Min(a: ExtReal, b: ExtReal): (r: ExtReal)
    ensures r == a || r == b
    ensures r.AtMost(a) && r.AtMost(b)
  {
    if b.Below(a) then b else a
  }

  /** `clamp(n, l, h)`: `Math.min(Math.max(n, l), h)`. */
  function Clamp(n: real, l: real, h: real): (r: real)
    ensures l <= h ==> l <= r <= h
    ensures l <= n <= h ==> r == n
    ensures n < l ==> r == (if l < h then l else h)
    ensures h < n ==> r == h
  {
    var lifted := if n < l then l else n;
    if h < lifted then h else lifted
  }

  /**
   * The selection loop shared by `minMag` and `df_union.gradient`: walking
   * `vs` from `i` with the running bound `bound` and the running choice
   * `chosen`, a value strictly below the bound becomes both.
   */
  function PickLeast(vs: seq<ExtReal>, i: nat, bound: ExtReal, chosen: Option<nat>): (r: Option<nat>)
    requires i <= |vs| && (chosen.None? || chosen.value < i)
    ensures r.None? || r.value < |vs|
    ensures chosen.Some? ==> r.Some?
    decreases |vs| - i
  {
    if i == |vs| then chosen
    else if vs[i].Below(bound) then PickLeast(vs, i + 1, vs[i], Some(i))
    else PickLeast(vs, i + 1, bound, chosen)
  }

  /** The loop of `maxMag`: a value strictly above the running bound becomes the bound and the choice. */
  function PickGreatest(vs: seq<real>, i: nat, bound: real, chosen: Option<nat>): (r: Option<nat>)
    requires i <= |vs| && (chosen.None? || chosen.value < i)
    ensures r.None? || r.value < |vs|
    ensures chosen.Some? ==> r.Some?
    decreases |vs| - i
  {
    if i == |vs| then chosen
    else if vs[i] > bound then PickGreatest(vs, i + 1, vs[i], Some(i))
    else PickGreatest(vs, i + 1, bound, chosen)
  }

  /** `k` holds a least value of `vs[..i]`, the first such, and nothing before it equals it. */
  predicate FirstLeastUpTo(vs: seq<ExtReal>, i: nat, k: nat)
    requires i <= |vs|
  {
    && k < i
    && (forall j :: 0 <= j < i ==> vs[k].AtMost(vs[j]))
    && (forall j :: 0 <= j < k ==> vs[k].Below(vs[j]))
  }

  lemma {:induction false} PickLeastFrom(vs: seq<ExtReal>, i: nat, bound: ExtReal, chosen: Option<nat>)
    requires i <= |vs|
    requires chosen.None? ==> bound == PosInf && forall j :: 0 <= j < i ==> vs[j] == PosInf
    requires chosen.Some? ==> FirstLeastUpTo(vs, i, chosen.value) && bound == vs[chosen.value] && bound != PosInf
    ensures var r := PickLeast(vs, i, bound, chosen);
      && (r.None? ==> forall j :: 0 <= j < |vs| ==> vs[j] == PosInf)
      && (r.Some? ==> FirstLeastUpTo(vs, |vs|, r.value) && vs[r.value] != PosInf)
    decreases |vs| - i
  {
    if i < |vs| {
      if vs[i].Below(bound) {
        PickLeastFrom(vs, i + 1, vs[i], Some(i));
      } else {
        PickLeastFrom(vs, i + 1, bound, chosen);
      }
    }
  }

  /**
   * Started from `+∞` with no choice, the loop chooses the first of the
   * least values, and chooses nothing exactly when every value is `+∞`.
   */
  lemma PickLeastIsFirstLeast(vs: seq<ExtReal>)
    ensures var r := PickLeast(vs, 0, PosInf, None);
      && (r.None? <==> forall j :: 0 <= j < |vs| ==> vs[j] == PosInf)
      && (r.Some? ==> FirstLeastUpTo(vs, |vs|, r.value) && vs[r.value] != PosInf)
  {
    PickLeastFrom(vs, 0, PosInf, None);
  }

  predicate FirstGreatestUpTo(vs: seq<real>, i: nat, k: nat)
    requires i <= |vs|
  {
    && k < i
    && (forall j :: 0 <= j < i ==> vs[j] <= vs[k])
    && (forall j :: 0 <= j < k ==> vs[j] < vs[k])
  }

  lemma {:induction false} PickGreatestFrom(vs: seq<real>, i: nat, bound: real, chosen: Option<nat>)
    requires i <= |vs|
    requires chosen.None? ==> bound == 0.0 && forall j :: 0 <= j < i ==> vs[j] <= 0.0
    requires chosen.Some? ==> FirstGreatestUpTo(vs, i, chosen.value) && bound == vs[chosen.value] && bound > 0.0
    ensures var r := PickGreatest(vs, i, bound, chosen);
      && (r.None? ==> forall j :: 0 <= j < |vs| ==> vs[j] <= 0.0)
      && (r.Some? ==> FirstGreatestUpTo(vs, |vs|, r.value) && vs[r.value] > 0.0)
    decreases |vs| - i
  {
    if i < |vs| {
      if vs[i] > bound {
        PickGreatestFrom(vs, i + 1, vs[i], Some(i));
      } else {
        PickGreatestFrom(vs, i + 1, bound, chosen);
      }
    }
  }

  /**
   * Started from 0 with no choice, the loop of `maxMag` chooses the first
   * of the greatest values when one is positive, and nothing otherwise.
   */
  lemma PickGreatestIsFirstGreatest(vs: seq<real>)
    ensures var r := PickGreatest(vs, 0, 0.0, None);
      && (r.None? <==> forall j :: 0 <= j < |vs| ==> vs[j] <= 0.0)
      && (r.Some? ==> FirstGreatestUpTo(vs, |vs|, r.value))
  {
    PickGreatestFrom(vs, 0, 0.0, None);
  }

  /** The `mag2()` of each point, in order. */
  function Mags(ps: seq<Point>): (ms: seq<real>)
    reads ps
    ensures |ms| == |ps| && forall i :: 0 <= i < |ps| ==> ms[i] == ps[i].Value().Mag2()
  {
    if |ps| == 0 then [] else [ps[0].Value().Mag2()] + Mags(ps[1..])
  }

  function Finite(ms: seq<real>): (vs: seq<ExtReal>)
    ensures |vs| == |ms| && forall i :: 0 <= i < |ms| ==> vs[i] == Fin(ms[i])
  {
    seq(|ms|, i requires 0 <= i < |ms| => Fin(ms[i]))
  }

  /**
   * `minMag(...ps)`: the first point of least `mag2`, itself (not a copy);
   * a new zero point for no points.
   */
  method MinMag(ps: seq<Point>) returns (m: Point)
    ensures var k := PickLeast(Finite(Mags(ps)), 0, PosInf, None);
      && (k.None? ==> fresh(m) && m.Value() == Zero)
      && (k.Some? ==> m == ps[k.value])
  {
    m := new Point(0.0, 0.0, 0.0);
    var bound := PosInf;
    ghost var chosen: Option<nat> := None;
    ghost var vs := Finite(Mags(ps));
    for i := 0 to |ps|
      invariant chosen.Some? ==> chosen.value < i && m == ps[chosen.value]
      invariant PickLeast(vs, 0, PosInf, None) == PickLeast(vs, i, bound, chosen)
      invariant chosen.None? ==> fresh(m) && m.Value() == Zero
    {
      var m2 := ps[i].Value().Mag2();
      if Fin(m2).Below(bound) {
        bound := Fin(m2);
        m := ps[i];
        chosen := Some(i);
      }
    }
  }

  /**
   * `maxMag(...ps)`: the first point of greatest `mag2` among those with a
   * positive `mag2`, itself; a new zero point when there is none.
   */
  method MaxMag(ps: seq<Point>) returns (m: Point)
    ensures var k := PickGreatest(Mags(ps), 0, 0.0, None);
      && (k.None? ==> fresh(m) && m.Value() == Zero)
      && (k.Some? ==> m == ps[k.value])
  {
    m := new Point(0.0, 0.0, 0.0);
    var bound := 0.0;
    ghost var chosen: Option<nat> := None;
    ghost var vs := Mags(ps);
    for i := 0 to |ps|
      invariant chosen.Some? ==> chosen.value < i && m == ps[chosen.value]
      invariant PickGreatest(vs, 0, 0.0, None) == PickGreatest(vs, i, bound, chosen)
      invariant chosen.None? ==> fresh(m) && m.Value() == Zero
    {
      var m2 := ps[i].Value().Mag2();
      if m2 > bound {
        bound := m2;
        m := ps[i];
        chosen := Some(i);
      }
    }
  }

  /** An affine transform: one the program holds, or `outer.after(inner)`. */
  datatype Transform = Stored(id: nat) | After(outer: Transform, inner: Transform)

  /** The distance functions: `df_empty`, `df_invert`, `df_union`, `df_transform`, and shapes outside this model. */
  datatype DF =
    | Empty(grad: Vec3)
    | Invert(df: DF)
    | Union(dfs: seq<DF>)
    | Transformed(df: DF, t: Transform)
    | Leaf(id: nat)

  /** `new df_empty()`: the default gradient is (1, 0, 0). */
  const DefaultEmpty: DF := Empty(Vec3(1.0, 0.0, 0.0))

  /** The answers of the shapes the combinators are built from. */
  datatype Shapes = Shapes(
    eval: (nat, Vec3, ExtReal, Option<Transform>) -> ExtReal,
    gradient: (nat, Vec3, Option<Transform>) -> Vec3)

  /** The transform `df_transform` passes down: its own, or `t.after(this.t)` under an outer one. */
  function Compose(outer: Option<Transform>, own: Transform): (r: Transform)
    ensures outer.None? ==> r == own
    ensures outer.Some? ==> r == After(outer.value, own)
  {
    if outer.None? then own else After(outer.value, own)
  }

  /** `df.eval(p, rad, t)`; `t` is None for a null transform. */
  function Eval(df: DF, p: Vec3, rad: ExtReal, t: Option<Transform>, shapes: Shapes): ExtReal
    decreases df, 1
  {
    match df
    case Empty(_) => PosInf
    case Invert(d) => Eval(d, p, PosInf, t, shapes).Negate()
    case Union(dfs) => UnionFold(df, p, rad, t, shapes, 0, PosInf)
    case Transformed(d, own) => Eval(d, p, rad, Some(Compose(t, own)), shapes)
    case Leaf(id) => shapes.eval(id, p, rad, t)
  }

  /** The loop of `df_union.eval` from child `i` on, with the running minimum `v`. */
  function UnionFold(u: DF, p: Vec3, rad: ExtReal, t: Option<Transform>, shapes: Shapes, i: nat, v: ExtReal): ExtReal
    requires u.Union? && i <= |u.dfs|
    decreases u, 0, |u.dfs| - i
  {
    if i == |u.dfs| then v
    else UnionFold(u, p, rad, t, shapes, i + 1, Min(v, Eval(u.dfs[i], p, Min(rad, v), t, shapes)))
  }

  /** The loop of `df_union.gradient` from child `i` on: the running bound `v` is also the radius each child gets. */
  function Winner(dfs: seq<DF>, p: Vec3, t: Option<Transform>, shapes: Shapes, i: nat, v: ExtReal, chosen: Option<nat>): (r: Option<nat>)
    requires i <= |dfs| && (chosen.None? || chosen.value < i)
    ensures r.None? || r.value < |dfs|
    decreases |dfs| - i
  {
    if i == |dfs| then chosen
    else
      var d := Eval(dfs[i], p, v, t, shapes);
      if d.Below(v) then Winner(dfs, p, t, shapes, i + 1, d, Some(i))
      else Winner(dfs, p, t, shapes, i + 1, v, chosen)
  }

  /** `df.gradient(p, t)`, with every gradient a value of its own. */
  function Gradient(df: DF, p: Vec3, t: Option<Transform>, shapes: Shapes): Vec3
    decreases df
  {
    match df
    case Empty(g) => g
    case Invert(d) => Gradient(d, p, t, shapes).Neg()
    case Union(dfs) =>
      var w := Winner(dfs, p, t, shapes, 0, PosInf, None);
      if w.None? then DefaultEmpty.grad
      else Gradient(dfs[w.value], p, t, shapes)
    case Transformed(d, own) => Gradient(d, p, Some(Compose(t, own)), shapes)
    case Leaf(id) => shapes.gradient(id, p, t)
  }

  /** `df_union.eval`, the source's loop. */
  method UnionEval(dfs: seq<DF>, p: Vec3, rad: ExtReal, t: Option<Transform>, shapes: Shapes) returns (v: ExtReal)
    ensures v == Eval(Union(dfs), p, rad, t, shapes)
  {
    v := PosInf;
    for i := 0 to |dfs|
      invariant Eval(Union(dfs), p, rad, t, shapes) == UnionFold(Union(dfs), p, rad, t, shapes, i, v)
    {
      v := Min(v, Eval(dfs[i], p, Min(rad, v), t, shapes));
    }
  }

  /** `df_union.gradient`, the source's loop. */
  method UnionGradient(dfs: seq<DF>, p: Vec3, t: Option<Transform>, shapes: Shapes) returns (g: Vec3)
    ensures g == Gradient(Union(dfs), p, t, shapes)
  {
    var v := PosInf;
    var dfmin := DefaultEmpty;
    ghost var chosen: Option<nat> := None;
    for i := 0 to |dfs|
      invariant chosen.Some? ==> chosen.value < i && dfmin == dfs[chosen.value]
      invariant Winner(dfs, p, t, shapes, 0, PosInf, None) == Winner(dfs, p, t, shapes, i, v, chosen)
      invariant chosen.None? ==> dfmin == DefaultEmpty
    {
      var d := Eval(dfs[i], p, v, t, shapes);
      if d.Below(v) {
        dfmin := dfs[i];
        v := d;
        chosen := Some(i);
      }
    }
    g := Gradient(dfmin, p, t, shapes);
  }

  /** `df_empty.eval` is `+∞` whatever it is asked, and its gradient is the stored one. */
  lemma EmptyIsFarAway(g: Vec3, p: Vec3, rad: ExtReal, t: Option<Transform>, shapes: Shapes)
    ensures Eval(Empty(g), p, rad, t, shapes) == PosInf
    ensures Gradient(Empty(g), p, t, shapes) == g
  {
  }

  /** An empty union is `+∞` away, and its gradient is the default (1, 0, 0). */
  lemma EmptyUnion(p: Vec3, rad: ExtReal, t: Option<Transform>, shapes: Shapes)
    ensures Eval(Union([]), p, rad, t, shapes) == PosInf
    ensures Gradient(Union([]), p, t, shapes) == Vec3(1.0, 0.0, 0.0)
  {
  }

  /** Inverting twice gives back the distance at radius `+∞` and the gradient. */
  lemma DoubleInvert(d: DF, p: Vec3, rad: ExtReal, t: Option<Transform>, shapes: Shapes)
    ensures Eval(Invert(Invert(d)), p, rad, t, shapes) == Eval(d, p, PosInf, t, shapes)
    ensures Gradient(Invert(Invert(d)), p, t, shapes) == Gradient(d, p, t, shapes)
  {
    var e := Eval(d, p, PosInf, t, shapes);
    assert e.Negate().Negate() == e;
    var g := Gradient(d, p, t, shapes);
    assert g.Neg().Neg() == g;
  }

  /**
   * Nested transforms: with no outer transform the inner function sees
   * `outer.after(inner)`, and under an outer `t` it sees
   * `t.after(outer).after(inner)`.
   */
  lemma NestedTransforms(d: DF, inner: Transform, outer: Transform, p: Vec3, rad: ExtReal, t: Option<Transform>, shapes: Shapes)
    ensures Eval(Transformed(Transformed(d, inner), outer), p, rad, t, shapes)
      == Eval(d, p, rad, Some(After(Compose(t, outer), inner)), shapes)
    ensures Gradient(Transformed(Transformed(d, inner), outer), p, t, shapes)
      == Gradient(d, p, Some(After(Compose(t, outer), inner)), shapes)
  {
  }

  /** A function whose answer does not depend on the radius it is given. */
  ghost predicate Exact(d: DF, p: Vec3, t: Option<Transform>, shapes: Shapes) {
    forall r: ExtReal {:trigger Eval(d, p, r, t, shapes)} :: Eval(d, p, r, t, shapes) == Eval(d, p, PosInf, t, shapes)
  }

  /** The children's exact distances, in order. */
  function Distances(dfs: seq<DF>, p: Vec3, t: Option<Transform>, shapes: Shapes): (vs: seq<ExtReal>)
    ensures |vs| == |dfs|
    ensures forall i :: 0 <= i < |dfs| ==> vs[i] == Eval(dfs[i], p, PosInf, t, shapes)
  {
    if |dfs| == 0 then [] else [Eval(dfs[0], p, PosInf, t, shapes)] + Distances(dfs[1..], p, t, shapes)
  }

  lemma {:induction false} UnionFoldOfExact(dfs: seq<DF>, p: Vec3, rad: ExtReal, t: Option<Transform>, shapes: Shapes, i: nat, v: ExtReal)
    requires i <= |dfs|
    requires forall k :: 0 <= k < |dfs| ==> Exact(dfs[k], p, t, shapes)
    ensures var r := UnionFold(Union(dfs), p, rad, t, shapes, i, v);
      && r.AtMost(v)
      && (forall k :: i <= k < |dfs| ==> r.AtMost(Eval(dfs[k], p, PosInf, t, shapes)))
      && (r == v || exists k :: i <= k < |dfs| && r == Eval(dfs[k], p, PosInf, t, shapes))
    decreases |dfs| - i
  {
    if i < |dfs| {
      var d := Eval(dfs[i], p, Min(rad, v), t, shapes);
      assert Exact(dfs[i], p, t, shapes);
      assert d == Eval(dfs[i], p, PosInf, t, shapes);
      UnionFoldOfExact(dfs, p, rad, t, shapes, i + 1, Min(v, d));
      var r := UnionFold(Union(dfs), p, rad, t, shapes, i, v);
      assert r == UnionFold(Union(dfs), p, rad, t, shapes, i + 1, Min(v, d));
      AtMostIsTransitive(r, Min(v, d), v);
      AtMostIsTransitive(r, Min(v, d), d);
    }
  }

  lemma AtMostIsTransitive(a: ExtReal, b: ExtReal, c: ExtReal)
    requires a.AtMost(b) && b.AtMost(c)
    ensures a.AtMost(c)
  {
  }

  /**
   * With children whose distances do not depend on the radius, a union is
   * exactly as far as its nearest child: at most every child's distance,
   * and equal to one of them (or `+∞` with no children).
   */
  lemma UnionIsNearestChild(dfs: seq<DF>, p: Vec3, rad: ExtReal, t: Option<Transform>, shapes: Shapes)
    requires forall k :: 0 <= k < |dfs| ==> Exact(dfs[k], p, t, shapes)
    ensures var r := Eval(Union(dfs), p, rad, t, shapes);
      && (forall k :: 0 <= k < |dfs| ==> r.AtMost(Eval(dfs[k], p, PosInf, t, shapes)))
      && (r == PosInf || exists k :: 0 <= k < |dfs| && r == Eval(dfs[k], p, PosInf, t, shapes))
  {
    UnionFoldOfExact(dfs, p, rad, t, shapes, 0, PosInf);
  }

  lemma {:induction false} WinnerOfExact(dfs: seq<DF>, p: Vec3, t: Option<Transform>, shapes: Shapes, i: nat, v: ExtReal, chosen: Option<nat>)
    requires i <= |dfs| && (chosen.None? || chosen.value < i)
    requires forall k :: 0 <= k < |dfs| ==> Exact(dfs[k], p, t, shapes)
    ensures Winner(dfs, p, t, shapes, i, v, chosen) == PickLeast(Distances(dfs, p, t, shapes), i, v, chosen)
    decreases |dfs| - i
  {
    if i < |dfs| {
      var vs := Distances(dfs, p, t, shapes);
      var d := Eval(dfs[i], p, v, t, shapes);
      assert Exact(dfs[i], p, t, shapes);
      assert d == vs[i];
      if d.Below(v) {
        WinnerOfExact(dfs, p, t, shapes, i + 1, d, Some(i));
      } else {
        WinnerOfExact(dfs, p, t, shapes, i + 1, v, chosen);
      }
    }
  }

  /**
   * With children whose distances do not depend on the radius, a union's
   * gradient is that of its first nearest child, and the default (1, 0, 0)
   * when every child is `+∞` away.
   */
  lemma UnionGradientIsFirstNearest(dfs: seq<DF>, p: Vec3, t: Option<Transform>, shapes: Shapes)
    requires forall k :: 0 <= k < |dfs| ==> Exact(dfs[k], p, t, shapes)
    ensures var vs := Distances(dfs, p, t, shapes);
      && ((forall k :: 0 <= k < |dfs| ==> vs[k] == PosInf) ==>
            Gradient(Union(dfs), p, t, shapes) == Vec3(1.0, 0.0, 0.0))
      && (forall k: nat :: FirstLeastUpTo(vs, |dfs|, k) && vs[k] != PosInf ==>
            Gradient(Union(dfs), p, t, shapes) == Gradient(dfs[k], p, t, shapes))
  {
    var vs := Distances(dfs, p, t, shapes);
    WinnerOfExact(dfs, p, t, shapes, 0, PosInf, None);
    PickLeastIsFirstLeast(vs);
    forall k: nat | FirstLeastUpTo(vs, |dfs|, k) && vs[k] != PosInf
      ensures Gradient(Union(dfs), p, t, shapes) == Gradient(dfs[k], p, t, shapes)
    {
      var w := PickLeast(vs, 0, PosInf, None);
      assert w.Some?;
      FirstLeastIsUnique(vs, w.value, k);
    }
  }

  lemma FirstLeastIsUnique(vs: seq<ExtReal>, a: nat, b: nat)
    requires FirstLeastUpTo(vs, |vs|, a) && FirstLeastUpTo(vs, |vs|, b)
    ensures a == b
  {
    assert !vs[b].Below(vs[a]);
    assert !vs[a].Below(vs[b]);
  }

  /**
   * `df_empty` as the source has it: an object whose `grad` point is
   * returned by reference from `gradient`.
   */
  class EmptyAsWritten {
    const grad: Point

    constructor ()
      ensures grad.Value() == Vec3(1.0, 0.0, 0.0) && fresh(grad)
    {
      grad := new Point(1.0, 0.0, 0.0);
    }

    /** `gradient(p, t)`: the stored point itself. */
    method Gradient() returns (g: Point)
      ensures g == grad
    {
      g := grad;
    }
  }

  /**
   * `df_invert.gradient` over a `df_empty` as the source has it: the child's
   * returned point is negated in place, so the empty function's stored
   * gradient flips with every call.
   */
  method InvertGradientAsWritten(e: EmptyAsWritten) returns (g: Point)
    modifies e.grad
    ensures g == e.grad && g.Value() == old(e.grad.Value()).Neg()
  {
    g := e.Gradient();
    var _ := g.NegEq();
  }

  /**
   * Two calls of the inverted empty function's gradient, as written, give
   * (-1, 0, 0) and then (1, 0, 0); the value model gives (-1, 0, 0) every time.
   */
  method InvertedGradientFlips() returns (first: Vec3, second: Vec3)
    ensures first == Vec3(-1.0, 0.0, 0.0) && second == Vec3(1.0, 0.0, 0.0)
    ensures first != second
  {
    var e := new EmptyAsWritten();
    var g1 := InvertGradientAsWritten(e);
    first := g1.Value();
    var g2 := InvertGradientAsWritten(e);
    second := g2.Value();
  }

  /** In the value model the inverted empty function's gradient is the stored gradient negated, whatever came before. */
  lemma InvertedGradientIsStable(g: Vec3, p: Vec3, t: Option<Transform>, shapes: Shapes)
    ensures Gradient(Invert(Empty(g)), p, t, shapes) == g.Neg()
    ensures Gradient(Invert(DefaultEmpty), p, t, shapes) == Vec3(-1.0, 0.0, 0.0)
  {
  }
}
