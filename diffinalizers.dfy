/**
 * The finalizers of difFinalizers.ts: the functions `readStruct` applies to
 * a parsed record by the name of its type, the `Interior` they assemble from
 * a parsed interior (its plane table, the walk over each convex hull's
 * poly-list string and the planes each hull is given), and `Dif`.
 *
 * Parsed values are DifValues.Value. A class instance a finalizer builds is
 * an `Obj` holding the members its constructor stores. `Plane` and
 * `ConvexHull` are not part of this model: a plane is the pair of arguments
 * `new Plane(normal, distance)` is given, and a hull the list of planes
 * handed to its `addPlanes`.
 */
module DifFinalizers {
  import opened Wrappers
  import opened JsText
  import opened DifValues

  // ---------------------------------------------------------------------
  // Reading parsed values

  /** `v.key`. Numbers and booleans have no such member; undefined and null throw. */
  function Member(v: Value, key: string): (r: Result<Value>)
    ensures r.Err? ==> !v.Rec? && !v.Obj?
  {
    match v
    case Undef => Err(TypeError("cannot read '" + key + "' of undefined"))
    case Null => Err(TypeError("cannot read '" + key + "' of null"))
    case Rec(fields) => Ok(Get(fields, key))
    case Obj(_, members) => Ok(Get(members, key))
    case Arr(items) =>
      if key == "length" then Ok(Int(|items|))
      else if AllDigits(key) then Err(Unmodelled("an element named by text"))
      else Ok(Undef)
    case Str(s) =>
      if key == "length" then Ok(Int(|s|))
      else if AllDigits(key) then Err(Unmodelled("a character named by text"))
      else Ok(Undef)
    case Bool(_) | Int(_) | Flt(_) => Ok(Undef)
    case Image(_) => Err(Unmodelled("a member of a PNG"))
  }

  /** `items[index]`: the element at an integer index, and undefined for any other. */
  function ElementAt<T>(items: seq<T>, index: Value, none: T): Result<T> {
    match index
    case Int(k) => Ok(if 0 <= k < |items| then items[k] else none)
    case Undef | Null | Bool(_) => Ok(none)
    case _ => Err(Unmodelled("an index that is not an integer"))
  }

  /** `v[index]` on a parsed array. */
  function Element(v: Value, index: Value): Result<Value> {
    match v
    case Arr(items) => ElementAt(items, index, Undef)
    case Undef => Err(TypeError("cannot read an element of undefined"))
    case Null => Err(TypeError("cannot read an element of null"))
    case _ => Err(Unmodelled("an element of a value that is not an array"))
  }

  /** What `for (let o of v)` and the spread `...v` walk over. */
  function Iterable(v: Value): Result<seq<Value>> {
    match v
    case Arr(items) => Ok(items)
    case Str(_) => Err(Unmodelled("iterating a string"))
    case _ => Err(TypeError("value is not iterable"))
  }

  /** A number as the arithmetic operators see it; `+` on a string concatenates, which the model does not follow. */
  function NumOf(v: Value): Result<Num> {
    if v.Str? then Err(Unmodelled("arithmetic on a string")) else ToNumber(v)
  }

  function Plus(a: Num, b: Num): (r: Num)
    ensures r.Whole? <==> a.Whole? && b.Whole?
  {
    if a.NaN? || b.NaN? then NaN else Whole(a.n + b.n)
  }

  function Times(a: Num, b: int): (r: Num)
    ensures r.Whole? <==> a.Whole?
  {
    if a.NaN? then NaN else Whole(a.n * b)
  }

  /** `items[n]` for a number `n` (NaN reads undefined). */
  function ElementAtNum(items: seq<Value>, n: Num): Value {
    if n.Whole? && 0 <= n.n < |items| then items[n.n] else Undef
  }

  /** Unary minus on a stored number: IEEE negation of a float flips its sign bit. */
  function Neg(v: Value): (r: Result<Value>)
    ensures v.Int? ==> r == Ok(Int(-v.i))
    ensures v.Flt? ==> r == Ok(Flt(v.f.Negate()))
    ensures !v.Int? && !v.Flt? ==> r.Err?
  {
    match v
    case Int(i) => Ok(Int(-i))
    case Flt(f) => Ok(Flt(f.Negate()))
    case _ => Err(Unmodelled("unary minus of a value that is not a number"))
  }

  /** Negating a stored number twice gives it back. */
  lemma NegTwice(v: Value)
    requires Neg(v).Ok?
    ensures Neg(Neg(v).value) == Ok(v)
  {
    if v.Flt? {
      NegateIsInvolution(v.f);
    }
  }

  // ---------------------------------------------------------------------
  // The plain finalizers

  /** How a constructor argument is taken from the record: a member, or `String.fromCharCode(...member)`. */
  datatype Arg = Copy(name: string) | Chars(of: string)

  function ArgOf(s: Value, a: Arg): Result<Value> {
    match a
    case Copy(name) => Member(s, name)
    case Chars(name) =>
      var codes :- Member(s, name);
      var items :- Iterable(codes);
      var t :- FromCharCodes(items);
      Ok(Str(t))
  }

  /**
   * `new C(s.a1, …, s.an)` for a class whose constructor only stores its
   * arguments (TypeScript `public` parameters), as the members `members`.
   * The arguments are taken in order; the first that throws decides.
   */
  function Construct(cls: string, members: seq<(string, Arg)>, s: Value): (r: Result<Value>)
    ensures r.Ok? ==> r.value.Obj? && r.value.cls == cls && |r.value.members| == |members|
    ensures r.Ok? ==> forall k :: 0 <= k < |members| ==>
      r.value.members[k].0 == members[k].0 && ArgOf(s, members[k].1) == Ok(r.value.members[k].1)
    ensures r.Ok? <==> forall k :: 0 <= k < |members| ==> ArgOf(s, members[k].1).Ok?
    decreases |members|
  {
    if members == [] then Ok(Obj(cls, []))
    else
      var first :- ArgOf(s, members[0].1);
      var rest :- Construct(cls, members[1..], s);
      assert forall k :: 1 <= k < |members| ==> members[k] == members[1..][k - 1];
      Ok(Obj(cls, [(members[0].0, first)] + rest.members))
  }

  /** The member named by each entry of a constructor's argument list, stored under its own name. */
  function Copies(names: seq<string>): (r: seq<(string, Arg)>)
    ensures |r| == |names| && forall k :: 0 <= k < |names| ==> r[k] == (names[k], Copy(names[k]))
  {
    if names == [] then [] else [(names[0], Copy(names[0]))] + Copies(names[1..])
  }

  /**
   * `new Point(a, b, c)`: an undefined argument is 0; a first argument whose
   * `z` is neither undefined nor null is a vector whose coordinates are taken.
   */
  function NewPoint(a: Value, b: Value, c: Value): (r: Result<Value>)
    ensures r.Ok? ==> r.value.Obj? && r.value.cls == "Point" && |r.value.members| == 3
    ensures (a.Int? || a.Flt?) && (b.Int? || b.Flt?) && (c.Int? || c.Flt?) ==>
      r == Ok(Obj("Point", [("x", a), ("y", b), ("z", c)]))
  {
    var a' := if a.Undef? then Int(0) else a;
    var b' := if b.Undef? then Int(0) else b;
    var c' := if c.Undef? then Int(0) else c;
    var az :- Member(a', "z");
    if !az.Undef? && !az.Null? then
      var x :- Member(a', "x");
      var y :- Member(a', "y");
      Ok(Obj("Point", [("x", x), ("y", y), ("z", az)]))
    else Ok(Obj("Point", [("x", a'), ("y", b'), ("z", c')]))
  }

  /** A coordinate of a `Point`. */
  function Coord(p: Value, axis: string): Value {
    if p.Obj? then Get(p.members, axis) else Undef
  }

  /** `DifFinalizers.Point3F`. */
  function PointFinalizer(s: Value): Result<Value> {
    var x :- Member(s, "x");
    var y :- Member(s, "y");
    var z :- Member(s, "z");
    NewPoint(x, y, z)
  }

  /** A parsed `Point3F` with numeric coordinates becomes a `Point` with the same coordinates. */
  lemma PointKeepsCoordinates(x: Value, y: Value, z: Value)
    requires (x.Int? || x.Flt?) && (y.Int? || y.Flt?) && (z.Int? || z.Flt?)
    ensures var p := PointFinalizer(Rec([("x", x), ("y", y), ("z", z)]));
      p.Ok? && Coord(p.value, "x") == x && Coord(p.value, "y") == y && Coord(p.value, "z") == z
  {
    var ms := [("x", x), ("y", y), ("z", z)];
    assert Get(ms, "y") == Get(ms[1..], "y") == y;
    assert Get(ms, "z") == Get(ms[1..], "z") == Get(ms[2..], "z") == z;
  }

  /** `String.fromCharCode(...codes)`: one character per code, taken modulo 2^16. */
  function FromCharCodes(codes: seq<Value>): (r: Result<string>)
    ensures r.Ok? ==> |r.value| == |codes|
  {
    if codes == [] then Ok([])
    else
      var front :- FromCharCodes(codes[..|codes| - 1]);
      var n :- ToNumber(codes[|codes| - 1]);
      var unit := if n.Whole? then n.n % 0x1_0000 else 0;
      if 0xD800 <= unit < 0xE000 then Err(Unmodelled("a lone surrogate"))
      else Ok(front + [unit as char])
  }

  /** The codes of a string, as the parsed `gth` array of a `String` record holds them. */
  function CodesOf(t: string): (r: seq<Value>)
    ensures |r| == |t|
  {
    if t == [] then [] else CodesOf(t[..|t| - 1]) + [Int(t[|t| - 1] as int)]
  }

  /** `String.fromCharCode` gives back every text of the Basic Multilingual Plane from its codes. */
  lemma {:induction false} FromCharCodesOfCodes(t: string)
    requires forall k :: 0 <= k < |t| ==> t[k] as int < 0x1_0000
    ensures FromCharCodes(CodesOf(t)) == Ok(t)
  {
    if t != [] {
      var front, last := t[..|t| - 1], t[|t| - 1];
      FromCharCodesOfCodes(front);
      FromCharCodesSnoc(CodesOf(front), front, last);
      assert CodesOf(t) == CodesOf(front) + [Int(last as int)];
      assert t == front + [last];
    }
  }

  /** One more code below 2^16 adds its character. */
  lemma FromCharCodesSnoc(codes: seq<Value>, front: string, c: char)
    requires FromCharCodes(codes) == Ok(front)
    requires c as int < 0x1_0000
    ensures FromCharCodes(codes + [Int(c as int)]) == Ok(front + [c])
  {
    var all := codes + [Int(c as int)];
    assert all[..|all| - 1] == codes;
    assert (c as int) % 0x1_0000 == c as int;
  }

  /** `DifFinalizers.String`: `String.fromCharCode(...s.gth)`. */
  function StringFinalizer(s: Value): Result<Value> {
    ArgOf(s, Chars("gth"))
  }

  // `DifFinalizers.Dictionary`: `r[o.name] = o.value` for each entry `o` of `s.e`.

  /** The entry names `k`. */
  predicate Named(o: Value, k: string) {
    Member(o, "name") == Ok(Str(k))
  }

  /** The object the loop has built after the entries `es`. */
  function DictionaryOf(es: seq<Value>): Result<seq<(string, Value)>> {
    if es == [] then Ok([])
    else
      var front :- DictionaryOf(es[..|es| - 1]);
      var o := es[|es| - 1];
      var name :- Member(o, "name");
      var value :- Member(o, "value");
      if name.Str? then Ok(Put(front, name.s, value))
      else Err(Unmodelled("a key that is not a string"))
  }

  function DictionaryFinalizer(s: Value): Result<Value> {
    var e :- Member(s, "e");
    var es :- Iterable(e);
    var fields :- DictionaryOf(es);
    Ok(Rec(fields))
  }

  /** The last of the entries that names `k`, if any. */
  function LastNamed(es: seq<Value>, k: string): (r: Option<nat>)
    ensures r.Some? ==>
      r.value < |es| && Named(es[r.value], k) && forall j :: r.value < j < |es| ==> !Named(es[j], k)
    ensures r.None? ==> forall j :: 0 <= j < |es| ==> !Named(es[j], k)
  {
    if es == [] then None
    else if Named(es[|es| - 1], k) then Some(|es| - 1)
    else LastNamed(es[..|es| - 1], k)
  }

  /**
   * The dictionary holds exactly the names present, each with the value of
   * its last occurrence.
   */
  lemma {:induction false} DictionaryLastWins(es: seq<Value>, k: string)
    requires DictionaryOf(es).Ok?
    ensures var d := DictionaryOf(es).value;
      (k in Keys(d) <==> LastNamed(es, k).Some?)
      && (LastNamed(es, k).Some? ==> Get(d, k) == Member(es[LastNamed(es, k).value], "value").value)
      && (LastNamed(es, k).None? ==> Get(d, k) == Undef)
  {
    if es != [] {
      var front := es[..|es| - 1];
      var o := es[|es| - 1];
      var d := DictionaryOf(front).value;
      DictionaryLastWins(front, k);
      var name := Member(o, "name").value;
      KeysAfterPut(d, name.s, Member(o, "value").value);
      if name.s != k {
        GetOtherAfterPut(d, name.s, Member(o, "value").value, k);
        assert LastNamed(es, k) == LastNamed(front, k);
      }
    }
    if LastNamed(es, k).None? {
      GetOfAbsentKey(DictionaryOf(es).value, k);
    }
  }

  /** A dictionary without the name `k` reads undefined there. */
  lemma {:induction false} GetOfAbsentKey(fields: seq<(string, Value)>, k: string)
    requires k !in Keys(fields)
    ensures Get(fields, k) == Undef
  {
    if fields != [] {
      GetOfAbsentKey(fields[1..], k);
    }
  }

  // ---------------------------------------------------------------------
  // `MaterialList` and the finalizers that only store their arguments

  /** `DifFinalizers.MaterialList`: `new MaterialList(s.version, s.Materials)`. */
  function MaterialListFinalizer(s: Value): Result<Value> {
    Construct("MaterialList", [("version", Copy("version")), ("materials", Copy("Materials"))], s)
  }

  /** The `numMaterials` getter: `this.materials.length`. */
  function NumMaterials(list: Value): Result<Value> {
    var materials :- Member(list, "materials");
    Member(materials, "length")
  }

  /** A material list counts exactly the materials it was given. */
  lemma NumMaterialsCountsMaterials(s: Value, names: seq<Value>)
    requires s.Rec? && Get(s.fields, "Materials") == Arr(names)
    ensures MaterialListFinalizer(s).Ok?
    ensures NumMaterials(MaterialListFinalizer(s).value) == Ok(Int(|names|))
  {
    var list := MaterialListFinalizer(s).value;
    assert list.members[1].0 == "materials";
    assert Get(list.members, "materials") == Get(list.members[1..], "materials");
  }

  function BoxFinalizer(s: Value): Result<Value> {
    Construct("Box", Copies(["low", "high"]), s)
  }

  function SphereFinalizer(s: Value): Result<Value> {
    Construct("Sphere", Copies(["center", "radius"]), s)
  }

  function PlaneFinalizer(s: Value): Result<Value> {
    Construct("Plane", Copies(["normal", "distance"]), s)
  }

  /** `ColorF`, and `ColorI`, which is the same function. */
  function ColorFinalizer(s: Value): Result<Value> {
    Construct("Color", Copies(["red", "green", "blue", "alpha"]), s)
  }

  function LightMapTexGenFinalizer(s: Value): Result<Value> {
    Construct("LightMapTexGen", [("finalWord", Copy("finalWord")), ("x", Copy("texGenXDistance")), ("y", Copy("texGenYDistance"))], s)
  }

  function ItrGameEntityFinalizer(s: Value): Result<Value> {
    Construct("ItrGameEntity", Copies(["datablock", "gameClass", "position", "properties"]), s)
  }

  function ConvexHullFinalizer(s: Value): Result<Value> {
    Construct("ConvexHullGenerator", Copies(ConvexHullMembers), s)
  }

  /** `NullSurface`, and `VehicleNullSurface`, which is the same function. */
  function NullSurfaceFinalizer(s: Value): Result<Value> {
    Construct("NullSurface", Copies(["windingStart", "planeIndex", "surfaceFlags", "windingCount"]), s)
  }

  function VehicleCollisionFinalizer(s: Value): Result<Value> {
    Construct("VehicleCollision", VehicleCollisionMembers, s)
  }

  /** The type names that have a finalizer. */
  const FinalizerNames: set<string> := {
    "BoxF", "Point3F", "SphereF", "PlaneF", "ColorF", "ColorI", "String", "MaterialList",
    "LightMapTexGen", "ItrGameEntity", "Dictionary", "ConvexHull", "NullSurface",
    "VehicleNullSurface", "VehicleCollision", "Interior"}

  /** The finalizer `readStruct` looks up by type name, applied to a parsed record. */
  function Finalize(name: string, s: Value): Result<Value>
    requires name in FinalizerNames
  {
    if name == "BoxF" then BoxFinalizer(s)
    else if name == "Point3F" then PointFinalizer(s)
    else if name == "SphereF" then SphereFinalizer(s)
    else if name == "PlaneF" then PlaneFinalizer(s)
    else if name == "ColorF" || name == "ColorI" then ColorFinalizer(s)
    else if name == "String" then StringFinalizer(s)
    else if name == "MaterialList" then MaterialListFinalizer(s)
    else if name == "LightMapTexGen" then LightMapTexGenFinalizer(s)
    else if name == "ItrGameEntity" then ItrGameEntityFinalizer(s)
    else if name == "Dictionary" then DictionaryFinalizer(s)
    else if name == "ConvexHull" then ConvexHullFinalizer(s)
    else if name == "NullSurface" || name == "VehicleNullSurface" then NullSurfaceFinalizer(s)
    else if name == "VehicleCollision" then VehicleCollisionFinalizer(s)
    else InteriorFinalizer(s)
  }

  const ConvexHullMembers := ["hullStart", "hullCount", "minX", "maxX", "minY", "maxY", "minZ", "maxZ",
    "surfaceStart", "surfaceCount", "planeStart", "polyListPlaneStart", "polyListPointStart", "polyListStringStart"]

  const VehicleCollisionMembers := [
    ("version", Copy("vehicleCollisionFileVersion")),
    ("vehicleConvexHulls", Copy("VehicleConvexHulls")),
    ("vehicleConvexHullEmitString", Chars("VehicleConvexHullEmitStrings")),
    ("vehicleHullIndices", Copy("VehicleHullIndices")),
    ("vehicleHullPlaneIndices", Copy("VehicleHullPlaneIndices")),
    ("vehicleHullEmitStringIndices", Copy("VehicleHullEmitStringIndices")),
    ("vehicleHullSurfaceIndices", Copy("VehicleHullSurfaceIndices")),
    ("vehiclePolyListPlanes", Copy("VehiclePolyListPlanes")),
    ("vehiclePolyListPoints", Copy("VehiclePolyListPoints")),
    ("vehiclePolyListStrings", Chars("VehiclePolyListStrings")),
    ("vehicleNullSurfaces", Copy("VehicleNullSurfaces"))]

  /** The members `names`, in order, each with the record's value (undefined where it has none). */
  function CopiedMembers(names: seq<string>, fields: seq<(string, Value)>): (r: seq<(string, Value)>)
    ensures |r| == |names| && forall k :: 0 <= k < |names| ==> r[k] == (names[k], Get(fields, names[k]))
  {
    seq(|names|, k requires 0 <= k < |names| => (names[k], Get(fields, names[k])))
  }

  /** On a parsed record, a constructor that only copies members cannot fail and copies each of them. */
  lemma CopiesOfRecord(cls: string, names: seq<string>, s: Value)
    requires s.Rec?
    ensures Construct(cls, Copies(names), s) == Ok(Obj(cls, CopiedMembers(names, s.fields)))
  {
    var r := Construct(cls, Copies(names), s);
    assert r.Ok?;
    assert r.value.members == CopiedMembers(names, s.fields);
  }

  /**
   * The finalizers that only store their arguments never throw on a parsed
   * record, and build their class from its members in the constructor's order,
   * undefined where the record has none.
   */
  lemma CopyingFinalizersStoreMembers(s: Value)
    requires s.Rec?
    ensures BoxFinalizer(s) == Ok(Obj("Box", CopiedMembers(["low", "high"], s.fields)))
    ensures SphereFinalizer(s) == Ok(Obj("Sphere", CopiedMembers(["center", "radius"], s.fields)))
    ensures PlaneFinalizer(s) == Ok(Obj("Plane", CopiedMembers(["normal", "distance"], s.fields)))
    ensures ColorFinalizer(s) == Ok(Obj("Color", CopiedMembers(["red", "green", "blue", "alpha"], s.fields)))
    ensures ItrGameEntityFinalizer(s) ==
      Ok(Obj("ItrGameEntity", CopiedMembers(["datablock", "gameClass", "position", "properties"], s.fields)))
    ensures ConvexHullFinalizer(s) == Ok(Obj("ConvexHullGenerator", CopiedMembers(ConvexHullMembers, s.fields)))
    ensures NullSurfaceFinalizer(s) ==
      Ok(Obj("NullSurface", CopiedMembers(["windingStart", "planeIndex", "surfaceFlags", "windingCount"], s.fields)))
  {
    CopiesOfRecord("Box", ["low", "high"], s);
    CopiesOfRecord("Sphere", ["center", "radius"], s);
    CopiesOfRecord("Plane", ["normal", "distance"], s);
    CopiesOfRecord("Color", ["red", "green", "blue", "alpha"], s);
    CopiesOfRecord("ItrGameEntity", ["datablock", "gameClass", "position", "properties"], s);
    CopiesOfRecord("ConvexHullGenerator", ConvexHullMembers, s);
    CopiesOfRecord("NullSurface", ["windingStart", "planeIndex", "surfaceFlags", "windingCount"], s);
  }

  /** `new LightMapTexGen(s.finalWord, s.texGenXDistance, s.texGenYDistance)` stores the distances as `x` and `y`. */
  lemma LightMapTexGenStoresMembers(s: Value)
    requires s.Rec?
    ensures LightMapTexGenFinalizer(s) == Ok(Obj("LightMapTexGen",
      [("finalWord", Get(s.fields, "finalWord")), ("x", Get(s.fields, "texGenXDistance")), ("y", Get(s.fields, "texGenYDistance"))]))
  {
    var ms := [("finalWord", Copy("finalWord")), ("x", Copy("texGenXDistance")), ("y", Copy("texGenYDistance"))];
    assert forall k :: 0 <= k < 3 ==> ArgOf(s, ms[k].1) == Ok(Get(s.fields, ms[k].1.name));
    var t := Construct("LightMapTexGen", ms, s);
    assert t.Ok? && |t.value.members| == 3;
    assert t.value.members[0] == ("finalWord", Get(s.fields, "finalWord"));
    assert t.value.members[1] == ("x", Get(s.fields, "texGenXDistance"));
    assert t.value.members[2] == ("y", Get(s.fields, "texGenYDistance"));
    assert t.value.members == [t.value.members[0], t.value.members[1], t.value.members[2]];
    assert LightMapTexGenFinalizer(s) == t;
  }

  /** A `String` record whose `gth` holds the codes of a text gives the text back. */
  lemma StringFinalizerOfCodes(s: Value, t: string)
    requires s.Rec? && Get(s.fields, "gth") == Arr(CodesOf(t))
    requires forall k :: 0 <= k < |t| ==> t[k] as int < 0x1_0000
    ensures StringFinalizer(s) == Ok(Str(t))
  {
    FromCharCodesOfCodes(t);
    CharsOfCodes(s, "gth", CodesOf(t), t);
  }

  /** A member holding an array of codes that `String.fromCharCode` accepts gives the text they spell. */
  lemma CharsOfCodes(s: Value, name: string, codes: seq<Value>, t: string)
    requires s.Rec? && Get(s.fields, name) == Arr(codes) && FromCharCodes(codes) == Ok(t)
    ensures ArgOf(s, Chars(name)) == Ok(Str(t))
  {
    assert Member(s, name) == Ok(Arr(codes));
  }

  /**
   * The `Dictionary` finalizer on a record whose `e` is an array of entries:
   * the object built holds exactly the names present, each with the value of
   * its last entry, and reads undefined for any other name.
   */
  lemma DictionaryFinalizerLastWins(s: Value, es: seq<Value>, k: string)
    requires s.Rec? && Get(s.fields, "e") == Arr(es) && DictionaryOf(es).Ok?
    ensures DictionaryFinalizer(s) == Ok(Rec(DictionaryOf(es).value))
    ensures var d := DictionaryFinalizer(s).value.fields;
      (k in Keys(d) <==> LastNamed(es, k).Some?)
      && (LastNamed(es, k).Some? ==> Get(d, k) == Member(es[LastNamed(es, k).value], "value").value)
      && (LastNamed(es, k).None? ==> Get(d, k) == Undef)
  {
    DictionaryLastWins(es, k);
  }

  // ---------------------------------------------------------------------
  // `unpackArr`

  /** `items[k][key]` for k = i, i+1, … in turn; the first that throws decides. */
  function UnpackFrom(items: seq<Value>, key: string, i: nat): (r: Result<seq<Value>>)
    requires i <= |items|
    ensures r.Ok? <==> forall k :: i <= k < |items| ==> Member(items[k], key).Ok?
    ensures r.Ok? ==> |r.value| == |items| - i
    ensures r.Ok? ==> forall k :: i <= k < |items| ==> Member(items[k], key) == Ok(r.value[k - i])
    decreases |items| - i
  {
    if i == |items| then Ok([])
    else
      var x :- Member(items[i], key);
      var rest :- UnpackFrom(items, key, i + 1);
      Ok([x] + rest)
  }

  /** `unpackArr(arr, key)`: the same-length array of `arr[i][key]`. */
  function Unpack(arr: Value, key: string): Result<seq<Value>> {
    match arr
    case Arr(items) => UnpackFrom(items, key, 0)
    case Undef => Err(TypeError("cannot read 'length' of undefined"))
    case Null => Err(TypeError("cannot read 'length' of null"))
    case _ => Err(Unmodelled("unpacking a value that is not an array"))
  }

  /** The list `done` in front of the rest of a loop's results, once those are known. */
  function Prefixed<T>(done: seq<T>, rest: Result<seq<T>>): Result<seq<T>> {
    match rest
    case Ok(xs) => Ok(done + xs)
    case Err(e) => Err(e)
  }

  lemma PrefixedStep<T>(done: seq<T>, x: T, rest: Result<seq<T>>)
    ensures Prefixed(done, Prefixed([x], rest)) == Prefixed(done + [x], rest)
  {
    if rest.Ok? {
      assert done + ([x] + rest.value) == (done + [x]) + rest.value;
    }
  }

  lemma PrefixedNothing<T>(rest: Result<seq<T>>)
    ensures Prefixed([], rest) == rest
  {
    if rest.Ok? {
      assert [] + rest.value == rest.value;
    }
  }

  lemma PrefixedAll<T>(done: seq<T>)
    ensures Prefixed(done, Ok([])) == Ok(done)
  {
    assert done + [] == done;
  }

  method UnpackArr(arr: Value, key: string) returns (r: Result<seq<Value>>)
    ensures r == Unpack(arr, key)
  {
    if arr.Undef? {
      return Err(TypeError("cannot read 'length' of undefined"));
    } else if arr.Null? {
      return Err(TypeError("cannot read 'length' of null"));
    } else if !arr.Arr? {
      return Err(Unmodelled("unpacking a value that is not an array"));
    }
    var items := arr.items;
    var ans: seq<Value> := [];
    var i := 0;
    PrefixedNothing(UnpackFrom(items, key, 0));
    while i < |items|
      invariant 0 <= i <= |items|
      invariant Unpack(arr, key) == Prefixed(ans, UnpackFrom(items, key, i))
    {
      var x := Member(items[i], key);
      if x.Err? {
        return Err(x.error);
      }
      PrefixedStep(ans, x.value, UnpackFrom(items, key, i + 1));
      ans := ans + [x.value];
      i := i + 1;
    }
    PrefixedAll(ans);
    r := Ok(ans);
  }

  // ---------------------------------------------------------------------
  // Planes and `Interior.getPlane`

  /** The arguments of `new Plane(normal, distance)`. */
  datatype Plane = Plane(normal: Value, distance: Value)

  /** A plane as a parsed value, as other records hold it. */
  function PlaneValue(p: Plane): Value {
    Obj("Plane", [("normal", p.normal), ("distance", p.distance)])
  }

  /** An entry of an array that may be past its end: None is undefined. */
  function Slot<T>(items: seq<T>, k: int): Option<T> {
    if 0 <= k < |items| then Some(items[k]) else None
  }

  function SlotValue(p: Option<Plane>): Value {
    match p
    case Some(q) => PlaneValue(q)
    case None => Undef
  }

  /** `p.scale(-1)` on a `Point`: each coordinate negated. */
  function NegatePoint(p: Value): (r: Result<Value>)
    ensures r.Ok? ==> r.value.Obj? && r.value.cls == "Point" && |r.value.members| == 3
  {
    match p
    case Undef => Err(TypeError("cannot read 'scale' of undefined"))
    case Null => Err(TypeError("cannot read 'scale' of null"))
    case Obj(cls, members) =>
      if cls != "Point" then Err(TypeError("p.scale is not a function"))
      else
        var nx :- Neg(Get(members, "x"));
        var ny :- Neg(Get(members, "y"));
        var nz :- Neg(Get(members, "z"));
        Ok(Obj("Point", [("x", nx), ("y", ny), ("z", nz)]))
    case _ => Err(TypeError("p.scale is not a function"))
  }

  /** `(i & 0x8000) != 0` on a whole number, after the conversion to 32 bits. */
  predicate InvertBit(i: int) {
    i % 0x1_0000 >= 0x8000
  }

  /** `i & 0x7fff`. */
  function PlaneBits(i: int): (k: nat)
    ensures k < 0x8000
  {
    i % 0x8000
  }

  /**
   * A plane index as `getPlane` sees it: a whole number, or None for
   * undefined, null or a boolean, which `& 0x8000` turns into 0 and which
   * as a key reads undefined from the plane table.
   */
  function IndexNumber(i: Value): (r: Result<Option<int>>)
    ensures i.Int? ==> r == Ok(Some(i.i))
    ensures r.Ok? && r.value.Some? ==> i.Int?
    ensures (i.Undef? || i.Null? || i.Bool?) <==> r == Ok(None)
  {
    match i
    case Int(n) => Ok(Some(n))
    case Undef | Null | Bool(_) => Ok(None)
    case _ => Err(Unmodelled("a plane index that is not a whole number"))
  }

  /**
   * `Interior.getPlane(i)` as written: with bit 0x8000 clear, the plane at
   * `i` (undefined past the end); with it set, a new plane whose normal is
   * the normal of the plane at `i & 0x7fff` negated and whose distance is
   * that plane's distance, unchanged.
   */
  function GetPlaneAsWritten(planes: seq<Plane>, i: Value): (r: Result<Option<Plane>>)
    ensures (i.Undef? || i.Null? || i.Bool?) ==> r == Ok(None)
    ensures i.Int? && !InvertBit(i.i) ==> r == Ok(Slot(planes, i.i))
    ensures i.Int? && InvertBit(i.i) ==>
      (r.Ok? <==> PlaneBits(i.i) < |planes| && NegatePoint(planes[PlaneBits(i.i)].normal).Ok?)
    ensures r.Ok? && i.Int? && InvertBit(i.i) ==>
      r.value.Some? && PlaneBits(i.i) < |planes|
      && NegatePoint(planes[PlaneBits(i.i)].normal) == Ok(r.value.value.normal)
      && r.value.value.distance == planes[PlaneBits(i.i)].distance
  {
    var n :- IndexNumber(i);
    match n
    case None => Ok(None)
    case Some(n) =>
      if !InvertBit(n) then Ok(Slot(planes, n))
      else
        match Slot(planes, PlaneBits(n))
        case None => Err(TypeError("cannot read 'normal' of undefined"))
        case Some(p) =>
          var normal :- NegatePoint(p.normal);
          Ok(Some(Plane(normal, p.distance)))
  }

  /**
   * `Interior.getPlane(i)` as evidently intended, and as `PlaneF.inverted`
   * of difParser.ts has it: with bit 0x8000 set, both the normal and the
   * distance are negated, so the result is the same plane facing the other way.
   */
  function GetPlane(planes: seq<Plane>, i: Value): (r: Result<Option<Plane>>)
    ensures (i.Undef? || i.Null? || i.Bool?) ==> r == Ok(None)
    ensures i.Int? && !InvertBit(i.i) ==> r == Ok(Slot(planes, i.i))
    ensures i.Int? && InvertBit(i.i) ==>
      (r.Ok? <==> PlaneBits(i.i) < |planes| && NegatePoint(planes[PlaneBits(i.i)].normal).Ok?
                  && Neg(planes[PlaneBits(i.i)].distance).Ok?)
    ensures r.Ok? && i.Int? && InvertBit(i.i) ==>
      r.value.Some? && PlaneBits(i.i) < |planes|
      && NegatePoint(planes[PlaneBits(i.i)].normal) == Ok(r.value.value.normal)
      && Neg(planes[PlaneBits(i.i)].distance) == Ok(r.value.value.distance)
  {
    var n :- IndexNumber(i);
    match n
    case None => Ok(None)
    case Some(n) =>
      if !InvertBit(n) then Ok(Slot(planes, n))
      else
        match Slot(planes, PlaneBits(n))
        case None => Err(TypeError("cannot read 'normal' of undefined"))
        case Some(p) =>
          var normal :- NegatePoint(p.normal);
          var distance :- Neg(p.distance);
          Ok(Some(Plane(normal, distance)))
  }

  /**
   * The written and the intended `getPlane` differ only in the distance of
   * an inverted plane: the same normal, and the distance the written one
   * keeps is the one the intended one negates.
   */
  lemma GetPlaneAsWrittenAgainstIntended(planes: seq<Plane>, i: Value)
    ensures GetPlane(planes, i).Ok? ==> GetPlaneAsWritten(planes, i).Ok?
    ensures GetPlane(planes, i).Ok? && GetPlane(planes, i).value.None? ==>
      GetPlaneAsWritten(planes, i) == GetPlane(planes, i)
    ensures GetPlane(planes, i).Ok? && GetPlane(planes, i).value.Some? && i.Int? && InvertBit(i.i) ==>
      var w := GetPlaneAsWritten(planes, i).value.value;
      var c := GetPlane(planes, i).value.value;
      w.normal == c.normal && Neg(w.distance) == Ok(c.distance)
  {
  }

  /** A point with whole coordinates lies on a plane with a whole normal and distance. */
  predicate OnPlane(p: Plane, x: int, y: int, z: int) {
    p.normal.Obj? && p.distance.Int?
    && Get(p.normal.members, "x").Int? && Get(p.normal.members, "y").Int? && Get(p.normal.members, "z").Int?
    && Get(p.normal.members, "x").i * x + Get(p.normal.members, "y").i * y + Get(p.normal.members, "z").i * z
       == p.distance.i
  }

  function WholePoint(a: int, b: int, c: int): Value {
    Obj("Point", [("x", Int(a)), ("y", Int(b)), ("z", Int(c))])
  }

  function WholePlane(a: int, b: int, c: int, d: int): Plane {
    Plane(WholePoint(a, b, c), Int(d))
  }

  lemma WholePointMembers(a: int, b: int, c: int)
    ensures var ms := WholePoint(a, b, c).members;
      Get(ms, "x") == Int(a) && Get(ms, "y") == Int(b) && Get(ms, "z") == Int(c)
  {
    var ms := WholePoint(a, b, c).members;
    assert Get(ms, "y") == Get(ms[1..], "y");
    assert Get(ms, "z") == Get(ms[1..], "z") == Get(ms[2..], "z");
  }

  lemma OnWholePlane(a: int, b: int, c: int, d: int, x: int, y: int, z: int)
    ensures OnPlane(WholePlane(a, b, c, d), x, y, z) <==> a * x + b * y + c * z == d
  {
    WholePointMembers(a, b, c);
  }

  lemma NegateWholePoint(a: int, b: int, c: int)
    ensures NegatePoint(WholePoint(a, b, c)) == Ok(WholePoint(-a, -b, -c))
  {
    WholePointMembers(a, b, c);
  }

  /** The corrected inverse of a plane holds exactly the points the plane holds. */
  lemma InvertedPlaneHasSamePoints(a: int, b: int, c: int, d: int, x: int, y: int, z: int)
    ensures var inv := GetPlane([WholePlane(a, b, c, d)], Int(0x8000));
      inv.Ok? && inv.value.Some? && (OnPlane(inv.value.value, x, y, z) <==> OnPlane(WholePlane(a, b, c, d), x, y, z))
  {
    NegateWholePoint(a, b, c);
    assert GetPlane([WholePlane(a, b, c, d)], Int(0x8000)) == Ok(Some(WholePlane(-a, -b, -c, -d)));
    OnWholePlane(a, b, c, d, x, y, z);
    OnWholePlane(-a, -b, -c, -d, x, y, z);
    assert (-a) * x + (-b) * y + (-c) * z == -(a * x + b * y + c * z);
  }

  /**
   * As written, inverting the plane z = 1 gives the plane z = -1: the point
   * (0, 0, 1) lies on the plane and not on its inverse.
   */
  lemma InvertedPlaneAsWrittenMovesIt()
    ensures var inv := GetPlaneAsWritten([WholePlane(0, 0, 1, 1)], Int(0x8000));
      inv.Ok? && inv.value.Some?
      && OnPlane(WholePlane(0, 0, 1, 1), 0, 0, 1) && !OnPlane(inv.value.value, 0, 0, 1)
      && OnPlane(inv.value.value, 0, 0, -1)
  {
    NegateWholePoint(0, 0, 1);
    assert GetPlaneAsWritten([WholePlane(0, 0, 1, 1)], Int(0x8000)) == Ok(Some(WholePlane(0, 0, -1, 1)));
    OnWholePlane(0, 0, 1, 1, 0, 0, 1);
    OnWholePlane(0, 0, -1, 1, 0, 0, 1);
    OnWholePlane(0, 0, -1, 1, 0, 0, -1);
  }

  /** The two agree wherever bit 0x8000 is clear. */
  lemma GetPlaneAgreesWithoutInvertBit(planes: seq<Plane>, i: int)
    requires !InvertBit(i)
    ensures GetPlane(planes, Int(i)) == GetPlaneAsWritten(planes, Int(i))
  {
  }

  // ---------------------------------------------------------------------
  // The plane table of an `Interior`

  /** `new Plane(this.normals[s.Planes[i].normalIndex], -s.Planes[i].planeDistance)`. */
  function PlaneOf(records: Value, normals: seq<Value>, i: nat): Result<Plane> {
    var rec :- Element(records, Int(i));
    var index :- Member(rec, "normalIndex");
    var normal :- ElementAt(normals, index, Undef);
    var distance :- Member(rec, "planeDistance");
    var negated :- Neg(distance);
    Ok(Plane(normal, negated))
  }

  /** The planes `i, …, n - 1` of the table, in order. */
  function PlanesFrom(records: Value, normals: seq<Value>, i: nat, n: nat): (r: Result<seq<Plane>>)
    requires i <= n
    ensures r.Ok? ==> |r.value| == n - i
  {
    Collect((k: nat) => PlaneOf(records, normals, k), i, n)
  }

  /**
   * The table is built exactly when every plane record can be, and then
   * plane `k` is the one built from record `k`.
   */
  lemma PlanesFromPointwise(records: Value, normals: seq<Value>, i: nat, n: nat)
    requires i <= n
    ensures PlanesFrom(records, normals, i, n).Ok? <==> forall k :: i <= k < n ==> PlaneOf(records, normals, k).Ok?
    ensures PlanesFrom(records, normals, i, n).Ok? ==>
      forall k :: i <= k < n ==> PlaneOf(records, normals, k) == Ok(PlanesFrom(records, normals, i, n).value[k - i])
  {
    var f := (k: nat) => PlaneOf(records, normals, k);
    assert PlanesFrom(records, normals, i, n) == Collect(f, i, n);
    CollectPointwise(f, i, n);
    forall k | i <= k < n
      ensures f(k) == PlaneOf(records, normals, k)
    {
    }
  }

  /** How many times `for (let i = 0; i < v; i++)` runs for a stored value `v`. */
  function LoopCount(v: Value): Result<nat> {
    var n :- NumOf(v);
    Ok(Iterations(n))
  }

  /**
   * The loop filling `this.planes`: for every i below `numPlanes`, plane i
   * has the normal `normals[Planes[i].normalIndex]` and the distance
   * `-Planes[i].planeDistance`.
   */
  method PlaneTable(records: Value, normals: seq<Value>, n: nat) returns (r: Result<seq<Plane>>)
    ensures r == PlanesFrom(records, normals, 0, n)
  {
    var planes: seq<Plane> := [];
    var i := 0;
    PrefixedNothing(PlanesFrom(records, normals, 0, n));
    while i < n
      invariant 0 <= i <= n
      invariant PlanesFrom(records, normals, 0, n) == Prefixed(planes, PlanesFrom(records, normals, i, n))
    {
      var p := PlaneAt(records, normals, i);
      PlanesFromStep(records, normals, i, n);
      if p.Err? {
        return Err(p.error);
      }
      PrefixedStep(planes, p.value, PlanesFrom(records, normals, i + 1, n));
      planes := planes + [p.value];
      i := i + 1;
    }
    PrefixedAll(planes);
    r := Ok(planes);
  }

  /** One pass of the loop body: the record, its normal and its negated distance. */
  method PlaneAt(records: Value, normals: seq<Value>, i: nat) returns (r: Result<Plane>)
    ensures r == PlaneOf(records, normals, i)
  {
    var rec := Element(records, Int(i));
    if rec.Err? {
      return Err(rec.error);
    }
    var index := Member(rec.value, "normalIndex");
    if index.Err? {
      return Err(index.error);
    }
    var normal := ElementAt(normals, index.value, Undef);
    if normal.Err? {
      return Err(normal.error);
    }
    var distance := Member(rec.value, "planeDistance");
    if distance.Err? {
      return Err(distance.error);
    }
    var negated := Neg(distance.value);
    if negated.Err? {
      return Err(negated.error);
    }
    r := Ok(Plane(normal.value, negated.value));
  }

  lemma PlanesFromStep(records: Value, normals: seq<Value>, i: nat, n: nat)
    requires i < n
    ensures PlaneOf(records, normals, i).Err? ==> PlanesFrom(records, normals, i, n) == Err(PlaneOf(records, normals, i).error)
    ensures PlaneOf(records, normals, i).Ok? ==>
      PlanesFrom(records, normals, i, n) == Prefixed([PlaneOf(records, normals, i).value], PlanesFrom(records, normals, i + 1, n))
  {
  }

  // ---------------------------------------------------------------------
  // The poly-list string of a convex hull
  //
  // The format: numPlanes, then that many relative plane indices; the point
  // count as a high and a low byte, then that many point indices; numSurfaces,
  // then per surface its point count, a mask, a relative plane index and two
  // bytes per point.

  /** One surface entry of a poly-list string. */
  datatype PolySurface = PolySurface(numPoints: int, mask: int, plane: int)

  /**
   * A poly-list string as the format describes it: the relative plane
   * indices, the point count, the surfaces, and the position the walk ends at.
   */
  datatype PolyList = PolyList(planes: seq<int>, numPoints: int, surfaces: seq<PolySurface>, end: int)

  /** `polyListStrings[k]`; past the end the source reads undefined and goes on, the model stops. */
  function StringByte(strings: seq<Value>, k: int): Result<int> {
    if !(0 <= k < |strings|) then Err(Undefined("a poly-list byte past the end"))
    else if strings[k].Int? then Ok(strings[k].i)
    else Err(Unmodelled("a poly-list byte that is not a whole number"))
  }

  /** How many times `for (let k = 0; k < n; k++)` runs. */
  function Repeats(n: int): nat {
    if n > 0 then n else 0
  }

  /** The bytes at `lo`, …, `hi - 1`. */
  function BytesFrom(strings: seq<Value>, lo: int, hi: int): (r: Result<seq<int>>)
    requires lo <= hi
    ensures r.Ok? <==> forall j :: lo <= j < hi ==> StringByte(strings, j).Ok?
    ensures r.Ok? ==> |r.value| == hi - lo
    ensures r.Ok? ==> forall j :: lo <= j < hi ==> StringByte(strings, j) == Ok(r.value[j - lo])
    decreases hi - lo
  {
    if lo == hi then Ok([])
    else
      var b :- StringByte(strings, lo);
      var rest :- BytesFrom(strings, lo + 1, hi);
      Ok([b] + rest)
  }

  /**
   * The surfaces `k, …, n - 1`, the last byte read before them being at
   * `at`, and the position of the last byte they take.
   */
  function SurfacesAfter(strings: seq<Value>, at: int, k: nat, n: nat): Result<(seq<PolySurface>, int)>
    requires k <= n
    decreases n - k
  {
    if k == n then Ok(([], at))
    else
      var numPoints :- StringByte(strings, at + 1);
      var mask :- StringByte(strings, at + 2);
      var plane :- StringByte(strings, at + 3);
      var rest :- SurfacesAfter(strings, at + 3 + 2 * numPoints, k + 1, n);
      Ok(([PolySurface(numPoints, mask, plane)] + rest.0, rest.1))
  }

  /**
   * What follows the plane indices, the last of which is at `last`: the
   * two-byte point count, the points, the surface count and the surfaces.
   */
  function SurfaceSection(strings: seq<Value>, last: int): Result<(int, seq<PolySurface>, int)> {
    var high :- StringByte(strings, last + 1);
    var low :- StringByte(strings, last + 2);
    var numPoints := high * 256 + low;
    var surfacesAt := last + 3 + numPoints;
    var numSurfaces :- StringByte(strings, surfacesAt);
    var surfaces :- SurfacesAfter(strings, surfacesAt, 0, Repeats(numSurfaces));
    Ok((numPoints, surfaces.0, surfaces.1))
  }

  /** Decodes the poly-list string that starts at `start`. */
  function DecodePolyList(strings: seq<Value>, start: int): Result<PolyList> {
    var numPlanes :- StringByte(strings, start);
    var planes :- BytesFrom(strings, start + 1, start + 1 + Repeats(numPlanes));
    var section :- SurfaceSection(strings, start + Repeats(numPlanes));
    Ok(PolyList(planes, section.0, section.1, section.2))
  }

  /** The bytes the surface entries take after the surface count: three each, and two per point. */
  function SurfaceBytes(surfaces: seq<PolySurface>): int {
    if surfaces == [] then 0 else 3 + 2 * surfaces[0].numPoints + SurfaceBytes(surfaces[1..])
  }

  lemma {:induction false} SurfacesAfterEnd(strings: seq<Value>, at: int, k: nat, n: nat)
    requires k <= n
    requires SurfacesAfter(strings, at, k, n).Ok?
    ensures var r := SurfacesAfter(strings, at, k, n).value; |r.0| == n - k && r.1 == at + SurfaceBytes(r.0)
    decreases n - k
  {
    if k < n {
      var numPoints := StringByte(strings, at + 1).value;
      var r := SurfacesAfter(strings, at, k, n).value;
      SurfacesAfterEnd(strings, at + 3 + 2 * numPoints, k + 1, n);
      assert r.0[1..] == SurfacesAfter(strings, at + 3 + 2 * numPoints, k + 1, n).value.0;
    }
  }

  /**
   * The walk reads `numPlanes` plane indices right after the count, the point
   * count from the two bytes after them, and stops at
   * start + numPlanes + 3 + numPoints + Σ(3 + 2·numSurfacePoints).
   */
  lemma PolyListLayout(strings: seq<Value>, start: int)
    requires DecodePolyList(strings, start).Ok?
    ensures var d := DecodePolyList(strings, start).value;
      && StringByte(strings, start).Ok? && |d.planes| == Repeats(StringByte(strings, start).value)
      && (forall j :: 0 <= j < |d.planes| ==> StringByte(strings, start + 1 + j) == Ok(d.planes[j]))
      && d.numPoints == StringByte(strings, start + |d.planes| + 1).value * 256 + StringByte(strings, start + |d.planes| + 2).value
      && d.end == start + |d.planes| + 3 + d.numPoints + SurfaceBytes(d.surfaces)
  {
    var numPlanes := StringByte(strings, start).value;
    var d := DecodePolyList(strings, start).value;
    var surfacesAt := start + Repeats(numPlanes) + 3 + d.numPoints;
    var numSurfaces := StringByte(strings, surfacesAt).value;
    SurfacesAfterEnd(strings, surfacesAt, 0, Repeats(numSurfaces));
  }

  // ---------------------------------------------------------------------
  // The walk over a hull's poly-list string in the `Interior` constructor

  /** `getPlane(polyListPlanes[polyListPlaneStart + rel])`. */
  function PolyPlane(planes: seq<Plane>, polyListPlanes: seq<Value>, planeStart: Value, rel: int): Result<Option<Plane>> {
    var base :- NumOf(planeStart);
    GetPlaneAsWritten(planes, ElementAtNum(polyListPlanes, Plus(base, Whole(rel))))
  }

  /**
   * The planes resolved, in reading order, for the relative indices at
   * positions `lo, …, hi - 1`.
   */
  function ResolvedFrom(strings: seq<Value>, planes: seq<Plane>, polyListPlanes: seq<Value>, planeStart: Value, lo: int, hi: int)
    : (r: Result<seq<Option<Plane>>>)
    requires lo <= hi
    ensures r.Ok? ==> |r.value| == hi - lo
    decreases hi - lo
  {
    if lo == hi then Ok([])
    else
      var p :- ResolveAt(strings, planes, polyListPlanes, planeStart, lo);
      var rest :- ResolvedFrom(strings, planes, polyListPlanes, planeStart, lo + 1, hi);
      Ok([p] + rest)
  }

  /** The plane for the relative index in the byte at position `k`. */
  function ResolveAt(strings: seq<Value>, planes: seq<Plane>, polyListPlanes: seq<Value>, planeStart: Value, k: int)
    : Result<Option<Plane>>
  {
    var rel :- StringByte(strings, k);
    PolyPlane(planes, polyListPlanes, planeStart, rel)
  }

  /** One step of the resolution: the byte at `lo`, its plane, then the rest. */
  lemma ResolvedStep(strings: seq<Value>, planes: seq<Plane>, polyListPlanes: seq<Value>, planeStart: Value, lo: int, hi: int)
    requires lo < hi
    ensures var p := ResolveAt(strings, planes, polyListPlanes, planeStart, lo);
      && (p.Err? ==> ResolvedFrom(strings, planes, polyListPlanes, planeStart, lo, hi) == Err(p.error))
      && (p.Ok? ==> ResolvedFrom(strings, planes, polyListPlanes, planeStart, lo, hi)
                    == Prefixed([p.value], ResolvedFrom(strings, planes, polyListPlanes, planeStart, lo + 1, hi)))
  {
  }

  /** Entry `j - lo` of a successful resolution is the plane for the byte at position `j`. */
  lemma {:induction false} ResolvedPointwise(strings: seq<Value>, planes: seq<Plane>, polyListPlanes: seq<Value>, planeStart: Value, lo: int, hi: int,
                                             resolved: seq<Option<Plane>>)
    requires lo <= hi
    requires ResolvedFrom(strings, planes, polyListPlanes, planeStart, lo, hi) == Ok(resolved)
    ensures forall j :: lo <= j < hi ==> ResolveAt(strings, planes, polyListPlanes, planeStart, j) == Ok(resolved[j - lo])
    decreases hi - lo
  {
    if lo < hi {
      ResolvedStep(strings, planes, polyListPlanes, planeStart, lo, hi);
      var p := ResolveAt(strings, planes, polyListPlanes, planeStart, lo).value;
      var rest := ResolvedFrom(strings, planes, polyListPlanes, planeStart, lo + 1, hi).value;
      ResolvedPointwise(strings, planes, polyListPlanes, planeStart, lo + 1, hi, rest);
      assert resolved == [p] + rest;
      forall j | lo <= j < hi
        ensures ResolveAt(strings, planes, polyListPlanes, planeStart, j) == Ok(resolved[j - lo])
      {
        if j > lo {
          assert resolved[j - lo] == rest[j - (lo + 1)];
        }
      }
    }
  }

  /**
   * What the walk computes: the hull's planes, the plane of each surface
   * (`planes[relative index]`, undefined past the end) and where it stops.
   * The constructor drops the surfaces it collects here.
   */
  datatype PolyWalk = PolyWalk(planes: seq<Option<Plane>>, surfaces: seq<Option<Plane>>, end: int)

  /** `planes[k]` on the walk's own planes: undefined past the end or where the lookup found nothing. */
  function WalkedPlane(resolved: seq<Option<Plane>>, k: int): Option<Plane> {
    if 0 <= k < |resolved| then resolved[k] else None
  }

  function SurfacePlanes(resolved: seq<Option<Plane>>, entries: seq<PolySurface>): (r: seq<Option<Plane>>)
    ensures |r| == |entries|
  {
    seq(|entries|, k requires 0 <= k < |entries| => WalkedPlane(resolved, entries[k].plane))
  }

  /**
   * The walk over the poly-list string at `start`, in the order the
   * constructor reads it: the plane count, each plane index resolved as it
   * is read, then the surface section.
   */
  function WalkOf(strings: seq<Value>, planes: seq<Plane>, polyListPlanes: seq<Value>, planeStart: Value, start: int)
    : Result<PolyWalk>
  {
    var numPlanes :- StringByte(strings, start);
    var resolved :- ResolvedFrom(strings, planes, polyListPlanes, planeStart, start + 1, start + 1 + Repeats(numPlanes));
    var section :- SurfaceSection(strings, start + Repeats(numPlanes));
    Ok(PolyWalk(resolved, SurfacePlanes(resolved, section.1), section.2))
  }

  /**
   * A walk that succeeds has read a well-formed poly-list: its planes are
   * the decoded plane indices resolved one by one, its surfaces those of the
   * decoded surface entries, and it stops where the decoding does.
   */
  lemma WalkFollowsDecoding(strings: seq<Value>, planes: seq<Plane>, polyListPlanes: seq<Value>, planeStart: Value, start: int)
    requires WalkOf(strings, planes, polyListPlanes, planeStart, start).Ok?
    ensures DecodePolyList(strings, start).Ok?
    ensures var w := WalkOf(strings, planes, polyListPlanes, planeStart, start).value;
      var d := DecodePolyList(strings, start).value;
      && |w.planes| == |d.planes|
      && (forall j :: 0 <= j < |d.planes| ==> PolyPlane(planes, polyListPlanes, planeStart, d.planes[j]) == Ok(w.planes[j]))
      && w.surfaces == SurfacePlanes(w.planes, d.surfaces)
      && w.end == d.end
  {
    WalkOfParts(strings, planes, polyListPlanes, planeStart, start);
    var numPlanes := StringByte(strings, start).value;
    var lo, hi := start + 1, start + 1 + Repeats(numPlanes);
    var resolved := ResolvedFrom(strings, planes, polyListPlanes, planeStart, lo, hi).value;
    PlanesAgree(strings, planes, polyListPlanes, planeStart, lo, hi, resolved);
    DecodeOfParts(strings, start, numPlanes, BytesFrom(strings, lo, hi).value, SurfaceSection(strings, start + Repeats(numPlanes)).value);
  }

  /** The bytes behind a successful resolution decode, and each resolves to its plane. */
  lemma PlanesAgree(strings: seq<Value>, planes: seq<Plane>, polyListPlanes: seq<Value>, planeStart: Value, lo: int, hi: int,
                    resolved: seq<Option<Plane>>)
    requires lo <= hi
    requires ResolvedFrom(strings, planes, polyListPlanes, planeStart, lo, hi) == Ok(resolved)
    ensures BytesFrom(strings, lo, hi).Ok?
    ensures var rels := BytesFrom(strings, lo, hi).value;
      && |rels| == |resolved|
      && forall j :: 0 <= j < |rels| ==> PolyPlane(planes, polyListPlanes, planeStart, rels[j]) == Ok(resolved[j])
  {
    ResolvedPointwise(strings, planes, polyListPlanes, planeStart, lo, hi, resolved);
    forall j | lo <= j < hi
      ensures StringByte(strings, j).Ok?
    {
      assert ResolveAt(strings, planes, polyListPlanes, planeStart, j).Ok?;
    }
    var rels := BytesFrom(strings, lo, hi).value;
    forall j | 0 <= j < |rels|
      ensures PolyPlane(planes, polyListPlanes, planeStart, rels[j]) == Ok(resolved[j])
    {
      assert ResolveAt(strings, planes, polyListPlanes, planeStart, lo + j) == Ok(resolved[j]);
      assert StringByte(strings, lo + j) == Ok(rels[j]);
    }
  }

  /** The three parts of a walk that succeeds. */
  lemma WalkOfParts(strings: seq<Value>, planes: seq<Plane>, polyListPlanes: seq<Value>, planeStart: Value, start: int)
    requires WalkOf(strings, planes, polyListPlanes, planeStart, start).Ok?
    ensures StringByte(strings, start).Ok?
    ensures var n := Repeats(StringByte(strings, start).value);
      var resolved := ResolvedFrom(strings, planes, polyListPlanes, planeStart, start + 1, start + 1 + n);
      var section := SurfaceSection(strings, start + n);
      && resolved.Ok? && section.Ok?
      && WalkOf(strings, planes, polyListPlanes, planeStart, start).value
         == PolyWalk(resolved.value, SurfacePlanes(resolved.value, section.value.1), section.value.2)
  {
  }

  /** A decoding whose three parts succeed. */
  lemma DecodeOfParts(strings: seq<Value>, start: int, numPlanes: int, rels: seq<int>, section: (int, seq<PolySurface>, int))
    requires StringByte(strings, start) == Ok(numPlanes)
    requires BytesFrom(strings, start + 1, start + 1 + Repeats(numPlanes)) == Ok(rels)
    requires SurfaceSection(strings, start + Repeats(numPlanes)) == Ok(section)
    ensures DecodePolyList(strings, start) == Ok(PolyList(rels, section.0, section.1, section.2))
  {
  }

  /** The surfaces read so far in front of the rest of the surface walk. */
  function Joined(done: seq<PolySurface>, rest: Result<(seq<PolySurface>, int)>): Result<(seq<PolySurface>, int)> {
    match rest
    case Ok((ss, e)) => Ok((done + ss, e))
    case Err(e) => Err(e)
  }

  lemma JoinedStep(done: seq<PolySurface>, x: PolySurface, rest: Result<(seq<PolySurface>, int)>)
    ensures Joined(done, Joined([x], rest)) == Joined(done + [x], rest)
  {
    if rest.Ok? {
      assert done + ([x] + rest.value.0) == (done + [x]) + rest.value.0;
    }
  }

  lemma JoinedNothing(rest: Result<(seq<PolySurface>, int)>)
    ensures Joined([], rest) == rest
  {
    if rest.Ok? {
      assert [] + rest.value.0 == rest.value.0;
    }
  }

  /**
   * The first loop of the walk: reads the plane count at `start` and
   * resolves each plane index as it reads it. It returns the planes and the
   * position of the last index read.
   */
  method WalkPlanes(strings: seq<Value>, planes: seq<Plane>, polyListPlanes: seq<Value>, planeStart: Value, start: int)
    returns (r: Result<(seq<Option<Plane>>, int)>)
    ensures StringByte(strings, start).Err? ==> r == Err(StringByte(strings, start).error)
    ensures StringByte(strings, start).Ok? ==>
      var hi := start + 1 + Repeats(StringByte(strings, start).value);
      var resolved := ResolvedFrom(strings, planes, polyListPlanes, planeStart, start + 1, hi);
      && r.Ok? == resolved.Ok?
      && (r.Err? ==> r.error == resolved.error)
      && (r.Ok? ==> r.value == (resolved.value, hi - 1))
  {
    var count := StringByte(strings, start);
    if count.Err? {
      return Err(count.error);
    }
    r := ResolvePlaneIndices(strings, planes, polyListPlanes, planeStart, start, count.value);
  }

  /** The loop of `WalkPlanes` over the `numPlanes` plane indices after the count at `start`. */
  method ResolvePlaneIndices(strings: seq<Value>, planes: seq<Plane>, polyListPlanes: seq<Value>, planeStart: Value,
                             start: int, numPlanes: int)
    returns (r: Result<(seq<Option<Plane>>, int)>)
    ensures var hi := start + 1 + Repeats(numPlanes);
      var resolved := ResolvedFrom(strings, planes, polyListPlanes, planeStart, start + 1, hi);
      && r.Ok? == resolved.Ok?
      && (r.Err? ==> r.error == resolved.error)
      && (r.Ok? ==> r.value == (resolved.value, hi - 1))
  {
    var pli := start;
    ghost var hi := start + 1 + Repeats(numPlanes);
    ghost var resolved := ResolvedFrom(strings, planes, polyListPlanes, planeStart, start + 1, hi);
    var walked: seq<Option<Plane>> := [];
    var pl := 0;
    PrefixedNothing(resolved);
    while pl < numPlanes
      invariant 0 <= pl <= Repeats(numPlanes)
      invariant pli == start + pl
      invariant resolved == Prefixed(walked, ResolvedFrom(strings, planes, polyListPlanes, planeStart, pli + 1, hi))
    {
      pli := pli + 1;
      var p := ResolveAt(strings, planes, polyListPlanes, planeStart, pli);
      ResolvedStep(strings, planes, polyListPlanes, planeStart, pli, hi);
      if p.Err? {
        assert resolved == Err(p.error);
        return Err(p.error);
      }
      PrefixedStep(walked, p.value, ResolvedFrom(strings, planes, polyListPlanes, planeStart, pli + 1, hi));
      walked := walked + [p.value];
      pl := pl + 1;
    }
    assert pli == hi - 1;
    PrefixedAll(walked);
    assert resolved == Ok(walked);
    r := Ok((walked, pli));
  }

  /**
   * The rest of the walk, after the last plane index at `last`: skips the
   * points and collects the plane of each surface, stopping on its last
   * byte. It fails exactly as `SurfaceSection` does.
   */
  method WalkSurfaces(strings: seq<Value>, walked: seq<Option<Plane>>, last: int)
    returns (r: Result<(seq<Option<Plane>>, int)>)
    ensures SurfaceSection(strings, last).Err? ==> r == Err(SurfaceSection(strings, last).error)
    ensures SurfaceSection(strings, last).Ok? ==> var section := SurfaceSection(strings, last).value;
      r == Ok((SurfacePlanes(walked, section.1), section.2))
  {
    var pli := last + 1;
    var high := StringByte(strings, pli);
    if high.Err? {
      return Err(high.error);
    }
    var low := StringByte(strings, pli + 1);
    if low.Err? {
      return Err(low.error);
    }
    var len := high.value * 256 + low.value;
    pli := pli + 1;
    pli := pli + len;
    pli := pli + 1;
    var ns := StringByte(strings, pli);
    if ns.Err? {
      return Err(ns.error);
    }
    r := WalkSurfaceEntries(strings, walked, pli, ns.value);
  }

  /**
   * The surface loop of the walk: `numSurfaces` entries after the count at
   * `at`, each its point count, mask and plane index followed by its points.
   * It collects the plane of each entry and the position of the last byte read.
   */
  method WalkSurfaceEntries(strings: seq<Value>, walked: seq<Option<Plane>>, at: int, numSurfaces: int)
    returns (r: Result<(seq<Option<Plane>>, int)>)
    ensures SurfacesAfter(strings, at, 0, Repeats(numSurfaces)).Err? ==>
      r == Err(SurfacesAfter(strings, at, 0, Repeats(numSurfaces)).error)
    ensures SurfacesAfter(strings, at, 0, Repeats(numSurfaces)).Ok? ==>
      var entries := SurfacesAfter(strings, at, 0, Repeats(numSurfaces)).value;
      r == Ok((SurfacePlanes(walked, entries.0), entries.1))
  {
    var pli := at;
    ghost var entries: seq<PolySurface> := [];
    var surfaces: seq<Option<Plane>> := [];
    var sf := 0;
    JoinedNothing(SurfacesAfter(strings, at, 0, Repeats(numSurfaces)));
    while sf < numSurfaces
      invariant 0 <= sf <= Repeats(numSurfaces)
      invariant SurfacesAfter(strings, at, 0, Repeats(numSurfaces))
        == Joined(entries, SurfacesAfter(strings, pli, sf, Repeats(numSurfaces)))
      invariant surfaces == SurfacePlanes(walked, entries)
    {
      pli := pli + 1;
      var numSfPts := StringByte(strings, pli);
      if numSfPts.Err? {
        return Err(numSfPts.error);
      }
      pli := pli + 1;
      var mask := StringByte(strings, pli);
      if mask.Err? {
        return Err(mask.error);
      }
      pli := pli + 1;
      var index := StringByte(strings, pli);
      if index.Err? {
        return Err(index.error);
      }
      var e := PolySurface(numSfPts.value, mask.value, index.value);
      surfaces := surfaces + [WalkedPlane(walked, index.value)];
      pli := pli + numSfPts.value * 2;
      JoinedStep(entries, e, SurfacesAfter(strings, pli, sf + 1, Repeats(numSurfaces)));
      assert SurfacePlanes(walked, entries + [e]) == SurfacePlanes(walked, entries) + [WalkedPlane(walked, e.plane)];
      entries := entries + [e];
      sf := sf + 1;
    }
    assert entries + [] == entries;
    r := Ok((surfaces, pli));
  }

  /**
   * The loops of the `Interior` constructor over one hull's poly-list
   * string, index `pli` advanced one byte at a time: it computes `WalkOf`.
   */
  method WalkPolyList(strings: seq<Value>, planes: seq<Plane>, polyListPlanes: seq<Value>, planeStart: Value, start: int)
    returns (r: Result<PolyWalk>)
    ensures r == WalkOf(strings, planes, polyListPlanes, planeStart, start)
  {
    var first := WalkPlanes(strings, planes, polyListPlanes, planeStart, start);
    if first.Err? {
      return Err(first.error);
    }
    var rest := WalkSurfaces(strings, first.value.0, first.value.1);
    if rest.Err? {
      return Err(rest.error);
    }
    r := Ok(PolyWalk(first.value.0, rest.value.0, rest.value.1));
  }

  // ---------------------------------------------------------------------
  // The planes each convex hull is given

  /** How many surfaces hull number `hack` takes: `[8, 6, 6, 6, 6, 6, 5][hack]`, none past the end. */
  function HullSize(hack: int): (n: nat)
    ensures 0 <= hack < 7 ==> n == [8, 6, 6, 6, 6, 6, 5][hack]
    ensures hack < 0 || hack >= 7 ==> n == 0
  {
    if 0 <= hack < 7 then [8, 6, 6, 6, 6, 6, 5][hack] else 0
  }

  /** `getPlane(this.surfaces[this.hullSurfaceIndices[h.surfaceStart + sf]].planeIndex)`. */
  function HullPlane(planes: seq<Plane>, surfaces: Value, hullSurfaceIndices: seq<Value>, surfaceStart: Value, sf: nat)
    : Result<Option<Plane>>
  {
    var base :- NumOf(surfaceStart);
    var surface :- Element(surfaces, ElementAtNum(hullSurfaceIndices, Plus(base, Whole(sf))));
    var index :- Member(surface, "planeIndex");
    GetPlaneAsWritten(planes, index)
  }

  /** The hull planes `sf, …, n - 1`; the first surface whose plane cannot be found stops the loop. */
  function HullPlanesFrom(planes: seq<Plane>, surfaces: Value, hullSurfaceIndices: seq<Value>, surfaceStart: Value, sf: nat, n: nat)
    : (r: Result<seq<Option<Plane>>>)
    requires sf <= n
    ensures r.Ok? ==> |r.value| == n - sf
    decreases n - sf
  {
    if sf == n then Ok([])
    else
      var p :- HullPlane(planes, surfaces, hullSurfaceIndices, surfaceStart, sf);
      var rest :- HullPlanesFrom(planes, surfaces, hullSurfaceIndices, surfaceStart, sf + 1, n);
      Ok([p] + rest)
  }

  /** Surface k's plane, for each k: what the hull-plane loop collects. */
  function HullPlaneAt(planes: seq<Plane>, surfaces: Value, hullSurfaceIndices: seq<Value>, surfaceStart: Value)
    : (f: nat -> Result<Option<Plane>>)
    ensures forall k: nat :: f(k) == HullPlane(planes, surfaces, hullSurfaceIndices, surfaceStart, k)
  {
    (k: nat) => HullPlane(planes, surfaces, hullSurfaceIndices, surfaceStart, k)
  }

  lemma {:induction false} HullPlanesAsCollect(planes: seq<Plane>, surfaces: Value, hullSurfaceIndices: seq<Value>, surfaceStart: Value, sf: nat, n: nat)
    requires sf <= n
    ensures HullPlanesFrom(planes, surfaces, hullSurfaceIndices, surfaceStart, sf, n)
      == Collect(HullPlaneAt(planes, surfaces, hullSurfaceIndices, surfaceStart), sf, n)
    decreases n - sf
  {
    if sf < n {
      var f := HullPlaneAt(planes, surfaces, hullSurfaceIndices, surfaceStart);
      HullPlanesAsCollect(planes, surfaces, hullSurfaceIndices, surfaceStart, sf + 1, n);
      HullPlanesStep(planes, surfaces, hullSurfaceIndices, surfaceStart, sf, n);
      CollectStep(f, sf, n);
    }
  }

  /**
   * The hull's planes are built exactly when every surface's plane can be
   * found, plane `k` being the plane of surface `k`.
   */
  lemma HullPlanesPointwise(planes: seq<Plane>, surfaces: Value, hullSurfaceIndices: seq<Value>, surfaceStart: Value, sf: nat, n: nat)
    requires sf <= n
    ensures HullPlanesFrom(planes, surfaces, hullSurfaceIndices, surfaceStart, sf, n).Ok?
      <==> forall k :: sf <= k < n ==> HullPlane(planes, surfaces, hullSurfaceIndices, surfaceStart, k).Ok?
    ensures HullPlanesFrom(planes, surfaces, hullSurfaceIndices, surfaceStart, sf, n).Ok? ==> forall k :: sf <= k < n ==>
      HullPlane(planes, surfaces, hullSurfaceIndices, surfaceStart, k)
        == Ok(HullPlanesFrom(planes, surfaces, hullSurfaceIndices, surfaceStart, sf, n).value[k - sf])
  {
    HullPlanesAsCollect(planes, surfaces, hullSurfaceIndices, surfaceStart, sf, n);
    CollectPointwise(HullPlaneAt(planes, surfaces, hullSurfaceIndices, surfaceStart), sf, n);
  }

  lemma HullPlanesStep(planes: seq<Plane>, surfaces: Value, hullSurfaceIndices: seq<Value>, surfaceStart: Value, sf: nat, n: nat)
    requires sf < n
    ensures HullPlanesFrom(planes, surfaces, hullSurfaceIndices, surfaceStart, sf, n)
      == (var p := HullPlane(planes, surfaces, hullSurfaceIndices, surfaceStart, sf);
          if p.Err? then Err(p.error)
          else Prefixed([p.value], HullPlanesFrom(planes, surfaces, hullSurfaceIndices, surfaceStart, sf + 1, n)))
  {
  }

  /**
   * The loop that rebuilds `surfaces` for hull number `hack`: entry sf is
   * the plane of surface `hullSurfaceIndices[surfaceStart + sf]`.
   */
  method SelectHullPlanes(planes: seq<Plane>, surfaces: Value, hullSurfaceIndices: seq<Value>, surfaceStart: Value, hack: int)
    returns (r: Result<seq<Option<Plane>>>)
    ensures r == HullPlanesFrom(planes, surfaces, hullSurfaceIndices, surfaceStart, 0, HullSize(hack))
  {
    ghost var f := HullPlaneAt(planes, surfaces, hullSurfaceIndices, surfaceStart);
    var n := HullSize(hack);
    var selected: seq<Option<Plane>> := [];
    var sf := 0;
    HullPlanesAsCollect(planes, surfaces, hullSurfaceIndices, surfaceStart, 0, n);
    PrefixedNothing(Collect(f, 0, n));
    while sf < n
      invariant 0 <= sf <= n
      invariant Collect(f, 0, n) == Prefixed(selected, Collect(f, sf, n))
    {
      var p := HullPlane(planes, surfaces, hullSurfaceIndices, surfaceStart, sf);
      assert p == f(sf);
      CollectStep(f, sf, n);
      if p.Err? {
        return Err(p.error);
      }
      PrefixedStep(selected, p.value, Collect(f, sf + 1, n));
      selected := selected + [p.value];
      sf := sf + 1;
    }
    PrefixedAll(selected);
    r := Ok(selected);
  }

  // ---------------------------------------------------------------------
  // `new Interior(s)`

  /** The eight lists the constructor unpacks for the convex hulls. */
  datatype HullLists = HullLists(
    convexHullEmitStrings: seq<Value>, hullIndices: seq<Value>, hullPlaneIndices: seq<Value>,
    hullEmitStringIndices: seq<Value>, hullSurfaceIndices: seq<Value>, polyListPlanes: seq<Value>,
    polyListPoints: seq<Value>, polyListStrings: seq<Value>)

  /**
   * An `Interior`: `Blank` when built from undefined or null (every member
   * left unset); otherwise the members the constructor copies or computes.
   * `convexHulls[i]` holds the planes handed to hull i's `addPlanes`.
   */
  datatype Interior =
    | Blank
    | Interior(
        source: Value, version: Value, detailLevel: Value, minPixels: Value, boundingBox: Value,
        boundingSphere: Value, hasAlarmState: Value, lightStates: Value, normals: seq<Value>,
        planes: seq<Plane>, surfaces: Value, points: Value, pointViss: Value, texGenEQs: Value,
        bspNodes: Value, bspSolidLeaves: Value, materials: Value, lists: HullLists,
        convexHulls: seq<seq<Option<Plane>>>)

  /** The eight `unpackArr` calls, in the constructor's order. */
  function HullListsOf(s: Value): Result<HullLists> {
    var emit :- Member(s, "ConvexHullEmitStrings");
    var emitList :- Unpack(emit, "convexHullEmitStringCharacter");
    var hi :- Member(s, "HullIndices");
    var hiList :- Unpack(hi, "hullIndex");
    var hpi :- Member(s, "HullPlaneIndices");
    var hpiList :- Unpack(hpi, "hullPlaneIndex");
    var hei :- Member(s, "HullEmitStringIndices");
    var heiList :- Unpack(hei, "hullEmitStringIndex");
    var hsi :- Member(s, "HullSurfaceIndices");
    var hsiList :- Unpack(hsi, "hullSurfaceIndex");
    var plp :- Member(s, "PolyListPlanes");
    var plpList :- Unpack(plp, "ployListPlaneIndex");
    var plpt :- Member(s, "PolyListPoints");
    var plptList :- Unpack(plpt, "polyListPointIndex");
    var pls :- Member(s, "PolyListStrings");
    var plsList :- Unpack(pls, "polyListStringCharacter");
    Ok(HullLists(emitList, hiList, hpiList, heiList, hsiList, plpList, plptList, plsList))
  }

  /** Everything the constructor sets before its loop over the convex hulls. */
  function InteriorHead(s: Value): (r: Result<Interior>)
    ensures r.Ok? ==> (r.value.Blank? <==> s.Undef? || s.Null?)
    ensures r.Ok? && r.value.Interior? ==> r.value.source == s && r.value.convexHulls == []
  {
    if s.Undef? || s.Null? then Ok(Blank)
    else
      var version :- Member(s, "interiorFileVersion");
      var detailLevel :- Member(s, "detailLevel");
      var minPixels :- Member(s, "minPixels");
      var boundingBox :- Member(s, "boundingBox");
      var boundingSphere :- Member(s, "boundingSphere");
      var hasAlarmState :- Member(s, "hasAlarmState");
      var lightStates :- Member(s, "numLightStateEntries");
      var normalsArr :- Member(s, "Normals");
      var normals :- Unpack(normalsArr, "normal");
      var numPlanes :- Member(s, "numPlanes");
      var n :- LoopCount(numPlanes);
      var records :- Member(s, "Planes");
      var planes :- PlanesFrom(records, normals, 0, n);
      var surfaces :- Member(s, "Surfaces");
      var points :- Member(s, "Points");
      var pointViss :- Member(s, "PointVisibilities");
      var texGenEQs :- Member(s, "TexGenEQs");
      var bspNodes :- Member(s, "BSPNodes");
      var bspSolidLeaves :- Member(s, "BSPSolidLeaves");
      var materials :- Member(s, "materials");
      var lists :- HullListsOf(s);
      Ok(Interior(s, version, detailLevel, minPixels, boundingBox, boundingSphere, hasAlarmState, lightStates,
        normals, planes, surfaces, points, pointViss, texGenEQs, bspNodes, bspSolidLeaves, materials, lists, []))
  }

  /**
   * One pass of the hull loop for hull `i`: the poly-list walk (whose
   * results are then dropped, but whose failures stop the constructor), and
   * the `HullSize(i)` planes of the surfaces the hull lists from
   * `surfaceStart` on.
   */
  function HullOf(planes: seq<Plane>, surfaces: Value, lists: HullLists, hulls: Value, i: nat): Result<seq<Option<Plane>>> {
    var h :- HullRecord(hulls, i);
    var start :- PolyListStart(h);
    var planeStart :- Member(h, "polyListPlaneStart");
    var walk :- WalkOf(lists.polyListStrings, planes, lists.polyListPlanes, planeStart, start);
    var surfaceStart :- Member(h, "surfaceStart");
    HullPlanesFrom(planes, surfaces, lists.hullSurfaceIndices, surfaceStart, 0, HullSize(i))
  }

  /** `s.ConvexHulls[i].ConvexHull`. */
  function HullRecord(hulls: Value, i: nat): Result<Value> {
    var entry :- Element(hulls, Int(i));
    Member(entry, "ConvexHull")
  }

  /** `+h.polyListStringStart`; a position that is not a number stops the model. */
  function PolyListStart(h: Value): Result<int> {
    var startValue :- Member(h, "polyListStringStart");
    var start :- NumOf(startValue);
    if start.NaN? then Err(Undefined("a poly-list position that is not a number")) else Ok(start.n)
  }

  /** The results of `f(i), …, f(n - 1)` in order; the first failure stops the loop. */
  function Collect<T>(f: nat -> Result<T>, i: nat, n: nat): (r: Result<seq<T>>)
    requires i <= n
    ensures r.Ok? ==> |r.value| == n - i
    decreases n - i
  {
    if i == n then Ok([])
    else
      var x :- f(i);
      var rest :- Collect(f, i + 1, n);
      Ok([x] + rest)
  }

  lemma {:induction false} CollectPointwise<T>(f: nat -> Result<T>, i: nat, n: nat)
    requires i <= n
    ensures Collect(f, i, n).Ok? <==> forall k :: i <= k < n ==> f(k).Ok?
    ensures Collect(f, i, n).Ok? ==> forall k :: i <= k < n ==> f(k) == Ok(Collect(f, i, n).value[k - i])
    decreases n - i
  {
    if i < n {
      CollectPointwise(f, i + 1, n);
    }
  }

  /** What a loop that collected `f(0), …, f(n - 1)` without failing holds. */
  lemma CollectedAre<T>(f: nat -> Result<T>, n: nat, xs: seq<T>)
    requires Collect(f, 0, n) == Ok(xs)
    ensures |xs| == n
    ensures forall k :: 0 <= k < n ==> f(k) == Ok(xs[k])
  {
    CollectPointwise(f, 0, n);
    forall k | 0 <= k < n
      ensures f(k) == Ok(xs[k])
    {
      assert f(k) == Ok(Collect(f, 0, n).value[k - 0]);
    }
  }

  /** The hulls `0, …, n - 1` of an interior whose members are `it`. */
  function HullsOf(it: Interior, hulls: Value, n: nat): Result<seq<seq<Option<Plane>>>>
    requires it.Interior?
  {
    Collect(k => HullOf(it.planes, it.surfaces, it.lists, hulls, k), 0, n)
  }

  /** `new Interior(s)`. */
  function InteriorOf(s: Value): (r: Result<Interior>)
    ensures s.Undef? || s.Null? ==> r == Ok(Blank)
    ensures r.Ok? && r.value.Interior? ==> r.value.source == s && !s.Undef? && !s.Null?
  {
    var it :- InteriorHead(s);
    if it.Blank? then Ok(Blank)
    else
      var count :- Member(s, "numConvexHulls");
      var n :- LoopCount(count);
      var hulls :- Member(s, "ConvexHulls");
      var convexHulls :- HullsOf(it, hulls, n);
      Ok(it.(convexHulls := convexHulls))
  }

  /**
   * The hull loop's body for hull `i`, with the walk run byte by byte. It
   * fails exactly when `HullOf` does and otherwise agrees with it.
   */
  method BuildHull(planes: seq<Plane>, surfaces: Value, lists: HullLists, hulls: Value, i: nat)
    returns (r: Result<seq<Option<Plane>>>)
    ensures r == HullOf(planes, surfaces, lists, hulls, i)
  {
    var h := HullRecord(hulls, i);
    if h.Err? {
      return Err(h.error);
    }
    var start := PolyListStart(h.value);
    if start.Err? {
      return Err(start.error);
    }
    var planeStart := Member(h.value, "polyListPlaneStart");
    if planeStart.Err? {
      return Err(planeStart.error);
    }
    var walk := WalkPolyList(lists.polyListStrings, planes, lists.polyListPlanes, planeStart.value, start.value);
    if walk.Err? {
      return Err(walk.error);
    }
    var surfaceStart := Member(h.value, "surfaceStart");
    if surfaceStart.Err? {
      return Err(surfaceStart.error);
    }
    r := SelectHullPlanes(planes, surfaces, lists.hullSurfaceIndices, surfaceStart.value, i);
  }

  /**
   * The loop over the convex hulls: hull i gets `HullOf(…, i)`, and
   * the first hull that fails stops the constructor.
   */
  method BuildHulls(it: Interior, hulls: Value, n: nat) returns (r: Result<seq<seq<Option<Plane>>>>)
    requires it.Interior?
    ensures r == HullsOf(it, hulls, n)
  {
    ghost var f: nat -> Result<seq<Option<Plane>>> := (k: nat) => HullOf(it.planes, it.surfaces, it.lists, hulls, k);
    var built: seq<seq<Option<Plane>>> := [];
    var i := 0;
    PrefixedNothing(Collect(f, 0, n));
    while i < n
      invariant 0 <= i <= n
      invariant Collect(f, 0, n) == Prefixed(built, Collect(f, i, n))
    {
      var hull := BuildHull(it.planes, it.surfaces, it.lists, hulls, i);
      assert hull == f(i);
      CollectStep(f, i, n);
      if hull.Err? {
        return Err(hull.error);
      }
      PrefixedStep(built, hull.value, Collect(f, i + 1, n));
      built := built + [hull.value];
      i := i + 1;
    }
    PrefixedAll(built);
    r := Ok(built);
  }

  /** The eight `unpackArr` loops of the constructor. */
  method UnpackHullLists(s: Value) returns (r: Result<HullLists>)
    ensures r == HullListsOf(s)
  {
    var emit := Member(s, "ConvexHullEmitStrings");
    if emit.Err? {
      return Err(emit.error);
    }
    var emitList := UnpackArr(emit.value, "convexHullEmitStringCharacter");
    if emitList.Err? {
      return Err(emitList.error);
    }
    var hi := Member(s, "HullIndices");
    if hi.Err? {
      return Err(hi.error);
    }
    var hiList := UnpackArr(hi.value, "hullIndex");
    if hiList.Err? {
      return Err(hiList.error);
    }
    var hpi := Member(s, "HullPlaneIndices");
    if hpi.Err? {
      return Err(hpi.error);
    }
    var hpiList := UnpackArr(hpi.value, "hullPlaneIndex");
    if hpiList.Err? {
      return Err(hpiList.error);
    }
    var hei := Member(s, "HullEmitStringIndices");
    if hei.Err? {
      return Err(hei.error);
    }
    var heiList := UnpackArr(hei.value, "hullEmitStringIndex");
    if heiList.Err? {
      return Err(heiList.error);
    }
    var hsi := Member(s, "HullSurfaceIndices");
    if hsi.Err? {
      return Err(hsi.error);
    }
    var hsiList := UnpackArr(hsi.value, "hullSurfaceIndex");
    if hsiList.Err? {
      return Err(hsiList.error);
    }
    var plp := Member(s, "PolyListPlanes");
    if plp.Err? {
      return Err(plp.error);
    }
    var plpList := UnpackArr(plp.value, "ployListPlaneIndex");
    if plpList.Err? {
      return Err(plpList.error);
    }
    var plpt := Member(s, "PolyListPoints");
    if plpt.Err? {
      return Err(plpt.error);
    }
    var plptList := UnpackArr(plpt.value, "polyListPointIndex");
    if plptList.Err? {
      return Err(plptList.error);
    }
    var pls := Member(s, "PolyListStrings");
    if pls.Err? {
      return Err(pls.error);
    }
    var plsList := UnpackArr(pls.value, "polyListStringCharacter");
    if plsList.Err? {
      return Err(plsList.error);
    }
    r := Ok(HullLists(emitList.value, hiList.value, hpiList.value, heiList.value, hsiList.value,
      plpList.value, plptList.value, plsList.value));
  }

  /** The constructor's steps before the hull loop, with `unpackArr` and the plane loop run as loops. */
  method NewInteriorHead(s: Value) returns (r: Result<Interior>)
    ensures r == InteriorHead(s)
  {
    if s.Undef? || s.Null? {
      return Ok(Blank);
    }
    var version := Member(s, "interiorFileVersion");
    if version.Err? {
      return Err(version.error);
    }
    var detailLevel := Member(s, "detailLevel");
    if detailLevel.Err? {
      return Err(detailLevel.error);
    }
    var minPixels := Member(s, "minPixels");
    if minPixels.Err? {
      return Err(minPixels.error);
    }
    var boundingBox := Member(s, "boundingBox");
    if boundingBox.Err? {
      return Err(boundingBox.error);
    }
    var boundingSphere := Member(s, "boundingSphere");
    if boundingSphere.Err? {
      return Err(boundingSphere.error);
    }
    var hasAlarmState := Member(s, "hasAlarmState");
    if hasAlarmState.Err? {
      return Err(hasAlarmState.error);
    }
    var lightStates := Member(s, "numLightStateEntries");
    if lightStates.Err? {
      return Err(lightStates.error);
    }
    var normalsArr := Member(s, "Normals");
    if normalsArr.Err? {
      return Err(normalsArr.error);
    }
    var normals := UnpackArr(normalsArr.value, "normal");
    if normals.Err? {
      return Err(normals.error);
    }
    var numPlanes := Member(s, "numPlanes");
    if numPlanes.Err? {
      return Err(numPlanes.error);
    }
    var n := LoopCount(numPlanes.value);
    if n.Err? {
      return Err(n.error);
    }
    var records := Member(s, "Planes");
    if records.Err? {
      return Err(records.error);
    }
    var planes := PlaneTable(records.value, normals.value, n.value);
    if planes.Err? {
      return Err(planes.error);
    }
    var surfaces := Member(s, "Surfaces");
    if surfaces.Err? {
      return Err(surfaces.error);
    }
    var points := Member(s, "Points");
    if points.Err? {
      return Err(points.error);
    }
    var pointViss := Member(s, "PointVisibilities");
    if pointViss.Err? {
      return Err(pointViss.error);
    }
    var texGenEQs := Member(s, "TexGenEQs");
    if texGenEQs.Err? {
      return Err(texGenEQs.error);
    }
    var bspNodes := Member(s, "BSPNodes");
    if bspNodes.Err? {
      return Err(bspNodes.error);
    }
    var bspSolidLeaves := Member(s, "BSPSolidLeaves");
    if bspSolidLeaves.Err? {
      return Err(bspSolidLeaves.error);
    }
    var materials := Member(s, "materials");
    if materials.Err? {
      return Err(materials.error);
    }
    var lists := UnpackHullLists(s);
    if lists.Err? {
      return Err(lists.error);
    }
    r := Ok(Interior(s, version.value, detailLevel.value, minPixels.value, boundingBox.value, boundingSphere.value,
      hasAlarmState.value, lightStates.value, normals.value, planes.value, surfaces.value, points.value,
      pointViss.value, texGenEQs.value, bspNodes.value, bspSolidLeaves.value, materials.value, lists.value, []));
  }

  /**
   * `new Interior(s)`, loops and all: it builds `InteriorOf(s)`.
   */
  method NewInterior(s: Value) returns (r: Result<Interior>)
    ensures r == InteriorOf(s)
  {
    var it := NewInteriorHead(s);
    if it.Err? {
      return Err(it.error);
    }
    if it.value.Blank? {
      return Ok(Blank);
    }
    var count := Member(s, "numConvexHulls");
    if count.Err? {
      return Err(count.error);
    }
    var n := LoopCount(count.value);
    if n.Err? {
      return Err(n.error);
    }
    var hulls := Member(s, "ConvexHulls");
    if hulls.Err? {
      return Err(hulls.error);
    }
    var convexHulls := BuildHulls(it.value, hulls.value, n.value);
    if convexHulls.Err? {
      return Err(convexHulls.error);
    }
    r := Ok(it.value.(convexHulls := convexHulls.value));
  }

  /**
   * A hull built without error: its record and poly-list position were
   * read, its poly-list string decodes, and it holds `HullSize(i)` planes
   * (8 for the first hull, 6 for the next five, 5 for the seventh, none
   * after), plane k being the plane of surface `surfaceStart + k`.
   */
  lemma HullContents(planes: seq<Plane>, surfaces: Value, lists: HullLists, hulls: Value, i: nat)
    requires HullOf(planes, surfaces, lists, hulls, i).Ok?
    ensures var hull := HullOf(planes, surfaces, lists, hulls, i).value;
      && HullRecord(hulls, i).Ok?
      && PolyListStart(HullRecord(hulls, i).value).Ok?
      && DecodePolyList(lists.polyListStrings, PolyListStart(HullRecord(hulls, i).value).value).Ok?
      && |hull| == HullSize(i)
      && Member(HullRecord(hulls, i).value, "surfaceStart").Ok?
      && forall k :: 0 <= k < HullSize(i) ==>
           HullPlane(planes, surfaces, lists.hullSurfaceIndices, Member(HullRecord(hulls, i).value, "surfaceStart").value, k)
           == Ok(hull[k])
  {
    HullOfParts(planes, surfaces, lists, hulls, i);
    var h := HullRecord(hulls, i).value;
    WalkFollowsDecoding(lists.polyListStrings, planes, lists.polyListPlanes, Member(h, "polyListPlaneStart").value, PolyListStart(h).value);
    HullPlanesAre(planes, surfaces, lists.hullSurfaceIndices, Member(h, "surfaceStart").value, HullSize(i),
      HullOf(planes, surfaces, lists, hulls, i).value);
  }

  /** Hull planes that were built: one per surface, each the plane of its surface. */
  lemma HullPlanesAre(planes: seq<Plane>, surfaces: Value, hullSurfaceIndices: seq<Value>, surfaceStart: Value, n: nat,
      hull: seq<Option<Plane>>)
    requires HullPlanesFrom(planes, surfaces, hullSurfaceIndices, surfaceStart, 0, n) == Ok(hull)
    ensures |hull| == n
    ensures forall k :: 0 <= k < n ==> HullPlane(planes, surfaces, hullSurfaceIndices, surfaceStart, k) == Ok(hull[k])
  {
    var f := HullPlaneAt(planes, surfaces, hullSurfaceIndices, surfaceStart);
    HullPlanesAsCollect(planes, surfaces, hullSurfaceIndices, surfaceStart, 0, n);
    CollectedAre(f, n, hull);
    forall k | 0 <= k < n
      ensures HullPlane(planes, surfaces, hullSurfaceIndices, surfaceStart, k) == Ok(hull[k])
    {
      assert f(k) == Ok(hull[k]);
    }
  }

  /** A hull built without error read every member it needed, walked its poly-list, and holds the planes its surfaces name. */
  lemma HullOfParts(planes: seq<Plane>, surfaces: Value, lists: HullLists, hulls: Value, i: nat)
    requires HullOf(planes, surfaces, lists, hulls, i).Ok?
    ensures HullRecord(hulls, i).Ok?
    ensures var h := HullRecord(hulls, i).value;
      && PolyListStart(h).Ok? && Member(h, "polyListPlaneStart").Ok? && Member(h, "surfaceStart").Ok?
      && WalkOf(lists.polyListStrings, planes, lists.polyListPlanes, Member(h, "polyListPlaneStart").value, PolyListStart(h).value).Ok?
      && HullOf(planes, surfaces, lists, hulls, i)
        == HullPlanesFrom(planes, surfaces, lists.hullSurfaceIndices, Member(h, "surfaceStart").value, 0, HullSize(i))
  {
  }

  /** Hull i of a built interior is the one `HullOf` builds from the interior's members. */
  lemma InteriorHull(s: Value, i: nat)
    requires InteriorOf(s).Ok? && InteriorOf(s).value.Interior?
    requires i < |InteriorOf(s).value.convexHulls|
    ensures var it := InteriorOf(s).value;
      && Member(s, "ConvexHulls").Ok?
      && HullOf(it.planes, it.surfaces, it.lists, Member(s, "ConvexHulls").value, i) == Ok(it.convexHulls[i])
  {
    InteriorOfParts(s);
    var it := InteriorOf(s).value;
    var head := InteriorHead(s).value;
    var hulls := Member(s, "ConvexHulls").value;
    var n := LoopCount(Member(s, "numConvexHulls").value).value;
    HullsOfAt(head, hulls, n, i);
  }

  /** Hull `i` of the hulls `HullsOf` collects is the one `HullOf` builds. */
  lemma HullsOfAt(head: Interior, hulls: Value, n: nat, i: nat)
    requires head.Interior? && HullsOf(head, hulls, n).Ok? && i < n
    ensures HullOf(head.planes, head.surfaces, head.lists, hulls, i) == Ok(HullsOf(head, hulls, n).value[i])
  {
    var f := (k: nat) => HullOf(head.planes, head.surfaces, head.lists, hulls, k);
    assert HullsOf(head, hulls, n) == Collect(f, 0, n);
    CollectAt(f, n, i);
  }

  /** One step of `Collect`: the first item decides, then the rest follows it. */
  lemma CollectStep<T>(f: nat -> Result<T>, i: nat, n: nat)
    requires i < n
    ensures f(i).Err? ==> Collect(f, i, n) == Err(f(i).error)
    ensures f(i).Ok? ==> Collect(f, i, n) == Prefixed([f(i).value], Collect(f, i + 1, n))
  {
  }

  /** Item `i` of a collection without failure is what `f(i)` gave. */
  lemma CollectAt<T>(f: nat -> Result<T>, n: nat, i: nat)
    requires Collect(f, 0, n).Ok? && i < n
    ensures f(i) == Ok(Collect(f, 0, n).value[i])
  {
    CollectPointwise(f, 0, n);
  }

  /** A built interior is its head with the hulls `HullsOf` collects. */
  lemma InteriorOfParts(s: Value)
    requires InteriorOf(s).Ok? && InteriorOf(s).value.Interior?
    ensures InteriorHead(s).Ok? && InteriorHead(s).value.Interior?
    ensures Member(s, "numConvexHulls").Ok? && LoopCount(Member(s, "numConvexHulls").value).Ok?
    ensures Member(s, "ConvexHulls").Ok?
    ensures var head := InteriorHead(s).value;
      var hulls := HullsOf(head, Member(s, "ConvexHulls").value, LoopCount(Member(s, "numConvexHulls").value).value);
      hulls.Ok? && InteriorOf(s).value == head.(convexHulls := hulls.value)
  {
  }

  /** A hull value as `new ConvexHull(false)` is left after `addPlanes`: the planes it was given. */
  function HullValue(planes: seq<Option<Plane>>): Value {
    Obj("ConvexHull", [("planes", Arr(seq(|planes|, k requires 0 <= k < |planes| => SlotValue(planes[k]))))])
  }

  /** An `Interior` as a parsed value. */
  function InteriorValue(it: Interior): Value {
    match it
    case Blank => Obj("Interior", [])
    case Interior(source, version, detailLevel, minPixels, boundingBox, boundingSphere, hasAlarmState, lightStates,
        normals, planes, surfaces, points, pointViss, texGenEQs, bspNodes, bspSolidLeaves, materials, lists, hulls) =>
      Obj("Interior", [
        ("source", source), ("version", version), ("detailLevel", detailLevel), ("minPixels", minPixels),
        ("boundingBox", boundingBox), ("boundingSphere", boundingSphere), ("hasAlarmState", hasAlarmState),
        ("lightStates", lightStates), ("normals", Arr(normals)),
        ("planes", Arr(seq(|planes|, k requires 0 <= k < |planes| => PlaneValue(planes[k])))),
        ("surfaces", surfaces), ("points", points), ("pointViss", pointViss), ("texGenEQs", texGenEQs),
        ("BSPNodes", bspNodes), ("BSPSolidLeaves", bspSolidLeaves), ("materials", materials),
        ("convexHullEmitStrings", Arr(lists.convexHullEmitStrings)), ("hullIndices", Arr(lists.hullIndices)),
        ("hullPlaneIndices", Arr(lists.hullPlaneIndices)), ("hullEmitStringIndices", Arr(lists.hullEmitStringIndices)),
        ("hullSurfaceIndices", Arr(lists.hullSurfaceIndices)), ("polyListPlanes", Arr(lists.polyListPlanes)),
        ("polyListPoints", Arr(lists.polyListPoints)), ("polyListStrings", Arr(lists.polyListStrings)),
        ("convexHulls", Arr(seq(|hulls|, k requires 0 <= k < |hulls| => HullValue(hulls[k]))))])
  }

  /** `DifFinalizers.Interior`: `new Interior(s)`. */
  function InteriorFinalizer(s: Value): Result<Value> {
    var it :- InteriorOf(s);
    Ok(InteriorValue(it))
  }

  // ---------------------------------------------------------------------
  // `new Dif(s)`

  /** `s.DetailLevels[i].Interior`. */
  function DetailInterior(levels: Value, i: nat): Result<Value> {
    var level :- Element(levels, Int(i));
    Member(level, "Interior")
  }

  /** The `interiors` of `new Dif(s)`: one per detail level below `numDetailLevels`. */
  function DifOf(s: Value): Result<seq<Value>> {
    var count :- Member(s, "numDetailLevels");
    var n :- LoopCount(count);
    var levels :- Member(s, "DetailLevels");
    Collect(k => DetailInterior(levels, k), 0, n)
  }

  /** The constructor's loop over the detail levels. */
  method NewDif(s: Value) returns (r: Result<seq<Value>>)
    ensures r == DifOf(s)
  {
    var count := Member(s, "numDetailLevels");
    if count.Err? {
      return Err(count.error);
    }
    var n := LoopCount(count.value);
    if n.Err? {
      return Err(n.error);
    }
    var levels := Member(s, "DetailLevels");
    if levels.Err? {
      return Err(levels.error);
    }
    ghost var f := k => DetailInterior(levels.value, k);
    var interiors: seq<Value> := [];
    var i := 0;
    PrefixedNothing(Collect(f, 0, n.value));
    while i < n.value
      invariant 0 <= i <= n.value
      invariant Collect(f, 0, n.value) == Prefixed(interiors, Collect(f, i, n.value))
    {
      var level := Element(levels.value, Int(i));
      if level.Err? {
        return Err(level.error);
      }
      var interior := Member(level.value, "Interior");
      if interior.Err? {
        return Err(interior.error);
      }
      PrefixedStep(interiors, interior.value, Collect(f, i + 1, n.value));
      interiors := interiors + [interior.value];
      i := i + 1;
    }
    PrefixedAll(interiors);
    r := Ok(interiors);
  }

  /**
   * A file record whose detail-level array holds a record for each of its
   * `numDetailLevels` levels gives a `Dif` with exactly those levels'
   * interiors, in order.
   */
  lemma DifKeepsEveryLevel(s: Value, n: nat)
    requires s.Rec? && Get(s.fields, "numDetailLevels") == Int(n)
    requires Get(s.fields, "DetailLevels").Arr? && n <= |Get(s.fields, "DetailLevels").items|
    requires forall k :: 0 <= k < n ==> Get(s.fields, "DetailLevels").items[k].Rec?
    ensures DifOf(s).Ok?
    ensures |DifOf(s).value| == n
    ensures forall k :: 0 <= k < n ==>
      DifOf(s).value[k] == Get(Get(s.fields, "DetailLevels").items[k].fields, "Interior")
  {
    var levels := Get(s.fields, "DetailLevels");
    var f := (k: nat) => DetailInterior(levels, k);
    assert LoopCount(Int(n)) == Ok(n);
    assert DifOf(s) == Collect(f, 0, n);
    forall k | 0 <= k < n
      ensures f(k) == Ok(Get(levels.items[k].fields, "Interior"))
    {
    }
    CollectPointwise(f, 0, n);
  }

  /** A file record claiming more detail levels than its array holds makes `new Dif` throw. */
  lemma DifWithMissingLevelThrows(s: Value, n: nat)
    requires s.Rec? && Get(s.fields, "numDetailLevels") == Int(n)
    requires Get(s.fields, "DetailLevels").Arr? && n > |Get(s.fields, "DetailLevels").items|
    ensures DifOf(s).Err?
  {
    var levels := Get(s.fields, "DetailLevels");
    var f := (k: nat) => DetailInterior(levels, k);
    assert LoopCount(Int(n)) == Ok(n);
    assert DifOf(s) == Collect(f, 0, n);
    assert f(|levels.items|).Err?;
    CollectPointwise(f, 0, n);
  }
}
