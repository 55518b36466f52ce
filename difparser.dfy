/**
 * The fixed-layout interior parser of difParser.ts: `Point3F`, `BoxF`,
 * `SphereF`, `PlaneF`, `TexGenEq`, `Interior` and `InteriorResource`, each
 * loaded from the `Dat` cursor of module DifLoader (difParser.ts repeats that
 * reader, `bytes_match` and the PNG walker of difLoader.ts word for word, so
 * they are modelled once). Pure functions give the byte layout of every
 * record; the loading methods are proved to build objects that hold exactly
 * what the layout says and to leave the cursor after the last byte read.
 */
module DifParser {
  import opened Wrappers
  import opened DifValues
  import opened DifRead
  import opened DifLoader

  /** The coordinates of a `Point3F`, as read. */
  datatype P3 = P3(x: Float, y: Float, z: Float) {
    /** The coordinates of `inverted`: each one negated. */
    function Negated(): P3 {
      P3(x.Negate(), y.Negate(), z.Negate())
    }
  }

  /** Inverting twice gives the coordinates back, bit for bit. */
  lemma NegatedIsInvolution(p: P3)
    ensures p.Negated().Negated() == p
  {
    NegateIsInvolution(p.x);
    NegateIsInvolution(p.y);
    NegateIsInvolution(p.z);
  }

  /** A plane as `PlaneF.load` reads it: a normal, then a distance. */
  datatype PlaneV = PlaneV(normal: P3, distance: Float)
  datatype BoxV = BoxV(low: P3, high: P3)
  datatype SphereV = SphereV(center: P3, radius: Float)
  datatype TexGenV = TexGenV(planeX: PlaneV, planeY: PlaneV)
  /** One entry of the interior's plane list: an index into `normals`, then a distance. */
  datatype PlaneRecord = PlaneRecord(normalIndex: nat, distance: Float)
  /** The object literals of the BSP node and solid leaf lists. */
  datatype BSPNode = BSPNode(planeIndex: nat, frontIndex: nat, backIndex: nat)
  datatype SolidLeaf = SolidLeaf(surfaceIndex: nat, surfaceCount: nat)

  // ---------------------------------------------------------------------
  // Byte layout

  function PointAt(buf: seq<Byte>, le: bool, pos: int): (r: Result<P3>)
    ensures r.Ok? <==> InBounds(buf, pos, 12)
    ensures r.Err? ==> r.error == RangeError
  {
    var x :- FloatAt(buf, le, pos, false);
    var y :- FloatAt(buf, le, pos + 4, false);
    var z :- FloatAt(buf, le, pos + 8, false);
    Ok(P3(x, y, z))
  }

  function PlaneAt(buf: seq<Byte>, le: bool, pos: int): (r: Result<PlaneV>)
    ensures r.Ok? <==> InBounds(buf, pos, 16)
    ensures r.Err? ==> r.error == RangeError
  {
    var normal :- PointAt(buf, le, pos);
    var distance :- FloatAt(buf, le, pos + 12, false);
    Ok(PlaneV(normal, distance))
  }

  function BoxAt(buf: seq<Byte>, le: bool, pos: int): (r: Result<BoxV>)
    ensures r.Ok? <==> InBounds(buf, pos, 24)
    ensures r.Err? ==> r.error == RangeError
  {
    var low :- PointAt(buf, le, pos);
    var high :- PointAt(buf, le, pos + 12);
    Ok(BoxV(low, high))
  }

  function SphereAt(buf: seq<Byte>, le: bool, pos: int): (r: Result<SphereV>)
    ensures r.Ok? <==> InBounds(buf, pos, 16)
    ensures r.Err? ==> r.error == RangeError
  {
    var center :- PointAt(buf, le, pos);
    var radius :- FloatAt(buf, le, pos + 12, false);
    Ok(SphereV(center, radius))
  }

  function TexGenAt(buf: seq<Byte>, le: bool, pos: int): (r: Result<TexGenV>)
    ensures r.Ok? <==> InBounds(buf, pos, 32)
    ensures r.Err? ==> r.error == RangeError
  {
    var planeX :- PlaneAt(buf, le, pos);
    var planeY :- PlaneAt(buf, le, pos + 16);
    Ok(TexGenV(planeX, planeY))
  }

  /** The u32 normal index is read before the f32 distance. */
  function PlaneRecordAt(buf: seq<Byte>, le: bool, pos: int): (r: Result<PlaneRecord>)
    ensures r.Ok? <==> InBounds(buf, pos, 8)
    ensures r.Ok? ==> r.value.normalIndex == Unsigned(buf[pos..pos + 4], le)
    ensures r.Ok? ==> r.value.distance == F32(Unsigned(buf[pos + 4..pos + 8], le))
  {
    var index :- UnsignedAt(buf, le, pos, 4);
    var distance :- FloatAt(buf, le, pos + 4, false);
    Ok(PlaneRecord(index, distance))
  }

  function VisibilityAt(buf: seq<Byte>, le: bool, pos: int): (r: Result<nat>)
    ensures r.Ok? <==> InBounds(buf, pos, 1)
    ensures r.Ok? ==> r.value == buf[pos]
  {
    if InBounds(buf, pos, 1) then ByteAt(buf, le, pos); UnsignedAt(buf, le, pos, 1)
    else UnsignedAt(buf, le, pos, 1)
  }

  /** A BSP node: u16 plane index, then u32 front and u32 back index. */
  function NodeAt(buf: seq<Byte>, le: bool, pos: int): (r: Result<BSPNode>)
    ensures r.Ok? <==> InBounds(buf, pos, 10)
    ensures r.Ok? ==> r.value == BSPNode(Unsigned(buf[pos..pos + 2], le),
      Unsigned(buf[pos + 2..pos + 6], le), Unsigned(buf[pos + 6..pos + 10], le))
  {
    var planeIndex :- UnsignedAt(buf, le, pos, 2);
    var frontIndex :- UnsignedAt(buf, le, pos + 2, 4);
    var backIndex :- UnsignedAt(buf, le, pos + 6, 4);
    Ok(BSPNode(planeIndex, frontIndex, backIndex))
  }

  /** A solid leaf: u32 surface index, then u16 surface count. */
  function LeafAt(buf: seq<Byte>, le: bool, pos: int): (r: Result<SolidLeaf>)
    ensures r.Ok? <==> InBounds(buf, pos, 6)
    ensures r.Ok? ==> r.value == SolidLeaf(Unsigned(buf[pos..pos + 4], le), Unsigned(buf[pos + 4..pos + 6], le))
  {
    var surfaceIndex :- UnsignedAt(buf, le, pos, 4);
    var surfaceCount :- UnsignedAt(buf, le, pos + 4, 2);
    Ok(SolidLeaf(surfaceIndex, surfaceCount))
  }

  /** The list readers, as values of function type, so each layout is named once. */
  function Points(buf: seq<Byte>, le: bool): int -> Result<P3> {
    pos => PointAt(buf, le, pos)
  }

  /**
   * One plane of `mPlanes[i] = new PlaneF(normals[d.readUint32()], d.readFloat32())`
   * with `numNormals` normals loaded: the record read, or the TypeError the
   * constructor raises (see NewPlaneAsWritten) when the distance is falsy
   * (+0, -0 or NaN) and the index selects a normal.
   */
  function PlaneEntryAt(buf: seq<Byte>, le: bool, numNormals: nat, pos: int): (r: Result<PlaneRecord>)
    ensures PlaneRecordAt(buf, le, pos).Err? ==> r == PlaneRecordAt(buf, le, pos)
    ensures PlaneRecordAt(buf, le, pos).Ok? ==>
      var rec := PlaneRecordAt(buf, le, pos).value;
      (!rec.distance.Truthy() && rec.normalIndex < numNormals ==> r == Err(TypeError("d.readFloat32 is not a function")))
      && (rec.distance.Truthy() || rec.normalIndex >= numNormals ==> r == Ok(rec))
  {
    var rec :- PlaneRecordAt(buf, le, pos);
    if !rec.distance.Truthy() && rec.normalIndex < numNormals then Err(TypeError("d.readFloat32 is not a function"))
    else Ok(rec)
  }

  function PlaneRecords(buf: seq<Byte>, le: bool, numNormals: nat): int -> Result<PlaneRecord> {
    pos => PlaneEntryAt(buf, le, numNormals, pos)
  }

  function Visibilities(buf: seq<Byte>, le: bool): int -> Result<nat> {
    pos => VisibilityAt(buf, le, pos)
  }

  function TexGens(buf: seq<Byte>, le: bool): int -> Result<TexGenV> {
    pos => TexGenAt(buf, le, pos)
  }

  function Nodes(buf: seq<Byte>, le: bool): int -> Result<BSPNode> {
    pos => NodeAt(buf, le, pos)
  }

  function Leaves(buf: seq<Byte>, le: bool): int -> Result<SolidLeaf> {
    pos => LeafAt(buf, le, pos)
  }

  /**
   * What `for (let i = 0; i < n; i++) xs[i] = <read>` gives for records of
   * `size` bytes starting at `pos`: the records in order, or the error of
   * the first read that fails.
   */
  function Records<T>(n: nat, pos: int, size: nat, item: int -> Result<T>): (r: Result<seq<T>>)
    ensures r.Ok? ==> |r.value| == n
    decreases n, 0
  {
    if n == 0 then Ok([]) else RecordsThen(n - 1, pos, size, item)
  }

  /** The first `k` records, then record `k`. */
  function RecordsThen<T>(k: nat, pos: int, size: nat, item: int -> Result<T>): (r: Result<seq<T>>)
    ensures r.Ok? ==> |r.value| == k + 1
    decreases k, 1
  {
    var xs :- Records(k, pos, size, item);
    var x :- item(pos + k * size);
    Ok(xs + [x])
  }

  /** Record `k` of a list that was read is the record at `pos + k * size`. */
  lemma {:induction false} RecordsElement<T>(n: nat, pos: int, size: nat, item: int -> Result<T>, k: nat)
    requires k < n && Records(n, pos, size, item).Ok?
    ensures item(pos + k * size).Ok?
    ensures Records(n, pos, size, item).value[k] == item(pos + k * size).value
  {
    if k < n - 1 {
      RecordsElement(n - 1, pos, size, item, k);
    }
  }

  /** A list whose every record can be read is read whole. */
  lemma {:induction false} RecordsComplete<T>(n: nat, pos: int, size: nat, item: int -> Result<T>)
    requires forall k :: 0 <= k < n ==> item(pos + k * size).Ok?
    ensures Records(n, pos, size, item).Ok?
  {
    if n > 0 {
      RecordsComplete(n - 1, pos, size, item);
    }
  }

  /** Once a read has failed, reading on does not change the outcome: the first error stands. */
  lemma {:induction false} RecordsFailure<T>(m: nat, n: nat, pos: int, size: nat, item: int -> Result<T>)
    requires m <= n && Records(m, pos, size, item).Err?
    ensures Records(n, pos, size, item) == Records(m, pos, size, item)
  {
    if m < n {
      RecordsFailure(m, n - 1, pos, size, item);
    }
  }

  /** A u32 count, then that many records: the list and the cursor after it. */
  function CountedAt<T>(buf: seq<Byte>, le: bool, pos: int, size: nat, item: int -> Result<T>): (r: Result<(seq<T>, int)>)
    ensures r.Ok? ==> r.value.1 == pos + 4 + |r.value.0| * size
  {
    var n :- UnsignedAt(buf, le, pos, 4);
    var xs :- Records(n, pos + 4, size, item);
    Ok((xs, pos + 4 + n * size))
  }

  /** The seven counted lists of an interior, in reading order. */
  datatype InteriorLists = InteriorLists(
    normals: seq<P3>, planes: seq<PlaneRecord>, points: seq<P3>, visibilities: seq<nat>,
    texGenEqs: seq<TexGenV>, nodes: seq<BSPNode>, leaves: seq<SolidLeaf>)

  /** Everything `Interior.load` reads, in reading order. */
  datatype InteriorData = InteriorData(
    version: nat, detailLevel: nat, minPixels: nat,
    box: BoxV, sphere: SphereV, hasAlarmState: bool, numLightStateEntries: nat, lists: InteriorLists)

  /** The bytes the lists occupy: each list with its u32 count. */
  function ListsSize(l: InteriorLists): nat {
    (4 + 12 * |l.normals|) + (4 + 8 * |l.planes|) + (4 + 12 * |l.points|)
    + (4 + |l.visibilities|) + (4 + 32 * |l.texGenEqs|) + (4 + 10 * |l.nodes|) + (4 + 6 * |l.leaves|)
  }

  /** The bytes an interior occupies: the fixed 57-byte header, then the lists. */
  function InteriorSize(v: InteriorData): nat {
    12 + 24 + 16 + 1 + 4 + ListsSize(v.lists)
  }

  /** The lists part of `Interior.load`: the lists and the cursor after them. */
  function ListsAt(buf: seq<Byte>, le: bool, pos: int): (r: Result<(InteriorLists, int)>)
    ensures r.Ok? ==> r.value.1 == pos + ListsSize(r.value.0)
  {
    var normals :- CountedAt(buf, le, pos, 12, Points(buf, le));
    var planes :- CountedAt(buf, le, normals.1, 8, PlaneRecords(buf, le, |normals.0|));
    var points :- CountedAt(buf, le, planes.1, 12, Points(buf, le));
    var visibilities :- CountedAt(buf, le, points.1, 1, Visibilities(buf, le));
    var texGenEqs :- CountedAt(buf, le, visibilities.1, 32, TexGens(buf, le));
    var nodes :- CountedAt(buf, le, texGenEqs.1, 10, Nodes(buf, le));
    var leaves :- CountedAt(buf, le, nodes.1, 6, Leaves(buf, le));
    Ok((InteriorLists(normals.0, planes.0, points.0, visibilities.0, texGenEqs.0, nodes.0, leaves.0), leaves.1))
  }

  /** `Interior.load`: the interior and the cursor after it. */
  function InteriorAt(buf: seq<Byte>, le: bool, pos: int): (r: Result<(InteriorData, int)>)
    ensures r.Ok? ==> r.value.1 == pos + InteriorSize(r.value.0)
  {
    var version :- UnsignedAt(buf, le, pos, 4);
    var detailLevel :- UnsignedAt(buf, le, pos + 4, 4);
    var minPixels :- UnsignedAt(buf, le, pos + 8, 4);
    var box :- BoxAt(buf, le, pos + 12);
    var sphere :- SphereAt(buf, le, pos + 36);
    var alarm :- UnsignedAt(buf, le, pos + 52, 1);
    var lights :- UnsignedAt(buf, le, pos + 53, 4);
    var lists :- ListsAt(buf, le, pos + 57);
    Ok((InteriorData(version, detailLevel, minPixels, box, sphere, alarm != 0, lights, lists.0), lists.1))
  }

  /** `n` interiors one after the other: the interiors and the cursor after the last. */
  function InteriorsAt(buf: seq<Byte>, le: bool, pos: int, n: nat): (r: Result<(seq<InteriorData>, int)>)
    ensures r.Ok? ==> |r.value.0| == n
    decreases n, 0
  {
    if n == 0 then Ok(([], pos)) else InteriorsThen(buf, le, pos, n - 1)
  }

  /** The first `k` interiors, then the one after them. */
  function InteriorsThen(buf: seq<Byte>, le: bool, pos: int, k: nat): (r: Result<(seq<InteriorData>, int)>)
    ensures r.Ok? ==> |r.value.0| == k + 1
    decreases k, 1
  {
    var xs :- InteriorsAt(buf, le, pos, k);
    var x :- InteriorAt(buf, le, xs.1);
    Ok((xs.0 + [x.0], x.1))
  }

  /** Once an interior cannot be read, reading on does not change the outcome. */
  lemma {:induction false} InteriorsFailure(buf: seq<Byte>, le: bool, pos: int, m: nat, n: nat)
    requires m <= n && InteriorsAt(buf, le, pos, m).Err?
    ensures InteriorsAt(buf, le, pos, n) == InteriorsAt(buf, le, pos, m)
  {
    if m < n {
      InteriorsFailure(buf, le, pos, m, n - 1);
      assert InteriorsAt(buf, le, pos, n) == InteriorsThen(buf, le, pos, n - 1);
    }
  }

  /** The interiors lie back to back, each `InteriorSize` bytes long. */
  lemma {:induction false} InteriorsAreContiguous(buf: seq<Byte>, le: bool, pos: int, n: nat)
    requires InteriorsAt(buf, le, pos, n).Ok?
    ensures var r := InteriorsAt(buf, le, pos, n).value;
      r.1 == pos + InteriorsSize(r.0)
  {
    if n > 0 {
      InteriorsAreContiguous(buf, le, pos, n - 1);
      var xs := InteriorsAt(buf, le, pos, n - 1).value;
      var x := InteriorAt(buf, le, xs.1).value;
      assert InteriorsAt(buf, le, pos, n) == InteriorsThen(buf, le, pos, n - 1);
      InteriorsSizeAppend(xs.0, x.0);
    }
  }

  function InteriorsSize(vs: seq<InteriorData>): nat {
    if vs == [] then 0 else InteriorsSize(vs[..|vs| - 1]) + InteriorSize(vs[|vs| - 1])
  }

  lemma InteriorsSizeAppend(vs: seq<InteriorData>, v: InteriorData)
    ensures InteriorsSize(vs + [v]) == InteriorsSize(vs) + InteriorSize(v)
  {
    assert (vs + [v])[..|vs|] == vs;
  }

  datatype ResourceData = ResourceData(
    version: nat, previewIncluded: bool, preview: Option<PngImage>, interiors: seq<InteriorData>)

  /** The cursor after the preview flag and, when it is set, the preview image. */
  function PreviewAt(buf: seq<Byte>, le: bool, pos: int, included: bool): Result<(Option<PngImage>, int)> {
    if included then
      var png :- PngAt(buf, le, pos);
      Ok((Some(png.0), png.1))
    else Ok((None, pos))
  }

  /** A u32 count, then that many interiors. */
  function CountedInteriorsAt(buf: seq<Byte>, le: bool, pos: int): (r: Result<(seq<InteriorData>, int)>)
    ensures r.Ok? ==> UnsignedAt(buf, le, pos, 4) == Ok(|r.value.0|)
  {
    var n :- UnsignedAt(buf, le, pos, 4);
    InteriorsAt(buf, le, pos + 4, n)
  }

  /** `InteriorResource.load`. */
  function ResourceAt(buf: seq<Byte>, le: bool, pos: int): (r: Result<(ResourceData, int)>)
    ensures r.Ok? ==> InBounds(buf, pos, 5) && r.value.0.previewIncluded == (buf[pos + 4] != 0)
    ensures r.Ok? ==> (r.value.0.preview.Some? <==> r.value.0.previewIncluded)
  {
    var version :- UnsignedAt(buf, le, pos, 4);
    var flag :- UnsignedAt(buf, le, pos + 4, 1);
    ByteAt(buf, le, pos + 4);
    var preview :- PreviewAt(buf, le, pos + 5, flag != 0);
    var interiors :- CountedInteriorsAt(buf, le, preview.1);
    Ok((ResourceData(version, flag != 0, preview.0, interiors.0), interiors.1))
  }

  // ---------------------------------------------------------------------
  // The objects

  /** A `Point3F`. Its coordinates are never reassigned; only its inverse is cached. */
  class Point3F {
    const x: Float
    const y: Float
    const z: Float
    var invCache: Point3F?

    constructor(x: Float, y: Float, z: Float)
      ensures this.x == x && this.y == y && this.z == z && invCache == null
    {
      this.x := x;
      this.y := y;
      this.z := z;
      invCache := null;
    }

    function Value(): P3 {
      P3(x, y, z)
    }

    /** The cache is empty, or it holds the inverse, which points back here. */
    ghost predicate Paired()
      reads this, invCache
    {
      invCache != null ==> invCache.invCache == this && invCache.Value() == Value().Negated()
    }

    /** The `inverted` getter: computed on the first access, the cached object on every later one. */
    method Inverted() returns (r: Point3F)
      modifies this
      ensures r == invCache
      ensures old(invCache) != null ==> r == old(invCache)
      ensures old(invCache) == null ==> fresh(r) && r.Value() == Value().Negated() && r.invCache == this
      ensures old(invCache == null || Paired()) ==> Paired()
    {
      if invCache != null {
        return invCache;
      }
      r := new Point3F(x.Negate(), y.Negate(), z.Negate());
      r.invCache := this;
      invCache := r;
    }
  }

  /** `p.inverted.inverted` is `p` itself, and `p.inverted` has the negated coordinates. */
  method PointInvertedTwice(p: Point3F) returns (q: Point3F, back: Point3F)
    requires p.invCache == null || p.Paired()
    modifies p, p.invCache
    ensures q.Value() == p.Value().Negated() && back == p
  {
    q := p.Inverted();
    back := q.Inverted();
  }

  /**
   * A `PlaneF`. A field the source leaves `undefined` is null (`normal`:
   * an index past the end of the interior's normals) or None (`distance`:
   * the constructor stores no distance when it is falsy).
   */
  class PlaneF {
    const normal: Point3F?
    const distance: Option<Float>
    var invCache: PlaneF?

    /** A plane with these fields; `NewPlaneF` is `new PlaneF(normal, dis)`. */
    constructor(normal: Point3F?, distance: Option<Float>)
      ensures this.normal == normal && this.distance == distance && invCache == null
    {
      this.normal := normal;
      this.distance := distance;
      invCache := null;
    }

    /** The plane `PlaneF.load` reads, when this is one. */
    predicate Holds(v: PlaneV) {
      normal != null && normal.Value() == v.normal && distance == Some(v.distance)
    }

    /** The cache is empty, or it holds the inverse, which points back here. */
    ghost predicate Paired()
      reads this, invCache, normal
    {
      invCache != null ==>
        invCache.invCache == this && distance.Some? && invCache.distance == Some(distance.value.Negate())
        && normal != null && invCache.normal == normal.invCache
    }

    /**
     * The `inverted` getter: the cached plane, or `new PlaneF(normal.inverted,
     * -distance)` pointing back here. An undefined normal fails reading
     * `inverted`; a falsy distance (or none, as `-undefined` is NaN) makes the
     * constructor fail, after the normal has cached its inverse.
     */
    method Inverted() returns (r: Result<PlaneF>)
      modifies this, normal
      ensures old(invCache) != null ==>
        r == Ok(old(invCache)) && invCache == old(invCache)
        && (normal != null ==> normal.invCache == old(normal.invCache))
      ensures old(invCache) == null && normal == null ==> r == Err(TypeError("cannot read 'inverted' of undefined"))
      ensures old(invCache) == null && normal != null ==>
        (old(normal.invCache) != null ==> normal.invCache == old(normal.invCache))
        && (old(normal.invCache) == null ==> fresh(normal.invCache) && normal.invCache.Value() == normal.Value().Negated())
        && (old(normal.invCache == null || normal.Paired()) ==> normal.Paired())
      ensures old(invCache) == null && normal != null && !(distance.Some? && distance.value.Truthy()) ==>
        r == Err(TypeError("d.readFloat32 is not a function")) && invCache == null
      ensures old(invCache) == null && normal != null && distance.Some? && distance.value.Truthy() ==>
        r.Ok? && fresh(r.value) && invCache == r.value && r.value.invCache == this
        && r.value.distance == Some(distance.value.Negate()) && r.value.normal == normal.invCache
      ensures old(invCache == null && (normal != null ==> normal.invCache == null || normal.Paired())) ==> Paired()
    {
      if invCache != null {
        return Ok(invCache);
      }
      if normal == null {
        return Err(TypeError("cannot read 'inverted' of undefined"));
      }
      var n := normal.Inverted();
      var p := NewPlaneF(n, if distance.Some? then distance.value.Negate() else UndefinedNegated);
      NegateKeepsTruthiness(if distance.Some? then distance.value else UndefinedNegated);
      if p.Err? {
        return Err(p.error);
      }
      p.value.invCache := this;
      invCache := p.value;
      r := p;
    }
  }

  /** `-undefined`: NaN, as a double. */
  const UndefinedNegated := F64(0x7FF8_0000_0000_0000)

  /** The value of a normal that may be undefined. */
  function NormalValue(normal: Point3F?): Option<P3> {
    if normal == null then None else Some(normal.Value())
  }

  /**
   * `new PlaneF(normal, dis)`: `super(dis ? null : d)` hands the normal to
   * the stream loader when `dis` is falsy, which fails on a `Point3F` and
   * loads nothing from undefined; the fields are stored only when `dis` is
   * truthy. The stored fields are those of NewPlaneAsWritten.
   */
  method NewPlaneF(normal: Point3F?, dis: Float) returns (r: Result<PlaneF>)
    ensures r.Ok? <==> NewPlaneAsWritten(NormalValue(normal), dis).Ok?
    ensures r.Err? ==> r.error == TypeError("d.readFloat32 is not a function")
    ensures r.Ok? ==>
      fresh(r.value) && r.value.normal == normal && r.value.invCache == null
      && r.value.distance == NewPlaneAsWritten(NormalValue(normal), dis).value.1
  {
    if dis.Truthy() {
      var p := new PlaneF(normal, Some(dis));
      return Ok(p);
    }
    if normal != null {
      return Err(TypeError("d.readFloat32 is not a function"));
    }
    var p := new PlaneF(null, None);
    r := Ok(p);
  }

  /**
   * `p.inverted.inverted` is `p` itself, for a plane with a normal and a
   * truthy distance; with a falsy one the first `inverted` fails.
   */
  method PlaneInvertedTwice(p: PlaneF) returns (q: Result<PlaneF>, back: Result<PlaneF>)
    requires p.invCache == null && p.normal != null
    requires p.normal.invCache == null || p.normal.Paired()
    modifies p, p.normal, p.normal.invCache
    ensures q.Ok? <==> p.distance.Some? && p.distance.value.Truthy()
    ensures q.Ok? ==> q.value.distance == Some(p.distance.value.Negate()) && back == Ok(p)
    ensures q.Err? ==> q == back == Err(TypeError("d.readFloat32 is not a function"))
  {
    q := p.Inverted();
    if q.Err? {
      return q, q;
    }
    back := q.value.Inverted();
  }

  // `new PlaneF(normal, dis)` as written tests `dis` for truthiness: a
  // distance of +0, -0 or NaN sends the first argument, a `Point3F`, down
  // the stream-loading path, where `new Point3F(d)` calls `d.readFloat32`,
  // which a `Point3F` does not have. An undefined normal loads nothing.
  // Values: the stored (normal, distance), None for a field left undefined.

  /** The `PlaneF` constructor on a normal and a distance, as written. */
  function NewPlaneAsWritten(normal: Option<P3>, dis: Float): (r: Result<(Option<P3>, Option<Float>)>)
    ensures dis.Truthy() ==> r == Ok((normal, Some(dis)))
    ensures !dis.Truthy() ==> (r.Err? <==> normal.Some?)
  {
    if dis.Truthy() then Ok((normal, Some(dis)))
    else if normal.Some? then Err(TypeError("d.readFloat32 is not a function"))
    else Ok((None, None))
  }

  /** A plane through the origin (distance +0) cannot be built as written. */
  lemma PlaneThroughOriginFails()
    ensures NewPlaneAsWritten(Some(P3(F32(0), F32(0), F32(0x3F80_0000))), F32(0)).Err?
  {
  }

  /** As written, inverting a plane whose distance is -0 fails too, though the plane loaded. */
  lemma InvertingZeroDistanceFails(p: P3)
    ensures NewPlaneAsWritten(Some(p), F32(0x8000_0000)).Err?
    ensures NewPlaneAsWritten(Some(p.Negated()), F32(0x8000_0000).Negate()).Err?
  {
  }

  /** The constructor as evidently intended: the normal and the distance are both stored. */
  function NewPlane(normal: Option<P3>, dis: Float): (r: Result<(Option<P3>, Option<Float>)>)
    ensures r.Ok? && r.value.1 == Some(dis) && r.value.0 == normal
  {
    Ok((normal, Some(dis)))
  }

  /**
   * With the intended constructor every plane with a normal can be
   * inverted, and inverting the inverse gives the plane back.
   */
  lemma {:induction false} NewPlaneInvertsTwice(normal: P3, dis: Float)
    ensures var inv := NewPlane(Some(normal.Negated()), dis.Negate());
      inv.Ok? && inv.value.0.Some? && inv.value.1.Some?
      && NewPlane(Some(inv.value.0.value.Negated()), inv.value.1.value.Negate()) == NewPlane(Some(normal), dis)
  {
    NegatedIsInvolution(normal);
    NegateIsInvolution(dis);
  }

  /** The two constructors agree exactly on a truthy distance. */
  lemma NewPlaneAgreesOnTruthy(normal: Option<P3>, dis: Float)
    ensures NewPlaneAsWritten(normal, dis) == NewPlane(normal, dis) <==> dis.Truthy()
  {
  }

  class BoxF {
    const low: Point3F
    const high: Point3F

    constructor(low: Point3F, high: Point3F)
      ensures this.low == low && this.high == high
    {
      this.low := low;
      this.high := high;
    }

    predicate Holds(v: BoxV) {
      low.Value() == v.low && high.Value() == v.high
    }
  }

  class SphereF {
    const center: Point3F
    const radius: Float

    constructor(center: Point3F, radius: Float)
      ensures this.center == center && this.radius == radius
    {
      this.center := center;
      this.radius := radius;
    }

    predicate Holds(v: SphereV) {
      center.Value() == v.center && radius == v.radius
    }
  }

  class TexGenEq {
    const planeX: PlaneF
    const planeY: PlaneF

    constructor(planeX: PlaneF, planeY: PlaneF)
      ensures this.planeX == planeX && this.planeY == planeY
    {
      this.planeX := planeX;
      this.planeY := planeY;
    }

    predicate Holds(v: TexGenV) {
      planeX.Holds(v.planeX) && planeY.Holds(v.planeY)
    }
  }

  // ---------------------------------------------------------------------
  // The `load` methods

  method LoadPoint(dat: Dat) returns (r: Result<Point3F>)
    modifies dat`i
    ensures var spec := PointAt(dat.d, dat.littleEndian, old(dat.i));
      (r.Ok? <==> spec.Ok?) && (r.Err? ==> r.error == spec.error)
      && (r.Ok? ==> fresh(r.value) && r.value.invCache == null && r.value.Value() == spec.value && dat.i == old(dat.i) + 12)
  {
    var x := dat.ReadFloat32();
    if x.Err? {
      return Err(x.error);
    }
    var y := dat.ReadFloat32();
    if y.Err? {
      return Err(y.error);
    }
    var z := dat.ReadFloat32();
    if z.Err? {
      return Err(z.error);
    }
    var o := new Point3F(x.value, y.value, z.value);
    r := Ok(o);
  }

  /** `new PlaneF(d)`: the stream path, a normal and then a distance. */
  method LoadPlane(dat: Dat) returns (r: Result<PlaneF>)
    modifies dat`i
    ensures var spec := PlaneAt(dat.d, dat.littleEndian, old(dat.i));
      (r.Ok? <==> spec.Ok?) && (r.Err? ==> r.error == spec.error)
      && (r.Ok? ==> fresh(r.value) && r.value.Holds(spec.value) && dat.i == old(dat.i) + 16)
  {
    var normal := LoadPoint(dat);
    if normal.Err? {
      return Err(normal.error);
    }
    var distance := dat.ReadFloat32();
    if distance.Err? {
      return Err(distance.error);
    }
    var o := new PlaneF(normal.value, Some(distance.value));
    r := Ok(o);
  }

  method LoadBox(dat: Dat) returns (r: Result<BoxF>)
    modifies dat`i
    ensures var spec := BoxAt(dat.d, dat.littleEndian, old(dat.i));
      (r.Ok? <==> spec.Ok?) && (r.Err? ==> r.error == spec.error)
      && (r.Ok? ==> fresh(r.value) && r.value.Holds(spec.value) && dat.i == old(dat.i) + 24)
  {
    var low := LoadPoint(dat);
    if low.Err? {
      return Err(low.error);
    }
    var high := LoadPoint(dat);
    if high.Err? {
      return Err(high.error);
    }
    var o := new BoxF(low.value, high.value);
    r := Ok(o);
  }

  method LoadSphere(dat: Dat) returns (r: Result<SphereF>)
    modifies dat`i
    ensures var spec := SphereAt(dat.d, dat.littleEndian, old(dat.i));
      (r.Ok? <==> spec.Ok?) && (r.Err? ==> r.error == spec.error)
      && (r.Ok? ==> fresh(r.value) && r.value.Holds(spec.value) && dat.i == old(dat.i) + 16)
  {
    var center := LoadPoint(dat);
    if center.Err? {
      return Err(center.error);
    }
    var radius := dat.ReadFloat32();
    if radius.Err? {
      return Err(radius.error);
    }
    var o := new SphereF(center.value, radius.value);
    r := Ok(o);
  }

  method LoadTexGen(dat: Dat) returns (r: Result<TexGenEq>)
    modifies dat`i
    ensures var spec := TexGenAt(dat.d, dat.littleEndian, old(dat.i));
      (r.Ok? <==> spec.Ok?) && (r.Err? ==> r.error == spec.error)
      && (r.Ok? ==> fresh(r.value) && r.value.Holds(spec.value) && dat.i == old(dat.i) + 32)
  {
    var planeX := LoadPlane(dat);
    if planeX.Err? {
      return Err(planeX.error);
    }
    var planeY := LoadPlane(dat);
    if planeY.Err? {
      return Err(planeY.error);
    }
    var o := new TexGenEq(planeX.value, planeY.value);
    r := Ok(o);
  }

  predicate HoldPoints(ps: seq<Point3F>, vs: seq<P3>) {
    |ps| == |vs| && forall k :: 0 <= k < |ps| ==> ps[k].Value() == vs[k]
  }

  /** `normals[index]`: undefined (null) past the end. */
  function NormalAt(normals: seq<Point3F>, index: nat): Point3F? {
    if index < |normals| then normals[index] else null
  }

  /** The distance `new PlaneF(normal, dis)` stores: none when `dis` is falsy. */
  function StoredDistance(dis: Float): Option<Float> {
    if dis.Truthy() then Some(dis) else None
  }

  /**
   * Each plane shares the normal object its index selects and stores the
   * distance read, when that is truthy.
   */
  predicate HoldPlanes(planes: seq<PlaneF>, normals: seq<Point3F>, recs: seq<PlaneRecord>) {
    |planes| == |recs| && forall k :: 0 <= k < |planes| ==>
      planes[k].normal == NormalAt(normals, recs[k].normalIndex) && planes[k].distance == StoredDistance(recs[k].distance)
  }

  lemma HoldPlanesSnoc(planes: seq<PlaneF>, normals: seq<Point3F>, recs: seq<PlaneRecord>, p: PlaneF, recs': seq<PlaneRecord>)
    requires HoldPlanes(planes, normals, recs) && |recs'| == |recs| + 1 && recs'[..|recs|] == recs
    requires p.normal == NormalAt(normals, recs'[|recs|].normalIndex) && p.distance == StoredDistance(recs'[|recs|].distance)
    ensures HoldPlanes(planes + [p], normals, recs')
  {
    forall k | 0 <= k < |planes| + 1
      ensures (planes + [p])[k].normal == NormalAt(normals, recs'[k].normalIndex)
      ensures (planes + [p])[k].distance == StoredDistance(recs'[k].distance)
    {
      if k < |planes| {
        assert recs'[k] == recs'[..|recs|][k];
      }
    }
  }

  predicate HoldTexGens(ts: seq<TexGenEq>, vs: seq<TexGenV>) {
    |ts| == |vs| && forall k :: 0 <= k < |ts| ==> ts[k].Holds(vs[k])
  }

  lemma HoldTexGensSnoc(ts: seq<TexGenEq>, vs: seq<TexGenV>, t: TexGenEq, ws: seq<TexGenV>)
    requires HoldTexGens(ts, vs) && |ws| == |vs| + 1 && ws[..|vs|] == vs && t.Holds(ws[|vs|])
    ensures HoldTexGens(ts + [t], ws)
  {
    forall k | 0 <= k < |ts| + 1
      ensures (ts + [t])[k].Holds(ws[k])
    {
      if k < |ts| {
        assert ws[k] == ws[..|vs|][k];
      }
    }
  }

  // Each list is read by a loop whose passes are separate methods, so that a
  // loop's own proof sees only the list so far and never a record's layout.

  /** One pass of `for (..) xs[i] = new Point3F(d)`. */
  method LoadNextPoint(dat: Dat, ghost start: int, ghost k: nat, ghost vs: seq<P3>) returns (r: Result<Point3F>, ghost ws: seq<P3>)
    requires dat.i == start + 12 * k && Records(k, start, 12, Points(dat.d, dat.littleEndian)) == Ok(vs)
    modifies dat`i
    ensures var spec := Records(k + 1, start, 12, Points(dat.d, dat.littleEndian));
      (r.Ok? <==> spec.Ok?) && (r.Err? ==> r.error == spec.error)
      && (r.Ok? ==> fresh(r.value) && spec.value == ws && ws == vs + [r.value.Value()] && dat.i == old(dat.i) + 12)
  {
    assert start + (k + 1 - 1) * 12 == dat.i;
    assert Points(dat.d, dat.littleEndian)(dat.i) == PointAt(dat.d, dat.littleEndian, dat.i);
    r := LoadPoint(dat);
    ws := if r.Ok? then vs + [r.value.Value()] else vs;
  }

  /** `for (..) xs[i] = new Point3F(d)`, `n` times. */
  method LoadPoints(dat: Dat) returns (r: Result<seq<Point3F>>)
    modifies dat`i
    ensures var spec := CountedAt(dat.d, dat.littleEndian, old(dat.i), 12, Points(dat.d, dat.littleEndian));
      (r.Ok? <==> spec.Ok?) && (r.Err? ==> r.error == spec.error)
      && (r.Ok? ==> HoldPoints(r.value, spec.value.0) && dat.i == spec.value.1
                    && forall o :: o in r.value ==> fresh(o))
  {
    var count := dat.ReadUint32();
    if count.Err? {
      return Err(count.error);
    }
    var n := count.value;
    ghost var start := dat.i;
    var ps: seq<Point3F> := [];
    ghost var vs: seq<P3> := [];
    var k := 0;
    while k < n
      invariant 0 <= k <= n && |ps| == k
      invariant dat.i == start + 12 * k
      invariant HoldPoints(ps, vs)
      invariant forall o :: o in ps ==> fresh(o)
      invariant Records(k, start, 12, Points(dat.d, dat.littleEndian)) == Ok(vs)
    {
      var p;
      p, vs := LoadNextPoint(dat, start, k, vs);
      if p.Err? {
        RecordsFailure(k + 1, n, start, 12, Points(dat.d, dat.littleEndian));
        return Err(p.error);
      }
      ps := ps + [p.value];
      k := k + 1;
    }
    r := Ok(ps);
  }

  method LoadPlaneRecord(dat: Dat) returns (r: Result<PlaneRecord>)
    modifies dat`i
    ensures r == PlaneRecordAt(dat.d, dat.littleEndian, old(dat.i)) && (r.Ok? ==> dat.i == old(dat.i) + 8)
  {
    var index := dat.ReadUint32();
    if index.Err? {
      return Err(index.error);
    }
    var distance := dat.ReadFloat32();
    if distance.Err? {
      return Err(distance.error);
    }
    r := Ok(PlaneRecord(index.value, distance.value));
  }

  /** One pass of `for (..) mPlanes[i] = new PlaneF(normals[d.readUint32()], d.readFloat32())`. */
  method LoadNextPlane(dat: Dat, normals: seq<Point3F>, ghost start: int, ghost k: nat, ghost recs: seq<PlaneRecord>)
    returns (r: Result<PlaneF>, ghost recs': seq<PlaneRecord>)
    requires dat.i == start + 8 * k && Records(k, start, 8, PlaneRecords(dat.d, dat.littleEndian, |normals|)) == Ok(recs)
    modifies dat`i
    ensures var spec := Records(k + 1, start, 8, PlaneRecords(dat.d, dat.littleEndian, |normals|));
      (r.Ok? <==> spec.Ok?) && (r.Err? ==> r.error == spec.error)
      && (r.Ok? ==> fresh(r.value) && spec.value == recs' && |recs'| == k + 1 && recs'[..k] == recs
                    && r.value.normal == NormalAt(normals, recs'[k].normalIndex)
                    && r.value.distance == StoredDistance(recs'[k].distance)
                    && dat.i == old(dat.i) + 8)
  {
    assert PlaneRecords(dat.d, dat.littleEndian, |normals|)(dat.i) == PlaneEntryAt(dat.d, dat.littleEndian, |normals|, dat.i);
    var rec := LoadPlaneRecord(dat);
    if rec.Err? {
      return Err(rec.error), recs;
    }
    var plane := NewPlaneF(NormalAt(normals, rec.value.normalIndex), rec.value.distance);
    if plane.Err? {
      return Err(plane.error), recs;
    }
    r, recs' := plane, recs + [rec.value];
    assert recs'[..k] == recs;
  }

  /** `this.numPlanes = d.readUint32()`, then the plane loop. */
  method LoadPlanes(dat: Dat, normals: seq<Point3F>) returns (r: Result<seq<PlaneF>>)
    modifies dat`i
    ensures var spec := CountedAt(dat.d, dat.littleEndian, old(dat.i), 8, PlaneRecords(dat.d, dat.littleEndian, |normals|));
      (r.Ok? <==> spec.Ok?) && (r.Err? ==> r.error == spec.error)
      && (r.Ok? ==> HoldPlanes(r.value, normals, spec.value.0) && dat.i == spec.value.1
                    && forall o :: o in r.value ==> fresh(o))
  {
    var count := dat.ReadUint32();
    if count.Err? {
      return Err(count.error);
    }
    r := LoadPlaneList(dat, normals, count.value);
  }

  /** `for (..) mPlanes[i] = new PlaneF(normals[d.readUint32()], d.readFloat32())`, `n` times. */
  method LoadPlaneList(dat: Dat, normals: seq<Point3F>, n: nat) returns (r: Result<seq<PlaneF>>)
    modifies dat`i
    ensures var spec := Records(n, old(dat.i), 8, PlaneRecords(dat.d, dat.littleEndian, |normals|));
      (r.Ok? <==> spec.Ok?) && (r.Err? ==> r.error == spec.error)
      && (r.Ok? ==> HoldPlanes(r.value, normals, spec.value) && dat.i == old(dat.i) + 8 * n
                    && forall o :: o in r.value ==> fresh(o))
  {
    ghost var start := dat.i;
    var planes: seq<PlaneF> := [];
    ghost var recs: seq<PlaneRecord> := [];
    var k := 0;
    while k < n
      invariant 0 <= k <= n && |planes| == k
      invariant dat.i == start + 8 * k
      invariant HoldPlanes(planes, normals, recs)
      invariant forall o :: o in planes ==> fresh(o)
      invariant Records(k, start, 8, PlaneRecords(dat.d, dat.littleEndian, |normals|)) == Ok(recs)
    {
      var plane;
      ghost var recs' := recs;
      plane, recs := LoadNextPlane(dat, normals, start, k, recs);
      if plane.Err? {
        RecordsFailure(k + 1, n, start, 8, PlaneRecords(dat.d, dat.littleEndian, |normals|));
        return Err(plane.error);
      }
      HoldPlanesSnoc(planes, normals, recs', plane.value, recs);
      planes := planes + [plane.value];
      k := k + 1;
    }
    r := Ok(planes);
  }

  /** One pass of `for (..) mPointVisibilities[i] = d.readUint8()`. */
  method LoadNextVisibility(dat: Dat, ghost start: int, ghost k: nat, vs: seq<nat>) returns (r: Result<seq<nat>>)
    requires dat.i == start + k && Records(k, start, 1, Visibilities(dat.d, dat.littleEndian)) == Ok(vs)
    modifies dat`i
    ensures r == Records(k + 1, start, 1, Visibilities(dat.d, dat.littleEndian)) && (r.Ok? ==> dat.i == old(dat.i) + 1)
  {
    assert Visibilities(dat.d, dat.littleEndian)(dat.i) == VisibilityAt(dat.d, dat.littleEndian, dat.i);
    var b := dat.ReadUint8();
    if b.Err? {
      return Err(b.error);
    }
    r := Ok(vs + [b.value]);
  }

  /** `for (..) mPointVisibilities[i] = d.readUint8()`, `n` times. */
  method LoadVisibilities(dat: Dat) returns (r: Result<seq<nat>>)
    modifies dat`i
    ensures Settles(CountedAt(dat.d, dat.littleEndian, old(dat.i), 1, Visibilities(dat.d, dat.littleEndian)), r, dat.i)
  {
    var count := dat.ReadUint32();
    if count.Err? {
      return Err(count.error);
    }
    var n := count.value;
    ghost var start := dat.i;
    var vs: seq<nat> := [];
    var k := 0;
    while k < n
      invariant 0 <= k <= n
      invariant dat.i == start + k
      invariant Records(k, start, 1, Visibilities(dat.d, dat.littleEndian)) == Ok(vs)
    {
      var next := LoadNextVisibility(dat, start, k, vs);
      if next.Err? {
        RecordsFailure(k + 1, n, start, 1, Visibilities(dat.d, dat.littleEndian));
        return next;
      }
      vs := next.value;
      k := k + 1;
    }
    r := Ok(vs);
  }

  /** One pass of `for (..) mTexGenEqs[i] = new TexGenEq(d)`. */
  method LoadNextTexGen(dat: Dat, ghost start: int, ghost k: nat, ghost vs: seq<TexGenV>)
    returns (r: Result<TexGenEq>, ghost ws: seq<TexGenV>)
    requires dat.i == start + 32 * k && Records(k, start, 32, TexGens(dat.d, dat.littleEndian)) == Ok(vs)
    modifies dat`i
    ensures var spec := Records(k + 1, start, 32, TexGens(dat.d, dat.littleEndian));
      (r.Ok? <==> spec.Ok?) && (r.Err? ==> r.error == spec.error)
      && (r.Ok? ==> fresh(r.value) && spec.value == ws && |ws| == k + 1 && ws[..k] == vs && r.value.Holds(ws[k])
                    && dat.i == old(dat.i) + 32)
  {
    assert TexGens(dat.d, dat.littleEndian)(dat.i) == TexGenAt(dat.d, dat.littleEndian, dat.i);
    var t := LoadTexGen(dat);
    if t.Err? {
      return Err(t.error), vs;
    }
    r, ws := t, vs + [TexGenAt(dat.d, dat.littleEndian, old(dat.i)).value];
    assert ws[..k] == vs;
  }

  /** `for (..) mTexGenEqs[i] = new TexGenEq(d)`, `n` times. */
  method LoadTexGens(dat: Dat) returns (r: Result<seq<TexGenEq>>)
    modifies dat`i
    ensures var spec := CountedAt(dat.d, dat.littleEndian, old(dat.i), 32, TexGens(dat.d, dat.littleEndian));
      (r.Ok? <==> spec.Ok?) && (r.Err? ==> r.error == spec.error)
      && (r.Ok? ==> HoldTexGens(r.value, spec.value.0) && dat.i == spec.value.1
                    && forall o :: o in r.value ==> fresh(o))
  {
    var count := dat.ReadUint32();
    if count.Err? {
      return Err(count.error);
    }
    var n := count.value;
    ghost var start := dat.i;
    var ts: seq<TexGenEq> := [];
    ghost var vs: seq<TexGenV> := [];
    var k := 0;
    while k < n
      invariant 0 <= k <= n && |ts| == k
      invariant dat.i == start + 32 * k
      invariant HoldTexGens(ts, vs)
      invariant forall o :: o in ts ==> fresh(o)
      invariant Records(k, start, 32, TexGens(dat.d, dat.littleEndian)) == Ok(vs)
    {
      var t;
      ghost var before := vs;
      t, vs := LoadNextTexGen(dat, start, k, vs);
      if t.Err? {
        RecordsFailure(k + 1, n, start, 32, TexGens(dat.d, dat.littleEndian));
        return Err(t.error);
      }
      HoldTexGensSnoc(ts, before, t.value, vs);
      ts := ts + [t.value];
      k := k + 1;
    }
    r := Ok(ts);
  }

  /** `{ planeIndex: d.readUint16(), frontIndex: d.readUint32(), backIndex: d.readUint32() }` */
  method LoadNode(dat: Dat) returns (r: Result<BSPNode>)
    modifies dat`i
    ensures r == NodeAt(dat.d, dat.littleEndian, old(dat.i)) && (r.Ok? ==> dat.i == old(dat.i) + 10)
  {
    var planeIndex := dat.ReadUint16();
    if planeIndex.Err? {
      return Err(planeIndex.error);
    }
    var frontIndex := dat.ReadUint32();
    if frontIndex.Err? {
      return Err(frontIndex.error);
    }
    var backIndex := dat.ReadUint32();
    if backIndex.Err? {
      return Err(backIndex.error);
    }
    r := Ok(BSPNode(planeIndex.value, frontIndex.value, backIndex.value));
  }

  /** One pass of the BSP node loop. */
  method LoadNextNode(dat: Dat, ghost start: int, ghost k: nat, nodes: seq<BSPNode>) returns (r: Result<seq<BSPNode>>)
    requires dat.i == start + 10 * k && Records(k, start, 10, Nodes(dat.d, dat.littleEndian)) == Ok(nodes)
    modifies dat`i
    ensures r == Records(k + 1, start, 10, Nodes(dat.d, dat.littleEndian)) && (r.Ok? ==> dat.i == old(dat.i) + 10)
  {
    assert Nodes(dat.d, dat.littleEndian)(dat.i) == NodeAt(dat.d, dat.littleEndian, dat.i);
    var node := LoadNode(dat);
    if node.Err? {
      return Err(node.error);
    }
    r := Ok(nodes + [node.value]);
  }

  /** The BSP node loop, `n` times. */
  method LoadNodes(dat: Dat) returns (r: Result<seq<BSPNode>>)
    modifies dat`i
    ensures Settles(CountedAt(dat.d, dat.littleEndian, old(dat.i), 10, Nodes(dat.d, dat.littleEndian)), r, dat.i)
  {
    var count := dat.ReadUint32();
    if count.Err? {
      return Err(count.error);
    }
    var n := count.value;
    ghost var start := dat.i;
    var nodes: seq<BSPNode> := [];
    var k := 0;
    while k < n
      invariant 0 <= k <= n
      invariant dat.i == start + 10 * k
      invariant Records(k, start, 10, Nodes(dat.d, dat.littleEndian)) == Ok(nodes)
    {
      var next := LoadNextNode(dat, start, k, nodes);
      if next.Err? {
        RecordsFailure(k + 1, n, start, 10, Nodes(dat.d, dat.littleEndian));
        return next;
      }
      nodes := next.value;
      k := k + 1;
    }
    r := Ok(nodes);
  }

  /** `{ surfaceIndex: d.readUint32(), surfaceCount: d.readUint16() }` */
  method LoadLeaf(dat: Dat) returns (r: Result<SolidLeaf>)
    modifies dat`i
    ensures r == LeafAt(dat.d, dat.littleEndian, old(dat.i)) && (r.Ok? ==> dat.i == old(dat.i) + 6)
  {
    var surfaceIndex := dat.ReadUint32();
    if surfaceIndex.Err? {
      return Err(surfaceIndex.error);
    }
    var surfaceCount := dat.ReadUint16();
    if surfaceCount.Err? {
      return Err(surfaceCount.error);
    }
    r := Ok(SolidLeaf(surfaceIndex.value, surfaceCount.value));
  }

  /** One pass of the solid leaf loop. */
  method LoadNextLeaf(dat: Dat, ghost start: int, ghost k: nat, leaves: seq<SolidLeaf>) returns (r: Result<seq<SolidLeaf>>)
    requires dat.i == start + 6 * k && Records(k, start, 6, Leaves(dat.d, dat.littleEndian)) == Ok(leaves)
    modifies dat`i
    ensures r == Records(k + 1, start, 6, Leaves(dat.d, dat.littleEndian)) && (r.Ok? ==> dat.i == old(dat.i) + 6)
  {
    assert Leaves(dat.d, dat.littleEndian)(dat.i) == LeafAt(dat.d, dat.littleEndian, dat.i);
    var leaf := LoadLeaf(dat);
    if leaf.Err? {
      return Err(leaf.error);
    }
    r := Ok(leaves + [leaf.value]);
  }

  /** The solid leaf loop, `n` times. */
  method LoadLeaves(dat: Dat) returns (r: Result<seq<SolidLeaf>>)
    modifies dat`i
    ensures Settles(CountedAt(dat.d, dat.littleEndian, old(dat.i), 6, Leaves(dat.d, dat.littleEndian)), r, dat.i)
  {
    var count := dat.ReadUint32();
    if count.Err? {
      return Err(count.error);
    }
    var n := count.value;
    ghost var start := dat.i;
    var leaves: seq<SolidLeaf> := [];
    var k := 0;
    while k < n
      invariant 0 <= k <= n
      invariant dat.i == start + 6 * k
      invariant Records(k, start, 6, Leaves(dat.d, dat.littleEndian)) == Ok(leaves)
    {
      var next := LoadNextLeaf(dat, start, k, leaves);
      if next.Err? {
        RecordsFailure(k + 1, n, start, 6, Leaves(dat.d, dat.littleEndian));
        return next;
      }
      leaves := next.value;
      k := k + 1;
    }
    r := Ok(leaves);
  }

  // ---------------------------------------------------------------------
  // Interior

  /** An `Interior`. Each list's `num...` count is the length of the list. */
  class Interior {
    const interiorFileVersion: nat
    const detailLevel: nat
    const minPixels: nat
    const boundingBox: BoxF
    const boundingSphere: SphereF
    const hasAlarmState: bool
    const numLightStateEntries: nat
    const normals: seq<Point3F>
    const mPlanes: seq<PlaneF>
    const mPoints: seq<Point3F>
    const mPointVisibilities: seq<nat>
    const mTexGenEqs: seq<TexGenEq>
    const mBSPNodes: seq<BSPNode>
    const mBSPSolidLeaves: seq<SolidLeaf>

    constructor(interiorFileVersion: nat, detailLevel: nat, minPixels: nat,
                boundingBox: BoxF, boundingSphere: SphereF, hasAlarmState: bool, numLightStateEntries: nat,
                normals: seq<Point3F>, mPlanes: seq<PlaneF>, mPoints: seq<Point3F>, mPointVisibilities: seq<nat>,
                mTexGenEqs: seq<TexGenEq>, mBSPNodes: seq<BSPNode>, mBSPSolidLeaves: seq<SolidLeaf>)
      ensures this.interiorFileVersion == interiorFileVersion && this.detailLevel == detailLevel
      ensures this.minPixels == minPixels && this.boundingBox == boundingBox && this.boundingSphere == boundingSphere
      ensures this.hasAlarmState == hasAlarmState && this.numLightStateEntries == numLightStateEntries
      ensures this.normals == normals && this.mPlanes == mPlanes && this.mPoints == mPoints
      ensures this.mPointVisibilities == mPointVisibilities && this.mTexGenEqs == mTexGenEqs
      ensures this.mBSPNodes == mBSPNodes && this.mBSPSolidLeaves == mBSPSolidLeaves
    {
      this.interiorFileVersion := interiorFileVersion;
      this.detailLevel := detailLevel;
      this.minPixels := minPixels;
      this.boundingBox := boundingBox;
      this.boundingSphere := boundingSphere;
      this.hasAlarmState := hasAlarmState;
      this.numLightStateEntries := numLightStateEntries;
      this.normals := normals;
      this.mPlanes := mPlanes;
      this.mPoints := mPoints;
      this.mPointVisibilities := mPointVisibilities;
      this.mTexGenEqs := mTexGenEqs;
      this.mBSPNodes := mBSPNodes;
      this.mBSPSolidLeaves := mBSPSolidLeaves;
    }

    /** The interior `Interior.load` reads, when this is one. */
    predicate Holds(v: InteriorData) {
      interiorFileVersion == v.version && detailLevel == v.detailLevel && minPixels == v.minPixels
      && boundingBox.Holds(v.box) && boundingSphere.Holds(v.sphere)
      && hasAlarmState == v.hasAlarmState && numLightStateEntries == v.numLightStateEntries
      && HoldLists((normals, mPlanes, mPoints, mPointVisibilities, mTexGenEqs, mBSPNodes, mBSPSolidLeaves), v.lists)
    }

    /**
     * `getPlane(n)`: plane `n`, or, when bit 0x8000 of `n` is set, the
     * `inverted` plane of plane `n & 0x7fff`. A plain index past the end
     * gives `undefined` (null); an inverted one fails reading `inverted`.
     */
    method GetPlane(n: int) returns (r: Result<PlaneF?>)
      modifies if RefInverted(n) && RefIndex(n) < |mPlanes| then {mPlanes[RefIndex(n)], mPlanes[RefIndex(n)].normal} else {}
      ensures !RefInverted(n) ==> r == Ok(if 0 <= n < |mPlanes| then mPlanes[n] else null)
      ensures RefInverted(n) && RefIndex(n) >= |mPlanes| ==> r == Err(TypeError("cannot read 'inverted' of undefined"))
      ensures RefInverted(n) && RefIndex(n) < |mPlanes| ==>
        var p := mPlanes[RefIndex(n)];
        (old(p.invCache) != null ==> r == Ok(old(p.invCache)))
        && (old(p.invCache) == null && p.normal == null ==> r.Err?)
        && (old(p.invCache) == null && p.normal != null && !(p.distance.Some? && p.distance.value.Truthy()) ==>
              r == Err(TypeError("d.readFloat32 is not a function")))
        && (old(p.invCache) == null && p.normal != null && p.distance.Some? && p.distance.value.Truthy() ==>
              r.Ok? && r.value != null && fresh(r.value) && r.value.invCache == p && p.invCache == r.value
              && r.value.distance == Some(p.distance.value.Negate()) && r.value.normal == p.normal.invCache
              && (old(p.normal.invCache == null || p.normal.Paired()) ==>
                    r.value.normal != null && r.value.normal.Value() == p.normal.Value().Negated()))
    {
      if RefInverted(n) {
        var i := RefIndex(n);
        if i >= |mPlanes| {
          return Err(TypeError("cannot read 'inverted' of undefined"));
        }
        var q := mPlanes[i].Inverted();
        if q.Err? {
          return Err(q.error);
        }
        return Ok(q.value);
      }
      if 0 <= n < |mPlanes| {
        return Ok(mPlanes[n]);
      }
      r := Ok(null);
    }
  }

  /** The loaded lists of an interior, in reading order. */
  type ListObjects = (seq<Point3F>, seq<PlaneF>, seq<Point3F>, seq<nat>, seq<TexGenEq>, seq<BSPNode>, seq<SolidLeaf>)

  /** Each loaded list holds what the layout says; the planes share the loaded normals. */
  predicate HoldLists(o: ListObjects, l: InteriorLists) {
    HoldPoints(o.0, l.normals) && HoldPlanes(o.1, o.0, l.planes) && HoldPoints(o.2, l.points)
    && o.3 == l.visibilities && HoldTexGens(o.4, l.texGenEqs) && o.5 == l.nodes && o.6 == l.leaves
  }

  /** The seven list loops of `Interior.load`. */
  method LoadLists(dat: Dat) returns (r: Result<ListObjects>)
    modifies dat`i
    ensures var spec := ListsAt(dat.d, dat.littleEndian, old(dat.i));
      (r.Ok? <==> spec.Ok?) && (r.Err? ==> r.error == spec.error)
      && (r.Ok? ==> HoldLists(r.value, spec.value.0) && dat.i == spec.value.1)
  {
    var normals := LoadPoints(dat);
    if normals.Err? {
      return Err(normals.error);
    }
    var planes := LoadPlanes(dat, normals.value);
    if planes.Err? {
      return Err(planes.error);
    }
    var points := LoadPoints(dat);
    if points.Err? {
      return Err(points.error);
    }
    var visibilities := LoadVisibilities(dat);
    if visibilities.Err? {
      return Err(visibilities.error);
    }
    var texGenEqs := LoadTexGens(dat);
    if texGenEqs.Err? {
      return Err(texGenEqs.error);
    }
    var nodes := LoadNodes(dat);
    if nodes.Err? {
      return Err(nodes.error);
    }
    var leaves := LoadLeaves(dat);
    if leaves.Err? {
      return Err(leaves.error);
    }
    r := Ok((normals.value, planes.value, points.value, visibilities.value, texGenEqs.value, nodes.value, leaves.value));
  }

  /**
   * `Interior.load`: the header, then the seven counted lists. The object is
   * assembled once everything has been read.
   */
  method LoadInterior(dat: Dat) returns (r: Result<Interior>)
    modifies dat`i
    ensures var spec := InteriorAt(dat.d, dat.littleEndian, old(dat.i));
      (r.Ok? <==> spec.Ok?) && (r.Err? ==> r.error == spec.error)
      && (r.Ok? ==> fresh(r.value) && r.value.Holds(spec.value.0) && dat.i == spec.value.1)
  {
    var version := dat.ReadUint32();
    if version.Err? {
      return Err(version.error);
    }
    var detailLevel := dat.ReadUint32();
    if detailLevel.Err? {
      return Err(detailLevel.error);
    }
    var minPixels := dat.ReadUint32();
    if minPixels.Err? {
      return Err(minPixels.error);
    }
    var box := LoadBox(dat);
    if box.Err? {
      return Err(box.error);
    }
    var sphere := LoadSphere(dat);
    if sphere.Err? {
      return Err(sphere.error);
    }
    var alarm := dat.ReadBoolean();
    if alarm.Err? {
      return Err(alarm.error);
    }
    var lights := dat.ReadUint32();
    if lights.Err? {
      return Err(lights.error);
    }
    var lists := LoadLists(dat);
    if lists.Err? {
      return Err(lists.error);
    }
    var l := lists.value;
    var o := new Interior(version.value, detailLevel.value, minPixels.value, box.value, sphere.value,
      alarm.value, lights.value, l.0, l.1, l.2, l.3, l.4, l.5, l.6);
    r := Ok(o);
  }

  // ---------------------------------------------------------------------
  // InteriorResource

  predicate HoldInteriors(objs: seq<Interior>, vs: seq<InteriorData>) {
    |objs| == |vs| && forall k :: 0 <= k < |objs| ==> objs[k].Holds(vs[k])
  }

  /** An `InteriorResource`: `numDetailLevels` objs the length of `interiors`. */
  class InteriorResource {
    const interiorResourceFileVersion: nat
    const previewIncluded: bool
    /** `previewBitmap`: absent (undefined) when no preview objs included. */
    const previewBitmap: Option<PngImage>
    const interiors: seq<Interior>

    constructor(interiorResourceFileVersion: nat, previewIncluded: bool, previewBitmap: Option<PngImage>, interiors: seq<Interior>)
      ensures this.interiorResourceFileVersion == interiorResourceFileVersion && this.previewIncluded == previewIncluded
      ensures this.previewBitmap == previewBitmap && this.interiors == interiors
    {
      this.interiorResourceFileVersion := interiorResourceFileVersion;
      this.previewIncluded := previewIncluded;
      this.previewBitmap := previewBitmap;
      this.interiors := interiors;
    }

    /** The resource `InteriorResource.load` reads, when this objs one. */
    predicate Holds(v: ResourceData) {
      interiorResourceFileVersion == v.version && previewIncluded == v.previewIncluded
      && previewBitmap == v.preview && HoldInteriors(interiors, v.interiors)
    }
  }

  /** One pass of `for (..) this.interiors[i] = new Interior(d)`. */
  method LoadNextInterior(dat: Dat, ghost start: int, ghost k: nat, objs: seq<Interior>, ghost vs: seq<InteriorData>)
    returns (r: Result<seq<Interior>>, ghost ws: seq<InteriorData>)
    requires InteriorsAt(dat.d, dat.littleEndian, start, k) == Ok((vs, dat.i)) && HoldInteriors(objs, vs)
    modifies dat`i
    ensures var spec := InteriorsAt(dat.d, dat.littleEndian, start, k + 1);
      (r.Ok? <==> spec.Ok?) && (r.Err? ==> r.error == spec.error)
      && (r.Ok? ==> spec.value == (ws, dat.i) && HoldInteriors(r.value, ws))
  {
    ghost var pos := dat.i;
    var o := LoadInterior(dat);
    if o.Err? {
      return Err(o.error), vs;
    }
    ws := vs + [InteriorAt(dat.d, dat.littleEndian, pos).value.0];
    r := Ok(objs + [o.value]);
  }

  /** `if (this.previewIncluded) this.previewBitmap = new PNG(d)`. */
  method LoadPreview(dat: Dat, included: bool) returns (r: Result<Option<PngImage>>)
    modifies dat`i
    ensures Settles(PreviewAt(dat.d, dat.littleEndian, old(dat.i), included), r, dat.i)
  {
    if !included {
      return Ok(None);
    }
    var png := LoadPng(dat);
    if png.Err? {
      return Err(png.error);
    }
    r := Ok(Some(png.value));
  }

  /** `for (..) this.interiors[i] = new Interior(d)`, `n` times. */
  method LoadInteriorList(dat: Dat, n: nat) returns (r: Result<seq<Interior>>)
    modifies dat`i
    ensures var spec := InteriorsAt(dat.d, dat.littleEndian, old(dat.i), n);
      (r.Ok? <==> spec.Ok?) && (r.Err? ==> r.error == spec.error)
      && (r.Ok? ==> HoldInteriors(r.value, spec.value.0) && dat.i == spec.value.1)
  {
    ghost var start := dat.i;
    var objs: seq<Interior> := [];
    ghost var vs: seq<InteriorData> := [];
    var k := 0;
    while k < n
      invariant 0 <= k <= n
      invariant InteriorsAt(dat.d, dat.littleEndian, start, k) == Ok((vs, dat.i))
      invariant HoldInteriors(objs, vs)
    {
      var next;
      next, vs := LoadNextInterior(dat, start, k, objs, vs);
      if next.Err? {
        InteriorsFailure(dat.d, dat.littleEndian, start, k + 1, n);
        return Err(next.error);
      }
      objs := next.value;
      k := k + 1;
    }
    r := Ok(objs);
  }

  /** `this.numDetailLevels = d.readUint32()`, then `for (..) this.interiors[i] = new Interior(d)`. */
  method LoadInteriors(dat: Dat) returns (r: Result<seq<Interior>>)
    modifies dat`i
    ensures var spec := CountedInteriorsAt(dat.d, dat.littleEndian, old(dat.i));
      (r.Ok? <==> spec.Ok?) && (r.Err? ==> r.error == spec.error)
      && (r.Ok? ==> HoldInteriors(r.value, spec.value.0) && dat.i == spec.value.1)
  {
    var count := dat.ReadUint32();
    if count.Err? {
      return Err(count.error);
    }
    r := LoadInteriorList(dat, count.value);
  }

  /** `InteriorResource.load`: the header, the optional preview, then the interiors. */
  method LoadInteriorResource(dat: Dat) returns (r: Result<InteriorResource>)
    modifies dat`i
    ensures var spec := ResourceAt(dat.d, dat.littleEndian, old(dat.i));
      (r.Ok? <==> spec.Ok?) && (r.Err? ==> r.error == spec.error)
      && (r.Ok? ==> fresh(r.value) && r.value.Holds(spec.value.0) && dat.i == spec.value.1)
  {
    var version := dat.ReadUint32();
    if version.Err? {
      return Err(version.error);
    }
    var included := dat.ReadBoolean();
    if included.Err? {
      return Err(included.error);
    }
    var preview := LoadPreview(dat, included.value);
    if preview.Err? {
      return Err(preview.error);
    }
    var interiors := LoadInteriors(dat);
    if interiors.Err? {
      return Err(interiors.error);
    }
    var o := new InteriorResource(version.value, included.value, preview.value, interiors.value);
    r := Ok(o);
  }
}
