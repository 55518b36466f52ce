/**
 * The reference reading of a byte buffer (difLoader.ts): what each `Dat`
 * read returns at a cursor position and where it leaves the cursor,
 * `bytes_match`, the PNG chunk walk, and the `readStruct` interpreter.
 * The `Dat` class of module DifLoader is proved to compute these.
 */
module DifRead {
  import opened Wrappers
  import opened JsText
  import opened DifValues

  /** A DataView access of `w` bytes at `pos` stays inside the buffer; otherwise it throws RangeError. */
  predicate InBounds(buf: seq<Byte>, pos: int, w: nat) {
    0 <= pos && pos + w <= |buf|
  }

  function UnsignedAt(buf: seq<Byte>, le: bool, pos: int, w: nat): (r: Result<nat>)
    ensures r.Ok? <==> InBounds(buf, pos, w)
    ensures r.Ok? ==> r.value < Pow256(w)
  {
    if InBounds(buf, pos, w) then Ok(Unsigned(buf[pos..pos + w], le)) else Err(RangeError)
  }

  /** A single byte reads as itself, in either byte order. */
  lemma ByteAt(buf: seq<Byte>, le: bool, pos: int)
    requires InBounds(buf, pos, 1)
    ensures UnsignedAt(buf, le, pos, 1) == Ok(buf[pos])
  {
    assert buf[pos..pos + 1] == [buf[pos]];
  }

  function SignedAt(buf: seq<Byte>, le: bool, pos: int, w: nat): (r: Result<int>)
    requires w > 0
    ensures r.Ok? <==> InBounds(buf, pos, w)
    ensures r.Ok? ==> -128 * Pow256(w - 1) <= r.value < 128 * Pow256(w - 1)
  {
    if InBounds(buf, pos, w) then Ok(Signed(buf[pos..pos + w], le)) else Err(RangeError)
  }

  function FloatAt(buf: seq<Byte>, le: bool, pos: int, double: bool): (r: Result<Float>)
    ensures r.Ok? <==> InBounds(buf, pos, if double then 8 else 4)
    ensures r.Ok? ==> r.value.F64? == double
  {
    if double then
      if InBounds(buf, pos, 8) then Ok(F64(Unsigned(buf[pos..pos + 8], le))) else Err(RangeError)
    else
      if InBounds(buf, pos, 4) then Ok(F32(Unsigned(buf[pos..pos + 4], le))) else Err(RangeError)
  }

  /**
   * A fixed-width primitive read at `pos`: the value and the new cursor.
   * Every read other than `null` moves the cursor by its width first, so the
   * new cursor is `pos + Width(p)` even when the access throws.
   */
  function FixedAt(buf: seq<Byte>, le: bool, pos: int, p: Prim): (r: Result<Value>)
    requires p != PngPrim
    ensures r.Ok? <==> p == NullPrim || InBounds(buf, pos, Width(p))
  {
    match p
    case U32 => var n :- UnsignedAt(buf, le, pos, 4); Ok(Int(n))
    case U16 => var n :- UnsignedAt(buf, le, pos, 2); Ok(Int(n))
    case U8 => var n :- UnsignedAt(buf, le, pos, 1); Ok(Int(n))
    case S32 => var n :- SignedAt(buf, le, pos, 4); Ok(Int(n))
    case S16 => var n :- SignedAt(buf, le, pos, 2); Ok(Int(n))
    case S8 => var n :- SignedAt(buf, le, pos, 1); Ok(Int(n))
    case Float32 => var f :- FloatAt(buf, le, pos, false); Ok(Flt(f))
    case Float64 => var f :- FloatAt(buf, le, pos, true); Ok(Flt(f))
    case Boolean => var n :- UnsignedAt(buf, le, pos, 1); Ok(Bool(n != 0))
    case NullPrim => Ok(Null)
  }

  /**
   * `bytes_match`: the bytes at `pos` are compared with `s` one by one; the
   * short-circuit `&&` stops reading at the first mismatch. Gives the verdict
   * and the new cursor.
   */
  function MatchAt(buf: seq<Byte>, pos: int, s: seq<int>): Result<(bool, int)>
    decreases |s|
  {
    if s == [] then Ok((true, pos))
    else if !InBounds(buf, pos, 1) then Err(RangeError)
    else if buf[pos] != s[0] then Ok((false, pos + 1))
    else MatchAt(buf, pos + 1, s[1..])
  }

  /** Position `k` is the first at which the bytes at `pos` differ from `s`. */
  predicate FirstMismatch(buf: seq<Byte>, pos: int, s: seq<int>, k: int) {
    0 <= k < |s| && InBounds(buf, pos, k + 1) && buf[pos..pos + k] == s[..k] && buf[pos + k] != s[k]
  }

  /** `bytes_match` is true exactly when every byte equals the expected one; the cursor then moves by the whole length. */
  lemma {:induction false} MatchAtTrue(buf: seq<Byte>, pos: int, s: seq<int>)
    ensures MatchAt(buf, pos, s) == Ok((true, pos + |s|)) <==>
      s == [] || (InBounds(buf, pos, |s|) && buf[pos..pos + |s|] == s)
    ensures MatchAt(buf, pos, s).Ok? && MatchAt(buf, pos, s).value.0 ==> MatchAt(buf, pos, s).value.1 == pos + |s|
    decreases |s|
  {
    if s != [] && InBounds(buf, pos, 1) && buf[pos] == s[0] {
      MatchAtTrue(buf, pos + 1, s[1..]);
      assert s == [s[0]] + s[1..];
      if InBounds(buf, pos, |s|) {
        var w := buf[pos..pos + |s|];
        assert w[0] == buf[pos] && w[1..] == buf[pos + 1..pos + |s|];
        assert w == [w[0]] + w[1..];
      }
    }
  }

  /** When `bytes_match` is false, the cursor stops one past the first mismatching byte. */
  lemma {:induction false} MatchAtFalse(buf: seq<Byte>, pos: int, s: seq<int>)
    requires MatchAt(buf, pos, s).Ok? && !MatchAt(buf, pos, s).value.0
    ensures exists k :: FirstMismatch(buf, pos, s, k) && MatchAt(buf, pos, s).value.1 == pos + k + 1
    decreases |s|
  {
    if buf[pos] != s[0] {
      assert buf[pos..pos] == s[..0];
      assert FirstMismatch(buf, pos, s, 0);
    } else {
      MatchAtFalse(buf, pos + 1, s[1..]);
      var k :| FirstMismatch(buf, pos + 1, s[1..], k) && MatchAt(buf, pos + 1, s[1..]).value.1 == pos + 1 + k + 1;
      assert buf[pos..pos + k + 1] == [buf[pos]] + buf[pos + 1..pos + 1 + k];
      assert s[..k + 1] == [s[0]] + s[1..][..k];
      assert FirstMismatch(buf, pos, s, k + 1);
    }
  }

  /** The PNG file signature (section 5.2 of the PNG specification). */
  const Signature: seq<int> := [137, 80, 78, 71, 13, 10, 26, 10]

  /** `String.fromCharCode` of each byte. */
  function Latin1(bs: seq<Byte>): (s: string)
    ensures |s| == |bs|
    ensures forall k :: 0 <= k < |bs| ==> s[k] as int == bs[k]
  {
    if bs == [] then [] else [bs[0] as char] + Latin1(bs[1..])
  }

  /**
   * `PNG_Chunk.load` at `pos`: a length (in the reader's byte order, not
   * PNG's big-endian), four type bytes, the data skipped, and a CRC.
   */
  function ChunkAt(buf: seq<Byte>, le: bool, pos: int): (r: Result<Chunk>)
    ensures r.Ok? ==> r.value.datastart == pos + 8 && |r.value.typecode| == 4
    ensures r.Ok? ==> InBounds(buf, pos, 12 + r.value.length)
  {
    var length :- UnsignedAt(buf, le, pos, 4);
    if !InBounds(buf, pos + 4, 4) then Err(RangeError)
    else
      var typecode := buf[pos + 4..pos + 8];
      var crc :- UnsignedAt(buf, le, pos + 8 + length, 4);
      Ok(Chunk(length, typecode, Latin1(typecode), pos + 8, crc))
  }

  /** Where the chunk starting at `datastart - 8` ends: 12 bytes of framing plus the data. */
  function ChunkEnd(c: Chunk): int {
    c.datastart + c.length + 4
  }

  /** The loop of `PNG.load`: chunks are read until, and including, the first one typed IEND. */
  function ChunksFrom(buf: seq<Byte>, le: bool, pos: int): (r: Result<(seq<Chunk>, int)>)
    ensures r.Ok? ==> |r.value.0| > 0 && r.value.0[|r.value.0| - 1].typestr == "IEND"
    ensures r.Ok? ==> forall k :: 0 <= k < |r.value.0| - 1 ==> r.value.0[k].typestr != "IEND"
    ensures r.Ok? ==> r.value.1 == ChunkEnd(r.value.0[|r.value.0| - 1]) <= |buf|
    decreases |buf| - pos
  {
    var c :- ChunkAt(buf, le, pos);
    if c.typestr == "IEND" then Ok(([c], ChunkEnd(c)))
    else
      var rest :- ChunksFrom(buf, le, ChunkEnd(c));
      ChunkBeforeIend(c, rest.0);
      Ok(([c] + rest.0, rest.1))
  }

  /** A chunk not typed IEND put before a walk that ends at its first IEND leaves that IEND the first. */
  lemma ChunkBeforeIend(c: Chunk, rest: seq<Chunk>)
    requires c.typestr != "IEND" && |rest| > 0
    requires forall k :: 0 <= k < |rest| - 1 ==> rest[k].typestr != "IEND"
    ensures ([c] + rest)[|rest|] == rest[|rest| - 1]
    ensures forall k :: 0 <= k < |rest| ==> ([c] + rest)[k].typestr != "IEND"
  {
    var cs := [c] + rest;
    forall k | 0 <= k < |rest|
      ensures cs[k].typestr != "IEND"
    {
      if k > 0 {
        assert cs[k] == rest[k - 1];
      }
    }
  }

  /** The chunks lie back to back: each one's data starts 8 bytes after the previous one ends. */
  lemma {:induction false} ChunksAreContiguous(buf: seq<Byte>, le: bool, pos: int)
    requires ChunksFrom(buf, le, pos).Ok?
    ensures var cs := ChunksFrom(buf, le, pos).value.0;
      cs[0].datastart == pos + 8
      && forall k :: 0 <= k < |cs| - 1 ==> cs[k + 1].datastart == ChunkEnd(cs[k]) + 8
    decreases |buf| - pos
  {
    var c := ChunkAt(buf, le, pos).value;
    if c.typestr != "IEND" {
      ChunksAreContiguous(buf, le, ChunkEnd(c));
      var rest := ChunksFrom(buf, le, ChunkEnd(c)).value.0;
      var cs := ChunksFrom(buf, le, pos).value.0;
      assert cs == [c] + rest;
      forall k | 0 <= k < |cs| - 1
        ensures cs[k + 1].datastart == ChunkEnd(cs[k]) + 8
      {
        if k > 0 {
          assert cs[k] == rest[k - 1] && cs[k + 1] == rest[k];
        }
      }
    }
  }

  /** `new PNG(d)` at `pos`: the signature check, then the chunk walk. */
  function PngAt(buf: seq<Byte>, le: bool, pos: int): Result<(PngImage, int)> {
    var sig :- MatchAt(buf, pos, Signature);
    var chunks :- ChunksFrom(buf, le, sig.1);
    Ok((PngImage(sig.0, chunks.0), chunks.1))
  }

  /** A primitive read: the value and the new cursor. */
  function PrimAt(buf: seq<Byte>, le: bool, pos: int, p: Prim): Result<(Value, int)> {
    if p == PngPrim then
      var png :- PngAt(buf, le, pos);
      Ok((Image(png.0), png.1))
    else
      var v :- FixedAt(buf, le, pos, p);
      Ok((v, pos + Width(p)))
  }

  /** `readThing(s)`: calling `primitives[s]`, which throws TypeError when `s` names no primitive. */
  function ThingAt(buf: seq<Byte>, le: bool, pos: int, name: string): Result<(Value, int)> {
    match PrimitiveOf(name)
    case None => Err(TypeError("primitives[" + name + "] is not a function"))
    case Some(p) => PrimAt(buf, le, pos, p)
  }

  /** What `readStruct` reads with: the buffer, the byte order, `structs` and `finalizers`. */
  datatype Env = Env(
    buf: seq<Byte>,
    le: bool,
    structs: map<string, StructDef>,
    finalizers: Option<map<string, Value -> Result<Value>>>)

  /** The state `readStruct` threads along: the record `r`, the name space and the cursor. */
  datatype State = State(rec: seq<(string, Value)>, ns: Namespace, pos: int)

  /** `st` as a definition: an inline one, or the one `structs` holds under a name. */
  function Resolve(env: Env, st: FieldType): Result<StructDef> {
    match st
    case Inline(def) => Ok(def)
    case Named(n) => if n in env.structs then Ok(env.structs[n]) else Err(TypeError("structs[" + n + "] is not iterable"))
    case NoValue => Err(TypeError("cannot read 'push' of undefined"))
  }

  /**
   * `readStruct(st, res, nameSpace)`. `res` is the record to fill (None for
   * `null`, when a fresh one is made). `fuel` bounds the nesting depth,
   * standing for the JavaScript call stack.
   */
  function StructAt(env: Env, fuel: nat, st: FieldType, res: Option<seq<(string, Value)>>, ns: Namespace, pos: int): Result<State>
    decreases fuel, 0, 0
  {
    if fuel == 0 then Err(StackOverflow)
    else
      var def :- Resolve(env, st);
      FieldsAt(env, fuel - 1, def, 0, res.Some?, State(res.GetOr([]), ns, pos))
  }

  /** The loop over the fields of `def`, from field `k` on; `shared` says whether `res` was given. */
  function FieldsAt(env: Env, fuel: nat, def: StructDef, k: nat, shared: bool, s: State): Result<State>
    requires k <= |def|
    decreases fuel, 3, |def| - k
  {
    if k == |def| then Ok(s)
    else
      var s' :- FieldAt(env, fuel, def[k], shared, s);
      FieldsAt(env, fuel, def, k + 1, shared, s')
  }

  /** One pass of the field loop: a field that fails stops it, one that succeeds hands its state on. */
  lemma FieldsAtStep(env: Env, fuel: nat, def: StructDef, k: nat, shared: bool, s: State)
    requires k < |def|
    ensures FieldAt(env, fuel, def[k], shared, s).Err? ==>
      FieldsAt(env, fuel, def, k, shared, s) == Err(FieldAt(env, fuel, def[k], shared, s).error)
    ensures FieldAt(env, fuel, def[k], shared, s).Ok? ==>
      FieldsAt(env, fuel, def, k, shared, s) == FieldsAt(env, fuel, def, k + 1, shared, FieldAt(env, fuel, def[k], shared, s).value)
  {
  }

  /**
   * One field: its raw value, the finalizer named by its type, then the
   * copy into the name space under `globalName` and the store under `key`.
   */
  function FieldAt(env: Env, fuel: nat, f: Field, shared: bool, s: State): (r: Result<State>)
    ensures r.Ok? && f.globalName.Some? ==>
      f.globalName.value in r.value.ns && r.value.ns[f.globalName.value] == Get(r.value.rec, f.key)
    decreases fuel, 2, 1
  {
    var raw :- RawAt(env, fuel, f, shared, s);
    var v :- Finalize(env, f.value, raw.0);
    var ns := if f.globalName.Some? then raw.1.ns[f.globalName.value := v] else raw.1.ns;
    Ok(State(Put(raw.1.rec, f.key, v), ns, raw.1.pos))
  }

  /** `finalizers[sv](tmp)` for a field whose value is a type name (and only then). */
  function Finalize(env: Env, value: FieldType, v: Value): Result<Value> {
    if value.Inline? then Ok(v)
    else
      match env.finalizers
      case None => Err(TypeError("finalizers is undefined"))
      case Some(fins) =>
        var name := if value.Named? then value.name else "undefined";
        if name in fins then fins[name](v) else Ok(v)
  }

  /**
   * `tmp` of a field before its finalizer, and the state after reading it. An
   * uncounted inline definition fills `res` itself (when given) and leaves
   * `tmp` null.
   */
  function RawAt(env: Env, fuel: nat, f: Field, shared: bool, s: State): Result<(Value, State)>
    decreases fuel, 2, 0
  {
    if IsCounted(f) then
      var n :- CountAt(env, f, s);
      if f.value.NoValue? then Err(TypeError("cannot read 'push' of undefined"))
      else
        var a :- ArrayAt(env, fuel, f.value, Iterations(n.0), [], s.ns, n.1);
        Ok((Arr(a.0), State(s.rec, a.1, a.2)))
    else
      match f.value
      case NoValue => Err(TypeError("cannot read 'push' of undefined"))
      case Inline(_) =>
        var inner :- StructAt(env, fuel, f.value, if shared then Some(s.rec) else None, s.ns, s.pos);
        Ok((Null, State(if shared then inner.rec else s.rec, inner.ns, inner.pos)))
      case Named(_) =>
        var e :- ElementAt(env, fuel, f.value, s.ns, s.pos);
        Ok((e.0, State(s.rec, e.1, e.2)))
  }

  /**
   * The count of an array field, and the cursor after it: `count` is read
   * from the stream, else `rcount` names an earlier field of the record,
   * else `ncount` is a constant, else `countf` is evaluated on the name space.
   */
  function CountAt(env: Env, f: Field, s: State): Result<(Num, int)>
    requires IsCounted(f)
  {
    if f.count.Some? then
      var t :- ThingAt(env.buf, env.le, s.pos, f.count.value);
      var n :- ToNumber(t.0);
      Ok((n, t.1))
    else if f.rcount.Some? then
      var n :- ToNumber(Get(s.rec, f.rcount.value));
      Ok((n, s.pos))
    else if f.ncount.Some? then Ok((Whole(f.ncount.value), s.pos))
    else
      var n :- EvalCountF(f.countf.value, s.ns);
      Ok((n, s.pos))
  }

  /** One element of an array field, or the value of an uncounted named field. */
  function ElementAt(env: Env, fuel: nat, value: FieldType, ns: Namespace, pos: int): Result<(Value, Namespace, int)>
    requires !value.NoValue?
    decreases fuel, 1, 0
  {
    if value.Named? && PrimitiveOf(value.name).Some? then
      var p :- PrimAt(env.buf, env.le, pos, PrimitiveOf(value.name).value);
      Ok((p.0, ns, p.1))
    else
      var inner :- StructAt(env, fuel, value, None, ns, pos);
      Ok((Rec(inner.rec), inner.ns, inner.pos))
  }

  /** The counted loop filling an array field: `acc` holds the elements read so far. */
  function ArrayAt(env: Env, fuel: nat, value: FieldType, n: nat, acc: seq<Value>, ns: Namespace, pos: int): (r: Result<(seq<Value>, Namespace, int)>)
    requires !value.NoValue? && |acc| <= n
    ensures r.Ok? ==> |r.value.0| == n && r.value.0[..|acc|] == acc
    decreases fuel, 1, n - |acc|
  {
    if |acc| == n then Ok((acc, ns, pos))
    else
      var e :- ElementAt(env, fuel, value, ns, pos);
      var r := ArrayAt(env, fuel, value, n, acc + [e.0], e.1, e.2);
      if r.Ok? then
        assert r.value.0[..|acc|] == r.value.0[..|acc| + 1][..|acc|];
        r
      else r
  }

  /** `readStructs(struct, n)`: `n` separate records, each with a fresh name space. */
  function StructsAt(env: Env, fuel: nat, st: FieldType, n: nat, acc: seq<Value>, pos: int): (r: Result<(seq<Value>, int)>)
    requires |acc| <= n
    ensures r.Ok? ==> |r.value.0| == n && r.value.0[..|acc|] == acc
    decreases n - |acc|
  {
    if |acc| == n then Ok((acc, pos))
    else
      var s :- StructAt(env, fuel, st, None, map[], pos);
      var r := StructsAt(env, fuel, st, n, acc + [Rec(s.rec)], s.pos);
      if r.Ok? then
        assert r.value.0[..|acc|] == r.value.0[..|acc| + 1][..|acc|];
        r
      else r
  }

  /** `readUint32Structs(struct)`: a u32 count, then that many records. */
  function Uint32StructsAt(env: Env, fuel: nat, st: FieldType, pos: int): Result<(seq<Value>, int)> {
    var n :- UnsignedAt(env.buf, env.le, pos, 4);
    StructsAt(env, fuel, st, n, [], pos + 4)
  }
}

module DifReadFacts {
  import opened Wrappers
  import opened JsText
  import opened DifValues
  import opened DifRead

  /**
   * The count of an array field comes from the first of `count`, `rcount`,
   * `ncount`, `countf` that is present: the later ones are then ignored.
   */
  lemma CountPriority(env: Env, f: Field, s: State)
    requires IsCounted(f)
    ensures f.count.Some? ==> CountAt(env, f, s) == CountAt(env, f.(rcount := None, ncount := None, countf := None), s)
    ensures f.count.None? && f.rcount.Some? ==> CountAt(env, f, s) == CountAt(env, f.(ncount := None, countf := None), s)
    ensures f.count.None? && f.rcount.None? && f.ncount.Some? ==> CountAt(env, f, s) == CountAt(env, f.(countf := None), s)
  {
  }

  /** `gcount` plays no part: a field carrying only `gcount` is read as one value, not an array. */
  lemma GcountIsIgnored(env: Env, fuel: nat, f: Field, shared: bool, s: State)
    ensures FieldAt(env, fuel, f, shared, s) == FieldAt(env, fuel, f.(gcount := None), shared, s)
    ensures !IsCounted(f) && f.value.Named? && FieldAt(env, fuel, f, shared, s).Ok? ==>
      ElementAt(env, fuel, f.value, s.ns, s.pos).Ok?
      && Finalize(env, f.value, ElementAt(env, fuel, f.value, s.ns, s.pos).value.0)
         == Ok(Get(FieldAt(env, fuel, f, shared, s).value.rec, f.key))
  {
    var g := f.(gcount := None);
    assert IsCounted(g) == IsCounted(f);
    if IsCounted(f) {
      assert CountAt(env, f, s) == CountAt(env, g, s);
    }
    assert RawAt(env, fuel, f, shared, s) == RawAt(env, fuel, g, shared, s);
    if !IsCounted(f) && f.value.Named? && FieldAt(env, fuel, f, shared, s).Ok? {
      NamedFieldValue(env, fuel, f, shared, s);
    }
  }

  lemma NamedFieldValue(env: Env, fuel: nat, f: Field, shared: bool, s: State)
    requires !IsCounted(f) && f.value.Named? && FieldAt(env, fuel, f, shared, s).Ok?
    ensures ElementAt(env, fuel, f.value, s.ns, s.pos).Ok?
    ensures Finalize(env, f.value, ElementAt(env, fuel, f.value, s.ns, s.pos).value.0)
         == Ok(Get(FieldAt(env, fuel, f, shared, s).value.rec, f.key))
  {
    var e := ElementAt(env, fuel, f.value, s.ns, s.pos);
    assert RawAt(env, fuel, f, shared, s) == Ok((e.value.0, State(s.rec, e.value.1, e.value.2)));
  }

  /**
   * An array field holds exactly as many elements as its count says, and the
   * type's finalizer (if any) was applied once, to the whole array.
   */
  lemma CountedFieldValue(env: Env, fuel: nat, f: Field, shared: bool, s: State)
    requires IsCounted(f)
    requires FieldAt(env, fuel, f, shared, s).Ok?
    ensures CountAt(env, f, s).Ok?
    ensures exists items: seq<Value> ::
      |items| == Iterations(CountAt(env, f, s).value.0)
      && Finalize(env, f.value, Arr(items)) == Ok(Get(FieldAt(env, fuel, f, shared, s).value.rec, f.key))
  {
    var n := CountAt(env, f, s).value;
    var a := ArrayAt(env, fuel, f.value, Iterations(n.0), [], s.ns, n.1).value;
    assert |a.0| == Iterations(n.0);
  }

  /** Without a shared record, reading a field's raw value leaves the record as it was. */
  lemma RawKeepsRecord(env: Env, fuel: nat, f: Field, s: State)
    requires RawAt(env, fuel, f, false, s).Ok?
    ensures RawAt(env, fuel, f, false, s).value.1.rec == s.rec
  {
  }

  /** The keys a fresh record gets from the definition `def`: each new key goes last. */
  function AddKeys(ks: seq<string>, def: StructDef): seq<string>
    decreases |def|
  {
    if def == [] then ks else AddKeys(if def[0].key in ks then ks else ks + [def[0].key], def[1..])
  }

  lemma {:induction false} FieldsKeepDefinitionOrder(env: Env, fuel: nat, def: StructDef, k: nat, s: State)
    requires k <= |def|
    requires FieldsAt(env, fuel, def, k, false, s).Ok?
    ensures Keys(FieldsAt(env, fuel, def, k, false, s).value.rec) == AddKeys(Keys(s.rec), def[k..])
    decreases |def| - k
  {
    if k < |def| {
      var raw := RawAt(env, fuel, def[k], false, s).value;
      RawKeepsRecord(env, fuel, def[k], s);
      var s' := FieldAt(env, fuel, def[k], false, s).value;
      KeysAfterPut(s.rec, def[k].key, Get(s'.rec, def[k].key));
      FieldsKeepDefinitionOrder(env, fuel, def, k + 1, s');
      assert def[k..][1..] == def[k + 1..];
    }
  }

  /** `readStruct(def)` into a fresh record: its keys are the definition's, in definition order. */
  lemma RecordKeysInDefinitionOrder(env: Env, fuel: nat, def: StructDef, ns: Namespace, pos: int)
    requires StructAt(env, fuel, Inline(def), None, ns, pos).Ok?
    ensures Keys(StructAt(env, fuel, Inline(def), None, ns, pos).value.rec) == AddKeys([], def)
  {
    FieldsKeepDefinitionOrder(env, fuel - 1, def, 0, State([], ns, pos));
    assert def[0..] == def;
  }

  /** The primitive a field reads when it is a single fixed-width value, if it is one. */
  function FixedPrim(f: Field): Option<Prim> {
    if !IsCounted(f) && f.value.Named? && PrimitiveOf(f.value.name).Some? && PrimitiveOf(f.value.name).value != PngPrim
    then PrimitiveOf(f.value.name) else None
  }

  /** The bytes a definition of single fixed-width primitives occupies. */
  function FixedSize(def: StructDef): Option<nat>
    decreases |def|
  {
    if def == [] then Some(0)
    else match (FixedPrim(def[0]), FixedSize(def[1..]))
      case (Some(p), Some(n)) => Some(Width(p) + n)
      case _ => None
  }

  /** No field's type name has a finalizer (and the finalizer table is set). */
  predicate Unfinalized(env: Env, def: StructDef) {
    env.finalizers.Some?
    && forall k :: 0 <= k < |def| && def[k].value.Named? ==> def[k].value.name !in env.finalizers.value
  }

  /**
   * A definition of fixed-width primitives moves the cursor by exactly its size,
   * and reads without error when that many bytes are there and no finalizer applies.
   */
  lemma {:induction false} FixedSizeAdvances(env: Env, fuel: nat, def: StructDef, k: nat, shared: bool, s: State)
    requires k <= |def| && FixedSize(def[k..]).Some?
    ensures FieldsAt(env, fuel, def, k, shared, s).Ok? ==>
      FieldsAt(env, fuel, def, k, shared, s).value.pos == s.pos + FixedSize(def[k..]).value
    ensures Unfinalized(env, def[k..]) && InBounds(env.buf, s.pos, FixedSize(def[k..]).value) ==>
      FieldsAt(env, fuel, def, k, shared, s).Ok?
    decreases |def| - k
  {
    if k < |def| {
      var f := def[k];
      assert def[k..][0] == f && def[k..][1..] == def[k + 1..];
      var p := FixedPrim(f).value;
      var r := FieldAt(env, fuel, f, shared, s);
      assert PrimitiveOf(f.value.name) == Some(p);
      var q := PrimAt(env.buf, env.le, s.pos, p);
      var e := ElementAt(env, fuel, f.value, s.ns, s.pos);
      assert q.Ok? ==> q.value.1 == s.pos + Width(p);
      assert e.Ok? <==> q.Ok?;
      assert e.Ok? ==> e.value.2 == s.pos + Width(p);
      var raw := RawAt(env, fuel, f, shared, s);
      assert raw.Ok? <==> e.Ok?;
      assert raw.Ok? ==> raw.value.1.pos == s.pos + Width(p);
      if r.Ok? {
        assert r.value.pos == s.pos + Width(p);
        FixedSizeAdvances(env, fuel, def, k + 1, shared, r.value);
      }
      if Unfinalized(env, def[k..]) && InBounds(env.buf, s.pos, FixedSize(def[k..]).value) {
        assert f.value.name !in env.finalizers.value by {
          assert def[k..][0].value.Named?;
        }
        assert InBounds(env.buf, s.pos, Width(p));
        assert q.Ok?;
        assert r.Ok?;
        var rest := def[k + 1..];
        assert Unfinalized(env, rest) by {
          forall j | 0 <= j < |rest|
            ensures rest[j].value.Named? ==> rest[j].value.name !in env.finalizers.value
          {
            assert rest[j] == def[k..][j + 1];
          }
        }
        FixedSizeAdvances(env, fuel, def, k + 1, shared, r.value);
      }
    }
  }
}
