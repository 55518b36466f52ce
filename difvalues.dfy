/**
 * The data the .dif struct interpreter of difLoader.ts reads and builds:
 * bytes and their decoding, float bit patterns, the JavaScript values a
 * parse produces, and struct definitions.
 */
module DifValues {
  import opened Wrappers
  import opened JsText

  type Byte = b: int | 0 <= b < 256

  function Pow256(n: nat): (p: nat)
    ensures p > 0
  {
    if n == 0 then 1 else 256 * Pow256(n - 1)
  }

  /** The number a little-endian byte string denotes: the first byte is the least significant. */
  function LittleEndian(bs: seq<Byte>): nat {
    if bs == [] then 0 else bs[0] + 256 * LittleEndian(bs[1..])
  }

  function Reverse(bs: seq<Byte>): (r: seq<Byte>)
    ensures |r| == |bs|
    ensures forall k :: 0 <= k < |bs| ==> r[k] == bs[|bs| - 1 - k]
  {
    if bs == [] then [] else Reverse(bs[1..]) + [bs[0]]
  }

  /**
   * What `DataView.getUintN(offset, littleEndian)` reads from the `N/8` bytes
   * `bs`: the least significant byte comes first in little-endian order and
   * last in big-endian order.
   */
  function Unsigned(bs: seq<Byte>, littleEndian: bool): (n: nat)
    ensures n < Pow256(|bs|)
    decreases |bs|
  {
    if bs == [] then 0
    else if littleEndian then bs[0] + 256 * Unsigned(bs[1..], true)
    else bs[|bs| - 1] + 256 * Unsigned(bs[..|bs| - 1], false)
  }

  /** Either byte order is the little-endian reading of the bytes put in that order. */
  lemma {:induction false} UnsignedIsLittleEndian(bs: seq<Byte>, littleEndian: bool)
    ensures Unsigned(bs, littleEndian) == LittleEndian(if littleEndian then bs else Reverse(bs))
    decreases |bs|
  {
    if bs != [] {
      if littleEndian {
        UnsignedIsLittleEndian(bs[1..], true);
      } else {
        var last := |bs| - 1;
        UnsignedIsLittleEndian(bs[..last], false);
        assert Reverse(bs)[1..] == Reverse(bs[..last]);
      }
    }
  }

  lemma {:induction false} LittleEndianBound(bs: seq<Byte>)
    ensures LittleEndian(bs) < Pow256(|bs|)
  {
    if bs != [] {
      LittleEndianBound(bs[1..]);
    }
  }

  /** The `w` little-endian bytes of `n`. */
  function EncodeLittleEndian(n: nat, w: nat): (bs: seq<Byte>)
    requires n < Pow256(w)
    ensures |bs| == w
  {
    if w == 0 then [] else [n % 256] + EncodeLittleEndian(n / 256, w - 1)
  }

  /** Decoding undoes encoding ... */
  lemma {:induction false} DecodeEncode(n: nat, w: nat)
    requires n < Pow256(w)
    ensures LittleEndian(EncodeLittleEndian(n, w)) == n
  {
    if w > 0 {
      DecodeEncode(n / 256, w - 1);
      assert EncodeLittleEndian(n, w)[1..] == EncodeLittleEndian(n / 256, w - 1);
    }
  }

  /** ... and encoding undoes decoding, so a byte string and its number determine each other. */
  lemma {:induction false} EncodeDecode(bs: seq<Byte>)
    ensures LittleEndian(bs) < Pow256(|bs|)
    ensures EncodeLittleEndian(LittleEndian(bs), |bs|) == bs
  {
    LittleEndianBound(bs);
    if bs != [] {
      EncodeDecode(bs[1..]);
      var n := LittleEndian(bs);
      assert n % 256 == bs[0];
      assert n / 256 == LittleEndian(bs[1..]);
    }
  }

  /** What `getIntN` reads: the two's-complement reading of the unsigned value. */
  function Signed(bs: seq<Byte>, littleEndian: bool): (n: int)
    requires |bs| > 0
    ensures -128 * Pow256(|bs| - 1) <= n < 128 * Pow256(|bs| - 1)
    ensures n >= 0 <==> Unsigned(bs, littleEndian) < 128 * Pow256(|bs| - 1)
    ensures n == Unsigned(bs, littleEndian) || n == Unsigned(bs, littleEndian) - Pow256(|bs|)
  {
    var u := Unsigned(bs, littleEndian);
    var half := 128 * Pow256(|bs| - 1);
    assert Pow256(|bs|) == 2 * half;
    if u >= half then u - Pow256(|bs|) else u
  }

  type Bits32 = b: int | 0 <= b < 0x1_0000_0000
  type Bits64 = b: int | 0 <= b < 0x1_0000_0000_0000_0000

  /**
   * A number read by `getFloat32`/`getFloat64`, kept as its IEEE 754 bit
   * pattern; the model interprets only its sign, zero and NaN.
   */
  datatype Float = F32(b32: Bits32) | F64(b64: Bits64) {
    function Bits(): nat {
      if F32? then b32 else b64
    }

    function SignBit(): nat {
      if F32? then 0x8000_0000 else 0x8000_0000_0000_0000
    }

    /** The bit pattern of +Infinity; larger magnitudes are NaN. */
    function InfinityBits(): nat {
      if F32? then 0x7F80_0000 else 0x7FF0_0000_0000_0000
    }

    predicate IsNegative() {
      Bits() >= SignBit()
    }

    /** The pattern without its sign bit. */
    function Magnitude(): nat {
      if IsNegative() then Bits() - SignBit() else Bits()
    }

    predicate IsZero() {
      Magnitude() == 0
    }

    predicate IsNaN() {
      Magnitude() > InfinityBits()
    }

    /** JavaScript truthiness of a number: false for ±0 and NaN. */
    predicate Truthy() {
      !IsZero() && !IsNaN()
    }

    /** Unary minus: IEEE negation flips the sign bit and nothing else. */
    function Negate(): (r: Float)
      ensures r.F32? == F32?
      ensures r.Magnitude() == Magnitude()
      ensures r.IsNegative() != IsNegative()
    {
      match this
      case F32(b) => F32(if b >= 0x8000_0000 then b - 0x8000_0000 else b + 0x8000_0000)
      case F64(b) => F64(if b >= 0x8000_0000_0000_0000 then b - 0x8000_0000_0000_0000 else b + 0x8000_0000_0000_0000)
    }
  }

  /** `-(-x)` is `x`, bit for bit. */
  lemma NegateIsInvolution(f: Float)
    ensures f.Negate().Negate() == f
  {
  }

  /** Negation keeps a number's truthiness: `-x` is falsy exactly when `x` is. */
  lemma NegateKeepsTruthiness(f: Float)
    ensures f.Negate().Truthy() == f.Truthy()
    ensures f.Negate().IsNaN() == f.IsNaN()
  {
  }

  // Plane references. A BSP node or a surface names a plane by a number
  // whose bit 0x8000 picks the inverted plane; `n & 0x8000` and `n & 0x7fff`
  // act on the number's 32-bit two's-complement form, and as 0x8000 divides
  // 2^32 both are read off the Euclidean remainders below.

  /** `n & 0x8000` is non-zero. */
  predicate RefInverted(n: int) {
    n % 0x1_0000 >= 0x8000
  }

  /** `n & 0x7fff`. */
  function RefIndex(n: int): (i: nat)
    ensures i < 0x8000
  {
    n % 0x8000
  }

  /** The reference to plane `index`, inverted or not, as a u16 of the file. */
  function PlaneRef(index: nat, inverted: bool): (n: nat)
    requires index < 0x8000
    ensures n < 0x1_0000
  {
    if inverted then index + 0x8000 else index
  }

  /** Decoding a reference gives back the plane and the flag it was made from. */
  lemma PlaneRefRoundTrip(index: nat, inverted: bool)
    requires index < 0x8000
    ensures RefInverted(PlaneRef(index, inverted)) == inverted
    ensures RefIndex(PlaneRef(index, inverted)) == index
  {
  }

  /** Every u16 is the reference to the plane and flag it decodes to. */
  lemma PlaneRefDecodes(n: int)
    requires 0 <= n < 0x1_0000
    ensures PlaneRef(RefIndex(n), RefInverted(n)) == n
  {
  }

  /** The fixed-width readers of `Dat` and their names in `Dat.primitives`. */
  datatype Prim = U32 | U16 | U8 | S32 | S16 | S8 | Float32 | Float64 | Boolean | NullPrim | PngPrim

  const Primitives: map<string, Prim> := map[
    "Uint32" := U32, "Uint16" := U16, "Uint8" := U8,
    "Int32" := S32, "Int16" := S16, "Int8" := S8,
    "Float32" := Float32, "Float64" := Float64, "Bool" := Boolean,
    "U32" := U32, "U16" := U16, "U8" := U8,
    "S32" := S32, "S16" := S16, "S8" := S8,
    "F32" := Float32, "F64" := Float64, "bool" := Boolean, "null" := NullPrim,
    "PNG" := PngPrim]

  function PrimitiveOf(name: string): Option<Prim> {
    if name in Primitives then Some(Primitives[name]) else None
  }

  /** How far each fixed-width read moves the cursor (PNG is read by walking its chunks). */
  function Width(p: Prim): nat {
    match p
    case U32 | S32 | Float32 => 4
    case U16 | S16 => 2
    case U8 | S8 | Boolean => 1
    case Float64 => 8
    case NullPrim | PngPrim => 0
  }

  /** One PNG chunk (section 5.3 of the PNG specification) as `PNG_Chunk.load` records it. */
  datatype Chunk = Chunk(length: nat, typecode: seq<Byte>, typestr: string, datastart: int, crc: nat)

  datatype PngImage = PngImage(passesSignature: bool, chunks: seq<Chunk>)

  /** A JavaScript value produced by a parse. */
  datatype Value =
    | Undef                                   // undefined
    | Null
    | Bool(b: bool)
    | Int(i: int)                             // a number read as an integer
    | Flt(f: Float)                           // a number read as a float
    | Str(s: string)
    | Arr(items: seq<Value>)
    | Rec(fields: seq<(string, Value)>)       // a plain object, keys in insertion order
    | Image(png: PngImage)                    // a `PNG` object
    | Obj(cls: string, members: seq<(string, Value)>) // an instance a finalizer constructs

  /** `o[key]` on an object's entries: the value, or undefined. */
  function Get(fields: seq<(string, Value)>, key: string): Value {
    if fields == [] then Undef
    else if fields[0].0 == key then fields[0].1
    else Get(fields[1..], key)
  }

  /** `o[key] = v`: an existing key keeps its place, a new one goes last. */
  function Put(fields: seq<(string, Value)>, key: string, v: Value): (r: seq<(string, Value)>)
    ensures Get(r, key) == v
  {
    if fields == [] then [(key, v)]
    else if fields[0].0 == key then [(key, v)] + fields[1..]
    else [fields[0]] + Put(fields[1..], key, v)
  }

  function Keys(fields: seq<(string, Value)>): (ks: seq<string>)
    ensures |ks| == |fields|
  {
    if fields == [] then [] else [fields[0].0] + Keys(fields[1..])
  }

  /** Writing one key leaves every other key's value alone. */
  lemma {:induction false} GetOtherAfterPut(fields: seq<(string, Value)>, key: string, v: Value, other: string)
    requires other != key
    ensures Get(Put(fields, key, v), other) == Get(fields, other)
  {
    if fields != [] && fields[0].0 != key {
      GetOtherAfterPut(fields[1..], key, v, other);
    }
  }

  /** Writing keeps the key order and appends a new key at the end. */
  lemma {:induction false} KeysAfterPut(fields: seq<(string, Value)>, key: string, v: Value)
    ensures Keys(Put(fields, key, v)) == if key in Keys(fields) then Keys(fields) else Keys(fields) + [key]
  {
    if fields != [] && fields[0].0 != key {
      KeysAfterPut(fields[1..], key, v);
    }
  }

  type Namespace = map<string, Value>

  /** `g[name]` on the interpreter's name space. */
  function Lookup(ns: Namespace, name: string): Value {
    if name in ns then ns[name] else Undef
  }

  /**
   * ToNumber, as `i < n` and `a - b` apply it; a float, an array or a class
   * instance is not interpreted.
   */
  function ToNumber(v: Value): Result<Num> {
    match v
    case Undef => Ok(NaN)
    case Null => Ok(Whole(0))
    case Bool(b) => Ok(Whole(if b then 1 else 0))
    case Int(n) => Ok(Whole(n))
    case Str(s) =>
      (match StringToNumber(s)
       case Some(n) => Ok(n)
       case None => Err(Unmodelled("numeral " + s)))
    case Rec(_) => Ok(NaN)     // "[object Object]"
    case Image(_) => Ok(NaN)   // "[object Object]"
    case Flt(_) => Err(Unmodelled("float arithmetic"))
    case Arr(_) => Err(Unmodelled("array to number"))
    case Obj(_, _) => Err(Unmodelled("instance to number"))
  }

  /** JavaScript truthiness (`!!v`). */
  predicate Truthy(v: Value) {
    match v
    case Undef | Null => false
    case Bool(b) => b
    case Int(n) => n != 0
    case Flt(f) => f.Truthy()
    case Str(s) => s != ""
    case Arr(_) | Rec(_) | Image(_) | Obj(_, _) => true
  }

  /** `v == t` where `t` is a string, or undefined when None: loose equality. */
  function LooseEqualsText(v: Value, t: Option<string>): Result<bool> {
    match t
    case None => Ok(v.Undef? || v.Null?)
    case Some(s) =>
      match v
      case Undef | Null => Ok(false)
      case Str(x) => Ok(x == s)
      case Bool(_) | Int(_) =>
        var n := ToNumber(v).value;
        (match StringToNumber(s)
         case None => Err(Unmodelled("numeral " + s))
         case Some(m) => Ok(n.Whole? && m.Whole? && n.n == m.n))
      case Rec(_) | Image(_) => Ok(s == "[object Object]")
      case Flt(_) => Err(Unmodelled("float comparison"))
      case Arr(_) | Obj(_, _) => Err(Unmodelled("object to string"))
  }

  /**
   * The count closures `defStructsFromSpec` builds: `if (a==b)`, `if (p)`,
   * `for s to numX` and `for N:name`. Numerals stay text, as the closures
   * convert them with `+`.
   */
  datatype CountF =
    | IfEq(variable: string, expected: Option<string>)
    | IfBool(name: string)
    | ForTo(start: string, limit: string)
    | Times(n: string)

  /** The number a count closure returns for the name space `g`. */
  function EvalCountF(cf: CountF, g: Namespace): Result<Num> {
    match cf
    case IfEq(variable, expected) =>
      var eq :- LooseEqualsText(Lookup(g, variable), expected);
      Ok(Whole(if eq then 1 else 0))
    case IfBool(name) => Ok(Whole(if Truthy(Lookup(g, name)) then 1 else 0))
    case ForTo(start, limit) =>
      var s :- (match StringToNumber(start) case Some(n) => Ok(n) case None => Err(Unmodelled("numeral " + start)));
      var l :- ToNumber(Lookup(g, limit));
      Ok(Minus(l, s))
    case Times(n) =>
      match StringToNumber(n)
      case Some(k) => Ok(k)
      case None => Err(Unmodelled("numeral " + n))
  }

  /** A field's `value`: a type name, an inline definition, or undefined. */
  datatype FieldType = Named(name: string) | Inline(def: seq<Field>) | NoValue

  /** One entry of a `StructDef`; an absent optional member is None. */
  datatype Field = Field(
    count: Option<string>,
    rcount: Option<string>,
    ncount: Option<int>,
    gcount: Option<string>,
    countf: Option<CountF>,
    key: string,
    value: FieldType,
    globalName: Option<string>)

  type StructDef = seq<Field>

  /** The test of `readStruct` that makes a field an array. */
  predicate IsCounted(f: Field) {
    f.count.Some? || f.rcount.Some? || f.ncount.Some? || f.countf.Some?
  }

  /** `{ value, key }`, the field `structFromString` builds from two words. */
  function Simple(value: string, key: string): Field {
    Field(None, None, None, None, None, key, Named(value), None)
  }
}
