/**
 * The `Dat` reader of difLoader.ts: a cursor `i` over a byte buffer, the
 * primitive reads, `bytes_match`, the PNG walker, the `readStruct`
 * interpreter and the struct-definition compilers. Every method is proved
 * to compute what module DifRead or DifCompile says, and to leave the
 * cursor where the reference reading leaves it.
 */
module DifLoader {
  import opened Wrappers
  import opened JsText
  import opened DifValues
  import opened DifRead
  import opened DifCompile

  /** The method's answer `r` and cursor `pos` are what the reference reading `spec` gives. */
  predicate Settles<T(==)>(spec: Result<(T, int)>, r: Result<T>, pos: int) {
    match spec
    case Ok((v, p)) => r == Ok(v) && pos == p
    case Err(e) => r == Err(e)
  }

  /** An element read with its cursor split off, as `Settles` takes it. */
  function ElementPos(e: Result<(Value, Namespace, int)>): Result<((Value, Namespace), int)> {
    match e
    case Ok((v, ns, p)) => Ok(((v, ns), p))
    case Err(err) => Err(err)
  }

  /** `deps` joined to the names of the rest of a definition, once those are known. */
  function AddTo(deps: set<string>, rest: Result<set<string>>): Result<set<string>> {
    match rest
    case Ok(r) => Ok(deps + r)
    case Err(e) => Err(e)
  }

  lemma AddToAppend(a: set<string>, b: set<string>, rest: Result<set<string>>)
    ensures AddTo(a, AddTo(b, rest)) == AddTo(a + b, rest)
  {
    match rest
    case Ok(r) => assert a + (b + r) == (a + b) + r;
    case Err(_) =>
  }

  lemma AddToNothing(rest: Result<set<string>>)
    ensures AddTo({}, rest) == rest
  {
    match rest
    case Ok(r) => assert {} + r == r;
    case Err(_) =>
  }

  class Dat {
    const d: seq<Byte>
    var i: int
    const littleEndian: bool
    var structs: map<string, StructDef>
    /** Never initialised by the loader itself: None until a caller assigns it. */
    var finalizers: Option<map<string, Value -> Result<Value>>>

    constructor(d: seq<Byte>, i: int, littleEndian: bool)
      ensures this.d == d && this.i == i && this.littleEndian == littleEndian
      ensures structs == map[] && finalizers.None?
    {
      this.d := d;
      this.i := i;
      this.littleEndian := littleEndian;
      structs := map[];
      finalizers := None;
    }

    /** What `readStruct` reads with. */
    function Environment(): Env
      reads this
    {
      Env(d, littleEndian, structs, finalizers)
    }

    method ReadUint32() returns (r: Result<nat>)
      modifies this`i
      ensures i == old(i) + 4 && r == UnsignedAt(d, littleEndian, old(i), 4)
    {
      i := i + 4;
      r := UnsignedAt(d, littleEndian, i - 4, 4);
    }

    method ReadUint16() returns (r: Result<nat>)
      modifies this`i
      ensures i == old(i) + 2 && r == UnsignedAt(d, littleEndian, old(i), 2)
    {
      i := i + 2;
      r := UnsignedAt(d, littleEndian, i - 2, 2);
    }

    method ReadUint8() returns (r: Result<nat>)
      modifies this`i
      ensures i == old(i) + 1 && r == UnsignedAt(d, littleEndian, old(i), 1)
    {
      i := i + 1;
      r := UnsignedAt(d, littleEndian, i - 1, 1);
    }

    method ReadInt32() returns (r: Result<int>)
      modifies this`i
      ensures i == old(i) + 4 && r == SignedAt(d, littleEndian, old(i), 4)
    {
      i := i + 4;
      r := SignedAt(d, littleEndian, i - 4, 4);
    }

    method ReadInt16() returns (r: Result<int>)
      modifies this`i
      ensures i == old(i) + 2 && r == SignedAt(d, littleEndian, old(i), 2)
    {
      i := i + 2;
      r := SignedAt(d, littleEndian, i - 2, 2);
    }

    method ReadInt8() returns (r: Result<int>)
      modifies this`i
      ensures i == old(i) + 1 && r == SignedAt(d, littleEndian, old(i), 1)
    {
      i := i + 1;
      r := SignedAt(d, littleEndian, i - 1, 1);
    }

    method ReadFloat32() returns (r: Result<Float>)
      modifies this`i
      ensures i == old(i) + 4 && r == FloatAt(d, littleEndian, old(i), false)
    {
      i := i + 4;
      r := FloatAt(d, littleEndian, i - 4, false);
    }

    method ReadFloat64() returns (r: Result<Float>)
      modifies this`i
      ensures i == old(i) + 8 && r == FloatAt(d, littleEndian, old(i), true)
    {
      i := i + 8;
      r := FloatAt(d, littleEndian, i - 8, true);
    }

    /** `getInt8(..) != 0`: any nonzero byte is true. */
    method ReadBoolean() returns (r: Result<bool>)
      modifies this`i
      ensures i == old(i) + 1
      ensures r == (match UnsignedAt(d, littleEndian, old(i), 1) case Ok(b) => Ok(b != 0) case Err(e) => Err(e))
    {
      i := i + 1;
      var b := SignedAt(d, littleEndian, i - 1, 1);
      if b.Err? {
        return Err(b.error);
      }
      ByteAt(d, littleEndian, i - 1);
      assert Signed(d[i - 1..i], littleEndian) != 0 <==> Unsigned(d[i - 1..i], littleEndian) != 0;
      r := Ok(b.value != 0);
    }

    method SkipBytes(n: int)
      modifies this`i
      ensures i == old(i) + n
    {
      i := i + n;
    }

    /** One primitive by its tag, as `primitives[..]` calls it. */
    method ReadPrim(p: Prim) returns (r: Result<Value>)
      modifies this`i
      ensures Settles(PrimAt(d, littleEndian, old(i), p), r, i)
    {
      match p
      case U32 => var n := ReadUint32(); r := if n.Ok? then Ok(Int(n.value)) else Err(n.error);
      case U16 => var n := ReadUint16(); r := if n.Ok? then Ok(Int(n.value)) else Err(n.error);
      case U8 => var n := ReadUint8(); r := if n.Ok? then Ok(Int(n.value)) else Err(n.error);
      case S32 => var n := ReadInt32(); r := if n.Ok? then Ok(Int(n.value)) else Err(n.error);
      case S16 => var n := ReadInt16(); r := if n.Ok? then Ok(Int(n.value)) else Err(n.error);
      case S8 => var n := ReadInt8(); r := if n.Ok? then Ok(Int(n.value)) else Err(n.error);
      case Float32 => var f := ReadFloat32(); r := if f.Ok? then Ok(Flt(f.value)) else Err(f.error);
      case Float64 => var f := ReadFloat64(); r := if f.Ok? then Ok(Flt(f.value)) else Err(f.error);
      case Boolean =>
        var b := ReadBoolean();
        r := if b.Ok? then Ok(Bool(b.value)) else Err(b.error);
      case NullPrim => r := Ok(Null);
      case PngPrim =>
        var png := LoadPng(this);
        r := if png.Ok? then Ok(Image(png.value)) else Err(png.error);
    }

    /** `readThing(s)`: the primitive named `s`; TypeError when there is none. */
    method ReadThing(s: string) returns (r: Result<Value>)
      modifies this`i
      ensures Settles(ThingAt(d, littleEndian, old(i), s), r, i)
    {
      if s !in Primitives {
        return Err(TypeError("primitives[" + s + "] is not a function"));
      }
      r := ReadPrim(Primitives[s]);
    }

    /** `readStruct(st, res, nameSpace)`; `fuel` bounds the nesting depth. */
    method ReadStruct(st: FieldType, res: Option<seq<(string, Value)>>, ns: Namespace, fuel: nat) returns (r: Result<State>)
      modifies this`i
      ensures r == StructAt(Environment(), fuel, st, res, ns, old(i))
      ensures r.Ok? ==> i == r.value.pos
      decreases fuel, 0, 0
    {
      if fuel == 0 {
        return Err(StackOverflow);
      }
      var def: StructDef;
      match st {
        case Inline(inline) => def := inline;
        case Named(n) =>
          if n !in structs {
            return Err(TypeError("structs[" + n + "] is not iterable"));
          }
          def := structs[n];
        case NoValue => return Err(TypeError("cannot read 'push' of undefined"));
      }
      var shared := res.Some?;
      r := ReadFields(def, shared, State(if shared then res.value else [], ns, i), fuel - 1);
    }

    /** The loop of `readStruct` over the fields of `def`, each read into the state the one before it left. */
    method ReadFields(def: StructDef, shared: bool, s0: State, fuel: nat) returns (r: Result<State>)
      requires s0.pos == i
      modifies this`i
      ensures r == FieldsAt(Environment(), fuel, def, 0, shared, s0)
      ensures r.Ok? ==> i == r.value.pos
      decreases fuel, 3, 0
    {
      ghost var env := Environment();
      var s := s0;
      var k := 0;
      while k < |def|
        invariant 0 <= k <= |def| && s.pos == i && env == Environment()
        invariant FieldsAt(env, fuel, def, 0, shared, s0) == FieldsAt(env, fuel, def, k, shared, s)
      {
        var next := ReadField(def[k], shared, s, fuel);
        FieldsAtStep(env, fuel, def, k, shared, s);
        if next.Err? {
          return Err(next.error);
        }
        s := next.value;
        k := k + 1;
      }
      r := Ok(s);
    }

    /** One field of the `readStruct` loop: its raw value, the finalizer, the name space and the record. */
    method ReadField(f: Field, shared: bool, s: State, fuel: nat) returns (r: Result<State>)
      requires s.pos == i
      modifies this`i
      ensures r == FieldAt(Environment(), fuel, f, shared, s)
      ensures r.Ok? ==> i == r.value.pos
      decreases fuel, 2, 1
    {
      var raw := ReadRaw(f, shared, s, fuel);
      if raw.Err? {
        return Err(raw.error);
      }
      var tmp := raw.value.0;
      var next := raw.value.1;
      if !f.value.Inline? {
        if finalizers.None? {
          return Err(TypeError("finalizers is undefined"));
        }
        var name := if f.value.Named? then f.value.name else "undefined";
        if name in finalizers.value {
          var fin := finalizers.value[name](tmp);
          if fin.Err? {
            return Err(fin.error);
          }
          tmp := fin.value;
        }
      }
      var ns := next.ns;
      if f.globalName.Some? {
        ns := ns[f.globalName.value := tmp];
      }
      r := Ok(State(Put(next.rec, f.key, tmp), ns, next.pos));
    }

    /** `tmp` of a field before its finalizer: an array, a nested record or a primitive. */
    method ReadRaw(f: Field, shared: bool, s: State, fuel: nat) returns (r: Result<(Value, State)>)
      requires s.pos == i
      modifies this`i
      ensures r == RawAt(Environment(), fuel, f, shared, s)
      ensures r.Ok? ==> i == r.value.1.pos
      decreases fuel, 2, 0
    {
      ghost var env := Environment();
      if IsCounted(f) {
        var n := ReadCount(f, s);
        if n.Err? {
          return Err(n.error);
        }
        if f.value.NoValue? {
          return Err(TypeError("cannot read 'push' of undefined"));
        }
        var count := Iterations(n.value);
        var v: seq<Value> := [];
        var ns := s.ns;
        while |v| < count
          invariant |v| <= count && env == Environment()
          invariant ArrayAt(env, fuel, f.value, count, [], s.ns, CountAt(env, f, s).value.1)
            == ArrayAt(env, fuel, f.value, count, v, ns, i)
          decreases count - |v|
        {
          var e := ReadElement(f.value, ns, fuel);
          if e.Err? {
            return Err(e.error);
          }
          v := v + [e.value.0];
          ns := e.value.1;
        }
        r := Ok((Arr(v), State(s.rec, ns, i)));
      } else {
        match f.value
        case NoValue => r := Err(TypeError("cannot read 'push' of undefined"));
        case Inline(_) =>
          var inner := ReadStruct(f.value, if shared then Some(s.rec) else None, s.ns, fuel);
          if inner.Err? {
            return Err(inner.error);
          }
          r := Ok((Null, State(if shared then inner.value.rec else s.rec, inner.value.ns, inner.value.pos)));
        case Named(_) =>
          var e := ReadElement(f.value, s.ns, fuel);
          if e.Err? {
            return Err(e.error);
          }
          r := Ok((e.value.0, State(s.rec, e.value.1, i)));
      }
    }

    /** The count of an array field: `count` from the stream, else `rcount`, else `ncount`, else `countf`. */
    method ReadCount(f: Field, s: State) returns (r: Result<Num>)
      requires IsCounted(f) && s.pos == i
      modifies this`i
      ensures Settles(CountAt(Environment(), f, s), r, i)
    {
      if f.count.Some? {
        var t := ReadThing(f.count.value);
        if t.Err? {
          return Err(t.error);
        }
        r := ToNumber(t.value);
      } else if f.rcount.Some? {
        r := ToNumber(Get(s.rec, f.rcount.value));
      } else if f.ncount.Some? {
        r := Ok(Whole(f.ncount.value));
      } else {
        r := EvalCountF(f.countf.value, s.ns);
      }
    }

    /** One element of an array field, or the value of a single named field. */
    method ReadElement(value: FieldType, ns: Namespace, fuel: nat) returns (r: Result<(Value, Namespace)>)
      requires !value.NoValue?
      modifies this`i
      ensures Settles(ElementPos(ElementAt(Environment(), fuel, value, ns, old(i))), r, i)
      decreases fuel, 1, 0
    {
      if value.Named? && value.name in Primitives {
        var p := ReadPrim(Primitives[value.name]);
        if p.Err? {
          return Err(p.error);
        }
        r := Ok((p.value, ns));
      } else {
        var inner := ReadStruct(value, None, ns, fuel);
        if inner.Err? {
          return Err(inner.error);
        }
        r := Ok((Rec(inner.value.rec), inner.value.ns));
      }
    }

    /** `readStructs(struct, n)`: `n` records, each read fresh with its own name space. */
    method ReadStructs(st: FieldType, n: nat, fuel: nat) returns (r: Result<seq<Value>>)
      modifies this`i
      ensures Settles(StructsAt(Environment(), fuel, st, n, [], old(i)), r, i)
    {
      ghost var env := Environment();
      ghost var spec := StructsAt(env, fuel, st, n, [], i);
      var rs: seq<Value> := [];
      while |rs| < n
        invariant |rs| <= n && env == Environment()
        invariant spec == StructsAt(env, fuel, st, n, rs, i)
        decreases n - |rs|
      {
        var one := ReadStruct(st, None, map[], fuel);
        if one.Err? {
          return Err(one.error);
        }
        rs := rs + [Rec(one.value.rec)];
      }
      r := Ok(rs);
    }

    /** `readUint32Structs(struct)`: a u32 count, then that many records. */
    method ReadUint32Structs(st: FieldType, fuel: nat) returns (r: Result<seq<Value>>)
      modifies this`i
      ensures Settles(Uint32StructsAt(Environment(), fuel, st, old(i)), r, i)
    {
      var n := ReadUint32();
      if n.Err? {
        return Err(n.error);
      }
      r := ReadStructs(st, n.value, fuel);
    }

    /**
     * `structFromString(s)`: one field per `;`-segment, in order, built from
     * the segment's words. A text with no segment, or a segment of spaces
     * only, makes the regular-expression match null and throws TypeError.
     */
    method StructFromString(s: string) returns (r: Result<StructDef>)
      ensures r.Ok? <==> Runs(s, ';') != [] && forall k :: 0 <= k < |Runs(s, ';')| ==> Runs(Runs(s, ';')[k], ' ') != []
      ensures r.Err? ==> r.error.TypeError?
      ensures r.Ok? ==> |r.value| == |Runs(s, ';')|
      ensures r.Ok? ==> forall k :: 0 <= k < |r.value| ==> r.value[k] == FieldOfWords(Runs(Runs(s, ';')[k], ' '))
    {
      var lines := Runs(s, ';');
      if lines == [] {
        return Err(TypeError("lines is not iterable"));
      }
      var def: StructDef := [];
      while |def| < |lines|
        invariant |def| <= |lines|
        invariant forall k :: 0 <= k < |def| ==> Runs(lines[k], ' ') != [] && def[k] == FieldOfWords(Runs(lines[k], ' '))
      {
        var t := Runs(lines[|def|], ' ');
        if t == [] {
          return Err(TypeError("cannot read 'length' of null"));
        }
        def := def + [FieldOfWords(t)];
      }
      r := Ok(def);
    }

    /** `structDependencies(s)`: the names a definition refers to, inline definitions searched too. */
    method StructDependencies(def: StructDef) returns (r: Result<set<string>>)
      ensures r == Dependencies(def)
      decreases DefSize(def)
    {
      var deps: set<string> := {};
      var k := 0;
      assert def[0..] == def;
      AddToNothing(Dependencies(def));
      while k < |def|
        invariant 0 <= k <= |def|
        invariant Dependencies(def) == AddTo(deps, Dependencies(def[k..]))
      {
        var t := def[k];
        assert def[k..][0] == t && def[k..][1..] == def[k + 1..];
        assert Dependencies(def[k..]) ==
          (match FieldDependencies(t) case Err(e) => Err(e) case Ok(first) => AddTo(first, Dependencies(def[k + 1..])));
        ghost var before := deps;
        match t.value {
          case Inline(inner) =>
            InlineIsSmaller(def, k);
            var sub := StructDependencies(inner);
            if sub.Err? {
              return Err(sub.error);
            }
            AddToAppend(deps, sub.value, Dependencies(def[k + 1..]));
            deps := deps + sub.value;
          case Named(n) =>
            AddToAppend(deps, FieldDependencies(t).value, Dependencies(def[k + 1..]));
            deps := deps + {n};
            if t.count.Some? {
              deps := deps + {t.count.value};
            }
            assert deps == before + FieldDependencies(t).value;
          case NoValue =>
            return Err(TypeError("cannot read 'push' of undefined"));
        }
        assert Dependencies(def) == AddTo(deps, Dependencies(def[k + 1..]));
        k := k + 1;
      }
      assert def[k..] == [];
      r := Ok(deps);
    }

    /**
     * `listNeededStructDefs()`: the names the registered definitions depend on
     * that are not registered (the primitive type names among them).
     */
    method ListNeededStructDefs() returns (r: Result<set<string>>)
      ensures r.Ok? <==> forall s <- structs :: Dependencies(structs[s]).Ok?
      ensures r.Err? ==> r.error == TypeError("cannot read 'push' of undefined")
      ensures r.Ok? ==> forall x :: x in r.value <==> Needed(structs, x)
    {
      var todo := structs.Keys;
      var n: set<string> := {};
      while todo != {}
        invariant todo <= structs.Keys
        invariant forall s <- structs.Keys - todo :: Dependencies(structs[s]).Ok?
        invariant forall x :: x in n <==>
          x !in structs && exists s <- structs.Keys - todo :: Dependencies(structs[s]).Ok? && x in Dependencies(structs[s]).value
        decreases |todo|
      {
        var s :| s in todo;
        var deps := StructDependencies(structs[s]);
        if deps.Err? {
          DependenciesError(structs[s]);
          return Err(deps.error);
        }
        n := n + (set x <- deps.value | x !in structs);
        todo := todo - {s};
      }
      r := Ok(n);
    }

    /** The `while` at the head of each line: blocks indented at least `indent` are popped and closed. */
    method CloseBlocks(stack: seq<Block>, indent: nat) returns (rest: seq<Block>)
      requires WellFormed(stack)
      modifies this`structs
      ensures (rest, structs) == PopWhile(stack, old(structs), indent)
    {
      rest := stack;
      while rest[|rest| - 1].indent >= indent
        invariant WellFormed(rest)
        invariant PopWhile(stack, old(structs), indent) == PopWhile(rest, structs, indent)
        decreases |rest|
      {
        var top := rest[|rest| - 1];
        rest := rest[..|rest| - 1];
        assert WellFormed(rest);
        CloseKeepsShape(top, rest, structs);
        match top.kind
        case TypeBlock(name) => structs := structs[name := top.def];
        case CountBlock(cf, key) => rest := AddToTop(rest, CountField(cf, top.def, key));
      }
    }

    /** The final `while`: every open block is popped and closed, the root last. */
    method CloseRemaining(stack: seq<Block>)
      requires WellFormed(stack)
      modifies this`structs
      ensures structs == CloseAll(stack, old(structs))
    {
      var rest := stack;
      while |rest| > 0
        invariant |rest| > 0 ==> WellFormed(rest) && CloseAll(stack, old(structs)) == CloseAll(rest, structs)
        invariant |rest| == 0 ==> CloseAll(stack, old(structs)) == structs
        decreases |rest|
      {
        var top := rest[|rest| - 1];
        rest := rest[..|rest| - 1];
        if |rest| > 0 {
          assert WellFormed(rest);
          CloseKeepsShape(top, rest, structs);
        }
        match top.kind
        case TypeBlock(name) => structs := structs[name := top.def];
        case CountBlock(cf, key) => rest := AddToTop(rest, CountField(cf, top.def, key));
      }
    }

    /** The action of a classified line on the stack: open a block, or add a field to the innermost one. */
    static method OpenLine(stack: seq<Block>, l: Line, indent: int) returns (r: seq<Block>)
      requires WellFormed(stack) && stack[|stack| - 1].indent < indent
      ensures r == Push(stack, l, indent)
    {
      match l
      case OpenCount(cf, name) =>
        r := stack + [Block(CountBlock(cf, name), indent, [])];
      case OpenType(name, called) =>
        r := stack;
        if called {
          r := AddToTop(r, MemberField(name, name));
        }
        r := r + [Block(TypeBlock(name), indent, [])];
      case Member(t, name) =>
        r := AddToTop(stack, MemberField(t, name));
    }

    /** One pass of the `for` over the lines: close the blocks the line ends, then open or add what it declares. */
    method CompileLine(lines: seq<string>, k: nat, stack: seq<Block>) returns (next: seq<Block>, error: Option<JsError>)
      requires k < |lines| && WellFormed(stack)
      modifies this`structs
      ensures error.Some? ==> CompileFrom(lines, k, stack, old(structs)) == Outcome(structs, error)
      ensures error.None? ==> WellFormed(next) && CompileFrom(lines, k, stack, old(structs)) == CompileFrom(lines, k + 1, next, structs)
    {
      var line := lines[k];
      var indent := Indent(line);
      CompileFromStep(lines, k, stack, structs);
      next := CloseBlocks(stack, indent);
      var parsed := ParseLine(line[indent..]);
      if parsed.Err? {
        return next, Some(parsed.error);
      }
      next := OpenLine(next, parsed.value, indent);
      error := None;
    }

    /**
     * `defStructsFromSpec(spec)` on the description's lines (each without its
     * line break): `structs` ends as `Compile` says; the error, if any, is the
     * exception that stopped it, with the types closed before it registered.
     */
    method DefStructsFromSpec(lines: seq<string>) returns (error: Option<JsError>)
      modifies this`structs
      ensures Compile(lines, old(structs)) == Outcome(structs, error)
    {
      var stack := [Root];
      var k := 0;
      while k < |lines|
        invariant k <= |lines| && WellFormed(stack)
        invariant Compile(lines, old(structs)) == CompileFrom(lines, k, stack, structs)
      {
        var failed;
        stack, failed := CompileLine(lines, k, stack);
        if failed.Some? {
          return failed;
        }
        k := k + 1;
      }
      CloseRemaining(stack);
      error := None;
    }
  }

  /** `bytes_match(d, s)`: reads byte by byte until the first mismatch. */
  method BytesMatch(dat: Dat, s: seq<int>) returns (r: Result<bool>)
    modifies dat`i
    ensures Settles(MatchAt(dat.d, old(dat.i), s), r, dat.i)
  {
    var matched := true;
    var k := 0;
    while k < |s|
      invariant 0 <= k <= |s|
      invariant matched ==> MatchAt(dat.d, old(dat.i), s) == MatchAt(dat.d, dat.i, s[k..])
      invariant !matched ==> MatchAt(dat.d, old(dat.i), s) == Ok((false, dat.i))
    {
      if matched {
        var b := dat.ReadUint8();
        if b.Err? {
          return Err(b.error);
        }
        ByteAt(dat.d, dat.littleEndian, dat.i - 1);
        assert s[k..][1..] == s[k + 1..];
        matched := b.value == s[k];
      }
      k := k + 1;
    }
    r := Ok(matched);
  }

  /** `[d.readUint8(), d.readUint8(), d.readUint8(), d.readUint8()]`: four bytes as they are. */
  method ReadTypecode(dat: Dat) returns (r: Result<seq<Byte>>)
    modifies dat`i
    ensures r == if InBounds(dat.d, old(dat.i), 4) then Ok(dat.d[old(dat.i)..old(dat.i) + 4]) else Err(RangeError)
    ensures r.Ok? ==> dat.i == old(dat.i) + 4
  {
    ghost var pos := dat.i;
    var b0 := dat.ReadUint8();
    if b0.Err? {
      return Err(b0.error);
    }
    var b1 := dat.ReadUint8();
    if b1.Err? {
      return Err(b1.error);
    }
    var b2 := dat.ReadUint8();
    if b2.Err? {
      return Err(b2.error);
    }
    var b3 := dat.ReadUint8();
    if b3.Err? {
      return Err(b3.error);
    }
    ByteAt(dat.d, dat.littleEndian, pos);
    ByteAt(dat.d, dat.littleEndian, pos + 1);
    ByteAt(dat.d, dat.littleEndian, pos + 2);
    ByteAt(dat.d, dat.littleEndian, pos + 3);
    assert [b0.value, b1.value, b2.value, b3.value] == dat.d[pos..pos + 4];
    r := Ok([b0.value, b1.value, b2.value, b3.value]);
  }

  /** `new PNG_Chunk(d)`: length, four type bytes, the data skipped, the CRC. */
  method LoadChunk(dat: Dat) returns (r: Result<Chunk>)
    modifies dat`i
    ensures r == ChunkAt(dat.d, dat.littleEndian, old(dat.i))
    ensures r.Ok? ==> dat.i == ChunkEnd(r.value)
  {
    ghost var pos := dat.i;
    var length := dat.ReadUint32();
    if length.Err? {
      return Err(length.error);
    }
    var tc := ReadTypecode(dat);
    if tc.Err? {
      return Err(tc.error);
    }
    var typecode := tc.value;
    var typestr := Latin1(typecode);
    var datastart := dat.i;
    dat.SkipBytes(length.value);
    var crc := dat.ReadUint32();
    assert crc == UnsignedAt(dat.d, dat.littleEndian, pos + 8 + length.value, 4);
    if crc.Err? {
      return Err(crc.error);
    }
    r := Ok(Chunk(length.value, typecode, typestr, datastart, crc.value));
  }

  /** The chunks read so far, in front of the rest of the walk. */
  function AfterChunks(done: seq<Chunk>, rest: Result<(seq<Chunk>, int)>): Result<(seq<Chunk>, int)> {
    match rest
    case Ok((cs, p)) => Ok((done + cs, p))
    case Err(e) => Err(e)
  }

  lemma AfterChunksAppend(a: seq<Chunk>, b: seq<Chunk>, rest: Result<(seq<Chunk>, int)>)
    ensures AfterChunks(a, AfterChunks(b, rest)) == AfterChunks(a + b, rest)
  {
    if rest.Ok? {
      assert a + (b + rest.value.0) == (a + b) + rest.value.0;
    }
  }

  lemma AfterNoChunks(rest: Result<(seq<Chunk>, int)>)
    ensures AfterChunks([], rest) == rest
  {
    match rest
    case Ok((cs, p)) => assert [] + cs == cs;
    case Err(_) =>
  }

  /** One step of the chunk walk: the chunk at `pos`, then either the end or the walk after it. */
  lemma ChunksFromStep(buf: seq<Byte>, le: bool, pos: int)
    requires ChunkAt(buf, le, pos).Ok?
    ensures var c := ChunkAt(buf, le, pos).value;
      ChunksFrom(buf, le, pos)
      == if c.typestr == "IEND" then Ok(([c], ChunkEnd(c))) else AfterChunks([c], ChunksFrom(buf, le, ChunkEnd(c)))
  {
  }

  /** `new PNG(d)`: the signature, then chunks until the first IEND. */
  method LoadPng(dat: Dat) returns (r: Result<PngImage>)
    modifies dat`i
    ensures Settles(PngAt(dat.d, dat.littleEndian, old(dat.i)), r, dat.i)
  {
    var sig := BytesMatch(dat, Signature);
    if sig.Err? {
      return Err(sig.error);
    }
    ghost var walk := ChunksFrom(dat.d, dat.littleEndian, dat.i);
    var chunks: seq<Chunk> := [];
    AfterNoChunks(walk);
    while true
      invariant walk == AfterChunks(chunks, ChunksFrom(dat.d, dat.littleEndian, dat.i))
      decreases |dat.d| - dat.i
    {
      ghost var pos := dat.i;
      var c := LoadChunk(dat);
      if c.Err? {
        return Err(c.error);
      }
      ChunksFromStep(dat.d, dat.littleEndian, pos);
      if c.value.typestr == "IEND" {
        chunks := chunks + [c.value];
        break;
      }
      AfterChunksAppend(chunks, [c.value], ChunksFrom(dat.d, dat.littleEndian, dat.i));
      chunks := chunks + [c.value];
    }
    r := Ok(PngImage(sig.value, chunks));
  }
}
