/**
 * The struct-definition compilers of the DIF loader: `structFromString`,
 * `structDependencies` / `listNeededStructDefs`, and `defStructsFromSpec`, which
 * turns an indentation-structured description into struct definitions by
 * pushing and popping an explicit stack of open blocks.
 */
module DifCompile {
  import opened Wrappers
  import opened JsText
  import opened DifValues

  // ---------------------------------------------------------------------------
  // structFromString

  /**
   * The field one `;`-segment becomes, from its words: two words are
   * `{ value, key }`; any other number is `{ count, value, key }` from the
   * first three, the missing ones undefined.
   */
  function FieldOfWords(t: seq<string>): (f: Field)
    requires |t| > 0
    ensures f.count.None? <==> |t| == 2
    ensures |t| == 2 ==> f == Simple(t[0], t[1])
    ensures |t| != 2 ==> f.count == Some(t[0])
    ensures |t| >= 3 ==> f.value == Named(t[1]) && f.key == t[2]
    ensures f.rcount.None? && f.ncount.None? && f.gcount.None? && f.countf.None? && f.globalName.None?
  {
    if |t| == 2 then Simple(t[0], t[1])
    else Field(Some(t[0]), None, None, None, None,
               if |t| > 2 then t[2] else "undefined",
               if |t| > 1 then Named(t[1]) else NoValue,
               None)
  }

  // ---------------------------------------------------------------------------
  // structDependencies and listNeededStructDefs

  /**
   * The names a definition depends on: the type name and the count name of
   * every field, inline definitions searched recursively. A field with no
   * value makes `(t.value).push` throw.
   */
  function Dependencies(def: StructDef): Result<set<string>>
    decreases def
  {
    if def == [] then Ok({})
    else
      var first :- FieldDependencies(def[0]);
      var rest :- Dependencies(def[1..]);
      Ok(first + rest)
  }

  function FieldDependencies(f: Field): Result<set<string>>
    decreases f
  {
    match f.value
    case NoValue => Err(TypeError("cannot read 'push' of undefined"))
    case Inline(d) => Dependencies(d)
    case Named(n) => Ok({n} + (if f.count.Some? then {f.count.value} else {}))
  }

  /** Every field of `def`, inline definitions flattened, in order. */
  function Flatten(def: StructDef): seq<Field>
    decreases def
  {
    if def == [] then [] else FlattenField(def[0]) + Flatten(def[1..])
  }

  function FlattenField(f: Field): seq<Field>
    decreases f
  {
    match f.value
    case Inline(d) => Flatten(d)
    case _ => [f]
  }

  /** The number of fields of `def`, inline definitions counted with their fields. */
  function DefSize(def: StructDef): nat
    decreases def
  {
    if def == [] then 0 else FieldSize(def[0]) + DefSize(def[1..])
  }

  function FieldSize(f: Field): nat
    decreases f
  {
    1 + (if f.value.Inline? then DefSize(f.value.def) else 0)
  }

  /** An inline definition inside `def` is smaller than `def`: recursion into it terminates. */
  lemma {:induction false} InlineIsSmaller(def: StructDef, k: nat)
    requires k < |def| && def[k].value.Inline?
    ensures DefSize(def[k].value.def) < DefSize(def)
  {
    if k > 0 {
      InlineIsSmaller(def[1..], k - 1);
      assert def[1..][k - 1] == def[k];
    }
  }

  /** Every failure of `Dependencies` is the same TypeError, whichever field causes it. */
  lemma {:induction false} DependenciesError(def: StructDef)
    ensures Dependencies(def).Err? ==> Dependencies(def).error == TypeError("cannot read 'push' of undefined")
    decreases def
  {
    if def != [] {
      FieldDependenciesError(def[0]);
      DependenciesError(def[1..]);
    }
  }

  lemma {:induction false} FieldDependenciesError(f: Field)
    ensures FieldDependencies(f).Err? ==> FieldDependencies(f).error == TypeError("cannot read 'push' of undefined")
    decreases f
  {
    if f.value.Inline? {
      DependenciesError(f.value.def);
    }
  }

  /**
   * A definition's dependencies fail exactly when some flattened field has no
   * value; otherwise they are exactly the type names and count names of the
   * flattened fields.
   */
  lemma {:induction false} DependenciesOfFlatten(def: StructDef)
    ensures Dependencies(def).Err? <==> exists f <- Flatten(def) :: f.value.NoValue?
    ensures Dependencies(def).Ok? ==> forall x :: x in Dependencies(def).value <==>
      exists f <- Flatten(def) :: f.value == Named(x) || (f.value.Named? && f.count == Some(x))
    decreases def
  {
    if def != [] {
      FieldDependenciesOfFlatten(def[0]);
      DependenciesOfFlatten(def[1..]);
      assert Flatten(def) == FlattenField(def[0]) + Flatten(def[1..]);
    }
  }

  lemma {:induction false} FieldDependenciesOfFlatten(f: Field)
    ensures FieldDependencies(f).Err? <==> exists g <- FlattenField(f) :: g.value.NoValue?
    ensures FieldDependencies(f).Ok? ==> forall x :: x in FieldDependencies(f).value <==>
      exists g <- FlattenField(f) :: g.value == Named(x) || (g.value.Named? && g.count == Some(x))
    decreases f
  {
    match f.value
    case Inline(d) => DependenciesOfFlatten(d);
    case NoValue => assert f in FlattenField(f);
    case Named(n) => assert FlattenField(f) == [f];
  }

  /**
   * `listNeededStructDefs`: the names some registered definition depends on
   * that are not registered themselves (primitive type names included, as
   * they are not in `structs` either).
   */
  ghost predicate Needed(structs: map<string, StructDef>, d: string) {
    d !in structs && exists s <- structs :: Dependencies(structs[s]).Ok? && d in Dependencies(structs[s]).value
  }

  // ---------------------------------------------------------------------------
  // defStructsFromSpec

  /** What an open block becomes when it closes. */
  datatype BlockKind =
    | TypeBlock(name: string)                        // registered in `structs` under its name
    | CountBlock(countf: CountF, countName: string)  // a counted field of the enclosing block

  datatype Block = Block(kind: BlockKind, indent: int, def: StructDef)

  /** The bottom of the stack, `{ type: "file", indent: -1, def: [] }`. */
  const Root := Block(TypeBlock("file"), -1, [])

  /** The root at the bottom, and indents strictly increasing upward. */
  predicate WellFormed(stack: seq<Block>) {
    |stack| >= 1 && stack[0].kind == TypeBlock("file") && stack[0].indent == -1
    && forall a :: 0 < a < |stack| ==> stack[a - 1].indent < stack[a].indent
  }

  /** `{ countf, value: def, key: countName }`. */
  function CountField(cf: CountF, def: StructDef, key: string): Field {
    Field(None, None, None, None, Some(cf), key, Inline(def), None)
  }

  /** `{ key, value: type, globalName: key }`, a member line. */
  function MemberField(typeName: string, key: string): Field {
    Field(None, None, None, None, None, key, Named(typeName), Some(key))
  }

  /** `stack[stack.length - 1].def.push(f)`. */
  function AddToTop(stack: seq<Block>, f: Field): (r: seq<Block>)
    requires |stack| >= 1
    ensures |r| == |stack|
    ensures forall j :: 0 <= j < |r| ==> r[j].kind == stack[j].kind && r[j].indent == stack[j].indent
    ensures forall j :: 0 <= j < |r| - 1 ==> r[j] == stack[j]
    ensures r[|r| - 1].def == stack[|stack| - 1].def + [f]
  {
    var n := |stack| - 1;
    stack[n := stack[n].(def := stack[n].def + [f])]
  }

  /**
   * Closing the block `top` above `below`: a type block is registered under
   * its name and nothing else changes; a count block becomes a `countf`
   * field, keyed by its count name, at the end of the enclosing block, and
   * `structs` is unchanged.
   */
  function Close(top: Block, below: seq<Block>, structs: map<string, StructDef>): (r: (seq<Block>, map<string, StructDef>))
    requires |below| >= 1
    ensures top.kind.TypeBlock? ==> r.0 == below && r.1 == structs[top.kind.name := top.def]
    ensures top.kind.CountBlock? ==>
      r.1 == structs && |r.0| == |below| && r.0[..|below| - 1] == below[..|below| - 1]
      && r.0[|below| - 1] == below[|below| - 1].(def := below[|below| - 1].def + [CountField(top.kind.countf, top.def, top.kind.countName)])
  {
    match top.kind
    case TypeBlock(name) => (below, structs[name := top.def])
    case CountBlock(cf, key) => (AddToTop(below, CountField(cf, top.def, key)), structs)
  }

  lemma CloseKeepsShape(top: Block, below: seq<Block>, structs: map<string, StructDef>)
    requires WellFormed(below)
    ensures WellFormed(Close(top, below, structs).0)
    ensures structs.Keys <= Close(top, below, structs).1.Keys
    ensures forall j :: 0 <= j < |below| ==>
      (Close(top, below, structs).0[j].kind == below[j].kind && Close(top, below, structs).0[j].indent == below[j].indent)
    ensures |Close(top, below, structs).0| == |below|
  {
    var r := Close(top, below, structs);
    if top.kind.CountBlock? {
      var f := CountField(top.kind.countf, top.def, top.kind.countName);
      assert r.0 == AddToTop(below, f);
    }
  }

  /** The `while` at the head of every line: open blocks are closed until the innermost one is indented less. */
  function PopWhile(stack: seq<Block>, structs: map<string, StructDef>, indent: int): (r: (seq<Block>, map<string, StructDef>))
    requires WellFormed(stack) && indent >= 0
    ensures WellFormed(r.0) && |r.0| <= |stack|
    ensures r.0[|r.0| - 1].indent < indent
    ensures structs.Keys <= r.1.Keys
    decreases |stack|
  {
    var top := stack[|stack| - 1];
    if top.indent < indent then (stack, structs)
    else
      var below := stack[..|stack| - 1];
      assert WellFormed(below);
      CloseKeepsShape(top, below, structs);
      var next := Close(top, below, structs);
      PopWhile(next.0, next.1, indent)
  }

  /**
   * A block closes exactly when a line with an indent no greater than its own
   * appears: the blocks closed are all indented at least as far as the line.
   */
  lemma {:induction false} PopWhileCloses(stack: seq<Block>, structs: map<string, StructDef>, indent: int)
    requires WellFormed(stack) && indent >= 0
    ensures var r := PopWhile(stack, structs, indent);
      forall j :: |r.0| <= j < |stack| ==> stack[j].indent >= indent
    decreases |stack|
  {
    var top := stack[|stack| - 1];
    if top.indent >= indent {
      var below := stack[..|stack| - 1];
      assert WellFormed(below);
      CloseKeepsShape(top, below, structs);
      var next := Close(top, below, structs);
      PopWhileCloses(next.0, next.1, indent);
      var r := PopWhile(next.0, next.1, indent);
      assert PopWhile(stack, structs, indent) == r;
      forall j | |r.0| <= j < |stack|
        ensures stack[j].indent >= indent
      {
        if j < |below| {
          assert below[j] == stack[j];
          assert next.0[j].indent == stack[j].indent;
        }
      }
    }
  }

  /** Every type block `PopWhile` closes is registered in `structs`. */
  lemma {:induction false} PopWhileRegisters(stack: seq<Block>, structs: map<string, StructDef>, indent: int)
    requires WellFormed(stack) && indent >= 0
    ensures var r := PopWhile(stack, structs, indent);
      forall j :: |r.0| <= j < |stack| && stack[j].kind.TypeBlock? ==> stack[j].kind.name in r.1
    decreases |stack|
  {
    var top := stack[|stack| - 1];
    if top.indent >= indent {
      var below := stack[..|stack| - 1];
      assert WellFormed(below);
      CloseKeepsShape(top, below, structs);
      var next := Close(top, below, structs);
      PopWhileRegisters(next.0, next.1, indent);
      var r := PopWhile(next.0, next.1, indent);
      assert PopWhile(stack, structs, indent) == r;
      assert top.kind.TypeBlock? ==> top.kind.name in next.1;
      forall j | |r.0| <= j < |stack| && stack[j].kind.TypeBlock?
        ensures stack[j].kind.name in r.1
      {
        if j < |below| {
          assert below[j] == stack[j];
          assert next.0[j].kind == stack[j].kind;
        }
      }
    }
  }

  /** The blocks `PopWhile` leaves open keep their kinds and indents. */
  lemma {:induction false} PopWhileKeeps(stack: seq<Block>, structs: map<string, StructDef>, indent: int)
    requires WellFormed(stack) && indent >= 0
    ensures var r := PopWhile(stack, structs, indent);
      forall j :: 0 <= j < |r.0| ==> r.0[j].kind == stack[j].kind && r.0[j].indent == stack[j].indent
    decreases |stack|
  {
    var top := stack[|stack| - 1];
    if top.indent >= indent {
      var below := stack[..|stack| - 1];
      assert WellFormed(below);
      CloseKeepsShape(top, below, structs);
      var next := Close(top, below, structs);
      PopWhileKeeps(next.0, next.1, indent);
    }
  }

  /**
   * The end of the description: every block still open is closed, innermost
   * first, the root last, so `"file"` is registered and its definition begins
   * with the root's fields.
   */
  function CloseAll(stack: seq<Block>, structs: map<string, StructDef>): (r: map<string, StructDef>)
    requires WellFormed(stack)
    ensures "file" in r && stack[0].def <= r["file"]
    ensures forall j :: 0 <= j < |stack| && stack[j].kind.TypeBlock? ==> stack[j].kind.name in r
    ensures structs.Keys <= r.Keys
    decreases |stack|
  {
    if |stack| == 1 then structs["file" := stack[0].def]
    else
      var top := stack[|stack| - 1];
      var below := stack[..|stack| - 1];
      assert WellFormed(below);
      var next := Close(top, below, structs);
      CloseKeepsShape(top, below, structs);
      assert next.0[0].def == stack[0].def || (|below| == 1 && stack[0].def <= next.0[0].def);
      var r := CloseAll(next.0, next.1);
      r
  }

  /** How a line, its indent removed, is classified. */
  datatype Line =
    | OpenCount(countf: CountF, countName: string)  // `if (p)`, `for s to numX`, `for N:name`
    | OpenType(name: string, called: bool)          // `<type>` or `!<type>`
    | Member(typeName: string, name: string)        // `<type> <name>`

  /** The classification of a line with its indent removed. */
  function ParseLine(line: string): Result<Line> {
    if Substring(line, 0, 4) == "if (" then
      var condition := Substring(line, 4, |line| - 1);
      if FindFrom(condition, "==", 0).Some? then
        var parts := Runs(condition, '=');
        if parts == [] then Err(TypeError("cannot read '0' of null"))
        else Ok(OpenCount(IfEq(parts[0], if |parts| > 1 then Some(parts[1]) else None), "undefined"))
      else Ok(OpenCount(IfBool(condition), "undefined"))
    else if Substring(line, 0, 4) == "for " then
      var rest := Substring(line, 4, |line|);
      var terms := Split(rest, " to ");
      if |terms| > 1 then Ok(OpenCount(ForTo(terms[0], terms[1]), Substring(terms[1], 3, |terms[1]|)))
      else
        var t := Split(rest, ":");
        Ok(OpenCount(Times(t[0]), if |t| > 1 then t[1] else "undefined"))
    else if ' ' !in line then
      if Substring(line, 0, 1) != "!" then Ok(OpenType(line, true))
      else Ok(OpenType(Substring(line, 1, |line|), false))
    else
      var l := Split(line, " ");
      Ok(Member(l[0], if |l| > 1 then l[1] else "undefined"))
  }

  /**
   * The effect of a classified line on the stack: a count or type line opens
   * a block at its indent (a type line not marked `!` first adds a field of
   * that type, named after it, to the enclosing block); a member line adds a
   * field to the innermost block.
   */
  function Push(stack: seq<Block>, l: Line, indent: int): (r: seq<Block>)
    requires WellFormed(stack) && stack[|stack| - 1].indent < indent
    ensures WellFormed(r)
    ensures l.Member? ==> |r| == |stack| && r[|r| - 1].def == stack[|stack| - 1].def + [MemberField(l.typeName, l.name)]
    ensures !l.Member? ==> |r| == |stack| + 1 && r[|stack|].indent == indent && r[|stack|].def == []
    ensures l.OpenCount? ==> r[|stack|].kind == CountBlock(l.countf, l.countName)
    ensures l.OpenType? ==> r[|stack|].kind == TypeBlock(l.name)
    ensures l.OpenType? && l.called ==> r[|stack| - 1].def == stack[|stack| - 1].def + [MemberField(l.name, l.name)]
  {
    match l
    case OpenCount(cf, name) => stack + [Block(CountBlock(cf, name), indent, [])]
    case OpenType(name, called) =>
      (if called then AddToTop(stack, MemberField(name, name)) else stack) + [Block(TypeBlock(name), indent, [])]
    case Member(t, name) => AddToTop(stack, MemberField(t, name))
  }

  /** Where `defStructsFromSpec` leaves `structs`, and the exception that stopped it, if any. */
  datatype Outcome = Outcome(structs: map<string, StructDef>, error: Option<JsError>)

  /** The lines from the `k`-th on, read against an open stack. */
  function CompileFrom(lines: seq<string>, k: nat, stack: seq<Block>, structs: map<string, StructDef>): (r: Outcome)
    requires k <= |lines| && WellFormed(stack)
    ensures structs.Keys <= r.structs.Keys
    ensures r.error.None? ==> "file" in r.structs
    decreases |lines| - k
  {
    if k == |lines| then Outcome(CloseAll(stack, structs), None)
    else
      var indent := Indent(lines[k]);
      var popped := PopWhile(stack, structs, indent);
      match ParseLine(lines[k][indent..])
      case Err(e) => Outcome(popped.1, Some(e))
      case Ok(l) => CompileFrom(lines, k + 1, Push(popped.0, l, indent), popped.1)
  }

  /** One line of `CompileFrom`: close the blocks it ends, classify it, and act on it. */
  lemma CompileFromStep(lines: seq<string>, k: nat, stack: seq<Block>, structs: map<string, StructDef>)
    requires k < |lines| && WellFormed(stack)
    ensures var indent := Indent(lines[k]);
      var popped := PopWhile(stack, structs, indent);
      CompileFrom(lines, k, stack, structs)
      == match ParseLine(lines[k][indent..])
         case Err(e) => Outcome(popped.1, Some(e))
         case Ok(l) => CompileFrom(lines, k + 1, Push(popped.0, l, indent), popped.1)
  {
  }

  /** `defStructsFromSpec` on the description's lines, each without its line break. */
  function Compile(lines: seq<string>, structs: map<string, StructDef>): Outcome {
    CompileFrom(lines, 0, [Root], structs)
  }
}

/** What the lines of a struct description mean: how each kind of line is classified and what its count closure counts. */
module DifCompileFacts {
  import opened Wrappers
  import opened JsText
  import opened DifValues
  import opened DifCompile

  lemma FirstOccurrence(s: string, sep: string, k: nat)
    requires OccursAt(s, sep, k)
    requires forall j: nat :: j < k ==> !OccursAt(s, sep, j)
    ensures FindFrom(s, sep, 0) == Some(k)
  {
  }

  lemma NoOccurrence(s: string, sep: string)
    requires |sep| > 0 && sep[0] !in s
    ensures FindFrom(s, sep, 0).None?
    ensures Split(s, sep) == [s]
  {
    forall j: nat | j + |sep| <= |s|
      ensures !OccursAt(s, sep, j)
    {
      assert s[j..j + |sep|][0] == s[j];
    }
  }

  /** `a + sep + b` splits at the separator when `a` cannot hold its first character and `b` none of it. */
  lemma SplitTwo(a: string, sep: string, b: string)
    requires |sep| > 0 && sep[0] !in a && sep[0] !in b
    ensures Split(a + sep + b, sep) == [a, b]
  {
    var s := a + sep + b;
    assert s[|a|..|a| + |sep|] == sep;
    forall j: nat | j < |a|
      ensures !OccursAt(s, sep, j)
    {
      if j + |sep| <= |s| {
        assert s[j..j + |sep|][0] == a[j];
      }
    }
    FirstOccurrence(s, sep, |a|);
    assert s[|a| + |sep|..] == b;
    assert s[..|a|] == a;
    NoOccurrence(b, sep);
  }

  lemma RunsOfFree(s: string, c: char)
    requires s != [] && c !in s
    ensures Runs(s, c) == [s]
  {
    assert s[0] != c;
    assert RunLength(s, c) == |s|;
    assert s[..|s|] == s;
    assert s[|s|..] == [];
  }

  lemma RunsOfPair(a: string, b: string, c: char)
    requires a != [] && b != [] && c !in a && c !in b
    ensures Runs(a + [c, c] + b, c) == [a, b]
  {
    var s := a + [c, c] + b;
    assert RunLength(s, c) == |a| by {
      assert s[|a|] == c;
      assert forall k :: 0 <= k < |a| ==> s[k] == a[k];
    }
    assert s[..|a|] == a;
    var t := s[|a|..];
    assert t == [c, c] + b;
    assert Runs(s, c) == [a] + Runs(t, c);
    assert t[1..][1..] == b;
    assert Runs(t, c) == Runs(t[1..], c) == Runs(b, c);
    RunsOfFree(b, c);
  }

  lemma NotKeyword(line: string)
    requires ' ' !in line
    ensures Substring(line, 0, 4) != "if (" && Substring(line, 0, 4) != "for "
  {
    if |line| >= 4 {
      assert Substring(line, 0, 4)[2] == line[2];
      assert Substring(line, 0, 4)[3] == line[3];
    }
  }

  /**
   * `for a to numX`: a loop from the numeral `a` up to the name-space value
   * `numX`, keyed by `X`, the limit's first three characters dropped; it
   * counts `g[numX] - a`.
   */
  lemma ForToLine(m: nat, limit: string, g: Namespace, v: int)
    requires ' ' !in limit && Lookup(g, limit) == Int(v)
    ensures ParseLine("for " + NaturalText(m) + " to " + limit)
      == Ok(OpenCount(ForTo(NaturalText(m), limit), Substring(limit, 3, |limit|)))
    ensures EvalCountF(ForTo(NaturalText(m), limit), g) == Ok(Whole(v - m))
  {
    var a := NaturalText(m);
    var line := "for " + a + " to " + limit;
    assert ' ' !in a by {
      assert forall k :: 0 <= k < |a| ==> IsDigit(a[k]);
    }
    assert Substring(line, 0, 4) == "for ";
    assert "for " != "if (" by { assert "for "[0] != "if ("[0]; }
    assert Substring(line, 4, |line|) == a + " to " + limit;
    SplitTwo(a, " to ", limit);
    NumberOfNaturalText(m);
  }

  /** `for N:name`: a constant count `N`, keyed by `name`. */
  lemma TimesLine(m: nat, name: string, g: Namespace)
    requires ' ' !in name && ':' !in name
    ensures ParseLine("for " + NaturalText(m) + ":" + name) == Ok(OpenCount(Times(NaturalText(m)), name))
    ensures EvalCountF(Times(NaturalText(m)), g) == Ok(Whole(m))
  {
    var a := NaturalText(m);
    var line := "for " + a + ":" + name;
    assert ' ' !in a && ':' !in a by {
      assert forall k :: 0 <= k < |a| ==> IsDigit(a[k]);
    }
    assert Substring(line, 0, 4) == "for ";
    assert "for " != "if (" by { assert "for "[0] != "if ("[0]; }
    var rest := a + ":" + name;
    assert Substring(line, 4, |line|) == rest;
    NoOccurrence(rest, " to ");
    SplitTwo(a, ":", name);
    NumberOfNaturalText(m);
  }

  /** `if (p)`: counts 1 when `g[p]` is truthy and 0 otherwise; the field is keyed `"undefined"`. */
  lemma IfBoolLine(p: string, g: Namespace)
    requires '=' !in p
    ensures ParseLine("if (" + p + ")") == Ok(OpenCount(IfBool(p), "undefined"))
    ensures EvalCountF(IfBool(p), g) == Ok(Whole(if Truthy(Lookup(g, p)) then 1 else 0))
  {
    var line := "if (" + p + ")";
    assert line[..4] == "if (";
    assert line[4..|line| - 1] == p;
    NoOccurrence(p, "==");
  }

  /**
   * `if (a==b)`: compares `g[a]` with the text `b` as written, white space
   * included; a string value counts 1 exactly when it equals that text.
   */
  lemma IfEqLine(a: string, b: string, g: Namespace, x: string)
    requires a != [] && b != [] && '=' !in a && '=' !in b
    requires Lookup(g, a) == Str(x)
    ensures ParseLine("if (" + a + "==" + b + ")") == Ok(OpenCount(IfEq(a, Some(b)), "undefined"))
    ensures EvalCountF(IfEq(a, Some(b)), g) == Ok(Whole(if x == b then 1 else 0))
  {
    var line := "if (" + a + "==" + b + ")";
    var condition := a + "==" + b;
    assert line[..4] == "if (";
    assert line[4..|line| - 1] == condition;
    assert OccursAt(condition, "==", |a|) by {
      assert condition[|a|..|a| + 2] == "==";
    }
    RunsOfPair(a, b, '=');
    assert a + ['=', '='] + b == condition;
  }

  /** `<type> <name>`: a field named `name` of type `type`, also written to the name space. */
  lemma MemberLine(typeName: string, name: string)
    requires ' ' !in typeName && ' ' !in name
    requires typeName != "if" && typeName != "for"
    ensures ParseLine(typeName + " " + name) == Ok(Member(typeName, name))
  {
    var line := typeName + " " + name;
    var n := |typeName|;
    assert line[n] == ' ';
    if |line| >= 4 {
      assert line[..4] != "if (" && line[..4] != "for " by {
        if n <= 3 {
          assert line[..4][n] == ' ';
          assert line[..n] == typeName;
          assert line[..4][..n] == typeName;
        } else {
          assert line[..4][2] == typeName[2] && line[..4][3] == typeName[3];
        }
      }
    }
    assert line[|typeName|] == ' ';
    SplitTwo(typeName, " ", name);
  }

  /** `<type>`: opens the definition of `type` and, unless marked `!`, reads one into a field of that name. */
  lemma TypeLine(name: string)
    requires ' ' !in name
    ensures name != [] && name[0] != '!' ==> ParseLine(name) == Ok(OpenType(name, true))
    ensures ParseLine("!" + name) == Ok(OpenType(name, false))
  {
    NotKeyword(name);
    NotKeyword("!" + name);
    assert Substring("!" + name, 0, 1) == "!";
    assert Substring("!" + name, 1, |"!" + name|) == name;
  }
}
