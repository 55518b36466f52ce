/**
 * The mission-file reader of app/mbgloader.ts: `parseBool`, and the loop of
 * `MisLoader.finish` that nests the text's pieces into a tree by its braces.
 *
 * The text arrives already split. The pieces are the non-empty runs between
 * unquoted `{`s, so `{{` adds no piece and a leading `{` no empty first
 * piece. Each piece is split into the non-empty runs between its unquoted
 * `}`s, its subpieces; a piece made only of `}`s has none. Each subpiece is
 * split at its `;`s into a chunk (None when the subpiece is nothing but
 * `;`s). Every piece after the first opens a group; every subpiece after a
 * piece's first closes one; every subpiece is a leaf.
 */
module MissionLoader {
  import opened Wrappers

  /** `parseBool(s)`: `!!s`, true for every non-empty string. */
  function ParseBool(s: string): (r: bool)
    ensures r <==> |s| > 0
  {
    s != ""
  }

  /** Only the empty string is false: "0" and "false" read as true. */
  lemma OnlyEmptyIsFalse()
    ensures ParseBool("0") && ParseBool("false") && ParseBool("true")
    ensures !ParseBool("")
  {
  }

  /** A subpiece split at its unquoted `;`s. */
  type Chunk = Option<seq<string>>

  /** A `parenTree` entry: `{leaf}` or `{children}`. */
  datatype Node = Leaf(leaf: Chunk) | Group(children: seq<Node>)

  /** What the loop does, in order: open a group, close one, add a leaf to the open one. */
  datatype Event = Open | Close | Put(chunk: Chunk)

  /** The events of a piece's subpieces from the `m`-th on. */
  function SubsFrom(subs: seq<Chunk>, m: nat): seq<Event>
    requires m <= |subs|
    decreases |subs| - m
  {
    if m == |subs| then []
    else (if m > 0 then [Close] else []) + [Put(subs[m])] + SubsFrom(subs, m + 1)
  }

  /** The events of one piece: an opening unless it is the first, then its subpieces'. */
  function PieceEvents(subs: seq<Chunk>, opens: bool): seq<Event> {
    (if opens then [Open] else []) + SubsFrom(subs, 0)
  }

  /** The events of the pieces from the `l`-th on. */
  function EventsFrom(pieces: seq<seq<Chunk>>, l: nat): seq<Event>
    requires l <= |pieces|
    decreases |pieces| - l
  {
    if l == |pieces| then [] else PieceEvents(pieces[l], l > 0) + EventsFrom(pieces, l + 1)
  }

  /**
   * The open groups, outermost first: each is the list of entries it has
   * so far; the first is the root list.
   */
  type Stack = seq<seq<Node>>

  /** Closing the innermost group adds it to the group around it. */
  function Attach(s: Stack): (r: Stack)
    requires |s| >= 2
    ensures |r| == |s| - 1
  {
    s[..|s| - 2] + [s[|s| - 2] + [Group(s[|s| - 1])]]
  }

  /**
   * One event. A close with only the root open empties the stack, and the
   * leaf that always follows it is pushed onto `undefined`.
   */
  function Apply(s: Stack, e: Event): (r: Result<Stack>)
    requires |s| >= 1
    ensures r.Ok? ==> |r.value| >= 1
  {
    match e
    case Open => Ok(s + [[]])
    case Close =>
      if |s| == 1 then Err(TypeError("stack[stack.length - 1] is undefined"))
      else Ok(Attach(s))
    case Put(x) => Ok(s[..|s| - 1] + [s[|s| - 1] + [Leaf(x)]])
  }

  function Run(s: Stack, evs: seq<Event>): (r: Result<Stack>)
    requires |s| >= 1
    ensures r.Ok? ==> |r.value| >= 1
    decreases |evs|
  {
    if evs == [] then Ok(s)
    else
      var next := Apply(s, evs[0]);
      if next.Err? then Err(next.error) else Run(next.value, evs[1..])
  }

  /** The tree: every group still open at the end is closed into the one around it. */
  function Unwind(s: Stack): seq<Node>
    requires |s| >= 1
    decreases |s|
  {
    if |s| == 1 then s[0] else Unwind(Attach(s))
  }

  /** Adding a leaf to the innermost open group. */
  function PutLeaf(s: Stack, x: Chunk): (r: Stack)
    requires |s| >= 1
    ensures |r| == |s| && Apply(s, Put(x)) == Ok(r)
  {
    s[..|s| - 1] + [s[|s| - 1] + [Leaf(x)]]
  }

  /** The inner loop of `finish` from subpiece `m` of a piece on. */
  function FoldSubs(s: Stack, subs: seq<Chunk>, m: nat): (r: Result<Stack>)
    requires |s| >= 1 && m <= |subs|
    ensures r.Ok? ==> |r.value| >= 1
    decreases |subs| - m
  {
    if m == |subs| then Ok(s)
    else if m > 0 && |s| == 1 then Err(TypeError("stack[stack.length - 1] is undefined"))
    else
      var closed := if m > 0 then Attach(s) else s;
      FoldSubs(PutLeaf(closed, subs[m]), subs, m + 1)
  }

  /** The outer loop of `finish` from piece `l` on, continuing `r`. */
  function FoldPieces(r: Result<Stack>, pieces: seq<seq<Chunk>>, l: nat): (q: Result<Stack>)
    requires l <= |pieces| && (r.Ok? ==> |r.value| >= 1)
    ensures q.Ok? ==> |q.value| >= 1
    decreases |pieces| - l
  {
    if r.Err? || l == |pieces| then r
    else
      var s := if l > 0 then r.value + [[]] else r.value;
      FoldPieces(FoldSubs(s, pieces[l], 0), pieces, l + 1)
  }

  /** `objectTree` after the loop of `finish`, or the error that stops it. */
  function Build(pieces: seq<seq<Chunk>>): Result<seq<Node>> {
    var r := FoldPieces(Ok([[]]), pieces, 0);
    if r.Err? then Err(r.error) else Ok(Unwind(r.value))
  }

  /**
   * The balancing loop of `finish`, on the already-split pieces: the stack
   * holds the open groups' lists, a piece after the first opens a group, a
   * subpiece after a piece's first closes one, and every subpiece is added
   * as a leaf to the innermost open group.
   */
  method BuildTree(pieces: seq<seq<Chunk>>) returns (r: Result<seq<Node>>)
    ensures r == Build(pieces)
  {
    var stack: Stack := [[]];
    var f := true;
    for l := 0 to |pieces|
      invariant |stack| >= 1 && (f <==> l == 0)
      invariant FoldPieces(Ok([[]]), pieces, 0) == FoldPieces(Ok(stack), pieces, l)
    {
      if f {
        f := false;
      } else {
        stack := stack + [[]];
      }
      var q := BalanceSubs(stack, pieces[l]);
      if q.Err? {
        r := Err(q.error);
        return;
      }
      stack := q.value;
    }
    r := Ok(Unwind(stack));
  }

  /**
   * The inner loop of `finish` over one piece's subpieces: every subpiece
   * after the first closes the innermost open group, and each is then added
   * as a leaf to the group that is innermost after that.
   */
  method BalanceSubs(start: Stack, subs: seq<Chunk>) returns (r: Result<Stack>)
    requires |start| >= 1
    ensures r == FoldSubs(start, subs, 0)
  {
    var stack := start;
    var t := true;
    for m := 0 to |subs|
      invariant |stack| >= 1 && (t <==> m == 0)
      invariant FoldSubs(start, subs, 0) == FoldSubs(stack, subs, m)
    {
      if t {
        t := false;
      } else {
        if |stack| == 1 {
          return Err(TypeError("stack[stack.length - 1] is undefined"));
        }
        stack := Attach(stack);
      }
      stack := stack[..|stack| - 1] + [stack[|stack| - 1] + [Leaf(subs[m])]];
    }
    r := Ok(stack);
  }

  lemma RunCons(s: Stack, e: Event, rest: seq<Event>)
    requires |s| >= 1
    ensures Run(s, [e] + rest)
      == (var next := Apply(s, e); if next.Err? then Err(next.error) else Run(next.value, rest))
  {
    assert ([e] + rest)[0] == e && ([e] + rest)[1..] == rest;
  }

  lemma {:induction false} RunAppend(s: Stack, a: seq<Event>, b: seq<Event>)
    requires |s| >= 1
    ensures Run(s, a + b) == (var r := Run(s, a); if r.Err? then r else Run(r.value, b))
    decreases |a|
  {
    if a == [] {
      assert a + b == b;
    } else {
      assert (a + b)[0] == a[0] && (a + b)[1..] == a[1..] + b;
      var next := Apply(s, a[0]);
      if next.Ok? {
        RunAppend(next.value, a[1..], b);
      }
    }
  }

  lemma {:induction false} FoldSubsRuns(s: Stack, subs: seq<Chunk>, m: nat)
    requires |s| >= 1 && m <= |subs|
    ensures FoldSubs(s, subs, m) == Run(s, SubsFrom(subs, m))
    decreases |subs| - m
  {
    if m < |subs| {
      var leaf := Put(subs[m]);
      var after := SubsFrom(subs, m + 1);
      if m > 0 {
        assert SubsFrom(subs, m) == [Close] + ([leaf] + after);
        RunCons(s, Close, [leaf] + after);
        if |s| > 1 {
          RunCons(Attach(s), leaf, after);
          FoldSubsRuns(PutLeaf(Attach(s), subs[m]), subs, m + 1);
        }
      } else {
        assert SubsFrom(subs, m) == [leaf] + after;
        RunCons(s, leaf, after);
        FoldSubsRuns(PutLeaf(s, subs[m]), subs, m + 1);
      }
    }
  }

  /** The two loops of `finish` do the pieces' events in order. */
  lemma {:induction false} FoldPiecesRuns(r: Result<Stack>, pieces: seq<seq<Chunk>>, l: nat)
    requires l <= |pieces| && (r.Ok? ==> |r.value| >= 1)
    ensures r.Ok? ==> FoldPieces(r, pieces, l) == Run(r.value, EventsFrom(pieces, l))
    ensures r.Err? ==> FoldPieces(r, pieces, l) == r
    decreases |pieces| - l
  {
    if r.Ok? && l < |pieces| {
      var s := if l > 0 then r.value + [[]] else r.value;
      var subs := SubsFrom(pieces[l], 0);
      RunAppend(r.value, PieceEvents(pieces[l], l > 0), EventsFrom(pieces, l + 1));
      if l > 0 {
        RunCons(r.value, Open, subs);
      } else {
        assert PieceEvents(pieces[l], l > 0) == subs;
      }
      FoldSubsRuns(s, pieces[l], 0);
      FoldPiecesRuns(FoldSubs(s, pieces[l], 0), pieces, l + 1);
    } else if r.Ok? {
      assert EventsFrom(pieces, l) == [];
    }
  }

  /** `objectTree` is what the events make of a stack holding only the root list. */
  lemma BuildRuns(pieces: seq<seq<Chunk>>)
    ensures var r := Run([[]], EventsFrom(pieces, 0));
      && (r.Err? ==> Build(pieces) == Err(r.error))
      && (r.Ok? ==> Build(pieces) == Ok(Unwind(r.value)))
  {
    FoldPiecesRuns(Ok([[]]), pieces, 0);
  }

  /** The leaves of a list of entries, depth first, in order. */
  function Flat(ns: seq<Node>): seq<Chunk>
    decreases ns
  {
    if |ns| == 0 then []
    else
      match ns[0]
      case Leaf(x) => [x] + Flat(ns[1..])
      case Group(cs) => Flat(cs) + Flat(ns[1..])
  }

  /** The groups in a list of entries, at every depth. */
  function Groups(ns: seq<Node>): nat
    decreases ns
  {
    if |ns| == 0 then 0
    else
      match ns[0]
      case Leaf(_) => Groups(ns[1..])
      case Group(cs) => 1 + Groups(cs) + Groups(ns[1..])
  }

  lemma {:induction false} FlatAppend(a: seq<Node>, b: seq<Node>)
    ensures Flat(a + b) == Flat(a) + Flat(b)
    ensures Groups(a + b) == Groups(a) + Groups(b)
    decreases |a|
  {
    if |a| > 0 {
      assert (a + b)[0] == a[0] && (a + b)[1..] == a[1..] + b;
      FlatAppend(a[1..], b);
    } else {
      assert a + b == b;
    }
  }

  /** The leaves of every open group, outermost first. */
  function StackLeaves(s: Stack): seq<Chunk> {
    if |s| == 0 then [] else StackLeaves(s[..|s| - 1]) + Flat(s[|s| - 1])
  }

  /** The groups in the stack's lists, plus one for each open group (the root list counts as one). */
  function StackGroups(s: Stack): nat {
    if |s| == 0 then 0 else StackGroups(s[..|s| - 1]) + Groups(s[|s| - 1]) + 1
  }

  lemma StackSnoc(pre: Stack, a: seq<Node>)
    ensures StackLeaves(pre + [a]) == StackLeaves(pre) + Flat(a)
    ensures StackGroups(pre + [a]) == StackGroups(pre) + Groups(a) + 1
  {
    assert (pre + [a])[..|pre|] == pre;
  }

  lemma OneNode(n: Node)
    ensures Flat([n]) == (if n.Leaf? then [n.leaf] else Flat(n.children))
    ensures Groups([n]) == (if n.Leaf? then 0 else 1 + Groups(n.children))
  {
    assert [n][1..] == [];
  }

  /** The chunks the events add, in order. */
  function Puts(evs: seq<Event>): seq<Chunk> {
    if evs == [] then [] else (if evs[0].Put? then [evs[0].chunk] else []) + Puts(evs[1..])
  }

  /** How many groups the events open. */
  function Opens(evs: seq<Event>): nat {
    if evs == [] then 0 else (if evs[0].Open? then 1 else 0) + Opens(evs[1..])
  }

  /** How much deeper the events leave the innermost open group. */
  function Depth(evs: seq<Event>): int {
    if evs == [] then 0
    else (if evs[0].Open? then 1 else if evs[0].Close? then -1 else 0) + Depth(evs[1..])
  }

  lemma {:induction false} CountsAppend(a: seq<Event>, b: seq<Event>)
    ensures Puts(a + b) == Puts(a) + Puts(b)
    ensures Opens(a + b) == Opens(a) + Opens(b)
    decreases |a|
  {
    if a == [] {
      assert a + b == b;
    } else {
      assert (a + b)[0] == a[0] && (a + b)[1..] == a[1..] + b;
      CountsAppend(a[1..], b);
    }
  }

  lemma OneEvent(e: Event)
    ensures Puts([e]) == (if e.Put? then [e.chunk] else [])
    ensures Opens([e]) == (if e.Open? then 1 else 0)
  {
    assert [e][1..] == [];
  }

  /** Closing a group keeps the leaves and the groups. */
  lemma AttachKeeps(s: Stack)
    requires |s| >= 2
    ensures StackLeaves(Attach(s)) == StackLeaves(s)
    ensures StackGroups(Attach(s)) == StackGroups(s)
  {
    var k := |s|;
    AttachSplits(s);
    AttachKeepsParts(s[..k - 2], s[k - 2], s[k - 1]);
  }

  lemma AttachSplits(s: Stack)
    requires |s| >= 2
    ensures s == s[..|s| - 2] + [s[|s| - 2]] + [s[|s| - 1]]
    ensures Attach(s) == s[..|s| - 2] + [s[|s| - 2] + [Group(s[|s| - 1])]]
  {
  }

  lemma AttachKeepsParts(outer: Stack, inner: seq<Node>, top: seq<Node>)
    ensures StackLeaves(outer + [inner + [Group(top)]]) == StackLeaves(outer + [inner] + [top])
    ensures StackGroups(outer + [inner + [Group(top)]]) == StackGroups(outer + [inner] + [top])
  {
    StackSnoc(outer + [inner], top);
    StackSnoc(outer, inner);
    StackSnoc(outer, inner + [Group(top)]);
    FlatAppend(inner, [Group(top)]);
    OneNode(Group(top));
  }

  /** One event adds its leaf to the leaves and its opening to the groups. */
  lemma ApplyKeeps(s: Stack, e: Event)
    requires |s| >= 1 && Apply(s, e).Ok?
    ensures StackLeaves(Apply(s, e).value) == StackLeaves(s) + Puts([e])
    ensures StackGroups(Apply(s, e).value) == StackGroups(s) + Opens([e])
  {
    OneEvent(e);
    match e {
      case Open =>
        OpenKeeps(s);
      case Close =>
        AttachKeeps(s);
      case Put(x) =>
        PutKeeps(s, x);
    }
  }

  lemma OpenKeeps(s: Stack)
    ensures StackLeaves(s + [[]]) == StackLeaves(s)
    ensures StackGroups(s + [[]]) == StackGroups(s) + 1
  {
    StackSnoc(s, []);
  }

  lemma PutKeeps(s: Stack, x: Chunk)
    requires |s| >= 1
    ensures StackLeaves(PutLeaf(s, x)) == StackLeaves(s) + [x]
    ensures StackGroups(PutLeaf(s, x)) == StackGroups(s)
  {
    PutSplits(s, x);
    PutKeepsParts(s[..|s| - 1], s[|s| - 1], x);
  }

  lemma PutSplits(s: Stack, x: Chunk)
    requires |s| >= 1
    ensures s == s[..|s| - 1] + [s[|s| - 1]]
    ensures PutLeaf(s, x) == s[..|s| - 1] + [s[|s| - 1] + [Leaf(x)]]
  {
  }

  lemma PutKeepsParts(pre: Stack, last: seq<Node>, x: Chunk)
    ensures StackLeaves(pre + [last + [Leaf(x)]]) == StackLeaves(pre + [last]) + [x]
    ensures StackGroups(pre + [last + [Leaf(x)]]) == StackGroups(pre + [last])
  {
    StackSnoc(pre, last);
    StackSnoc(pre, last + [Leaf(x)]);
    FlatAppend(last, [Leaf(x)]);
    OneNode(Leaf(x));
  }

  lemma {:induction false} RunKeeps(s: Stack, evs: seq<Event>)
    requires |s| >= 1 && Run(s, evs).Ok?
    ensures StackLeaves(Run(s, evs).value) == StackLeaves(s) + Puts(evs)
    ensures StackGroups(Run(s, evs).value) == StackGroups(s) + Opens(evs)
    decreases |evs|
  {
    if evs != [] {
      var e := evs[0];
      assert evs == [e] + evs[1..];
      ApplyKeeps(s, e);
      CountsAppend([e], evs[1..]);
      RunKeeps(Apply(s, e).value, evs[1..]);
    }
  }

  lemma {:induction false} UnwindKeeps(s: Stack)
    requires |s| >= 1
    ensures Flat(Unwind(s)) == StackLeaves(s)
    ensures Groups(Unwind(s)) + 1 == StackGroups(s)
    decreases |s|
  {
    if |s| == 1 {
      StackSnoc([], s[0]);
      assert s == [] + [s[0]];
    } else {
      AttachKeeps(s);
      UnwindKeeps(Attach(s));
    }
  }

  /** All the subpieces from piece `l` on, in order. */
  function ChunksFrom(pieces: seq<seq<Chunk>>, l: nat): seq<Chunk>
    requires l <= |pieces|
    decreases |pieces| - l
  {
    if l == |pieces| then [] else pieces[l] + ChunksFrom(pieces, l + 1)
  }

  lemma {:induction false} SubsCounts(subs: seq<Chunk>, m: nat)
    requires m <= |subs|
    ensures Puts(SubsFrom(subs, m)) == subs[m..]
    ensures Opens(SubsFrom(subs, m)) == 0
    decreases |subs| - m
  {
    if m < |subs| {
      var head := SubHead(subs[m], m > 0);
      assert SubsFrom(subs, m) == head + SubsFrom(subs, m + 1);
      SubsCounts(subs, m + 1);
      CountsAppend(head, SubsFrom(subs, m + 1));
      HeadCounts(subs[m], m > 0);
      assert subs[m..] == [subs[m]] + subs[m + 1..];
    }
  }

  /** The events of one subpiece: a closing unless it is the first, then its leaf. */
  function SubHead(c: Chunk, closes: bool): seq<Event> {
    (if closes then [Close] else []) + [Put(c)]
  }

  lemma HeadCounts(c: Chunk, closes: bool)
    ensures Puts(SubHead(c, closes)) == [c] && Opens(SubHead(c, closes)) == 0
  {
    OneEvent(Put(c));
    if closes {
      OneEvent(Close);
      CountsAppend([Close], [Put(c)]);
    } else {
      assert SubHead(c, closes) == [Put(c)];
    }
  }

  lemma PieceCounts(subs: seq<Chunk>, opens: bool)
    ensures Puts(PieceEvents(subs, opens)) == subs
    ensures Opens(PieceEvents(subs, opens)) == if opens then 1 else 0
  {
    SubsCounts(subs, 0);
    OneEvent(Open);
    CountsAppend(if opens then [Open] else [], SubsFrom(subs, 0));
    assert subs[0..] == subs;
  }

  lemma {:induction false} EventCounts(pieces: seq<seq<Chunk>>, l: nat)
    requires l <= |pieces|
    ensures Puts(EventsFrom(pieces, l)) == ChunksFrom(pieces, l)
    ensures Opens(EventsFrom(pieces, l)) == |pieces| - l - (if l == 0 && |pieces| > 0 then 1 else 0)
    decreases |pieces| - l
  {
    if l < |pieces| {
      EventCounts(pieces, l + 1);
      PieceCounts(pieces[l], l > 0);
      CountsAppend(PieceEvents(pieces[l], l > 0), EventsFrom(pieces, l + 1));
    }
  }

  /** Every subpiece becomes one leaf of the tree, and in the order of the text. */
  lemma LeavesKeepTextOrder(pieces: seq<seq<Chunk>>)
    requires Build(pieces).Ok?
    ensures Flat(Build(pieces).value) == ChunksFrom(pieces, 0)
  {
    BuildRuns(pieces);
    var s := Run([[]], EventsFrom(pieces, 0)).value;
    RunKeeps([[]], EventsFrom(pieces, 0));
    UnwindKeeps(s);
    EventCounts(pieces, 0);
    var root: Stack := [[]];
    StackSnoc([], []);
    assert [] + [[]] == root;
  }

  /** Every piece after the first becomes exactly one group of the tree. */
  lemma OneGroupPerPiece(pieces: seq<seq<Chunk>>)
    requires Build(pieces).Ok?
    ensures Groups(Build(pieces).value) == if |pieces| == 0 then 0 else |pieces| - 1
  {
    BuildRuns(pieces);
    var s := Run([[]], EventsFrom(pieces, 0)).value;
    RunKeeps([[]], EventsFrom(pieces, 0));
    UnwindKeeps(s);
    EventCounts(pieces, 0);
    var root: Stack := [[]];
    StackSnoc([], []);
    assert [] + [[]] == root;
  }

  lemma {:induction false} RunFailsIffTooDeep(s: Stack, evs: seq<Event>, base: int)
    requires |s| >= 1 && base == |s| - 1
    ensures Run(s, evs).Err? <==> exists j :: 0 <= j <= |evs| && base + Depth(evs[..j]) < 0
    decreases |evs|
  {
    if evs == [] {
      forall j | 0 <= j <= |evs|
        ensures base + Depth(evs[..j]) >= 0
      {
        assert evs[..j] == [];
      }
    } else {
      var e := evs[0];
      var rest := evs[1..];
      var delta := if e.Open? then 1 else if e.Close? then -1 else 0;
      assert evs[..0] == [];
      forall j | 1 <= j <= |evs|
        ensures Depth(evs[..j]) == delta + Depth(rest[..j - 1])
      {
        assert evs[..j][0] == e && evs[..j][1..] == rest[..j - 1];
      }
      var next := Apply(s, e);
      if next.Err? {
        assert base + Depth(evs[..1]) < 0;
      } else {
        RunFailsIffTooDeep(next.value, rest, base + delta);
        if Run(s, evs).Err? {
          var j' :| 0 <= j' <= |rest| && base + delta + Depth(rest[..j']) < 0;
          assert base + Depth(evs[..j' + 1]) < 0;
        } else {
          forall j | 0 <= j <= |evs|
            ensures base + Depth(evs[..j]) >= 0
          {
            if j > 0 {
              assert base + delta + Depth(rest[..j - 1]) >= 0;
            }
          }
        }
      }
    }
  }

  /**
   * The loop stops with an error exactly when, at some point of the text,
   * more `}`-splits than `{`-pieces have been seen: the depth goes below
   * the root.
   */
  lemma FailsIffUnbalanced(pieces: seq<seq<Chunk>>)
    ensures var evs := EventsFrom(pieces, 0);
      Build(pieces).Err? <==> exists j :: 0 <= j <= |evs| && Depth(evs[..j]) < 0
  {
    var evs := EventsFrom(pieces, 0);
    BuildRuns(pieces);
    RunFailsIffTooDeep([[]], evs, 0);
    if Build(pieces).Err? {
      var j :| 0 <= j <= |evs| && 0 + Depth(evs[..j]) < 0;
      assert Depth(evs[..j]) < 0;
    } else {
      forall j | 0 <= j <= |evs|
        ensures Depth(evs[..j]) >= 0
      {
        assert 0 + Depth(evs[..j]) >= 0;
      }
    }
  }
}
