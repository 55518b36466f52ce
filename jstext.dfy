/**
 * The JavaScript string and number conversions the loader relies on, with
 * ECMAScript's semantics: `\s`, `String.prototype.substring`, `split` on a
 * literal separator, `match(/[^c]+/g)` and the unary `+` on a string.
 */
module JsText {
  import opened Wrappers

  /** `\s` of a JavaScript regular expression: white space and line terminators. */
  predicate IsSpace(c: char) {
    c == '\t' || c == '\n' || c == '\U{B}' || c == '\U{C}' || c == '\r' || c == ' '
    || c == '\U{A0}' || c == '\U{1680}' || ('\U{2000}' <= c <= '\U{200A}')
    || c == '\U{2028}' || c == '\U{2029}' || c == '\U{202F}' || c == '\U{205F}'
    || c == '\U{3000}' || c == '\U{FEFF}'
  }

  /** `line.search(/\S|$/)`: the index of the first non-space character, or the length. */
  function Indent(s: string): (n: nat)
    ensures n <= |s|
    ensures forall k :: 0 <= k < n ==> IsSpace(s[k])
    ensures n < |s| ==> !IsSpace(s[n])
  {
    if s == [] || !IsSpace(s[0]) then 0 else 1 + Indent(s[1..])
  }

  function Clamp(x: int, len: nat): (r: nat)
    ensures r <= len
  {
    if x < 0 then 0 else if x > len then len else x
  }

  /** `s.substring(start, end)`: both ends clamped to the string, swapped when reversed. */
  function Substring(s: string, start: int, end: int): (r: string)
    ensures |r| <= |s|
    ensures 0 <= start <= end <= |s| ==> r == s[start..end]
  {
    var a, b := Clamp(start, |s|), Clamp(end, |s|);
    if a <= b then s[a..b] else s[b..a]
  }

  /** The length of the longest prefix of `s` free of `c`. */
  function RunLength(s: string, c: char): (n: nat)
    ensures n <= |s|
    ensures forall k :: 0 <= k < n ==> s[k] != c
    ensures n < |s| ==> s[n] == c
  {
    if s == [] || s[0] == c then 0 else 1 + RunLength(s[1..], c)
  }

  /**
   * `s.match(/[^c]+/g)`, with `null` (no match) as the empty sequence: the
   * maximal runs of characters other than `c`, in order.
   */
  function Runs(s: string, c: char): (r: seq<string>)
    ensures forall k :: 0 <= k < |r| ==> |r[k]| > 0 && c !in r[k]
    decreases |s|
  {
    if s == [] then []
    else if s[0] == c then Runs(s[1..], c)
    else
      var n := RunLength(s, c);
      [s[..n]] + Runs(s[n..], c)
  }

  function Concat(parts: seq<string>): string {
    if parts == [] then [] else parts[0] + Concat(parts[1..])
  }

  /** `s` with every `c` removed. */
  function Without(s: string, c: char): string {
    if s == [] then [] else (if s[0] == c then [] else [s[0]]) + Without(s[1..], c)
  }

  lemma {:induction false} WithoutFree(s: string, c: char)
    requires c !in s
    ensures Without(s, c) == s
  {
    if s != [] {
      WithoutFree(s[1..], c);
    }
  }

  lemma {:induction false} WithoutAppend(a: string, b: string, c: char)
    ensures Without(a + b, c) == Without(a, c) + Without(b, c)
  {
    if a == [] {
      assert a + b == b;
    } else {
      assert (a + b)[1..] == a[1..] + b;
      WithoutAppend(a[1..], b, c);
    }
  }

  /** The runs hold every character of `s` that is not `c`, in order, and nothing else. */
  lemma {:induction false} RunsCoverText(s: string, c: char)
    ensures Concat(Runs(s, c)) == Without(s, c)
    decreases |s|
  {
    if s == [] {
    } else if s[0] == c {
      RunsCoverText(s[1..], c);
    } else {
      var n := RunLength(s, c);
      RunsCoverText(s[n..], c);
      assert s == s[..n] + s[n..];
      WithoutAppend(s[..n], s[n..], c);
      WithoutFree(s[..n], c);
    }
  }

  predicate OccursAt(s: string, sep: string, k: nat) {
    k + |sep| <= |s| && s[k..k + |sep|] == sep
  }

  /** The first index, from `k` on, at which `sep` occurs in `s`. */
  function FindFrom(s: string, sep: string, k: nat): (r: Option<nat>)
    ensures r.Some? ==> k <= r.value && OccursAt(s, sep, r.value)
    ensures forall j: nat :: k <= j && (r.None? || j < r.value) ==> !OccursAt(s, sep, j)
    decreases |s| - k
  {
    if k + |sep| > |s| then None
    else if OccursAt(s, sep, k) then Some(k)
    else FindFrom(s, sep, k + 1)
  }

  /** `s.split(sep)` for a non-empty literal separator: leftmost, non-overlapping. */
  function Split(s: string, sep: string): (r: seq<string>)
    requires |sep| > 0
    ensures |r| >= 1
    decreases |s|
  {
    match FindFrom(s, sep, 0)
    case None => [s]
    case Some(k) => [s[..k]] + Split(s[k + |sep|..], sep)
  }

  function Join(parts: seq<string>, sep: string): string
    requires |parts| >= 1
  {
    if |parts| == 1 then parts[0] else parts[0] + sep + Join(parts[1..], sep)
  }

  /** Splitting loses nothing: joining the pieces with the separator gives `s` back. */
  lemma {:induction false} JoinSplit(s: string, sep: string)
    requires |sep| > 0
    ensures Join(Split(s, sep), sep) == s
    decreases |s|
  {
    match FindFrom(s, sep, 0)
    case None =>
    case Some(k) =>
      var rest := s[k + |sep|..];
      JoinSplit(rest, sep);
      JoinCons(s[..k], Split(rest, sep), sep);
      OccurrenceSplits(s, sep, k);
  }

  lemma JoinCons(p: string, rest: seq<string>, sep: string)
    requires |rest| >= 1
    ensures Join([p] + rest, sep) == p + sep + Join(rest, sep)
  {
    assert ([p] + rest)[1..] == rest;
  }

  lemma OccurrenceSplits(s: string, sep: string, k: nat)
    requires OccursAt(s, sep, k)
    ensures s == s[..k] + sep + s[k + |sep|..]
  {
  }

  /** No piece of a split contains the separator. */
  lemma {:induction false} SplitPiecesAreFree(s: string, sep: string, i: nat, j: nat)
    requires |sep| > 0
    requires i < |Split(s, sep)|
    ensures !OccursAt(Split(s, sep)[i], sep, j)
    decreases |s|
  {
    match FindFrom(s, sep, 0)
    case None =>
      assert Split(s, sep) == [s];
    case Some(k) =>
      var rest := s[k + |sep|..];
      assert Split(s, sep) == [s[..k]] + Split(rest, sep);
      if i == 0 {
        if j + |sep| <= k {
          assert !OccursAt(s, sep, j);
          assert s[..k][j..j + |sep|] == s[j..j + |sep|];
        }
      } else {
        SplitPiecesAreFree(rest, sep, i - 1, j);
        assert Split(s, sep)[i] == Split(rest, sep)[i - 1];
      }
  }

  /** A JavaScript number, as far as the model interprets it: NaN or an integer. */
  datatype Num = NaN | Whole(n: int)

  function Minus(a: Num, b: Num): (r: Num)
    ensures r.NaN? <==> a.NaN? || b.NaN?
  {
    if a.NaN? || b.NaN? then NaN else Whole(a.n - b.n)
  }

  /** How many times `for (let i = 0; i < n; i++)` runs. */
  function Iterations(n: Num): (k: nat)
    ensures n.Whole? && n.n > 0 ==> k == n.n
    ensures n.NaN? || n.n <= 0 ==> k == 0
  {
    if n.Whole? && n.n > 0 then n.n else 0
  }

  function TrimStart(s: string): (r: string)
    ensures |r| <= |s|
  {
    s[Indent(s)..]
  }

  function TrimEnd(s: string): (r: string)
    ensures |r| <= |s|
    ensures r == [] || !IsSpace(r[|r| - 1])
    decreases |s|
  {
    if s != [] && IsSpace(s[|s| - 1]) then TrimEnd(s[..|s| - 1]) else s
  }

  predicate IsDigit(c: char) {
    '0' <= c <= '9'
  }

  predicate AllDigits(s: string) {
    forall k :: 0 <= k < |s| ==> IsDigit(s[k])
  }

  /** The value of a string of decimal digits, most significant first. */
  function DigitsValue(s: string): nat
    requires AllDigits(s)
  {
    if s == [] then 0 else DigitsValue(s[..|s| - 1]) * 10 + (s[|s| - 1] as int - '0' as int)
  }

  /** An optional sign followed by at least one decimal digit. */
  predicate IsDecimalInteger(t: string) {
    if |t| > 0 && (t[0] == '+' || t[0] == '-') then |t| > 1 && AllDigits(t[1..])
    else |t| > 0 && AllDigits(t)
  }

  function DecimalIntegerValue(t: string): int
    requires IsDecimalInteger(t)
  {
    if t[0] == '-' then 0 - DigitsValue(t[1..])
    else if t[0] == '+' then DigitsValue(t[1..])
    else DigitsValue(t)
  }

  /**
   * The unary `+` on a string (ECMAScript StringToNumber): white space is
   * trimmed, the empty string is 0, a decimal integer is its value, and a
   * string that cannot begin a numeric literal is NaN. Other numerals
   * (fractions, exponents, hexadecimal, Infinity) are not interpreted: None.
   */
  function StringToNumber(s: string): Option<Num> {
    var t := TrimEnd(TrimStart(s));
    if t == [] then Some(Whole(0))
    else if IsDecimalInteger(t) then Some(Whole(DecimalIntegerValue(t)))
    else if !IsDigit(t[0]) && t[0] != '+' && t[0] != '-' && t[0] != '.' && t != "Infinity" then Some(NaN)
    else None
  }

  /** The decimal numeral of a natural number, as `String(n)` writes it. */
  function NaturalText(n: nat): (s: string)
    ensures |s| > 0 && AllDigits(s)
  {
    var last := [(('0' as int) + n % 10) as char];
    if n < 10 then last else NaturalText(n / 10) + last
  }

  lemma {:induction false} DigitsOfNaturalText(n: nat)
    ensures DigitsValue(NaturalText(n)) == n
  {
    var s := NaturalText(n);
    if n >= 10 {
      DigitsOfNaturalText(n / 10);
      assert s[..|s| - 1] == NaturalText(n / 10);
    }
  }

  /** Reading back a number that `String(n)` wrote gives `n`. */
  lemma NumberOfNaturalText(n: nat)
    ensures StringToNumber(NaturalText(n)) == Some(Whole(n))
  {
    var s := NaturalText(n);
    assert Indent(s) == 0;
    assert s[0..] == s;
    assert TrimEnd(s) == s;
    DigitsOfNaturalText(n);
  }
}
