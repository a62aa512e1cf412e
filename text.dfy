/** String primitives of the JavaScript runtime that the bot relies on:
    ASCII case folding (`toLowerCase`/`toUpperCase`), `includes`,
    `startsWith`, `split` with a non-empty separator, `replace` of the first
    occurrence, `parseInt`, and the `capitalize` helper. Strings are
    sequences of Unicode scalar values; case mapping is restricted to ASCII. */
module Text {
  import opened Options

  // ---------------------------------------------------------------------
  // Characters
  // ---------------------------------------------------------------------

  /** `\d` in a JavaScript regular expression. */
  predicate IsDigit(c: char) { '0' <= c <= '9' }

  function DigitValue(c: char): (v: nat)
    requires IsDigit(c)
    ensures v < 10
  {
    c as int - '0' as int
  }

  predicate IsHexDigit(c: char) { IsDigit(c) || 'a' <= c <= 'f' || 'A' <= c <= 'F' }

  function HexDigitValue(c: char): (v: nat)
    requires IsHexDigit(c)
    ensures v < 16
    ensures IsDigit(c) ==> v == DigitValue(c)
  {
    if IsDigit(c) then DigitValue(c)
    else if 'a' <= c <= 'f' then c as int - 'a' as int + 10
    else c as int - 'A' as int + 10
  }

  /** The character written for a hexadecimal digit value (lower case). */
  function HexChar(v: nat): (c: char)
    requires v < 16
    ensures IsHexDigit(c) && HexDigitValue(c) == v
  {
    if v < 10 then ('0' as int + v) as char else ('a' as int + v - 10) as char
  }

  /** JavaScript's white space and line terminators, as matched by `\s` and
      skipped by `parseInt`. */
  predicate IsJsSpace(c: char) {
    c == '\t' || c == '\n' || c == '\U{B}' || c == '\U{C}' || c == '\r' || c == ' '
    || c == '\U{A0}' || c == '\U{1680}' || ('\U{2000}' <= c <= '\U{200A}')
    || c == '\U{2028}' || c == '\U{2029}' || c == '\U{202F}' || c == '\U{205F}'
    || c == '\U{3000}' || c == '\U{FEFF}'
  }

  function LowerChar(c: char): char {
    if 'A' <= c <= 'Z' then (c as int + 32) as char else c
  }

  function UpperChar(c: char): char {
    if 'a' <= c <= 'z' then (c as int - 32) as char else c
  }

  /** `toLowerCase`, with ASCII folding only. */
  function Lower(s: string): (r: string)
    ensures |r| == |s| && forall i :: 0 <= i < |s| ==> r[i] == LowerChar(s[i])
  {
    seq(|s|, i requires 0 <= i < |s| => LowerChar(s[i]))
  }

  /** `toUpperCase`, with ASCII folding only. */
  function Upper(s: string): (r: string)
    ensures |r| == |s| && forall i :: 0 <= i < |s| ==> r[i] == UpperChar(s[i])
  {
    seq(|s|, i requires 0 <= i < |s| => UpperChar(s[i]))
  }

  lemma LowerAppend(a: string, b: string)
    ensures Lower(a + b) == Lower(a) + Lower(b)
  {
    assert forall i :: 0 <= i < |a + b| ==> Lower(a + b)[i] == (Lower(a) + Lower(b))[i];
  }

  /** A string without ASCII capitals is its own lower-case form. */
  lemma LowerOfLower(s: string)
    requires forall i :: 0 <= i < |s| ==> !('A' <= s[i] <= 'Z')
    ensures Lower(s) == s
  {
  }

  /** Folding to lower case is idempotent. */
  lemma LowerIdempotent(s: string)
    ensures Lower(Lower(s)) == Lower(s)
  {
  }

  // ---------------------------------------------------------------------
  // Substrings: `includes`, `indexOf`, `startsWith`
  // ---------------------------------------------------------------------

  /** `sub` occurs in `s` starting at index `i`. */
  predicate OccursAt(s: string, sub: string, i: int) {
    0 <= i && i + |sub| <= |s| && s[i..i + |sub|] == sub
  }

  /** `s.indexOf(sub, from)`: the first occurrence at or after `from`. */
  function IndexOfFrom(s: string, sub: string, from: nat): (r: Option<nat>)
    decreases |s| - from
    ensures r.Some? ==> from <= r.value && OccursAt(s, sub, r.value)
    ensures r.Some? ==> forall j :: from <= j < r.value ==> !OccursAt(s, sub, j)
    ensures r.None? ==> forall j :: from <= j ==> !OccursAt(s, sub, j)
  {
    if from + |sub| > |s| then None
    else if s[from..from + |sub|] == sub then Some(from)
    else IndexOfFrom(s, sub, from + 1)
  }

  function IndexOf(s: string, sub: string): Option<nat> {
    IndexOfFrom(s, sub, 0)
  }

  /** `s.includes(sub)`. */
  predicate Contains(s: string, sub: string) {
    IndexOf(s, sub).Some?
  }

  lemma ContainsAt(s: string, sub: string, i: int)
    requires OccursAt(s, sub, i)
    ensures Contains(s, sub)
  {
  }

  lemma ContainsWitness(s: string, sub: string) returns (i: nat)
    requires Contains(s, sub)
    ensures OccursAt(s, sub, i)
  {
    i := IndexOf(s, sub).value;
  }

  /** `s.startsWith(p)`. */
  predicate StartsWith(s: string, p: string) {
    p <= s
  }

  // ---------------------------------------------------------------------
  // `split` and its inverse `join`
  // ---------------------------------------------------------------------

  /** `s.split(sep)` for a non-empty separator. */
  function Split(s: string, sep: string): (parts: seq<string>)
    requires sep != []
    decreases |s|
    ensures |parts| >= 1
  {
    match IndexOf(s, sep)
    case None => [s]
    case Some(i) => [s[..i]] + Split(s[i + |sep|..], sep)
  }

  /** `parts.join(sep)`. */
  function Join(parts: seq<string>, sep: string): string
    requires |parts| >= 1
  {
    if |parts| == 1 then parts[0] else parts[0] + sep + Join(parts[1..], sep)
  }

  /** Splitting and joining back with the same separator gives the string back. */
  lemma {:induction false} SplitJoin(s: string, sep: string)
    requires sep != []
    decreases |s|
    ensures Join(Split(s, sep), sep) == s
  {
    var found := IndexOf(s, sep);
    if found.Some? {
      var i := found.value;
      var head, rest := s[..i], s[i + |sep|..];
      SplitJoin(rest, sep);
      var tail := Split(rest, sep);
      assert Split(s, sep) == [head] + tail;
      JoinCons(head, tail, sep);
      assert Join(tail, sep) == rest;
      SliceAround(s, i, i + |sep|);
      assert s[i..i + |sep|] == sep;
    } else {
      assert Split(s, sep) == [s];
    }
  }

  lemma SliceAround(s: string, i: nat, j: nat)
    requires i <= j <= |s|
    ensures s == s[..i] + s[i..j] + s[j..]
  {
  }

  lemma JoinCons(head: string, tail: seq<string>, sep: string)
    requires |tail| >= 1
    ensures Join([head] + tail, sep) == head + sep + Join(tail, sep)
  {
    assert ([head] + tail)[1..] == tail;
  }

  /** No piece of a split contains the separator. */
  lemma {:induction false} SplitPiecesFree(s: string, sep: string)
    requires sep != []
    decreases |s|
    ensures forall k :: 0 <= k < |Split(s, sep)| ==> !Contains(Split(s, sep)[k], sep)
  {
    match IndexOf(s, sep)
    case None =>
      NotContains(s, sep);
    case Some(i) =>
      var rest := s[i + |sep|..];
      SplitPiecesFree(rest, sep);
      var head := s[..i];
      forall j ensures !OccursAt(head, sep, j) {
        if 0 <= j && j + |sep| <= |head| {
          assert s[j..j + |sep|] == head[j..j + |sep|];
          assert !OccursAt(s, sep, j);
        }
      }
      NotContains(head, sep);
      assert Split(s, sep) == [head] + Split(rest, sep);
  }

  lemma NotContains(s: string, sub: string)
    requires forall j :: !OccursAt(s, sub, j)
    ensures !Contains(s, sub)
  {
  }

  /** When `a` holds no occurrence of `sep`, even one that runs into the
      separator written after it, splitting `a + sep + b` cuts exactly after `a`. */
  lemma SplitAfter(a: string, sep: string, b: string)
    requires sep != []
    requires forall j :: 0 <= j < |a| ==> !OccursAt(a + sep, sep, j)
    ensures Split(a + sep + b, sep) == [a] + Split(b, sep)
  {
    var s := a + sep + b;
    assert OccursAt(s, sep, |a|) by { assert s[|a|..|a| + |sep|] == sep; }
    forall j | 0 <= j < |a| ensures !OccursAt(s, sep, j) {
      if OccursAt(s, sep, j) {
        assert (a + sep)[j..j + |sep|] == s[j..j + |sep|];
        assert OccursAt(a + sep, sep, j);
      }
    }
    assert IndexOf(s, sep) == Some(|a|);
    assert s[..|a|] == a;
    assert s[|a| + |sep|..] == b;
  }

  /** A string free of a one-character separator is split after it. */
  lemma SplitAfterChar(a: string, c: char, b: string)
    requires c !in a
    ensures Split(a + [c] + b, [c]) == [a] + Split(b, [c])
  {
    forall j | 0 <= j < |a| ensures !OccursAt(a + [c], [c], j) {
      assert (a + [c])[j..j + 1] == [a[j]];
    }
    SplitAfter(a, [c], b);
  }

  /** A string without a one-character separator is not split at all. */
  lemma SplitNoSeparator(a: string, c: char)
    requires c !in a
    ensures Split(a, [c]) == [a]
  {
    forall j ensures !OccursAt(a, [c], j) {
      if 0 <= j && j + 1 <= |a| {
        assert a[j..j + 1] == [a[j]];
      }
    }
  }

  /** `s.replace(old, new)` with a string pattern: only the first occurrence. */
  function ReplaceFirst(s: string, pattern: string, replacement: string): (r: string)
    ensures !Contains(s, pattern) ==> r == s
  {
    match IndexOf(s, pattern)
    case None => s
    case Some(i) => s[..i] + replacement + s[i + |pattern|..]
  }

  // ---------------------------------------------------------------------
  // `parseInt`
  // ---------------------------------------------------------------------

  /** The radix argument of `parseInt`: absent (`Auto`: decimal unless the
      text starts with `0x`) or 16. */
  datatype Radix = Auto | Hex

  /** Index of the first character at or after `from` that is not white space. */
  function SkipSpace(s: string, from: nat): (k: nat)
    requires from <= |s|
    decreases |s| - from
    ensures from <= k <= |s|
    ensures forall j :: from <= j < k ==> IsJsSpace(s[j])
    ensures k < |s| ==> !IsJsSpace(s[k])
  {
    if from < |s| && IsJsSpace(s[from]) then SkipSpace(s, from + 1) else from
  }

  predicate IsDigitIn(c: char, hex: bool) {
    if hex then IsHexDigit(c) else IsDigit(c)
  }

  /** The longest prefix of `s` made of digits of the given base. */
  function DigitRun(s: string, hex: bool): (d: string)
    ensures d <= s
    ensures forall j :: 0 <= j < |d| ==> IsDigitIn(d[j], hex)
    ensures |d| < |s| ==> !IsDigitIn(s[|d|], hex)
  {
    if s != [] && IsDigitIn(s[0], hex) then [s[0]] + DigitRun(s[1..], hex) else []
  }

  /** The value of a numeral, most significant digit first. */
  function NumeralValue(d: string, hex: bool): nat
    requires forall j :: 0 <= j < |d| ==> IsDigitIn(d[j], hex)
  {
    if d == [] then 0
    else
      var last := d[|d| - 1];
      assert IsDigitIn(last, hex);
      NumeralValue(d[..|d| - 1], hex) * (if hex then 16 else 10)
        + (if hex then HexDigitValue(last) else DigitValue(last))
  }

  /** `parseInt(s)` (radix `Auto`) or `parseInt(s, 16)` (radix `Hex`):
      leading white space is skipped, then an optional sign; `None` stands
      for `NaN`. */
  function JsParseInt(s: string, radix: Radix): Option<int> {
    var t := s[SkipSpace(s, 0)..];
    if t != [] && t[0] == '-' then
      match ParseUnsigned(t[1..], radix)
      case None => None
      case Some(v) => Some(-v)
    else if t != [] && t[0] == '+' then ParseUnsigned(t[1..], radix)
    else ParseUnsigned(t, radix)
  }

  /** After the sign: a `0x`/`0X` prefix switches to base 16 (and is
      dropped), then the longest run of digits is read. */
  function ParseUnsigned(u: string, radix: Radix): Option<int> {
    if |u| >= 2 && u[0] == '0' && (u[1] == 'x' || u[1] == 'X') then ParseDigits(u[2..], true)
    else ParseDigits(u, radix == Hex)
  }

  function ParseDigits(body: string, hex: bool): Option<int> {
    var d := DigitRun(body, hex);
    if d == [] then None else Some(NumeralValue(d, hex))
  }

  /** The `w`-digit lower-case hexadecimal numeral of `n` modulo 16^w. */
  function HexNumeral(n: nat, w: nat): (d: string)
    ensures |d| == w && forall j :: 0 <= j < w ==> IsHexDigit(d[j])
  {
    if w == 0 then [] else HexNumeral(n / 16, w - 1) + [HexChar(n % 16)]
  }

  function Pow16(w: nat): (p: nat)
    ensures p >= 1
  {
    if w == 0 then 1 else 16 * Pow16(w - 1)
  }

  /** Reading back a `w`-digit numeral of a number below 16^w gives the number. */
  lemma {:induction false} HexNumeralValue(n: nat, w: nat)
    requires n < Pow16(w)
    ensures NumeralValue(HexNumeral(n, w), true) == n
  {
    if w > 0 {
      var d := HexNumeral(n, w);
      assert d[..w - 1] == HexNumeral(n / 16, w - 1);
      assert d[w - 1] == HexChar(n % 16);
      HexNumeralValue(n / 16, w - 1);
    }
  }

  /** `parseInt` reads a whole digit string when nothing precedes it. */
  lemma ParseWholeNumeral(d: string, radix: Radix)
    requires d != [] && forall j :: 0 <= j < |d| ==> IsDigitIn(d[j], radix == Hex)
    requires |d| >= 2 ==> d[1] != 'x' && d[1] != 'X'
    ensures JsParseInt(d, radix) == Some(NumeralValue(d, radix == Hex))
  {
    var hex := radix == Hex;
    assert IsDigitIn(d[0], hex);
    assert !IsJsSpace(d[0]);
    assert SkipSpace(d, 0) == 0;
    assert d[0..] == d;
    DigitRunWhole(d, hex);
    assert ParseUnsigned(d, radix) == ParseDigits(d, hex);
  }

  lemma {:induction false} DigitRunWhole(d: string, hex: bool)
    requires forall j :: 0 <= j < |d| ==> IsDigitIn(d[j], hex)
    ensures DigitRun(d, hex) == d
  {
    if d != [] {
      DigitRunWhole(d[1..], hex);
    }
  }

  // ---------------------------------------------------------------------
  // `capitalize` (index.js:768-770)
  // ---------------------------------------------------------------------

  /** `str.charAt(0).toUpperCase() + str.slice(1)`. */
  function Capitalize(s: string): (r: string)
    ensures |r| == |s|
    ensures s != [] ==> r[0] == UpperChar(s[0]) && r[1..] == s[1..]
    ensures Lower(r) == Lower(s)
  {
    if s == [] then [] else [UpperChar(s[0])] + s[1..]
  }
}
