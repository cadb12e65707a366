/**
 * The JavaScript (and Python) string and number operations the components rely on:
 * `trim`, `toLowerCase`, `includes`, `split`, `join`, `parseInt`, `padStart` and
 * the conversion of a number to its decimal text.
 */
module Text {
  import opened Wrappers

  /** White space and line terminators as `String.prototype.trim` and `parseInt` see them. */
  predicate IsSpace(c: char) {
    || c == ' ' || c == '\t' || c == '\n' || c == '\r' || c == '\U{B}' || c == '\U{C}'
    || c == '\U{A0}' || c == '\U{1680}' || ('\U{2000}' <= c <= '\U{200A}')
    || c == '\U{2028}' || c == '\U{2029}' || c == '\U{202F}' || c == '\U{205F}'
    || c == '\U{3000}' || c == '\U{FEFF}'
  }

  /** No white space at either end. */
  predicate IsTrimmed(s: string) {
    s == [] || (!IsSpace(s[0]) && !IsSpace(s[|s| - 1]))
  }

  function TrimStart(s: string): (r: string)
    ensures |r| <= |s| && r == s[|s| - |r|..]
    ensures r == [] || !IsSpace(r[0])
    ensures forall i :: 0 <= i < |s| - |r| ==> IsSpace(s[i])
  {
    if s != [] && IsSpace(s[0]) then TrimStart(s[1..]) else s
  }

  function TrimEnd(s: string): (r: string)
    ensures |r| <= |s| && r == s[..|r|]
    ensures r == [] || !IsSpace(r[|r| - 1])
    ensures forall i :: |r| <= i < |s| ==> IsSpace(s[i])
  {
    if s != [] && IsSpace(s[|s| - 1]) then TrimEnd(s[..|s| - 1]) else s
  }

  /** `String.prototype.trim`: the longest middle part without white space at its ends. */
  function Trim(s: string): (r: string)
    ensures IsTrimmed(r)
    ensures |r| <= |s| && Contains(s, r)
  {
    var t := TrimStart(s);
    var r := TrimEnd(t);
    assert IsTrimmed(r) by {
      if r != [] {
        assert r[0] == t[0];
      }
    }
    assert t[..|r|] == s[|s| - |t|..|s| - |t| + |r|];
    assert OccursAt(s, |s| - |t|, r);
    r
  }

  lemma {:induction false} TrimOfTrimmed(s: string)
    requires IsTrimmed(s)
    ensures Trim(s) == s
  {
  }

  /** White space in front of a text never survives a trim. */
  lemma {:induction false} TrimIgnoresLeadingSpace(w: string, s: string)
    requires forall i :: 0 <= i < |w| ==> IsSpace(w[i])
    ensures TrimStart(w + s) == TrimStart(s)
    ensures Trim(w + s) == Trim(s)
  {
    if w == [] {
      assert w + s == s;
    } else {
      assert (w + s)[0] == w[0];
      assert (w + s)[1..] == w[1..] + s;
      TrimIgnoresLeadingSpace(w[1..], s);
    }
  }

  /** `String.prototype.toLowerCase` on the Basic Latin and Latin-1 letters. */
  function LowerChar(c: char): char {
    if 'A' <= c <= 'Z' || ('\U{C0}' <= c <= '\U{DE}' && c != '\U{D7}') then (c as int + 32) as char else c
  }

  function ToLower(s: string): (r: string)
    ensures |r| == |s| && forall i :: 0 <= i < |s| ==> r[i] == LowerChar(s[i])
  {
    seq(|s|, i requires 0 <= i < |s| => LowerChar(s[i]))
  }

  /** `sep` occurs in `s` at index `i`. */
  predicate OccursAt(s: string, i: nat, sep: string) {
    i + |sep| <= |s| && s[i..i + |sep|] == sep
  }

  /** `String.prototype.includes`. */
  predicate Contains(s: string, t: string) {
    exists i :: 0 <= i <= |s| && OccursAt(s, i, t)
  }

  lemma EverythingContainsEmpty(s: string)
    ensures Contains(s, "")
  {
    assert OccursAt(s, 0, "");
  }

  /** `s.toLowerCase().includes(term.toLowerCase())`, the test every search box uses. */
  predicate MatchesIgnoringCase(s: string, term: string) {
    Contains(ToLower(s), ToLower(term))
  }

  lemma EmptyTermMatches(s: string)
    ensures MatchesIgnoringCase(s, "")
  {
    EverythingContainsEmpty(ToLower(s));
  }

  /** `Array.prototype.join(sep)` and Python's `sep.join(xs)`. */
  function Join(xs: seq<string>, sep: string): string {
    if xs == [] then ""
    else if |xs| == 1 then xs[0]
    else xs[0] + sep + Join(xs[1..], sep)
  }

  /**
   * `String.prototype.split(sep)` for a non-empty separator (Python's `str.split(sep)`
   * agrees): scanning from the left, every occurrence of `sep` ends a piece.
   */
  function Split(s: string, sep: string): (parts: seq<string>)
    requires sep != []
    ensures |parts| >= 1
    ensures Join(parts, sep) == s
    decreases |s|
  {
    if s == [] then [""]
    else if OccursAt(s, 0, sep) then
      var rest := Split(s[|sep|..], sep);
      assert s == sep + s[|sep|..];
      [""] + rest
    else
      var rest := Split(s[1..], sep);
      var parts := [[s[0]] + rest[0]] + rest[1..];
      assert Join(parts, sep) == s by {
        if |rest| == 1 {
          assert parts == [[s[0]] + rest[0]];
        } else {
          assert parts[1..] == rest[1..];
          assert Join(rest, sep) == rest[0] + sep + Join(rest[1..], sep);
        }
        assert s == [s[0]] + s[1..];
      }
      parts
  }

  /** No occurrence of `sep` starts inside `x`, even when `x` is followed by `sep`. */
  predicate SeparatorFree(x: string, sep: string) {
    forall i :: 0 <= i < |x| ==> !OccursAt(x + sep, i, sep)
  }

  lemma {:induction false} OccursAtTail(s: string, i: nat, sep: string)
    requires s != []
    ensures OccursAt(s, i + 1, sep) == OccursAt(s[1..], i, sep)
  {
    if i + 1 + |sep| <= |s| {
      assert s[i + 1..i + 1 + |sep|] == s[1..][i..i + |sep|];
    }
  }

  /** Dropping the first character of a separator-free prefix keeps it separator-free. */
  lemma FreePrefixTail(x: string, t: string, sep: string)
    requires x != []
    requires forall i :: 0 <= i < |x| ==> !OccursAt(x + t, i, sep)
    ensures forall i :: 0 <= i < |x[1..]| ==> !OccursAt(x[1..] + t, i, sep)
  {
    var s := x + t;
    assert s[1..] == x[1..] + t;
    forall i | 0 <= i < |x[1..]|
      ensures !OccursAt(x[1..] + t, i, sep)
    {
      OccursAtTail(s, i, sep);
    }
  }

  lemma GlueFirst(x: string, p: string)
    requires x != []
    ensures [x[0]] + (x[1..] + p) == x + p
  {
    assert [x[0]] + x[1..] == x;
  }

  /** When no separator starts at the front, the first character joins the first piece of the rest. */
  lemma SplitNoSeparatorAtFront(s: string, sep: string)
    requires sep != [] && s != [] && !OccursAt(s, 0, sep)
    ensures Split(s, sep) == [[s[0]] + Split(s[1..], sep)[0]] + Split(s[1..], sep)[1..]
  {
  }

  /** Splitting `x + t` when no separator starts inside `x`: `x` is glued to the first piece of `t`. */
  lemma {:induction false} SplitAfterFreePrefix(x: string, t: string, sep: string)
    requires sep != []
    requires forall i :: 0 <= i < |x| ==> !OccursAt(x + t, i, sep)
    ensures Split(x + t, sep) == [x + Split(t, sep)[0]] + Split(t, sep)[1..]
  {
    var p := Split(t, sep);
    if x == [] {
      assert x + t == t;
      assert x + p[0] == p[0];
      assert [p[0]] + p[1..] == p;
    } else {
      var s := x + t;
      var rest := Split(x[1..] + t, sep);
      assert rest == [x[1..] + p[0]] + p[1..] by {
        FreePrefixTail(x, t, sep);
        SplitAfterFreePrefix(x[1..], t, sep);
      }
      assert Split(s, sep) == [[x[0]] + rest[0]] + rest[1..] by {
        assert !OccursAt(s, 0, sep);
        assert s[0] == x[0] && s[1..] == x[1..] + t;
        SplitNoSeparatorAtFront(s, sep);
      }
      GlueFirst(x, p[0]);
    }
  }

  /** A window that starts inside `x` and is no longer than `sep` lies inside `x + sep`. */
  lemma OccursWithinPrefix(x: string, t: string, sep: string, i: nat)
    requires i < |x|
    ensures OccursAt(x + sep + t, i, sep) == OccursAt(x + sep, i, sep)
  {
    if i + |sep| <= |x + sep| {
      assert (x + sep + t)[i..i + |sep|] == (x + sep)[i..i + |sep|];
    }
  }

  /** `split` undoes `join` when no separator can be found inside or across the pieces. */
  lemma {:induction false} SplitJoin(xs: seq<string>, sep: string)
    requires sep != [] && xs != []
    requires forall i :: 0 <= i < |xs| ==> SeparatorFree(xs[i], sep)
    ensures Split(Join(xs, sep), sep) == xs
  {
    var x := xs[0];
    if |xs| == 1 {
      forall i | 0 <= i < |x|
        ensures !OccursAt(x + "", i, sep)
      {
        assert x + "" == x;
        assert SeparatorFree(xs[0], sep);
        assert !OccursAt(x + sep, i, sep);
        if i + |sep| <= |x| {
          assert (x + sep)[i..i + |sep|] == x[i..i + |sep|];
        }
      }
      SplitAfterFreePrefix(x, "", sep);
      assert x + "" == x;
    } else {
      var j := Join(xs[1..], sep);
      assert Join(xs, sep) == x + (sep + j);
      forall i | 0 <= i < |x|
        ensures !OccursAt(x + (sep + j), i, sep)
      {
        assert x + (sep + j) == x + sep + j;
        OccursWithinPrefix(x, j, sep, i);
      }
      SplitAfterFreePrefix(x, sep + j, sep);
      assert OccursAt(sep + j, 0, sep);
      assert (sep + j)[|sep|..] == j;
      SplitJoin(xs[1..], sep);
      assert Split(sep + j, sep) == [""] + xs[1..];
      assert x + "" == x;
    }
  }

  /** A piece with no copy of a one-character separator is free of it. */
  lemma CharFree(x: string, c: char)
    requires c !in x
    ensures SeparatorFree(x, [c])
  {
    forall i | 0 <= i < |x|
      ensures !OccursAt(x + [c], i, [c])
    {
      assert (x + [c])[i..i + 1] == [x[i]];
    }
  }

  /** A piece that does not contain ", " is free of the separator ", ". */
  lemma CommaSpaceFree(x: string)
    requires !Contains(x, ", ")
    ensures SeparatorFree(x, ", ")
  {
    forall i | 0 <= i < |x|
      ensures !OccursAt(x + ", ", i, ", ")
    {
      if i + 1 < |x| {
        assert (x + ", ")[i..i + 2] == x[i..i + 2];
        assert !OccursAt(x, i, ", ");
      } else {
        assert (x + ", ")[i + 1] == ',';
      }
    }
  }

  /** The pieces of a split on one character never contain that character. */
  lemma {:induction false} SplitPiecesFree(s: string, c: char)
    ensures forall p :: p in Split(s, [c]) ==> c !in p
    decreases |s|
  {
    if s != [] {
      if OccursAt(s, 0, [c]) {
        SplitPiecesFree(s[1..], c);
      } else {
        SplitPiecesFree(s[1..], c);
        assert s[0..1] == [s[0]];
      }
    }
  }

  // ---------------------------------------------------------------------------
  // Numbers: JavaScript numbers are modelled as integers or NaN.
  // ---------------------------------------------------------------------------

  datatype Number = Finite(value: int) | NaN

  /** `n + k` on numbers: NaN is absorbing. */
  function Add(n: Number, k: int): (r: Number)
    ensures r.NaN? <==> n.NaN?
  {
    match n
    case NaN => NaN
    case Finite(v) => Finite(v + k)
  }

  /** `Math.max(first, ...rest)`: NaN as soon as any argument is NaN. */
  function MaxOf(first: Number, rest: seq<Number>): (r: Number)
    ensures r.NaN? <==> first.NaN? || NaN in rest
    ensures r.Finite? ==> first.value <= r.value && forall n :: n in rest ==> n.value <= r.value
    ensures r.Finite? ==> r == first || r in rest
  {
    if rest == [] then first
    else
      var m := MaxOf(first, rest[1..]);
      if m.NaN? || rest[0].NaN? then NaN
      else if rest[0].value > m.value then rest[0] else m
  }

  /** The value of a digit in bases up to 36, if `c` is one. */
  function DigitValue(c: char): Option<nat> {
    if '0' <= c <= '9' then Some(c as int - '0' as int)
    else if 'a' <= c <= 'z' then Some(c as int - 'a' as int + 10)
    else if 'A' <= c <= 'Z' then Some(c as int - 'A' as int + 10)
    else None
  }

  predicate IsDigitIn(c: char, radix: nat) {
    DigitValue(c).Some? && DigitValue(c).value < radix
  }

  predicate AllDigitsIn(s: string, radix: nat) {
    forall i :: 0 <= i < |s| ==> IsDigitIn(s[i], radix)
  }

  /** The value of a digit string read most significant digit first. */
  function DigitsValue(s: string, radix: nat): nat
    requires AllDigitsIn(s, radix)
  {
    if s == [] then 0 else DigitsValue(s[..|s| - 1], radix) * radix + DigitValue(s[|s| - 1]).value
  }

  /** The longest prefix of `s` made of digits of the radix. */
  function LeadingDigits(s: string, radix: nat): (r: string)
    ensures |r| <= |s| && r == s[..|r|] && AllDigitsIn(r, radix)
    ensures |r| < |s| ==> !IsDigitIn(s[|r|], radix)
  {
    if s == [] || !IsDigitIn(s[0], radix) then ""
    else [s[0]] + LeadingDigits(s[1..], radix)
  }

  lemma {:induction false} LeadingDigitsOfDigits(s: string, radix: nat)
    requires AllDigitsIn(s, radix)
    ensures LeadingDigits(s, radix) == s
  {
    if s != [] {
      LeadingDigitsOfDigits(s[1..], radix);
    }
  }

  /** A digit found in a suffix of `s` is a digit of `s`. */
  lemma SuffixKeepsDigit(s: string, u: string)
    requires |u| <= |s| && u == s[|s| - |u|..]
    requires exists i :: 0 <= i < |u| && IsDigitIn(u[i], 16)
    ensures exists i :: 0 <= i < |s| && IsDigitIn(s[i], 16)
  {
    var i :| 0 <= i < |u| && IsDigitIn(u[i], 16);
    assert s[|s| - |u| + i] == u[i];
  }

  /**
   * The unsigned part of `parseInt`: `0x`/`0X` selects base 16, and the longest run of
   * digits that follows is the value; `None` when there is no digit.
   */
  function ParseUnsigned(u: string): (v: Option<nat>)
    ensures v.Some? ==> exists i :: 0 <= i < |u| && IsDigitIn(u[i], 16)
  {
    var hex := |u| >= 2 && u[0] == '0' && (u[1] == 'x' || u[1] == 'X');
    var radix := if hex then 16 else 10;
    var w := if hex then u[2..] else u;
    var digits := LeadingDigits(w, radix);
    if digits == [] then None
    else
      assert IsDigitIn(u[|u| - |w|], 16);
      Some(DigitsValue(digits, radix))
  }

  /**
   * `parseInt(s)` without a radix: leading white space is skipped, then an optional sign,
   * then the unsigned numeral; no digit at all gives NaN.
   */
  function ParseInt(s: string): (r: Number)
    ensures r.Finite? ==> exists i :: 0 <= i < |s| && IsDigitIn(s[i], 16)
  {
    var t := TrimStart(s);
    var neg := t != [] && t[0] == '-';
    var start := |s| - |t| + if t != [] && (t[0] == '-' || t[0] == '+') then 1 else 0;
    var u := s[start..];
    match ParseUnsigned(u)
    case None => NaN
    case Some(v) =>
      SuffixKeepsDigit(s, u);
      var magnitude: int := v;
      Finite(if neg then -magnitude else magnitude)
  }

  function DigitChar(d: nat): (c: char)
    requires d < 10
    ensures DigitValue(c) == Some(d)
  {
    (d + '0' as int) as char
  }

  /** `String(n)` for a natural number: its decimal digits, no leading zero. */
  function NatToString(n: nat): (s: string)
    ensures s != [] && AllDigitsIn(s, 10)
    ensures DigitsValue(s, 10) == n
    ensures s[0] == '0' ==> n == 0
  {
    if n < 10 then [DigitChar(n)]
    else
      var s := NatToString(n / 10) + [DigitChar(n % 10)];
      assert s[..|s| - 1] == NatToString(n / 10);
      s
  }

  /** `String(n)` for a number. */
  function NumberToString(n: Number): string {
    match n
    case NaN => "NaN"
    case Finite(v) => if v < 0 then "-" + NatToString(-v) else NatToString(v)
  }

  function Repeat(c: char, k: nat): (r: string)
    ensures |r| == k && forall i :: 0 <= i < k ==> r[i] == c
  {
    seq(k, i => c)
  }

  /** `s.padStart(len, c)` with a one-character fill. */
  function PadStart(s: string, len: nat, c: char): (r: string)
    ensures |r| == if |s| >= len then |s| else len
    ensures r == Repeat(c, |r| - |s|) + s
  {
    if |s| >= len then
      assert Repeat(c, 0) == [];
      s
    else Repeat(c, len - |s|) + s
  }

  /** `padStart` leaves a text that is already long enough as it is. */
  lemma PadStartLong(s: string, len: nat, c: char)
    requires |s| >= len
    ensures PadStart(s, len, c) == s
  {
  }

  /** `s.substring(1)`. */
  function DropFirst(s: string): (r: string)
    ensures |r| == if s == [] then 0 else |s| - 1
  {
    if s == [] then [] else s[1..]
  }

  lemma {:induction false} ZerosValue(k: nat, s: string)
    requires AllDigitsIn(s, 10)
    ensures AllDigitsIn(Repeat('0', k) + s, 10)
    ensures DigitsValue(Repeat('0', k) + s, 10) == DigitsValue(s, 10)
    decreases |s|, k
  {
    var z := Repeat('0', k);
    assert DigitValue('0') == Some(0);
    if s == [] {
      assert z + s == z;
      if k > 0 {
        assert z[..k - 1] == Repeat('0', k - 1);
        ZerosValue(k - 1, "");
        assert Repeat('0', k - 1) + "" == Repeat('0', k - 1);
      }
    } else {
      var s' := s[..|s| - 1];
      assert (z + s)[..|z + s| - 1] == z + s';
      ZerosValue(k, s');
    }
  }

  /** `parseInt` of a text that starts with neither white space, a sign nor `0x` reads decimal digits. */
  lemma ParseIntDecimal(s: string)
    requires s != [] && !IsSpace(s[0]) && s[0] != '-' && s[0] != '+'
    requires !(|s| >= 2 && s[0] == '0' && (s[1] == 'x' || s[1] == 'X'))
    ensures ParseInt(s) == if LeadingDigits(s, 10) == [] then NaN else Finite(DigitsValue(LeadingDigits(s, 10), 10))
  {
    assert TrimStart(s) == s;
  }

  /** `parseInt` reads a text made only of decimal digits as the number they spell. */
  lemma ParseDecimalDigits(s: string)
    requires s != [] && AllDigitsIn(s, 10)
    ensures ParseInt(s) == Finite(DigitsValue(s, 10))
  {
    assert !IsSpace(s[0]) && s[0] != '-' && s[0] != '+' by {
      assert IsDigitIn(s[0], 10);
    }
    assert !(|s| >= 2 && s[0] == '0' && (s[1] == 'x' || s[1] == 'X')) by {
      if |s| >= 2 {
        assert IsDigitIn(s[1], 10);
      }
    }
    LeadingDigitsOfDigits(s, 10);
    ParseIntDecimal(s);
  }

  /** `parseInt` reads back a zero-padded decimal numeral as the number it spells. */
  lemma ParseZeroPadded(n: nat, k: nat)
    ensures ParseInt(Repeat('0', k) + NatToString(n)) == Finite(n)
  {
    ZerosValue(k, NatToString(n));
    ParseDecimalDigits(Repeat('0', k) + NatToString(n));
  }

  /** `parseInt` reads back `padStart(String(n), len, '0')` as `n`. */
  lemma ParsePadded(n: nat, len: nat)
    ensures ParseInt(PadStart(NatToString(n), len, '0')) == Finite(n)
  {
    var s := NatToString(n);
    ParseZeroPadded(n, |PadStart(s, len, '0')| - |s|);
  }
}
