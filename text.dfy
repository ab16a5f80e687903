/**
 * The JavaScript string operations the dashboard relies on, over `string`.
 * A Dafny string is a sequence of Unicode scalar values, where a JavaScript
 * string is a sequence of UTF-16 code units: the two agree on text inside
 * the Basic Multilingual Plane, and lengths, slices and first characters
 * differ for text outside it. Case mapping is ASCII only; `trim` uses
 * ECMAScript's full set of white space and line terminator code points.
 */
module Text {

  // ---------------------------------------------------------------------
  // White space and trim
  // ---------------------------------------------------------------------

  /** ECMAScript WhiteSpace and LineTerminator code points (what `trim` removes). */
  predicate IsWhitespace(c: char) {
    c == '\t' || c == '\n' || c == '\U{000B}' || c == '\U{000C}' || c == '\r' || c == ' '
    || c == '\U{00A0}' || c == '\U{1680}' || ('\U{2000}' <= c <= '\U{200A}')
    || c == '\U{2028}' || c == '\U{2029}' || c == '\U{202F}' || c == '\U{205F}'
    || c == '\U{3000}' || c == '\U{FEFF}'
  }

  predicate AllWhitespace(s: string) {
    forall i :: 0 <= i < |s| ==> IsWhitespace(s[i])
  }

  /** Neither end of `s` is white space. */
  predicate IsTrimmed(s: string) {
    s == [] || (!IsWhitespace(s[0]) && !IsWhitespace(s[|s| - 1]))
  }

  /** `s.trimStart()`: drops the leading white space, and nothing else. */
  function TrimStart(s: string): (r: string)
    ensures |r| <= |s| && r == s[|s| - |r|..]
    ensures AllWhitespace(s[..|s| - |r|])
    ensures r == [] || !IsWhitespace(r[0])
  {
    if |s| > 0 && IsWhitespace(s[0]) then
      var r := TrimStart(s[1..]);
      assert s[1..][..|s[1..]| - |r|] == s[1..|s| - |r|];
      r
    else s
  }

  /** `s.trimEnd()`: drops the trailing white space, and nothing else. */
  function TrimEnd(s: string): (r: string)
    ensures |r| <= |s| && r == s[..|r|]
    ensures AllWhitespace(s[|r|..])
    ensures r == [] || !IsWhitespace(r[|r| - 1])
  {
    if |s| > 0 && IsWhitespace(s[|s| - 1]) then
      var r := TrimEnd(s[..|s| - 1]);
      assert s[..|s| - 1][..|r|] == s[..|r|];
      assert AllWhitespace(s[|r|..]) by {
        forall i | 0 <= i < |s| - |r| ensures IsWhitespace(s[|r|..][i]) {
          if |r| + i < |s| - 1 { assert s[|r|..][i] == s[..|s| - 1][|r|..][i]; }
        }
      }
      r
    else s
  }

  /** `s.trim()`: `s` without its leading and trailing white space. */
  function Trim(s: string): (r: string)
    ensures IsTrimmed(r)
    ensures |r| <= |s|
  {
    var t := TrimStart(s);
    var r := TrimEnd(t);
    assert r != [] ==> r[0] == t[0];
    r
  }

  /** `r` sits in `s` at `k`, with only white space before and after it. */
  ghost predicate PaddedAt(s: string, k: int, r: string) {
    0 <= k <= |s| - |r| && r == s[k..k + |r|] && AllWhitespace(s[..k]) && AllWhitespace(s[k + |r|..])
  }

  /**
   * What trimming removes: the trimmed text is a slice of the original,
   * with only white space before it and only white space after it.
   */
  lemma TrimIsSlice(s: string)
    ensures exists k :: PaddedAt(s, k, Trim(s))
  {
    var t, r := TrimStart(s), Trim(s);
    var k := |s| - |t|;
    assert r == t[..|r|];
    assert r == s[k..k + |r|];
    assert s[k + |r|..] == t[|r|..];
    assert PaddedAt(s, k, r);
  }

  /** Trimming leaves nothing exactly when the string is all white space. */
  lemma TrimEmptyIff(s: string)
    ensures Trim(s) == [] <==> AllWhitespace(s)
  {
    var t := TrimStart(s);
    if Trim(s) == [] {
      assert AllWhitespace(t) by { assert t[|TrimEnd(t)|..] == t; }
      assert t == [];
      assert s[..|s| - |t|] == s;
    } else {
      assert t != [];
      assert !IsWhitespace(s[|s| - |t|]) by { assert t[0] == s[|s| - |t|]; }
    }
  }

  /** A trimmed string is its own trim, so trimming twice trims once. */
  lemma TrimIdempotent(s: string)
    ensures IsTrimmed(s) ==> Trim(s) == s
    ensures Trim(Trim(s)) == Trim(s)
  {
    var t := Trim(s);
    assert TrimStart(t) == t;
    assert TrimEnd(t) == t;
    if IsTrimmed(s) {
      assert TrimStart(s) == s;
    }
  }

  // ---------------------------------------------------------------------
  // Case mapping (ASCII)
  // ---------------------------------------------------------------------

  function LowerChar(c: char): char {
    if 'A' <= c <= 'Z' then (c as int + 32) as char else c
  }

  function UpperChar(c: char): char {
    if 'a' <= c <= 'z' then (c as int - 32) as char else c
  }

  /** `s.toLowerCase()`, ASCII letters only. */
  function Lower(s: string): string {
    seq(|s|, i requires 0 <= i < |s| => LowerChar(s[i]))
  }

  /** `s.toUpperCase()`, ASCII letters only. */
  function Upper(s: string): string {
    seq(|s|, i requires 0 <= i < |s| => UpperChar(s[i]))
  }

  /** Lower-casing is idempotent: its results are in lower case. */
  lemma LowerIdempotent(s: string)
    ensures Lower(Lower(s)) == Lower(s)
  {
  }

  /** Lower-casing keeps a trimmed string trimmed. */
  lemma LowerKeepsTrimmed(s: string)
    requires IsTrimmed(s)
    ensures IsTrimmed(Lower(s))
  {
  }

  // ---------------------------------------------------------------------
  // split / join
  // ---------------------------------------------------------------------

  /** `s.split(sep)` for a one-character separator: always at least one part. */
  function Split(s: string, sep: char): (parts: seq<string>)
    ensures |parts| >= 1
    ensures forall p :: p in parts ==> sep !in p
    decreases |s|
  {
    if |s| == 0 then [""]
    else
      var rest := Split(s[1..], sep);
      if s[0] == sep then [""] + rest
      else [[s[0]] + rest[0]] + rest[1..]
  }

  /** `parts.join(sep)`. */
  function Join(parts: seq<string>, sep: char): string
    decreases |parts|
  {
    if |parts| == 0 then ""
    else if |parts| == 1 then parts[0]
    else parts[0] + [sep] + Join(parts[1..], sep)
  }

  /** Joining the parts of a split gives back the original string. */
  lemma {:induction false} JoinSplit(s: string, sep: char)
    ensures Join(Split(s, sep), sep) == s
    decreases |s|
  {
    if |s| > 0 {
      var rest := Split(s[1..], sep);
      JoinSplit(s[1..], sep);
      if s[0] == sep {
        assert Split(s, sep) == [""] + rest;
        assert s == [sep] + s[1..];
      } else if |rest| == 1 {
        assert Split(s, sep) == [[s[0]] + rest[0]];
        assert s == [s[0]] + s[1..];
      } else {
        var parts := Split(s, sep);
        assert parts[1..] == rest[1..];
        assert Join(rest, sep) == rest[0] + [sep] + Join(rest[1..], sep);
        assert s == [s[0]] + s[1..];
      }
    }
  }

  /** A split of `a + b` where `a` has no separator: `a` extends the first part of `b`'s split. */
  lemma {:induction false} SplitConcat(a: string, b: string, sep: char)
    requires sep !in a
    ensures Split(a + b, sep) == [a + Split(b, sep)[0]] + Split(b, sep)[1..]
    decreases |a|
  {
    var parts := Split(b, sep);
    if |a| > 0 {
      var ab := a + b;
      assert ab[0] == a[0] && ab[0] != sep;
      assert ab[1..] == a[1..] + b;
      SplitConcat(a[1..], b, sep);
      var rest := Split(ab[1..], sep);
      assert rest == [a[1..] + parts[0]] + parts[1..];
      assert Split(ab, sep) == [[a[0]] + rest[0]] + rest[1..];
      assert [a[0]] + (a[1..] + parts[0]) == a + parts[0];
    } else {
      assert a == [];
      assert a + b == b && a + parts[0] == parts[0];
      assert parts == [parts[0]] + parts[1..];
    }
  }

  /** A string without the separator splits into itself alone. */
  lemma SplitNoSep(a: string, sep: char)
    requires sep !in a
    ensures Split(a, sep) == [a]
  {
    SplitConcat(a, "", sep);
    assert a + "" == a;
  }

  /** The part before the first separator is split off whole. */
  lemma SplitAtSep(a: string, b: string, sep: char)
    requires sep !in a
    ensures Split(a + [sep] + b, sep) == [a] + Split(b, sep)
  {
    var tail := [sep] + b;
    assert tail[1..] == b;
    assert Split(tail, sep) == [""] + Split(b, sep);
    SplitConcat(a, tail, sep);
    assert a + [sep] + b == a + tail;
    assert a + "" == a;
  }

  /** Splitting at a separator splits the two sides apart. */
  lemma {:induction false} SplitAppend(a: string, sep: char, b: string)
    ensures Split(a + [sep] + b, sep) == Split(a, sep) + Split(b, sep)
    decreases |a|
  {
    var s := a + [sep] + b;
    if a == [] {
      assert s[0] == sep && s[1..] == b;
    } else {
      assert s[0] == a[0] && s[1..] == a[1..] + [sep] + b;
      SplitAppend(a[1..], sep, b);
      var left := Split(a[1..], sep);
      if a[0] != sep {
        var rest := left + Split(b, sep);
        assert rest[0] == left[0] && rest[1..] == left[1..] + Split(b, sep);
      }
    }
  }

  /** Splitting a join of separator-free parts gives the parts back. */
  lemma {:induction false} SplitJoin(parts: seq<string>, sep: char)
    requires |parts| >= 1
    requires forall p :: p in parts ==> sep !in p
    ensures Split(Join(parts, sep), sep) == parts
    decreases |parts|
  {
    if |parts| == 1 {
      SplitNoSep(parts[0], sep);
    } else {
      SplitJoin(parts[1..], sep);
      SplitAtSep(parts[0], Join(parts[1..], sep), sep);
      assert parts == [parts[0]] + parts[1..];
    }
  }

  /** The first part of a split is the prefix of `s` up to its first separator. */
  lemma {:induction false} SplitFirst(s: string, sep: char)
    ensures var f := Split(s, sep)[0];
      |f| <= |s| && s[..|f|] == f && (|f| < |s| ==> s[|f|] == sep)
    decreases |s|
  {
    if |s| > 0 {
      SplitFirst(s[1..], sep);
    }
  }

  // ---------------------------------------------------------------------
  // Prefixes, slices and numbers
  // ---------------------------------------------------------------------

  /** `s.startsWith(prefix)`. */
  predicate StartsWith(s: string, prefix: string) {
    |prefix| <= |s| && s[..|prefix|] == prefix
  }

  /** `s.slice(0, n)` for `n >= 0`. */
  function Take(s: string, n: nat): string {
    if n <= |s| then s[..n] else s
  }

  /** `s.slice(-n)` for `n > 0`: the last `n` characters, or all of a shorter string. */
  function TakeLast(s: string, n: nat): string {
    if n <= |s| then s[|s| - n..] else s
  }

  /** `id.slice(0, 8) + "..."`: the first eight characters, then an ellipsis. */
  function Abbreviated(id: string): (r: string)
    ensures |r| == (if |id| < 8 then |id| else 8) + 3
    ensures StartsWith(id, r[..|r| - 3]) && r[|r| - 3..] == "..."
  {
    var r := Take(id, 8) + "...";
    assert r[..|r| - 3] == Take(id, 8);
    r
  }

  predicate IsDigit(c: char) {
    '0' <= c <= '9'
  }

  function DigitChar(d: nat): char
    requires d < 10
  {
    ('0' as int + d) as char
  }

  /** The number a string of decimal digits spells, most significant digit first. */
  function DecimalValue(s: string): nat
    requires forall i :: 0 <= i < |s| ==> IsDigit(s[i])
  {
    if s == [] then 0
    else
      assert IsDigit(s[|s| - 1]);
      DecimalValue(s[..|s| - 1]) * 10 + (s[|s| - 1] as int - '0' as int)
  }

  /** The decimal rendering of a natural number (`n.toString()`): digits, with no leading zero. */
  function NatToDecimal(n: nat): (r: string)
    ensures |r| >= 1
    ensures forall i :: 0 <= i < |r| ==> IsDigit(r[i])
    ensures r[0] == '0' <==> n == 0
  {
    if n < 10 then [DigitChar(n)] else NatToDecimal(n / 10) + [DigitChar(n % 10)]
  }

  /** The rendering spells the number it renders. */
  lemma {:induction false} DecimalValueOfNatToDecimal(n: nat)
    ensures DecimalValue(NatToDecimal(n)) == n
  {
    if n >= 10 {
      var r := NatToDecimal(n);
      assert r[..|r| - 1] == NatToDecimal(n / 10);
      DecimalValueOfNatToDecimal(n / 10);
    }
  }

  /** One digit exactly for the numbers below ten. */
  lemma NatToDecimalLength(n: nat)
    ensures |NatToDecimal(n)| == 1 <==> n < 10
  {
    if n >= 10 {
      assert |NatToDecimal(n)| == |NatToDecimal(n / 10)| + 1;
    }
  }

  /** Different numbers have different renderings. */
  lemma {:induction false} NatToDecimalInjective(a: nat, b: nat)
    ensures NatToDecimal(a) == NatToDecimal(b) ==> a == b
    decreases a
  {
    if NatToDecimal(a) == NatToDecimal(b) {
      NatToDecimalLength(a);
      NatToDecimalLength(b);
      if a >= 10 && b >= 10 {
        var da, db := NatToDecimal(a / 10), NatToDecimal(b / 10);
        assert NatToDecimal(a) == da + [DigitChar(a % 10)];
        assert NatToDecimal(b) == db + [DigitChar(b % 10)];
        assert da == NatToDecimal(a)[..|da|] && db == NatToDecimal(b)[..|db|];
        assert DigitChar(a % 10) == DigitChar(b % 10);
        NatToDecimalInjective(a / 10, b / 10);
      }
    }
  }

  /** The decimal rendering of an integer (`i.toString()`): a minus sign exactly for a negative number, then digits. */
  function IntToDecimal(i: int): (r: string)
    ensures |r| >= 1
    ensures r[0] == '-' <==> i < 0
    ensures forall k :: 1 <= k < |r| ==> IsDigit(r[k])
    ensures i < 0 ==> |r| >= 2 && DecimalValue(r[1..]) == -i
    ensures i >= 0 ==> IsDigit(r[0]) && DecimalValue(r) == i
  {
    var d := NatToDecimal(if i < 0 then -i else i);
    DecimalValueOfNatToDecimal(if i < 0 then -i else i);
    if i < 0 then
      var r := "-" + d;
      assert r[1..] == d;
      r
    else d
  }
}
