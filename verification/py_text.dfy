/**
 * The string operations of Python (and of JavaScript, for the Electron
 * shell) that the source applies to text: strip/trim, lower-casing, substring
 * tests, replace, split, join and number formatting.
 */
module PyText {
  import opened PyNum

  /** The characters for which Python's `str.isspace()` holds: what `str.strip()` removes. */
  predicate IsPySpace(c: char) {
    ('\t' <= c <= '\r') || ('\U{1c}' <= c <= '\U{1f}') || c == ' ' || c == '\U{85}' || c == '\U{a0}'
    || c == '\U{1680}' || ('\U{2000}' <= c <= '\U{200a}') || c == '\U{2028}' || c == '\U{2029}'
    || c == '\U{202f}' || c == '\U{205f}' || c == '\U{3000}'
  }

  /** The characters that JavaScript's `String.prototype.trim()` removes. */
  predicate IsJsSpace(c: char) {
    ('\t' <= c <= '\r') || c == ' ' || c == '\U{a0}' || c == '\U{1680}'
    || ('\U{2000}' <= c <= '\U{200a}') || c == '\U{2028}' || c == '\U{2029}'
    || c == '\U{202f}' || c == '\U{205f}' || c == '\U{3000}' || c == '\U{feff}'
  }

  function TrimStart(s: string, ws: char -> bool): (r: string)
    ensures |r| <= |s| && r == s[|s| - |r|..]
    ensures r == [] || !ws(r[0])
    ensures forall i :: 0 <= i < |s| - |r| ==> ws(s[i])
  {
    if |s| > 0 && ws(s[0]) then
      var r := TrimStart(s[1..], ws);
      assert s[1..][|s| - 1 - |r|..] == s[|s| - |r|..];
      r
    else s
  }

  function TrimEnd(s: string, ws: char -> bool): (r: string)
    ensures |r| <= |s| && r == s[..|r|]
    ensures r == [] || !ws(r[|r| - 1])
    ensures forall i :: |r| <= i < |s| ==> ws(s[i])
  {
    if |s| > 0 && ws(s[|s| - 1]) then
      var r := TrimEnd(s[..|s| - 1], ws);
      assert s[..|s| - 1][..|r|] == s[..|r|];
      r
    else s
  }

  /** Python's `s.strip()`. */
  function Strip(s: string): (r: string)
    ensures r == [] || (!IsPySpace(r[0]) && !IsPySpace(r[|r| - 1]))
    ensures exists i, j :: 0 <= i <= j <= |s| && r == s[i..j]
  {
    var t := TrimStart(s, IsPySpace);
    var r := TrimEnd(t, IsPySpace);
    assert r == s[|s| - |t|..|s| - |t| + |r|];
    r
  }

  /** JavaScript's `s.trim()`. */
  function JsTrim(s: string): (r: string)
    ensures r == [] || (!IsJsSpace(r[0]) && !IsJsSpace(r[|r| - 1]))
    ensures exists i, j :: 0 <= i <= j <= |s| && r == s[i..j]
  {
    var t := TrimStart(s, IsJsSpace);
    var r := TrimEnd(t, IsJsSpace);
    assert r == s[|s| - |t|..|s| - |t| + |r|];
    r
  }

  function LowerChar(c: char): (d: char)
    ensures 'A' <= c <= 'Z' ==> 'a' <= d <= 'z'
    ensures !('A' <= c <= 'Z') ==> d == c
  {
    if 'A' <= c <= 'Z' then (c as int + 32) as char else c
  }

  /** Python's `s.lower()` on the ASCII letters. */
  function Lower(s: string): (r: string)
    ensures |r| == |s|
    ensures forall i :: 0 <= i < |s| ==> r[i] == LowerChar(s[i])
  {
    if s == [] then [] else [LowerChar(s[0])] + Lower(s[1..])
  }

  /** `s.startswith(p)` */
  predicate StartsWith(s: string, p: string) {
    |p| <= |s| && s[..|p|] == p
  }

  /** Python's `p in s` for strings (`"" in s` holds). */
  predicate Contains(s: string, p: string)
    decreases |s|
  {
    StartsWith(s, p) || (|s| > 0 && Contains(s[1..], p))
  }

  /** `any(p in s for p in ps)` */
  predicate ContainsAny(s: string, ps: seq<string>) {
    exists i :: 0 <= i < |ps| && Contains(s, ps[i])
  }

  /** One pattern of the list in the text makes `any` hold. */
  lemma ContainsAnyAt(s: string, ps: seq<string>, i: nat)
    requires i < |ps| && Contains(s, ps[i])
    ensures ContainsAny(s, ps)
  {
  }

  lemma {:induction false} ContainsAt(s: string, p: string, i: nat)
    requires i + |p| <= |s| && s[i..i + |p|] == p
    ensures Contains(s, p)
  {
    if i > 0 {
      assert s[1..][i - 1..i - 1 + |p|] == p;
      ContainsAt(s[1..], p, i - 1);
    }
  }

  lemma {:induction false} ContainsWitness(s: string, p: string) returns (i: nat)
    requires Contains(s, p)
    ensures i + |p| <= |s| && s[i..i + |p|] == p
    decreases |s|
  {
    if StartsWith(s, p) {
      i := 0;
    } else {
      var j := ContainsWitness(s[1..], p);
      i := j + 1;
      assert s[1..][j..j + |p|] == s[i..i + |p|];
    }
  }

  /** A pattern with a character that never occurs in `s` is not a substring of `s`. */
  lemma {:induction false} MissingCharNotContained(s: string, p: string, k: nat)
    requires k < |p| && p[k] !in s
    ensures !Contains(s, p)
    decreases |s|
  {
    if |s| > 0 {
      MissingCharNotContained(s[1..], p, k);
    }
  }

  /** A pattern longer than the text is not a substring of it. */
  lemma {:induction false} LongerNotContained(s: string, p: string)
    requires |p| > |s|
    ensures !Contains(s, p)
    decreases |s|
  {
    if |s| > 0 {
      LongerNotContained(s[1..], p);
    }
  }

  /** A text that neither starts nor ends with whitespace is its own strip. */
  lemma StripUnspaced(s: string)
    requires s != [] && !IsPySpace(s[0]) && !IsPySpace(s[|s| - 1])
    ensures Strip(s) == s
  {
    assert TrimStart(s, IsPySpace) == s;
    assert TrimEnd(s, IsPySpace) == s;
  }

  /** A text strips to nothing exactly when every character of it is whitespace. */
  lemma StripBlank(s: string)
    ensures Strip(s) == [] <==> forall i :: 0 <= i < |s| ==> IsPySpace(s[i])
  {
    var t := TrimStart(s, IsPySpace);
    if Strip(s) == [] {
      assert TrimEnd(t, IsPySpace) == [];
      forall i | 0 <= i < |s|
        ensures IsPySpace(s[i])
      {
        if i >= |s| - |t| {
          assert s[i] == t[i - (|s| - |t|)];
        }
      }
    } else if forall i :: 0 <= i < |s| ==> IsPySpace(s[i]) {
      if t != [] {
        assert t[0] == s[|s| - |t|];
      }
    }
  }

  /** A text that neither starts nor ends with whitespace is its own JavaScript trim. */
  lemma JsTrimUnspaced(s: string)
    requires s != [] && !IsJsSpace(s[0]) && !IsJsSpace(s[|s| - 1])
    ensures JsTrim(s) == s
  {
    assert TrimStart(s, IsJsSpace) == s;
    assert TrimEnd(s, IsJsSpace) == s;
  }

  /** A text that starts with a non-space character keeps something after trimming. */
  lemma JsTrimKeepsLeadingChar(s: string)
    requires s != [] && !IsJsSpace(s[0])
    ensures JsTrim(s) != []
  {
    assert TrimStart(s, IsJsSpace) == s;
  }

  /** Python's `a < b` on strings: lexicographic order by code point. */
  predicate StrLess(a: string, b: string)
    decreases |a|
  {
    |b| > 0 && (|a| == 0 || a[0] < b[0] || (a[0] == b[0] && StrLess(a[1..], b[1..])))
  }

  /** Python's `s.replace(pat, rep)`: every non-overlapping occurrence, left to right. */
  function ReplaceAll(s: string, pat: string, rep: string): (r: string)
    requires |pat| > 0
    ensures !Contains(s, pat) ==> r == s
    decreases |s|
  {
    if StartsWith(s, pat) then rep + ReplaceAll(s[|pat|..], pat, rep)
    else if s == [] then []
    else [s[0]] + ReplaceAll(s[1..], pat, rep)
  }

  /**
   * Replacing a pattern that ends the string, when the pattern's second
   * character occurs nowhere before it (and differs from its first), removes
   * just that occurrence.
   */
  lemma {:induction false} ReplaceAtEnd(a: string, p: string, rep: string)
    requires |p| >= 2 && p[0] != p[1] && p[1] !in a
    ensures ReplaceAll(a + p, p, rep) == a + rep
    decreases |a|
  {
    var s := a + p;
    if a == [] {
      assert s == p && StartsWith(s, p);
      assert s[|p|..] == [];
      assert ReplaceAll(s[|p|..], p, rep) == [];
    } else {
      assert s[1] != p[1];
      assert !StartsWith(s, p);
      assert s[1..] == a[1..] + p;
      ReplaceAtEnd(a[1..], p, rep);
      calc {
        ReplaceAll(s, p, rep);
        [s[0]] + ReplaceAll(s[1..], p, rep);
        [a[0]] + (a[1..] + rep);
        { assert [a[0]] + a[1..] == a; }
        a + rep;
      }
    }
  }

  /**
   * A pattern whose second character occurs nowhere in `a`, and differs from
   * its first and from b's first, can only be found in `a + b` inside `b`.
   */
  lemma {:induction false} ContainsInTail(a: string, b: string, p: string)
    requires |p| >= 2 && p[0] != p[1] && p[1] !in a && (b == [] || b[0] != p[1])
    requires Contains(a + b, p)
    ensures Contains(b, p)
  {
    var i := ContainsWitness(a + b, p);
    assert (a + b)[i + 1] == p[1];
    assert (a + b)[i..i + |p|] == b[i - |a|..i - |a| + |p|];
    ContainsAt(b, p, i - |a|);
  }

  /** Python's `s.split(sep)` (and JavaScript's) for a one-character separator. */
  function Split(s: string, sep: char): (parts: seq<string>)
    ensures |parts| >= 1
    ensures forall k :: 0 <= k < |parts| ==> sep !in parts[k]
  {
    if s == [] then [""]
    else if s[0] == sep then [""] + Split(s[1..], sep)
    else var rest := Split(s[1..], sep); [[s[0]] + rest[0]] + rest[1..]
  }

  /** `sep.join(parts)` */
  function Join(parts: seq<string>, sep: string): string {
    if parts == [] then ""
    else if |parts| == 1 then parts[0]
    else parts[0] + sep + Join(parts[1..], sep)
  }

  lemma {:induction false} SplitNoSeparator(s: string, sep: char)
    requires sep !in s
    ensures Split(s, sep) == [s]
  {
    if s != [] {
      SplitNoSeparator(s[1..], sep);
      assert [s[0]] + s[1..] == s;
    }
  }

  /** The first part of a split is the text up to the first separator. */
  lemma {:induction false} SplitFirstIsPrefix(s: string, sep: char)
    ensures |Split(s, sep)[0]| <= |s| && Split(s, sep)[0] == s[..|Split(s, sep)[0]|]
  {
    if s != [] && s[0] != sep {
      SplitFirstIsPrefix(s[1..], sep);
    }
  }

  /** Splitting at the first separator: the text before it, then the split of the rest. */
  lemma {:induction false} SplitAtFirst(a: string, sep: char, b: string)
    requires sep !in a
    ensures Split(a + [sep] + b, sep) == [a] + Split(b, sep)
  {
    if a == [] {
      assert a + [sep] + b == [sep] + b;
      assert ([sep] + b)[1..] == b;
    } else {
      var s := a + [sep] + b;
      assert s[0] == a[0] && s[1..] == a[1..] + [sep] + b;
      SplitAtFirst(a[1..], sep, b);
      assert [a[0]] + a[1..] == a;
    }
  }

  /** Joining with the separator and splitting again gives the parts back. */
  lemma {:induction false} SplitJoin(parts: seq<string>, sep: char)
    requires |parts| >= 1
    requires forall k :: 0 <= k < |parts| ==> sep !in parts[k]
    ensures Split(Join(parts, [sep]), sep) == parts
  {
    if |parts| == 1 {
      SplitNoSeparator(parts[0], sep);
    } else {
      SplitJoin(parts[1..], sep);
      SplitAtFirst(parts[0], sep, Join(parts[1..], [sep]));
      assert parts == [parts[0]] + parts[1..];
    }
  }

  /** Splitting and joining again gives the text back. */
  lemma {:induction false} JoinSplit(s: string, sep: char)
    ensures Join(Split(s, sep), [sep]) == s
  {
    if s != [] {
      JoinSplit(s[1..], sep);
      var rest := Split(s[1..], sep);
      if s[0] != sep {
        var parts := Split(s, sep);
        assert parts == [[s[0]] + rest[0]] + rest[1..];
        if |rest| == 1 {
          assert Join(parts, [sep]) == [s[0]] + rest[0];
        } else {
          assert parts[1..] == rest[1..];
          assert Join(rest, [sep]) == rest[0] + [sep] + Join(rest[1..], [sep]);
        }
        assert [s[0]] + s[1..] == s;
      }
    }
  }

  function DigitChar(d: nat): (c: char)
    requires d < 10
    ensures '0' <= c <= '9'
  {
    ('0' as int + d) as char
  }

  /** `str(n)` for a natural number. */
  function NatToString(n: nat): (s: string)
    ensures |s| >= 1
    ensures forall i :: 0 <= i < |s| ==> '0' <= s[i] <= '9'
    ensures n < 10 <==> |s| == 1
  {
    if n < 10 then [DigitChar(n)] else NatToString(n / 10) + [DigitChar(n % 10)]
  }

  /** `str(i)` for an integer. */
  function IntToString(i: int): (s: string)
    ensures |s| >= 1
    ensures i < 0 <==> s[0] == '-'
    ensures forall k :: 0 <= k < |s| ==> s[k] == '-' || '0' <= s[k] <= '9'
  {
    if i < 0 then "-" + NatToString(-i) else NatToString(i)
  }

  /** `c * n` for a one-character string (empty when n <= 0). */
  function Repeat(c: char, n: int): (s: string)
    ensures |s| == if n <= 0 then 0 else n
    ensures forall i :: 0 <= i < |s| ==> s[i] == c
  {
    if n <= 0 then [] else [c] + Repeat(c, n - 1)
  }

  /** `f"{s:<w}"`: s padded on the right with spaces to width w. */
  function PadRight(s: string, w: nat): (r: string)
    ensures |r| == if |s| >= w then |s| else w
    ensures r[..|s|] == s
  {
    s + Repeat(' ', w - |s|)
  }

  /** `f"{s:>w}"` (or zero-filled with c = '0'): s padded on the left to width w. */
  function PadLeft(s: string, w: nat, c: char): (r: string)
    ensures |r| == if |s| >= w then |s| else w
    ensures r[|r| - |s|..] == s
    ensures forall i :: 0 <= i < |r| - |s| ==> r[i] == c
  {
    Repeat(c, w - |s|) + s
  }

  /** The value of a decimal digit (0 for any other character). */
  function DigitValue(c: char): (v: nat)
    ensures v < 10
  {
    if '0' <= c <= '9' then c as int - '0' as int else 0
  }

  /** The number a string of decimal digits denotes, read from the left. */
  function DigitsValue(s: string): nat {
    if s == [] then 0 else DigitsValue(s[..|s| - 1]) * 10 + DigitValue(s[|s| - 1])
  }

  /** `int(str(n)) == n`: the digits `str` writes read back as the number. */
  lemma {:induction false} NatToStringValue(n: nat)
    ensures DigitsValue(NatToString(n)) == n
  {
    var s := NatToString(n);
    if n < 10 {
      assert s[..|s| - 1] == [];
    } else {
      assert s[..|s| - 1] == NatToString(n / 10);
      NatToStringValue(n / 10);
    }
  }

  /** Reading a concatenation: the left part is shifted by the length of the right part. */
  lemma {:induction false} DigitsValueAppend(a: string, b: string)
    ensures DigitsValue(a + b) == DigitsValue(a) * Pow10(|b|) + DigitsValue(b)
  {
    if b == [] {
      assert a + b == a;
    } else {
      var c := a + b;
      var b' := b[..|b| - 1];
      assert c[..|c| - 1] == a + b' && c[|c| - 1] == b[|b| - 1];
      DigitsValueAppend(a, b');
      ShiftOneDigit(DigitsValue(a), Pow10(|b'|), DigitsValue(b'), DigitValue(b[|b| - 1]));
    }
  }

  lemma ShiftOneDigit(v: nat, p: nat, w: nat, last: nat)
    ensures (v * p + w) * 10 + last == v * (10 * p) + (w * 10 + last)
  {
  }

  /** Leading zeros do not change the value. */
  lemma {:induction false} ZeroPaddedValue(k: nat, s: string)
    ensures DigitsValue(Repeat('0', k) + s) == DigitsValue(s)
  {
    if k > 0 {
      var rest := Repeat('0', k - 1) + s;
      assert Repeat('0', k) + s == ['0'] + rest;
      DigitsValueAppend(['0'], rest);
      assert ['0'][..0] == [];
      assert DigitsValue(['0']) == 0;
      ZeroPaddedValue(k - 1, s);
    } else {
      assert Repeat('0', k) + s == s;
    }
  }

  /** The d decimals of a fixed-point number: n % 10^d, zero-filled to width d. */
  function Decimals(n: nat, d: nat): (frac: string)
    requires d > 0
    ensures |frac| == d
    ensures forall i :: 0 <= i < d ==> '0' <= frac[i] <= '9'
    ensures DigitsValue(frac) == n % Pow10(d)
  {
    var v := n % Pow10(d);
    ZeroFilled(v, d);
    PadLeft(NatToString(v), d, '0')
  }

  /** A number below 10^d, zero-filled to width d, is d digits that read back as it. */
  lemma ZeroFilled(v: nat, d: nat)
    requires d > 0 && v < Pow10(d)
    ensures var frac := PadLeft(NatToString(v), d, '0');
            && |frac| == d
            && (forall i :: 0 <= i < d ==> '0' <= frac[i] <= '9')
            && DigitsValue(frac) == v
  {
    DigitsBound(v, d);
    ZeroPaddedDigits(NatToString(v), d);
    NatToStringValue(v);
  }

  /** Zero-filling a string of digits to width w keeps it digits and keeps its value. */
  lemma ZeroPaddedDigits(s: string, w: nat)
    requires |s| <= w
    requires forall i :: 0 <= i < |s| ==> '0' <= s[i] <= '9'
    ensures var r := PadLeft(s, w, '0');
            && |r| == w
            && (forall i :: 0 <= i < w ==> '0' <= r[i] <= '9')
            && DigitsValue(r) == DigitsValue(s)
  {
    AllDigits(Repeat('0', w - |s|), s);
    ZeroPaddedValue(w - |s|, s);
  }

  /** Two strings of decimal digits make one. */
  lemma AllDigits(a: string, b: string)
    requires forall i :: 0 <= i < |a| ==> '0' <= a[i] <= '9'
    requires forall i :: 0 <= i < |b| ==> '0' <= b[i] <= '9'
    ensures forall i :: 0 <= i < |a + b| ==> '0' <= (a + b)[i] <= '9'
  {
  }

  /**
   * |x| * 10^d rounded half to even: the digits that `.{d}f` prints, within
   * half a unit of the exact magnitude.
   */
  function ScaledMagnitude(x: real, d: nat): (m: nat)
    ensures -0.5 <= Scaled(x, d) - m as real <= 0.5
  {
    RoundHalfEven(Scaled(x, d))
  }

  /** |x| * 10^d, exactly. */
  function Scaled(x: real, d: nat): (y: real)
    ensures y >= 0.0
  {
    (if x < 0.0 then -x else x) * Pow10(d) as real
  }

  /** The integer part of a fixed-point number n / 10^d. */
  function WholeDigits(n: nat, d: nat): (s: string)
    ensures |s| >= 1
    ensures forall i :: 0 <= i < |s| ==> '0' <= s[i] <= '9'
    ensures DigitsValue(s) == n / Pow10(d)
  {
    var p := Pow10(d);
    QuotientNonNegative(n, p);
    NatToStringValue(n / p);
    NatToString(n / p)
  }

  /** Dropping past a prefix drops within the rest. */
  lemma DropAfterPrefix(p: string, f: string, k: nat)
    requires k <= |f|
    ensures (p + f)[|p| + k..] == f[k..]
  {
  }

  /**
   * The number a text with d decimals denotes once its point is removed:
   * the digits before the point scaled by 10^d, plus the d digits after it.
   */
  function FixedValue(t: string, d: nat): nat
    requires |t| > d + 1
  {
    DigitsValue(t[..|t| - d - 1]) * Pow10(d) + DigitsValue(t[|t| - d..])
  }

  /** The whole part and the decimals of a fixed-point text read back as the scaled number. */
  lemma FixedReadBack(whole: string, frac: string, m: nat, d: nat)
    requires |whole| >= 1 && '0' <= whole[0] <= '9'
    requires |frac| == d && d > 0 && forall i :: 0 <= i < d ==> '0' <= frac[i] <= '9'
    requires DigitsValue(whole) == m / Pow10(d) && DigitsValue(frac) == m % Pow10(d)
    ensures var t := whole + "." + frac;
            && |t| > d + 1 && '0' <= t[0] <= '9' && t[|t| - d - 1] == '.'
            && (forall i :: |t| - d <= i < |t| ==> '0' <= t[i] <= '9')
            && FixedValue(t, d) == m
  {
    var t := whole + "." + frac;
    assert t[..|t| - d - 1] == whole;
    assert t[|t| - d..] == frac;
    assert forall i :: |t| - d <= i < |t| ==> t[i] == frac[i - (|t| - d)];
    QuotientAndRemainder(m, Pow10(d));
  }

  lemma QuotientAndRemainder(n: nat, p: nat)
    requires p >= 1
    ensures n / p * p + n % p == n
  {
  }

  lemma QuotientNonNegative(n: nat, p: nat)
    requires p >= 1
    ensures n / p >= 0
  {
  }

  /**
   * The text of n / 10^d with exactly d decimals and no sign: digits, then
   * (when d > 0) a point and d more digits, which read together as n.
   */
  function UnsignedFixed(n: nat, d: nat): (t: string)
    ensures |t| >= 1 && '0' <= t[0] <= '9'
    ensures d == 0 ==> DigitsValue(t) == n
    ensures d > 0 ==> |t| > d + 1 && t[|t| - d - 1] == '.'
    ensures d > 0 ==> forall i :: |t| - d <= i < |t| ==> '0' <= t[i] <= '9'
    ensures d > 0 ==> FixedValue(t, d) == n
  {
    var whole := WholeDigits(n, d);
    if d == 0 then whole
    else
      var frac := Decimals(n, d);
      FixedReadBack(whole, frac, n, d);
      whole + "." + frac
  }

  /**
   * `f"{x:.{d}f}"`: x written with exactly d decimals, rounded half to even:
   * a minus sign for a negative x, then the unsigned text of |x| * 10^d
   * rounded.
   */
  function FormatFixed(x: real, d: nat): (s: string)
    ensures |s| >= 1 && (s[0] == '-' <==> x < 0.0)
    ensures s[(if x < 0.0 then 1 else 0)..] == UnsignedFixed(ScaledMagnitude(x, d), d)
    ensures d > 0 ==> ShowsRounded(s[(if x < 0.0 then 1 else 0)..], d, x)
  {
    var t := UnsignedFixed(ScaledMagnitude(x, d), d);
    var s := if x < 0.0 then "-" + t else t;
    assert s[(if x < 0.0 then 1 else 0)..] == t;
    RoundedText(x, d);
    s
  }

  lemma RoundedText(x: real, d: nat)
    ensures d > 0 ==> ShowsRounded(UnsignedFixed(ScaledMagnitude(x, d), d), d, x)
  {
    if d > 0 {
      var m := ScaledMagnitude(x, d);
      RoundedWithin(UnsignedFixed(m, d), d, x, m);
    }
  }

  /** A text whose digits read back as a rounding of |x| * 10^d shows x rounded. */
  lemma RoundedWithin(t: string, d: nat, x: real, m: nat)
    requires d > 0 && |t| > d + 1 && t[|t| - d - 1] == '.'
    requires forall i :: |t| - d <= i < |t| ==> '0' <= t[i] <= '9'
    requires FixedValue(t, d) == m && -0.5 <= Scaled(x, d) - m as real <= 0.5
    ensures ShowsRounded(t, d, x)
  {
  }

  /**
   * An unsigned text with d > 0 decimals whose digits, read without the
   * point, are |x| * 10^d to within half a unit: x rounded to d places.
   */
  predicate ShowsRounded(t: string, d: nat, x: real) {
    && d > 0 && |t| > d + 1 && t[|t| - d - 1] == '.'
    && (forall i :: |t| - d <= i < |t| ==> '0' <= t[i] <= '9')
    && -0.5 <= Scaled(x, d) - FixedValue(t, d) as real <= 0.5
  }

  /** A number below 10^d has at most d digits. */
  lemma {:induction false} DigitsBound(n: nat, d: nat)
    requires n < Pow10(d)
    ensures |NatToString(n)| <= if d == 0 then 1 else d
  {
    if n >= 10 {
      DigitsBound(n / 10, d - 1);
    }
  }
}
