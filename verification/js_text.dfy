/** The JavaScript string and number operations the application relies on,
    over `string` (a sequence of code points): truthiness of a value that is a
    string or undefined, `split` on one character, `join`, `trim`,
    `startsWith`, `toString` on integers and the global `parseInt` called
    without a radix. Numbers are mathematical integers; see README for the
    range in which that agrees with JavaScript's doubles. */
module JsText {
  import opened Wrappers

  /** `!!v` for a value that is a string or undefined: "" is falsy. */
  predicate Truthy(v: Option<string>)
  {
    v.Some? && v.value != ""
  }

  /** `v || fallback` for a value that is a string or undefined. */
  function OrElse(v: Option<string>, fallback: string): (r: string)
    ensures Truthy(v) ==> r == v.value
    ensures !Truthy(v) ==> r == fallback
  {
    if Truthy(v) then v.value else fallback
  }

  /** What a template literal `${v}` renders for a string or undefined. */
  function Show(v: Option<string>): (r: string)
    ensures v.Some? ==> r == v.value
    ensures v.None? ==> r == "undefined"
  {
    if v.Some? then v.value else "undefined"
  }

  /** `s.startsWith(p)` */
  predicate StartsWith(s: string, p: string)
  {
    |p| <= |s| && s[..|p|] == p
  }

  /** `s.endsWith(p)` */
  predicate EndsWith(s: string, p: string)
  {
    |p| <= |s| && s[|s| - |p|..] == p
  }

  /** A suffix of the last part is a suffix of the whole. */
  lemma EndsWithAppend(a: string, x: string, p: string)
    requires EndsWith(x, p)
    ensures EndsWith(a + x, p)
  {
    assert (a + x)[|a + x| - |p|..] == x[|x| - |p|..];
  }

  /** `s.includes(x)` */
  ghost predicate Contains(s: string, x: string)
  {
    exists k: nat :: OccursAt(s, x, k)
  }

  /** `x` occurs in `s` starting at index `k`. */
  predicate OccursAt(s: string, x: string, k: nat)
  {
    k + |x| <= |s| && s[k..k + |x|] == x
  }

  lemma ContainsMiddle(a: string, x: string, b: string)
    ensures OccursAt(a + x + b, x, |a|)
    ensures Contains(a + x + b, x)
  {
    var s := a + x + b;
    assert s[|a|..|a| + |x|] == x;
    assert OccursAt(s, x, |a|);
  }

  /** An occurrence inside a part is an occurrence in the whole. */
  lemma ContainsWithin(a: string, x: string, b: string, y: string)
    requires Contains(x, y)
    ensures Contains(a + x + b, y)
  {
    var k: nat :| OccursAt(x, y, k);
    var s := a + x + b;
    assert s[|a| + k..|a| + k + |y|] == x[k..k + |y|];
    assert OccursAt(s, y, |a| + k);
  }

  /** An occurrence in a suffix is an occurrence in the whole. */
  lemma ContainsInSuffix(a: string, x: string, y: string)
    requires Contains(x, y)
    ensures Contains(a + x, y)
  {
    var k: nat :| OccursAt(x, y, k);
    var s := a + x;
    assert s[|a| + k..|a| + k + |y|] == x[k..k + |y|];
    assert OccursAt(s, y, |a| + k);
  }

  // ---------------------------------------------------------------------
  // Whitespace and trim

  /** The ECMAScript WhiteSpace and LineTerminator code points: what `trim`
      removes and what `parseInt` skips before the number. */
  predicate IsWhitespace(c: char)
  {
    || c == '\t' || c == '\n' || c == '\U{000B}' || c == '\U{000C}' || c == '\r'
    || c == ' ' || c == '\U{00A0}' || c == '\U{1680}' || ('\U{2000}' <= c <= '\U{200A}')
    || c == '\U{2028}' || c == '\U{2029}' || c == '\U{202F}' || c == '\U{205F}'
    || c == '\U{3000}' || c == '\U{FEFF}'
  }

  predicate IsBlank(s: string)
  {
    forall i :: 0 <= i < |s| ==> IsWhitespace(s[i])
  }

  /** `s.trimStart()`: the suffix left after the leading whitespace. */
  function TrimStart(s: string): (r: string)
    ensures |r| <= |s| && r == s[|s| - |r|..]
    ensures r != [] ==> !IsWhitespace(r[0])
  {
    if s != [] && IsWhitespace(s[0]) then TrimStart(s[1..]) else s
  }

  /** `s.trimEnd()`: the prefix left before the trailing whitespace. */
  function TrimEnd(s: string): (r: string)
    ensures |r| <= |s| && r == s[..|r|]
    ensures r != [] ==> !IsWhitespace(r[|r| - 1])
  {
    if s != [] && IsWhitespace(s[|s| - 1]) then TrimEnd(s[..|s| - 1]) else s
  }

  /** `s.trim()` */
  function Trim(s: string): string
  {
    TrimEnd(TrimStart(s))
  }

  lemma {:induction false} TrimStartEmptyIffBlank(s: string)
    ensures TrimStart(s) == [] <==> IsBlank(s)
  {
    if s != [] && IsWhitespace(s[0]) {
      var rest := s[1..];
      TrimStartEmptyIffBlank(rest);
      assert TrimStart(s) == TrimStart(rest);
      if IsBlank(rest) {
        forall i | 0 <= i < |s| ensures IsWhitespace(s[i]) {
          if i > 0 { assert s[i] == rest[i - 1]; }
        }
      } else {
        var j :| 0 <= j < |rest| && !IsWhitespace(rest[j]);
        assert s[j + 1] == rest[j];
      }
    } else if s != [] {
      assert TrimStart(s) == s;
      assert !IsWhitespace(s[0]);
    }
  }

  lemma {:induction false} TrimEndEmptyIffBlank(s: string)
    ensures TrimEnd(s) == [] <==> IsBlank(s)
  {
    if s != [] && IsWhitespace(s[|s| - 1]) {
      var front := s[..|s| - 1];
      TrimEndEmptyIffBlank(front);
      assert IsBlank(s) <==> IsBlank(front) by {
        if IsBlank(front) {
          forall i | 0 <= i < |s| ensures IsWhitespace(s[i]) {
            if i < |s| - 1 { assert s[i] == front[i]; }
          }
        }
      }
    }
  }

  /** `!s.trim()` holds exactly for the strings made only of whitespace
      (the empty string included). */
  lemma TrimEmptyIffBlank(s: string)
    ensures Trim(s) == [] <==> IsBlank(s)
  {
    var t := TrimStart(s);
    TrimStartEmptyIffBlank(s);
    TrimEndEmptyIffBlank(t);
    if t != [] {
      assert !IsBlank(t) by { assert !IsWhitespace(t[0]); }
    }
  }

  // ---------------------------------------------------------------------
  // split and join

  /** `s.split(sep)` for a one-character separator: the maximal runs between
      separators, in order, with "" for adjacent separators and at the ends. */
  function Split(s: string, sep: char): (parts: seq<string>)
    ensures |parts| >= 1
    ensures forall i :: 0 <= i < |parts| ==> sep !in parts[i]
    ensures Join(parts, [sep]) == s
  {
    if s == [] then [[]]
    else
      var rest := Split(s[1..], sep);
      if s[0] == sep then
        assert Join([[]] + rest, [sep]) == [sep] + Join(rest, [sep]);
        [[]] + rest
      else
        var parts := [[s[0]] + rest[0]] + rest[1..];
        assert parts[1..] == rest[1..];
        assert Join(parts, [sep]) == [s[0]] + Join(rest, [sep]) by {
          if |rest| > 1 {
            assert Join(rest, [sep]) == rest[0] + [sep] + Join(rest[1..], [sep]);
          }
        }
        parts
  }

  /** `parts.join(sep)` */
  function Join(parts: seq<string>, sep: string): string
  {
    if |parts| == 0 then ""
    else if |parts| == 1 then parts[0]
    else parts[0] + sep + Join(parts[1..], sep)
  }

  lemma {:induction false} SplitNoSeparator(s: string, sep: char)
    requires sep !in s
    ensures Split(s, sep) == [s]
  {
    if s != [] {
      SplitNoSeparator(s[1..], sep);
    }
  }

  /** Splitting at one separator splits the two sides independently. */
  lemma {:induction false} SplitAppend(a: string, b: string, sep: char)
    ensures Split(a + [sep] + b, sep) == Split(a, sep) + Split(b, sep)
  {
    var s := a + [sep] + b;
    if a == [] {
      assert s[1..] == b;
    } else {
      assert s[1..] == a[1..] + [sep] + b;
      SplitAppend(a[1..], b, sep);
    }
  }

  /** `split` inverts `join` when no part contains the separator. */
  lemma {:induction false} SplitJoin(parts: seq<string>, sep: char)
    requires |parts| >= 1
    requires forall i :: 0 <= i < |parts| ==> sep !in parts[i]
    ensures Split(Join(parts, [sep]), sep) == parts
  {
    if |parts| == 1 {
      SplitNoSeparator(parts[0], sep);
    } else {
      SplitJoin(parts[1..], sep);
      SplitNoSeparator(parts[0], sep);
      SplitAppend(parts[0], Join(parts[1..], [sep]), sep);
      assert [parts[0]] + parts[1..] == parts;
    }
  }

  /** Every part occurs in the joined string. */
  lemma {:induction false} JoinContainsPart(parts: seq<string>, sep: string, i: nat)
    requires i < |parts|
    ensures Contains(Join(parts, sep), parts[i])
  {
    if |parts| == 1 {
      ContainsMiddle([], parts[0], []);
      assert [] + parts[0] + [] == parts[0];
    } else if i == 0 {
      ContainsMiddle([], parts[0], sep + Join(parts[1..], sep));
      assert [] + parts[0] + (sep + Join(parts[1..], sep)) == Join(parts, sep);
    } else {
      JoinContainsPart(parts[1..], sep, i - 1);
      var rest := Join(parts[1..], sep);
      var k: nat :| OccursAt(rest, parts[i], k);
      var s := Join(parts, sep);
      var off := |parts[0] + sep|;
      assert s == (parts[0] + sep) + rest;
      assert s[off + k..off + k + |parts[i]|] == rest[k..k + |parts[i]|];
      assert OccursAt(s, parts[i], off + k);
    }
  }

  // ---------------------------------------------------------------------
  // Integers as text

  /** The value of a digit or letter in radices up to 36; 36 for any other
      code point, so `DigitValue(c) < radix` means "a digit in that radix". */
  function DigitValue(c: char): (v: nat)
    ensures v <= 36
  {
    if '0' <= c <= '9' then c as int - '0' as int
    else if 'a' <= c <= 'z' then c as int - 'a' as int + 10
    else if 'A' <= c <= 'Z' then c as int - 'A' as int + 10
    else 36
  }

  function DigitChar(d: nat): (c: char)
    requires d < 10
    ensures DigitValue(c) == d
  {
    (d + '0' as int) as char
  }

  predicate AllDigits(s: string, radix: nat)
  {
    forall i :: 0 <= i < |s| ==> DigitValue(s[i]) < radix
  }

  /** `n.toString()` for a non-negative integer: decimal digits, no leading zero. */
  function DecimalString(n: nat): (s: string)
    ensures |s| >= 1 && AllDigits(s, 10)
    ensures |s| > 1 ==> s[0] != '0'
    ensures '-' !in s
  {
    if n < 10 then [DigitChar(n)]
    else
      var front := DecimalString(n / 10);
      assert front[0] != '0' by { if |front| == 1 { assert DigitValue(front[0]) == n / 10 > 0; } }
      front + [DigitChar(n % 10)]
  }

  /** `i.toString()` for an integer. */
  function IntString(i: int): string
  {
    if i < 0 then "-" + DecimalString(-i) else DecimalString(i)
  }

  /** The longest prefix of `s` made of digits of the radix. */
  function DigitPrefix(s: string, radix: nat): (ds: string)
    ensures |ds| <= |s| && ds == s[..|ds|]
    ensures AllDigits(ds, radix)
    ensures |ds| < |s| ==> DigitValue(s[|ds|]) >= radix
  {
    if s != [] && DigitValue(s[0]) < radix then [s[0]] + DigitPrefix(s[1..], radix) else []
  }

  /** The number a run of digits denotes, most significant first. */
  function DigitsValue(ds: string, radix: nat): nat
  {
    if ds == [] then 0
    else DigitsValue(ds[..|ds| - 1], radix) * radix + DigitValue(ds[|ds| - 1])
  }

  /** Global `parseInt(s)` with no radix: skip leading whitespace, take one
      optional sign, read a hexadecimal number after a "0x"/"0X" prefix and a
      decimal one otherwise, stop at the first character that is not a digit.
      `None` stands for NaN, the result when no digit follows. */
  function ParseInt(s: string): (r: Option<int>)
    ensures TrimStart(s) == [] ==> r.None?
    ensures r.Some? && r.value < 0 ==> TrimStart(s)[0] == '-'
    ensures r.Some? && TrimStart(s)[0] != '-' ==> r.value >= 0
  {
    var t := TrimStart(s);
    var u := Unsigned(t);
    var ds := DigitPrefix(u[DigitsStart(u)..], Radix(u));
    var magnitude: int := DigitsValue(ds, Radix(u));
    if ds == [] then None
    else if t[0] == '-' then Some(-magnitude)
    else Some(magnitude)
  }

  /** `t` without its leading sign, if it has one. */
  function Unsigned(t: string): (u: string)
    ensures |u| <= |t|
  {
    if t != [] && (t[0] == '-' || t[0] == '+') then t[1..] else t
  }

  predicate HexPrefixed(u: string)
  {
    |u| >= 2 && u[0] == '0' && (u[1] == 'x' || u[1] == 'X')
  }

  function Radix(u: string): nat
  {
    if HexPrefixed(u) then 16 else 10
  }

  function DigitsStart(u: string): (k: nat)
    ensures k <= |u|
  {
    if HexPrefixed(u) then 2 else 0
  }

  lemma {:induction false} DigitPrefixOfDigits(s: string, radix: nat)
    requires AllDigits(s, radix)
    ensures DigitPrefix(s, radix) == s
  {
    if s != [] {
      DigitPrefixOfDigits(s[1..], radix);
    }
  }

  lemma {:induction false} DecimalStringValue(n: nat)
    ensures DigitsValue(DecimalString(n), 10) == n
  {
    var s := DecimalString(n);
    if n >= 10 {
      DecimalStringValue(n / 10);
      assert s[..|s| - 1] == DecimalString(n / 10);
    }
  }

  /** `parseInt(n.toString()) === n` for every non-negative integer. */
  lemma ParseDecimalString(n: nat)
    ensures ParseInt(DecimalString(n)) == Some(n)
  {
    var s := DecimalString(n);
    assert DigitValue(s[0]) < 10;
    assert TrimStart(s) == s;
    assert Unsigned(s) == s;
    assert s[0] != '-';
    assert !HexPrefixed(s);
    assert s[DigitsStart(s)..] == s;
    DigitPrefixOfDigits(s, 10);
    DecimalStringValue(n);
  }
}
