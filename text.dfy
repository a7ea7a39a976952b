/** Character and string operations shared by the backend (Python) and the
    client (JavaScript) models: case folding, substring tests, whitespace
    trimming, decimal rendering and parsing, and code-point string order. */
module Text {
  import opened Lists

  // ---------------------------------------------------------------------
  // Case folding and substring tests
  // ---------------------------------------------------------------------

  /** Lower-casing of one character, restricted to ASCII letters. */
  function LowerChar(c: char): char
  {
    if 'A' <= c <= 'Z' then (c as int + 32) as char else c
  }

  /** `s.lower()` (Python) and `s.toLowerCase()` (JavaScript), exact on
      ASCII text only: letters outside A to Z are left as they are. */
  function Lower(s: string): (r: string)
    ensures |r| == |s|
    ensures forall i :: 0 <= i < |s| ==> r[i] == LowerChar(s[i])
  {
    seq(|s|, i requires 0 <= i < |s| => LowerChar(s[i]))
  }

  predicate StartsWith(s: string, prefix: string)
  {
    |prefix| <= |s| && s[..|prefix|] == prefix
  }

  predicate EndsWith(s: string, suffix: string)
  {
    |suffix| <= |s| && s[|s| - |suffix|..] == suffix
  }

  predicate OccursAt(s: string, sub: string, i: int)
  {
    0 <= i && i + |sub| <= |s| && s[i..i + |sub|] == sub
  }

  /** `sub in s` (Python) and `s.includes(sub)` (JavaScript). */
  predicate Contains(s: string, sub: string)
  {
    exists i :: 0 <= i <= |s| - |sub| && OccursAt(s, sub, i)
  }

  /** `text.toLowerCase().includes(query.toLowerCase())`: a case-insensitive
      substring test. */
  predicate IncludesIgnoringCase(text: string, query: string)
  {
    Contains(Lower(text), Lower(query))
  }

  /** Every text includes the empty query. */
  lemma IncludesEmptyQuery(text: string)
    ensures IncludesIgnoringCase(text, "")
  {
    ContainsEmpty(Lower(text));
  }

  /** The empty string is a substring of every string. */
  lemma ContainsEmpty(s: string)
    ensures Contains(s, "")
  {
    assert OccursAt(s, "", 0);
  }

  /** A string is a substring of itself. */
  lemma ContainsSelf(s: string)
    ensures Contains(s, s)
  {
    assert OccursAt(s, s, 0);
  }

  /** A substring of `b` is a substring of `a + b + c`. */
  lemma ContainsInfix(a: string, b: string, c: string, sub: string)
    requires Contains(b, sub)
    ensures Contains(a + b + c, sub)
  {
    var i :| 0 <= i <= |b| - |sub| && OccursAt(b, sub, i);
    var s := a + b + c;
    assert s[|a| + i..|a| + i + |sub|] == b[i..i + |sub|];
    assert OccursAt(s, sub, |a| + i);
  }

  // ---------------------------------------------------------------------
  // JavaScript `||` defaults
  // ---------------------------------------------------------------------

  /** `value || fallback` for an optional string: a missing or empty string
      is falsy and gives the fallback. */
  function StrOr(value: Option<string>, fallback: string): (r: string)
    ensures r == fallback || (value.Some? && r == value.value)
    ensures r == fallback <== value.None? || value.value == []
    ensures value.Some? && value.value != [] ==> r == value.value
  {
    if value.Some? && value.value != [] then value.value else fallback
  }

  /** `value || fallback` for an optional number: a missing value and 0 are
      falsy and give the fallback. */
  function IntOr(value: Option<int>, fallback: int): (r: int)
    ensures value.None? || value.value == 0 ==> r == fallback
    ensures value.Some? && value.value != 0 ==> r == value.value
  {
    if value.Some? && value.value != 0 then value.value else fallback
  }

  // ---------------------------------------------------------------------
  // Whitespace
  // ---------------------------------------------------------------------

  /** The characters for which Python's `str.isspace()` holds. */
  predicate PyIsSpace(c: char)
  {
    var n := c as int;
    (9 <= n <= 13) || (28 <= n <= 32) || n == 0x85 || n == 0xA0 || n == 0x1680
    || (0x2000 <= n <= 0x200A) || n == 0x2028 || n == 0x2029 || n == 0x202F
    || n == 0x205F || n == 0x3000
  }

  /** The characters JavaScript's `String.prototype.trim` removes. */
  predicate JsIsSpace(c: char)
  {
    var n := c as int;
    (9 <= n <= 13) || n == 32 || n == 0xA0 || n == 0x1680
    || (0x2000 <= n <= 0x200A) || n == 0x2028 || n == 0x2029 || n == 0x202F
    || n == 0x205F || n == 0x3000 || n == 0xFEFF
  }

  /** Drops the leading characters that satisfy `space`. */
  function TrimStart(s: string, space: char -> bool): (r: string)
    ensures |r| <= |s| && r == s[|s| - |r|..]
    ensures forall i :: 0 <= i < |s| - |r| ==> space(s[i])
    ensures r == [] || !space(r[0])
  {
    if s != [] && space(s[0]) then TrimStart(s[1..], space) else s
  }

  /** Drops the trailing characters that satisfy `space`. */
  function TrimEnd(s: string, space: char -> bool): (r: string)
    ensures |r| <= |s| && r == s[..|r|]
    ensures forall i :: |r| <= i < |s| ==> space(s[i])
    ensures r == [] || !space(r[|r| - 1])
  {
    if s != [] && space(s[|s| - 1]) then TrimEnd(s[..|s| - 1], space) else s
  }

  /** Python's `str.strip()` with no argument. */
  function PyStrip(s: string): (r: string)
    ensures Contains(s, r)
    ensures r == [] || (!PyIsSpace(r[0]) && !PyIsSpace(r[|r| - 1]))
  {
    var t := TrimStart(s, PyIsSpace);
    var r := TrimEnd(t, PyIsSpace);
    assert s[|s| - |t|..][..|r|] == s[|s| - |t|..|s| - |t| + |r|];
    assert OccursAt(s, r, |s| - |t|);
    r
  }

  /** JavaScript's `String.prototype.trim()`. */
  function JsTrim(s: string): (r: string)
    ensures |r| <= |s|
    ensures r == [] || (!JsIsSpace(r[0]) && !JsIsSpace(r[|r| - 1]))
    ensures r == [] <==> forall i :: 0 <= i < |s| ==> JsIsSpace(s[i])
  {
    var t := TrimStart(s, JsIsSpace);
    TrimEnd(t, JsIsSpace)
  }

  /** Stripping text that already has no surrounding whitespace changes nothing. */
  lemma PyStripNoop(s: string)
    requires s == [] || (!PyIsSpace(s[0]) && !PyIsSpace(s[|s| - 1]))
    ensures PyStrip(s) == s
  {
  }

  // ---------------------------------------------------------------------
  // Decimal numbers
  // ---------------------------------------------------------------------

  predicate IsDigit(c: char)
  {
    '0' <= c <= '9'
  }

  function DigitValue(c: char): (d: nat)
    requires IsDigit(c)
    ensures d < 10
  {
    c as int - '0' as int
  }

  function DigitChar(d: nat): (c: char)
    requires d < 10
    ensures IsDigit(c) && DigitValue(c) == d
  {
    ('0' as int + d) as char
  }

  predicate AllDigits(s: string)
  {
    forall i :: 0 <= i < |s| ==> IsDigit(s[i])
  }

  /** The decimal rendering of a natural number, as `str(n)` / `String(n)` give it. */
  function NatToString(n: nat): (r: string)
    ensures r != [] && AllDigits(r)
    ensures |r| > 1 ==> r[0] != '0'
  {
    if n < 10 then [DigitChar(n)] else NatToString(n / 10) + [DigitChar(n % 10)]
  }

  /** The decimal rendering of an integer, with a leading minus when negative. */
  function IntToString(i: int): (r: string)
    ensures r != []
    ensures i < 0 <==> r[0] == '-'
    ensures i >= 0 ==> r == NatToString(i)
  {
    if i < 0 then "-" + NatToString(-i) else NatToString(i)
  }

  /** The value of a non-empty run of decimal digits. */
  function DigitsToNat(s: string): nat
    requires AllDigits(s)
  {
    if s == [] then 0 else 10 * DigitsToNat(s[..|s| - 1]) + DigitValue(s[|s| - 1])
  }

  /** Reading back a rendered number gives the number. */
  lemma {:induction false} DigitsOfNatToString(n: nat)
    ensures DigitsToNat(NatToString(n)) == n
  {
    var s := NatToString(n);
    if n >= 10 {
      DigitsOfNatToString(n / 10);
      assert s[..|s| - 1] == NatToString(n / 10);
    }
  }

  /** Rendering is injective: distinct numbers have distinct renderings. */
  lemma NatToStringInjective(m: nat, n: nat)
    requires NatToString(m) == NatToString(n)
    ensures m == n
  {
    DigitsOfNatToString(m);
    DigitsOfNatToString(n);
  }

  /** The longest prefix of `s` made of decimal digits. */
  function DigitPrefix(s: string): (r: string)
    ensures AllDigits(r) && StartsWith(s, r)
    ensures |r| == |s| || !IsDigit(s[|r|])
  {
    if s != [] && IsDigit(s[0]) then [s[0]] + DigitPrefix(s[1..]) else []
  }

  /** The first maximal run of decimal digits in `s` (the first match of the
      regular expression `\d+`), or None when `s` has no digit. */
  function FirstDigitRun(s: string): (r: Option<string>)
    ensures r.None? <==> forall i :: 0 <= i < |s| ==> !IsDigit(s[i])
    ensures r.Some? ==> r.value != [] && AllDigits(r.value)
  {
    if s == [] then None
    else if IsDigit(s[0]) then Some(DigitPrefix(s))
    else FirstDigitRun(s[1..])
  }

  /** The run found is the digits of a number written after a digit-free
      prefix and before a non-digit: the investment in "$5k" is 5. */
  lemma {:induction false} FirstDigitRunOfRendered(pre: string, n: nat, post: string)
    requires forall i :: 0 <= i < |pre| ==> !IsDigit(pre[i])
    requires post == [] || !IsDigit(post[0])
    ensures FirstDigitRun(pre + NatToString(n) + post) == Some(NatToString(n))
  {
    var d := NatToString(n);
    if pre == [] {
      assert [] + d + post == d + post;
      DigitPrefixOfDigits(d, post);
    } else {
      assert (pre + d + post)[1..] == pre[1..] + d + post;
      FirstDigitRunOfRendered(pre[1..], n, post);
    }
  }

  lemma {:induction false} DigitPrefixOfDigits(d: string, post: string)
    requires AllDigits(d)
    requires post == [] || !IsDigit(post[0])
    ensures DigitPrefix(d + post) == d
  {
    if d != [] {
      assert (d + post)[1..] == d[1..] + post;
      DigitPrefixOfDigits(d[1..], post);
    }
  }

  // ---------------------------------------------------------------------
  // JavaScript parseInt
  // ---------------------------------------------------------------------

  predicate IsHexDigit(c: char)
  {
    IsDigit(c) || 'a' <= c <= 'f' || 'A' <= c <= 'F'
  }

  function HexValue(c: char): (d: nat)
    requires IsHexDigit(c)
    ensures d < 16
  {
    if IsDigit(c) then DigitValue(c)
    else if 'a' <= c <= 'f' then c as int - 'a' as int + 10
    else c as int - 'A' as int + 10
  }

  /** The longest prefix of `s` made of hexadecimal digits. */
  function HexPrefix(s: string): (r: string)
    ensures StartsWith(s, r)
    ensures forall i :: 0 <= i < |r| ==> IsHexDigit(r[i])
  {
    if s != [] && IsHexDigit(s[0]) then [s[0]] + HexPrefix(s[1..]) else []
  }

  function HexToNat(s: string): nat
    requires forall i :: 0 <= i < |s| ==> IsHexDigit(s[i])
  {
    if s == [] then 0 else 16 * HexToNat(s[..|s| - 1]) + HexValue(s[|s| - 1])
  }

  function Signed(negative: bool, n: nat): int
  {
    if negative then -(n as int) else n
  }

  /** `parseInt(s)` with no radix: leading whitespace skipped, an optional
      sign, a "0x"/"0X" prefix switching to base 16, then the longest run of
      digits of the base; None (NaN) when that run is empty. Minus zero is
      the integer 0. */
  function JsParseInt(s: string): Option<int>
  {
    var t := TrimStart(s, JsIsSpace);
    var negative := t != [] && t[0] == '-';
    var u := if t != [] && (t[0] == '-' || t[0] == '+') then t[1..] else t;
    match ParseMagnitude(u)
    case None => None
    case Some(n) => Some(Signed(negative, n))
  }

  /** The number after the sign: hexadecimal after "0x" or "0X", decimal
      otherwise; None when no digit of that base follows. */
  function ParseMagnitude(u: string): Option<nat>
  {
    if |u| >= 2 && u[0] == '0' && (u[1] == 'x' || u[1] == 'X') then
      var z := HexPrefix(u[2..]);
      if z == [] then None else Some(HexToNat(z))
    else
      var z := DigitPrefix(u);
      if z == [] then None else Some(DigitsToNat(z))
  }

  /** `parseInt` of a run of decimal digits is its value. */
  lemma ParseIntOfDigits(d: string)
    requires d != [] && AllDigits(d)
    ensures JsParseInt(d) == Some(DigitsToNat(d))
  {
    assert !JsIsSpace(d[0]) && d[0] != '-' && d[0] != '+';
    assert TrimStart(d, JsIsSpace) == d;
    DigitPrefixOfDigits(d, []);
    assert d + [] == d;
    assert ParseMagnitude(d) == Some(DigitsToNat(d));
  }

  /** Parsing a rendered natural number gives it back. */
  lemma ParseIntOfRendered(n: nat)
    ensures JsParseInt(NatToString(n)) == Some(n)
  {
    ParseIntOfDigits(NatToString(n));
    DigitsOfNatToString(n);
  }

  /** Text without a decimal digit parses to NaN. */
  lemma ParseIntWithoutDigits(s: string)
    requires forall i :: 0 <= i < |s| ==> !IsDigit(s[i])
    ensures JsParseInt(s) == None
  {
    var t := TrimStart(s, JsIsSpace);
    var u := if t != [] && (t[0] == '-' || t[0] == '+') then t[1..] else t;
    if u != [] {
      assert u[0] == s[|s| - |u|];
    }
    assert ParseMagnitude(u) == None;
  }

  // ---------------------------------------------------------------------
  // Code-point order on strings (Python's `<` on str)
  // ---------------------------------------------------------------------

  /** `a < b` in Python: lexicographic by code point, a proper prefix first. */
  predicate Less(a: string, b: string)
  {
    b != [] && (a == [] || a[0] < b[0] || (a[0] == b[0] && Less(a[1..], b[1..])))
  }

  lemma {:induction false} LessIrreflexive(a: string)
    ensures !Less(a, a)
  {
    if a != [] { LessIrreflexive(a[1..]); }
  }

  lemma {:induction false} LessTrans(a: string, b: string, c: string)
    requires Less(a, b) && Less(b, c)
    ensures Less(a, c)
  {
    if a != [] && a[0] == b[0] && b[0] == c[0] {
      LessTrans(a[1..], b[1..], c[1..]);
    }
  }

  lemma {:induction false} LessTotal(a: string, b: string)
    ensures a == b || Less(a, b) || Less(b, a)
  {
    if a != [] && b != [] && a[0] == b[0] {
      LessTotal(a[1..], b[1..]);
      if a[1..] == b[1..] {
        assert a == [a[0]] + a[1..] && b == [b[0]] + b[1..];
      }
    }
  }

  lemma LessAsym(a: string, b: string)
    requires Less(a, b)
    ensures !Less(b, a)
  {
    if Less(b, a) {
      LessTrans(a, b, a);
      LessIrreflexive(a);
    }
  }

  /** The characters of `s` before its first `c`: `s.split(c)[0]`. */
  function Before(s: string, c: char): (r: string)
    ensures StartsWith(s, r)
    ensures forall i :: 0 <= i < |r| ==> r[i] != c
    ensures |r| == |s| || s[|r|] == c
  {
    if s == [] || s[0] == c then [] else [s[0]] + Before(s[1..], c)
  }

  /** A field without `c`, followed by nothing or by `c`, is what comes
      before the first `c`. */
  lemma {:induction false} BeforeOf(field: string, rest: string, c: char)
    requires forall i :: 0 <= i < |field| ==> field[i] != c
    requires rest == [] || rest[0] == c
    ensures Before(field + rest, c) == field
  {
    if field == [] {
      assert field + rest == rest;
    } else {
      assert (field + rest)[1..] == field[1..] + rest;
      BeforeOf(field[1..], rest, c);
    }
  }
}
