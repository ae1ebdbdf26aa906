/** Text operations the source delegates to the database or to the
    JavaScript runtime: `LOWER` / `toLowerCase`, substring search
    (`LIKE '%s%'` / `includes`), `ORDER BY` on names, and the prefix
    parsing of `parseInt` and `parseFloat`. */
module Text {
  import opened Js

  /** Lower-casing of one character; only the ASCII letters A-Z change. */
  function Lower(c: char): (r: char)
    ensures 'A' <= c <= 'Z' ==> r as int == c as int + 32
    ensures !('A' <= c <= 'Z') ==> r == c
  {
    if 'A' <= c <= 'Z' then (c as int + 32) as char else c
  }

  function LowerStr(s: string): (r: string)
    ensures |r| == |s|
    ensures forall i :: 0 <= i < |s| ==> r[i] == Lower(s[i])
  {
    if s == [] then [] else [Lower(s[0])] + LowerStr(s[1..])
  }

  /** Lower-casing twice is lower-casing once. */
  lemma LowerStrIdempotent(s: string)
    ensures LowerStr(LowerStr(s)) == LowerStr(s)
  {
  }

  /** `s.includes(sub)`: `sub` occurs in `s` at some position. */
  function Contains(s: string, sub: string): (r: bool)
    decreases |s|
  {
    sub <= s || (|s| > 0 && Contains(s[1..], sub))
  }

  /** `sub` occurs in `s` starting at index `i`. */
  ghost predicate OccursAt(s: string, sub: string, i: int)
  {
    0 <= i <= |s| - |sub| && s[i..i + |sub|] == sub
  }

  /** `Contains` agrees with the positional definition of a substring. */
  lemma {:induction false} ContainsAt(s: string, sub: string)
    ensures Contains(s, sub) <==> exists i :: OccursAt(s, sub, i)
  {
    if sub <= s {
      assert OccursAt(s, sub, 0);
    } else if |s| == 0 {
    } else {
      ContainsAt(s[1..], sub);
      if Contains(s[1..], sub) {
        var i :| OccursAt(s[1..], sub, i);
        assert s[i + 1..i + 1 + |sub|] == s[1..][i..i + |sub|];
        assert OccursAt(s, sub, i + 1);
      }
      if exists i :: OccursAt(s, sub, i) {
        var i :| OccursAt(s, sub, i);
        assert i != 0;
        assert s[1..][i - 1..i - 1 + |sub|] == s[i..i + |sub|];
        assert OccursAt(s[1..], sub, i - 1);
      }
    }
  }

  /** The empty search term is contained in every name. */
  lemma {:induction false} ContainsEmpty(s: string)
    ensures Contains(s, "")
  {
  }

  /** Lexicographic order on names (the database's `ORDER BY nome`,
      taken as code-point order). */
  function LessEq(a: string, b: string): bool
  {
    if a == [] then true
    else if b == [] then false
    else if a[0] < b[0] then true
    else if a[0] > b[0] then false
    else LessEq(a[1..], b[1..])
  }

  lemma {:induction false} LessEqTotal(a: string, b: string)
    ensures LessEq(a, b) || LessEq(b, a)
  {
    if a != [] && b != [] && a[0] == b[0] {
      LessEqTotal(a[1..], b[1..]);
    }
  }

  lemma {:induction false} LessEqTransitive(a: string, b: string, c: string)
    requires LessEq(a, b) && LessEq(b, c)
    ensures LessEq(a, c)
  {
    if a != [] && b != [] && c != [] && a[0] == b[0] == c[0] {
      LessEqTransitive(a[1..], b[1..], c[1..]);
    }
  }

  lemma {:induction false} LessEqAntisymmetric(a: string, b: string)
    requires LessEq(a, b) && LessEq(b, a)
    ensures a == b
  {
    if a != [] && b != [] {
      LessEqAntisymmetric(a[1..], b[1..]);
    }
  }

  /** The white space and line terminators that `parseInt` and
      `parseFloat` skip: tab, vertical tab, form feed, space, no-break
      space, the byte order mark, the Unicode space separators, and
      line feed, carriage return and the line and paragraph separators. */
  predicate IsSpace(c: char)
  {
    c == '\t' || c == '\n' || c == '\U{000B}' || c == '\U{000C}' || c == '\r' || c == ' '
    || c == '\U{00A0}' || c == '\U{1680}' || '\U{2000}' <= c <= '\U{200A}'
    || c == '\U{2028}' || c == '\U{2029}' || c == '\U{202F}' || c == '\U{205F}'
    || c == '\U{3000}' || c == '\U{FEFF}'
  }

  predicate IsDigit(c: char)
  {
    '0' <= c <= '9'
  }

  function SkipSpace(s: string): (r: string)
    ensures r <= s || (|r| <= |s| && r == s[|s| - |r|..])
    ensures r == [] || !IsSpace(r[0])
  {
    if |s| > 0 && IsSpace(s[0]) then SkipSpace(s[1..]) else s
  }

  /** The longest prefix of `s` made of decimal digits. */
  function DigitPrefix(s: string): (r: string)
    ensures r <= s
    ensures forall i :: 0 <= i < |r| ==> IsDigit(r[i])
    ensures |r| == |s| || !IsDigit(s[|r|])
  {
    if |s| > 0 && IsDigit(s[0]) then [s[0]] + DigitPrefix(s[1..]) else []
  }

  function DigitValue(c: char): (r: nat)
    requires IsDigit(c)
    ensures r <= 9
  {
    var v := c as int - '0' as int;
    assert 0 <= v <= 9;
    v
  }

  /** The value of a string of decimal digits. */
  function DigitsValue(d: string): (r: nat)
    requires forall i :: 0 <= i < |d| ==> IsDigit(d[i])
  {
    if d == [] then 0
    else DigitsValue(d[..|d| - 1]) * 10 + DigitValue(d[|d| - 1])
  }

  function Pow10(n: nat): (r: nat)
    ensures r >= 1
  {
    if n == 0 then 1 else 10 * Pow10(n - 1)
  }

  /** The text after an optional leading sign, and whether the sign is minus. */
  function SplitSign(t: string): (bool, string)
  {
    if |t| > 0 && (t[0] == '-' || t[0] == '+') then (t[0] == '-', t[1..]) else (false, t)
  }

  predicate IsHexDigit(c: char)
  {
    IsDigit(c) || 'a' <= c <= 'f' || 'A' <= c <= 'F'
  }

  /** The longest prefix of `s` made of hexadecimal digits. */
  function HexPrefix(s: string): (r: string)
    ensures r <= s
    ensures forall i :: 0 <= i < |r| ==> IsHexDigit(r[i])
    ensures |r| == |s| || !IsHexDigit(s[|r|])
  {
    if |s| > 0 && IsHexDigit(s[0]) then [s[0]] + HexPrefix(s[1..]) else []
  }

  function HexDigitValue(c: char): (r: nat)
    requires IsHexDigit(c)
    ensures r <= 15
  {
    if IsDigit(c) then DigitValue(c)
    else if 'a' <= c <= 'f' then c as int - 'a' as int + 10
    else c as int - 'A' as int + 10
  }

  /** The value of a string of hexadecimal digits. */
  function HexValue(d: string): (r: nat)
    requires forall i :: 0 <= i < |d| ==> IsHexDigit(d[i])
  {
    if d == [] then 0
    else HexValue(d[..|d| - 1]) * 16 + HexDigitValue(d[|d| - 1])
  }

  /** The text starts with the `0x` or `0X` that switches `parseInt` to
      base 16. */
  predicate HexStart(u: string)
  {
    |u| >= 2 && u[0] == '0' && (u[1] == 'x' || u[1] == 'X')
  }

  /** `parseInt(s)` with no radix: leading white space, an optional sign,
      then the longest run of hexadecimal digits after a `0x` prefix or
      of decimal digits otherwise; `None` (NaN) when that run is empty. */
  function ParseInt(s: string): (r: Option<int>)
    ensures var u := SplitSign(SkipSpace(s)).1;
      r.None? <==> if HexStart(u) then HexPrefix(u[2..]) == [] else DigitPrefix(u) == []
    ensures r.Some? && !SplitSign(SkipSpace(s)).0 ==> r.value >= 0
    ensures r.Some? && SplitSign(SkipSpace(s)).0 ==> r.value <= 0
  {
    var (neg, u) := SplitSign(SkipSpace(s));
    var d := if HexStart(u) then HexPrefix(u[2..]) else DigitPrefix(u);
    var n: int := if HexStart(u) then HexValue(d) else DigitsValue(d);
    if d == [] then None else Some(if neg then -n else n)
  }

  /** `m` scaled by ten to the power `e`. */
  function Scale(m: real, e: int): (r: real)
    ensures m >= 0.0 ==> r >= 0.0
  {
    if e >= 0 then m * Pow10(e) as real else m / Pow10(-e) as real
  }

  /** The exponent of `parseFloat`: an `e` or `E`, an optional sign and at
      least one digit; 0 when the text does not start with one. */
  function Exponent(t: string): (r: int)
  {
    if |t| > 0 && (t[0] == 'e' || t[0] == 'E') then
      var (neg, u) := SplitSign(t[1..]);
      var d := DigitPrefix(u);
      var n: int := DigitsValue(d);
      if neg then -n else n
    else 0
  }

  /** The value of the digits after a decimal point. */
  function Fraction(f: string): (r: real)
    requires forall i :: 0 <= i < |f| ==> IsDigit(f[i])
    ensures 0.0 <= r
  {
    var d := DigitsValue(f) as real;
    var p := Pow10(|f|) as real;
    assert p > 0.0 && d >= 0.0;
    d / p
  }

  /** An unsigned decimal literal at the start of `u`: digits and an
      optional fraction after '.', with at least one digit between them,
      then an optional exponent; `Absent` when there is no digit. */
  function UnsignedDecimal(u: string): (r: JsNum)
    ensures r.Absent? <==> DigitPrefix(u) == [] && !(|u| > 0 && u[0] == '.' && DigitPrefix(u[1..]) != [])
    ensures r.Value? ==> r.v >= 0.0
  {
    var a := DigitPrefix(u);
    var rest := u[|a|..];
    var point := |rest| > 0 && rest[0] == '.';
    var f := if point then DigitPrefix(rest[1..]) else [];
    var after := if point then rest[1 + |f|..] else rest;
    assert a == [] ==> rest == u;
    if a == [] && f == [] then Absent
    else Value(Scale(DigitsValue(a) as real + Fraction(f), Exponent(after)))
  }

  /** `parseFloat(s)`: leading white space, an optional sign, then an
      unsigned decimal literal; `Absent` (NaN) when there is no digit. */
  function ParseFloat(s: string): (r: JsNum)
    ensures var u := SplitSign(SkipSpace(s)).1;
      r.Absent? <==> DigitPrefix(u) == [] && !(|u| > 0 && u[0] == '.' && DigitPrefix(u[1..]) != [])
    ensures r.Value? && !SplitSign(SkipSpace(s)).0 ==> r.v >= 0.0
    ensures r.Value? && SplitSign(SkipSpace(s)).0 ==> r.v <= 0.0
  {
    var (neg, u) := SplitSign(SkipSpace(s));
    match UnsignedDecimal(u)
    case Absent => Absent
    case Value(x) => Value(if neg then -x else x)
  }

  /** Worked values of `parseInt`, as JavaScript gives them. */
  lemma ParseIntExamples()
    ensures ParseInt("250") == Some(250)
    ensures ParseInt("") == None
    ensures ParseInt("abc") == None
  {
    ParseInt250();
    assert SkipSpace("abc") == "abc" && SplitSign("abc") == (false, "abc");
    assert DigitPrefix("abc") == [];
  }

  lemma ParseInt250()
    ensures ParseInt("250") == Some(250)
  {
    assert SkipSpace("250") == "250" && SplitSign("250") == (false, "250");
    assert DigitPrefix("250") == "250" by {
      assert DigitPrefix("0") == "0";
      assert DigitPrefix("50") == "50";
    }
    assert DigitsValue("2") == 2;
    assert DigitsValue("25") == 25 by {
      assert "25"[..1] == "2";
    }
    assert "250"[..2] == "25";
  }

  /** `parseInt` skips leading white space, keeps the sign and stops at the first non-digit. */
  lemma ParseIntSignExample()
    ensures ParseInt(" -12ml") == Some(-12)
  {
    assert SkipSpace(" -12ml") == "-12ml" by {
      assert " -12ml"[1..] == "-12ml";
    }
    assert SplitSign("-12ml") == (true, "12ml") by {
      assert "-12ml"[1..] == "12ml";
    }
    assert DigitPrefix("12ml") == "12" by {
      assert "12ml"[1..] == "2ml" && "2ml"[1..] == "ml";
      assert DigitPrefix("ml") == [];
      assert DigitPrefix("2ml") == "2";
    }
    assert DigitsValue("1") == 1;
    assert DigitsValue("12") == 12 by {
      assert "12"[..1] == "1";
    }
  }

  /** Without a radix `parseInt` reads a `0x` prefix as base 16, and the
      prefix alone is `NaN`. */
  lemma ParseIntHexExamples()
    ensures ParseInt("0x1A") == Some(26)
    ensures ParseInt("0x") == None
  {
    assert SkipSpace("0x1A") == "0x1A" && SplitSign("0x1A") == (false, "0x1A");
    assert HexStart("0x1A") && "0x1A"[2..] == "1A";
    assert HexPrefix("1A") == "1A" by {
      assert "1A"[1..] == "A" && "A"[1..] == [];
      assert HexPrefix("A") == "A";
    }
    assert HexValue("1") == 1;
    assert HexValue("1A") == 26 by {
      assert "1A"[..1] == "1";
    }
    assert SkipSpace("0x") == "0x" && SplitSign("0x") == (false, "0x");
    assert HexStart("0x") && "0x"[2..] == [];
  }

  /** A no-break space and a vertical tab count as white space. */
  lemma ParseIntUnicodeSpaceExample()
    ensures ParseInt("\U{00A0}\U{000B}7") == Some(7)
  {
    assert "\U{00A0}\U{000B}7"[1..] == "\U{000B}7" && "\U{000B}7"[1..] == "7";
    assert SkipSpace("\U{00A0}\U{000B}7") == "7";
    assert SplitSign("7") == (false, "7") && !HexStart("7");
    assert DigitPrefix("7") == "7" && DigitsValue("7") == 7;
  }

  /** `parseFloat` honours an exponent: "1e2" is 100. */
  lemma ParseFloatExponentExample()
    ensures ParseFloat("1e2") == Value(100.0)
  {
    assert SkipSpace("1e2") == "1e2" && SplitSign("1e2") == (false, "1e2");
    assert "1e2"[1..] == "e2" && "e2"[1..] == "2" && "2"[1..] == [];
    assert DigitPrefix("e2") == [];
    assert DigitPrefix("1e2") == "1";
    assert DigitPrefix("2") == "2";
    assert SplitSign("2") == (false, "2");
    assert DigitsValue("1") == 1 && DigitsValue("2") == 2 && Pow10(2) == 100;
    assert Exponent("e2") == 2;
    assert Fraction([]) == 0.0;
  }

  /** Worked values of `parseFloat`. */
  lemma ParseFloatExamples()
    ensures ParseFloat("1.5") == Value(1.5)
    ensures ParseFloat("") == Absent
  {
    assert SkipSpace("1.5") == "1.5" && SplitSign("1.5") == (false, "1.5");
    assert "1.5"[1..] == ".5" && ".5"[1..] == "5" && "5"[1..] == [];
    assert DigitPrefix(".5") == [];
    assert DigitPrefix("1.5") == "1";
    assert DigitPrefix("5") == "5";
    assert DigitsValue("1") == 1 && DigitsValue("5") == 5 && Pow10(1) == 10;
  }

  /** `parseFloat(v)` for a request body field: `undefined` and `null`
      give `NaN`, a number is itself, text is parsed. */
  function FloatOf(f: Field): (r: JsNum)
    ensures f.Number? ==> r == Value(f.x)
    ensures f.Missing? || f.Null? ==> r == Absent
  {
    match f
    case Missing => Absent
    case Null => Absent
    case Number(x) => Value(x)
    case Text(s) => ParseFloat(s)
  }

  /** `parseInt(v)` for a request body field: `undefined` and `null`
      give `NaN` (`None`), a number is truncated, text is parsed. */
  function IntOf(f: Field): (r: Option<int>)
    ensures f.Number? ==> r == Some(Trunc(f.x))
    ensures f.Missing? || f.Null? ==> r == None
  {
    match f
    case Missing => None
    case Null => None
    case Number(x) => Some(Trunc(x))
    case Text(s) => ParseInt(s)
  }
}
