/**
 * The JavaScript string built-ins the application relies on, over `string`
 * (a sequence of Unicode scalar values): `trim`, `parseInt` without a radix,
 * `Number.prototype.toString` on integers and `Array.prototype.join`.
 */
module Text {
  import opened Wrappers

  /** JavaScript's WhiteSpace and LineTerminator code points, the set that
      `trim` strips and `parseInt` skips. */
  predicate IsWhitespace(c: char) {
    c == '\t' || c == '\n' || c == '\U{000B}' || c == '\U{000C}' || c == '\r' ||
    c == ' ' || c == '\U{00A0}' || c == '\U{1680}' ||
    ('\U{2000}' <= c <= '\U{200A}') ||
    c == '\U{2028}' || c == '\U{2029}' || c == '\U{202F}' || c == '\U{205F}' ||
    c == '\U{3000}' || c == '\U{FEFF}'
  }

  predicate AllWhitespace(s: string) {
    forall i | 0 <= i < |s| :: IsWhitespace(s[i])
  }

  /** JavaScript truthiness of a string: only the empty string is falsy. */
  predicate Truthy(s: string) {
    s != ""
  }

  /** Truthiness of an optional string (`null`/`undefined` are falsy). */
  predicate TruthyOpt(s: Option<string>) {
    s.Some? && s.value != ""
  }

  /** `s.trimStart()`: the suffix of `s` that follows its leading whitespace. */
  function TrimStart(s: string): (r: string)
    ensures |r| <= |s| && r == s[|s| - |r|..]
    ensures forall i | 0 <= i < |s| - |r| :: IsWhitespace(s[i])
    ensures r == [] || !IsWhitespace(r[0])
  {
    if s != [] && IsWhitespace(s[0]) then TrimStart(s[1..]) else s
  }

  /** `s.trimEnd()`: the prefix of `s` that precedes its trailing whitespace. */
  function TrimEnd(s: string): (r: string)
    ensures |r| <= |s| && r == s[..|r|]
    ensures forall i | |r| <= i < |s| :: IsWhitespace(s[i])
    ensures r == [] || !IsWhitespace(r[|r| - 1])
  {
    if s != [] && IsWhitespace(s[|s| - 1]) then TrimEnd(s[..|s| - 1]) else s
  }

  /** `s.trim()`: the longest infix of `s` that neither starts nor ends with
      whitespace, everything around it being whitespace; it is empty exactly
      when `s` is blank. */
  function Trim(s: string): (r: string)
    ensures exists k | 0 <= k <= |s| - |r| ::
      r == s[k..k + |r|] && AllWhitespace(s[..k]) && AllWhitespace(s[k + |r|..])
    ensures r == [] || (!IsWhitespace(r[0]) && !IsWhitespace(r[|r| - 1]))
    ensures r == [] <==> AllWhitespace(s)
  {
    var t := TrimStart(s);
    var r := TrimEnd(t);
    assert r == s[|s| - |t|..][..|r|];
    assert AllWhitespace(s[..|s| - |t|]);
    var tail := s[|s| - |t| + |r|..];
    assert AllWhitespace(tail) by {
      forall i | 0 <= i < |tail| ensures IsWhitespace(tail[i]) {
        assert tail[i] == t[|r| + i];
      }
    }
    // a blank `t` is empty, since `t` does not start with whitespace
    assert t != [] ==> t[0] == s[|s| - |t|] && r != [];
    r
  }

  /** Trimming an already trimmed string changes nothing. */
  lemma TrimIdempotent(s: string)
    ensures Trim(Trim(s)) == Trim(s)
  {
    var r := Trim(s);
    assert TrimStart(r) == r;
    assert TrimEnd(r) == r;
  }

  /** `pages.join("\n")`. */
  function JoinLines(pages: seq<string>): (r: string)
    ensures |pages| == 1 ==> r == pages[0]
  {
    if |pages| == 0 then ""
    else if |pages| == 1 then pages[0]
    else JoinLines(pages[..|pages| - 1]) + "\n" + pages[|pages| - 1]
  }

  lemma AllWhitespaceConcat(a: string, b: string)
    ensures AllWhitespace(a + b) <==> AllWhitespace(a) && AllWhitespace(b)
  {
    if AllWhitespace(a) && AllWhitespace(b) {
      forall i | 0 <= i < |a + b| ensures IsWhitespace((a + b)[i]) {
        if i >= |a| { assert (a + b)[i] == b[i - |a|]; }
      }
    }
    if AllWhitespace(a + b) {
      forall i | 0 <= i < |a| ensures IsWhitespace(a[i]) {
        assert a[i] == (a + b)[i];
      }
      forall i | 0 <= i < |b| ensures IsWhitespace(b[i]) {
        assert b[i] == (a + b)[|a| + i];
      }
    }
  }

  /** Joined pages are blank exactly when every page is blank: the separator
      is itself whitespace. */
  lemma {:induction false} JoinLinesBlank(pages: seq<string>)
    ensures AllWhitespace(JoinLines(pages)) <==>
            forall k | 0 <= k < |pages| :: AllWhitespace(pages[k])
  {
    if |pages| > 1 {
      var init, last := pages[..|pages| - 1], pages[|pages| - 1];
      JoinLinesBlank(init);
      AllWhitespaceConcat(JoinLines(init), "\n");
      AllWhitespaceConcat(JoinLines(init) + "\n", last);
      assert forall k | 0 <= k < |pages| - 1 :: pages[k] == init[k];
    }
  }

  // ---------------------------------------------------------------------
  // Integers and their decimal text

  predicate IsDecimalDigit(c: char) {
    '0' <= c <= '9'
  }

  /** The value of `c` as a digit in base `radix` (10 or 16), if it is one. */
  function DigitValue(c: char, radix: nat): (d: Option<nat>)
    ensures d.Some? ==> d.value < radix || radix < 10
    ensures IsDecimalDigit(c) ==> d == Some(c as int - '0' as int)
  {
    if IsDecimalDigit(c) then Some(c as int - '0' as int)
    else if radix == 16 && 'a' <= c <= 'f' then Some(c as int - 'a' as int + 10)
    else if radix == 16 && 'A' <= c <= 'F' then Some(c as int - 'A' as int + 10)
    else None
  }

  predicate IsDigit(c: char, radix: nat) {
    DigitValue(c, radix).Some?
  }

  /** The length of the longest prefix of `s` made of base-`radix` digits. */
  function DigitRun(s: string, radix: nat): (n: nat)
    ensures n <= |s|
    ensures forall i | 0 <= i < n :: IsDigit(s[i], radix)
    ensures n < |s| ==> !IsDigit(s[n], radix)
  {
    if s != [] && IsDigit(s[0], radix) then 1 + DigitRun(s[1..], radix) else 0
  }

  /** The number that a run of digits denotes, most significant digit first. */
  function DigitsValue(s: string, radix: nat): nat
    requires forall i | 0 <= i < |s| :: IsDigit(s[i], radix)
  {
    if s == [] then 0
    else
      var last := s[|s| - 1];
      assert IsDigit(last, radix);
      DigitsValue(s[..|s| - 1], radix) * radix + DigitValue(last, radix).value
  }

  /**
   * `parseInt(s)` with no radix: leading whitespace is skipped, one sign is
   * read, a `0x`/`0X` prefix switches to base 16, and the longest run of
   * digits that follows is the value; no digit at all gives `NaN` (`None`).
   * A numeric result needs a decimal digit somewhere in `s`.
   */
  function ParseInt(s: string): (r: Option<int>)
    ensures r.Some? ==> exists i | 0 <= i < |s| :: IsDecimalDigit(s[i])
  {
    var t := TrimStart(s);
    var r := ParseSigned(t);
    assert r.Some? ==> exists i | 0 <= i < |t| :: IsDecimalDigit(t[i]);
    assert forall i | 0 <= i < |t| :: t[i] == s[|s| - |t| + i];
    r
  }

  /** The sign step of `parseInt`, on text that starts after the whitespace. */
  function ParseSigned(t: string): (r: Option<int>)
    ensures r.Some? ==> exists i | 0 <= i < |t| :: IsDecimalDigit(t[i])
  {
    if t != [] && (t[0] == '-' || t[0] == '+') then
      var r := ParseUnsigned(t[1..]);
      assert r.Some? ==> exists i | 0 <= i < |t[1..]| :: IsDecimalDigit(t[1..][i]);
      if r.Some? && t[0] == '-' then
        var m: int := r.value;
        Some(-m)
      else r
    else ParseUnsigned(t)
  }

  /** The radix step of `parseInt`: `0x` or `0X` selects base 16. */
  function ParseUnsigned(u: string): (r: Option<nat>)
    ensures r.Some? ==> exists i | 0 <= i < |u| :: IsDecimalDigit(u[i])
  {
    if |u| >= 2 && u[0] == '0' && (u[1] == 'x' || u[1] == 'X') then
      assert IsDecimalDigit(u[0]);
      ParseDigitRun(u[2..], 16)
    else
      var r := ParseDigitRun(u, 10);
      assert r.Some? ==> IsDecimalDigit(u[0]);
      r
  }

  /** The value of the longest run of digits at the start of `v`, if any. */
  function ParseDigitRun(v: string, radix: nat): (r: Option<nat>)
    ensures r.Some? <==> v != [] && IsDigit(v[0], radix)
  {
    var n := DigitRun(v, radix);
    if n == 0 then None else Some(DigitsValue(v[..n], radix))
  }

  function DecimalDigit(d: nat): (c: char)
    requires d < 10
    ensures IsDecimalDigit(c) && DigitValue(c, 10) == Some(d)
  {
    (d + '0' as int) as char
  }

  /** The decimal numeral of `n`: digits only, no leading zero, denoting `n`. */
  function NatToDecimal(n: nat): (r: string)
    ensures |r| >= 1
    ensures forall i | 0 <= i < |r| :: IsDecimalDigit(r[i])
    ensures |r| > 1 ==> r[0] != '0'
    ensures DigitsValue(r, 10) == n
  {
    if n < 10 then [DecimalDigit(n)]
    else
      var p := NatToDecimal(n / 10);
      var r := p + [DecimalDigit(n % 10)];
      assert r[..|r| - 1] == p;
      r
  }

  /** The largest integer a JavaScript number holds exactly. */
  const MaxSafeInteger := 9007199254740991

  /** The integers `toString` writes as their exact plain decimal; larger
      ones are written rounded, and from 10^21 in exponent notation. */
  predicate IsSafeInteger(n: int) {
    -MaxSafeInteger <= n <= MaxSafeInteger
  }

  /** `n.toString()` for a safe integer `n`: its plain decimal. */
  function IntToString(n: int): (r: string)
  {
    if n < 0 then "-" + NatToDecimal(-n) else NatToDecimal(n)
  }

  /** A numeral without sign or leading zero is read back as its value. */
  lemma ParseNumeral(n: nat)
    ensures ParseUnsigned(NatToDecimal(n)) == Some(n)
  {
    var d := NatToDecimal(n);
    assert !(|d| >= 2 && d[0] == '0');
    assert DigitRun(d, 10) == |d|;
    assert d[..|d|] == d;
  }

  /** `parseInt` reads back every plain decimal `IntToString` writes. */
  lemma ParseIntToString(n: int)
    ensures ParseInt(IntToString(n)) == Some(n)
  {
    var s := IntToString(n);
    var d := NatToDecimal(if n < 0 then -n else n);
    ParseNumeral(if n < 0 then -n else n);
    assert !IsWhitespace(s[0]);
    assert TrimStart(s) == s;
    if n < 0 {
      assert s[1..] == d;
      assert ParseSigned(s) == Some(n);
    } else {
      assert s == d && !(s[0] == '-' || s[0] == '+');
      assert ParseSigned(s) == Some(n);
    }
  }

  /** Leading whitespace is exactly what `TrimStart` removes. */
  lemma {:induction false} TrimStartAfterWhitespace(ws: string, x: string)
    requires AllWhitespace(ws)
    requires x != [] && !IsWhitespace(x[0])
    ensures TrimStart(ws + x) == x
  {
    if ws != [] {
      assert (ws + x)[1..] == ws[1..] + x;
      TrimStartAfterWhitespace(ws[1..], x);
    } else {
      assert ws + x == x;
    }
  }

  /** A run of digits stops at the first character that is not one. */
  lemma {:induction false} DigitRunOfPrefix(d: string, rest: string, radix: nat)
    requires forall i | 0 <= i < |d| :: IsDigit(d[i], radix)
    requires rest == [] || !IsDigit(rest[0], radix)
    ensures DigitRun(d + rest, radix) == |d|
    ensures (d + rest)[..|d|] == d
  {
    if d != [] {
      assert (d + rest)[1..] == d[1..] + rest;
      DigitRunOfPrefix(d[1..], rest, radix);
    } else {
      assert d + rest == rest;
    }
  }

  /** The value `parseInt` gives a magnitude `v` read after `sign`. */
  function ApplySign(sign: string, v: nat): int {
    if sign == "-" then -(v as int) else v
  }

  /** The sign and radix steps of `parseInt` on text that starts after the
      whitespace. */
  lemma ParseSignedDigits(sign: string, u: string, v: nat)
    requires sign == "" || sign == "+" || sign == "-"
    requires ParseUnsigned(u) == Some(v)
    requires sign == "" ==> u != [] && u[0] != '-' && u[0] != '+'
    ensures ParseSigned(sign + u) == Some(ApplySign(sign, v))
  {
    var t := sign + u;
    if sign != "" {
      assert t[0] == sign[0] && t[1..] == u;
    } else {
      assert t == u;
    }
  }

  lemma Regroup(a: string, b: string, c: string, d: string)
    ensures a + b + c + d == a + (b + (c + d))
  {
  }

  lemma Associate(a: string, b: string, c: string)
    ensures a + b + c == a + (b + c)
  {
  }

  /** `parseInt` skips the whitespace and reads the rest with its sign. */
  lemma ParseIntAfterWhitespace(ws: string, t: string)
    requires AllWhitespace(ws)
    requires t != [] && !IsWhitespace(t[0])
    ensures ParseInt(ws + t) == ParseSigned(t)
  {
    TrimStartAfterWhitespace(ws, t);
  }

  /** A decimal numeral is read up to the first non-digit after it. */
  lemma ParseUnsignedDecimal(n: nat, rest: string)
    requires rest == [] || !IsDecimalDigit(rest[0])
    requires n == 0 && rest != [] ==> rest[0] != 'x' && rest[0] != 'X'
    ensures ParseUnsigned(NatToDecimal(n) + rest) == Some(n)
  {
    var d := NatToDecimal(n);
    var u := d + rest;
    assert u[0] == d[0];
    assert !(|u| >= 2 && u[0] == '0' && (u[1] == 'x' || u[1] == 'X')) by {
      if |d| == 1 && |u| >= 2 { assert u[1] == rest[0]; }
    }
    DigitRunOfPrefix(d, rest, 10);
  }

  /** A `0x` prefix is followed by a hexadecimal run, read to its end. */
  lemma ParseUnsignedHex(prefix: string, digits: string, rest: string)
    requires prefix == "0x" || prefix == "0X"
    requires forall i | 0 <= i < |digits| :: IsDigit(digits[i], 16)
    requires digits != [] && (rest == [] || !IsDigit(rest[0], 16))
    ensures ParseUnsigned(prefix + (digits + rest)) == Some(DigitsValue(digits, 16))
  {
    var u := prefix + (digits + rest);
    assert u[0] == '0' && u[1] == prefix[1];
    assert u[2..] == digits + rest;
    DigitRunOfPrefix(digits, rest, 16);
  }

  /** `parseInt` of whitespace, a sign and a text the radix step reads as
      `v`. */
  lemma ParseIntSigned(ws: string, sign: string, u: string, v: nat)
    requires AllWhitespace(ws)
    requires sign == "" || sign == "+" || sign == "-"
    requires ParseUnsigned(u) == Some(v)
    requires u != [] && IsDecimalDigit(u[0])
    ensures ParseInt(ws + sign + u) == Some(ApplySign(sign, v))
  {
    ParseSignedDigits(sign, u, v);
    var t := sign + u;
    assert t[0] == if sign == "" then u[0] else sign[0];
    ParseIntAfterWhitespace(ws, t);
    Associate(ws, sign, u);
  }

  /**
   * What `parseInt` reads from `ws + sign + numeral + rest`: the whitespace
   * is skipped, the sign applied, and the decimal numeral read up to the
   * first non-digit; a lone `0` followed by `x` would start a hexadecimal
   * number instead. So `parseInt("12abc")` is 12 and `parseInt("-0")` is 0.
   */
  lemma ParseIntReadsDecimal(ws: string, sign: string, n: nat, rest: string)
    requires AllWhitespace(ws)
    requires sign == "" || sign == "+" || sign == "-"
    requires rest == [] || !IsDecimalDigit(rest[0])
    requires n == 0 && rest != [] ==> rest[0] != 'x' && rest[0] != 'X'
    ensures ParseInt(ws + sign + NatToDecimal(n) + rest) == Some(ApplySign(sign, n))
  {
    var u := NatToDecimal(n) + rest;
    assert u[0] == NatToDecimal(n)[0];
    ParseUnsignedDecimal(n, rest);
    ParseIntSigned(ws, sign, u, n);
    Associate(ws + sign, NatToDecimal(n), rest);
  }

  /**
   * What `parseInt` reads from `ws + sign + "0x" + digits + rest`: the
   * hexadecimal run, signed, up to the first character that is not a
   * hexadecimal digit. So `parseInt(" -0x1F")` is -31.
   */
  lemma ParseIntReadsHex(ws: string, sign: string, prefix: string, digits: string, rest: string)
    requires AllWhitespace(ws)
    requires sign == "" || sign == "+" || sign == "-"
    requires prefix == "0x" || prefix == "0X"
    requires forall i | 0 <= i < |digits| :: IsDigit(digits[i], 16)
    requires digits != [] && (rest == [] || !IsDigit(rest[0], 16))
    ensures ParseInt(ws + sign + prefix + digits + rest) ==
            Some(ApplySign(sign, DigitsValue(digits, 16)))
  {
    var u := prefix + (digits + rest);
    assert u[0] == '0';
    ParseUnsignedHex(prefix, digits, rest);
    ParseIntSigned(ws, sign, u, DigitsValue(digits, 16));
    assert ws + sign + prefix + digits + rest == ws + sign + u by {
      Regroup(ws + sign, prefix, digits, rest);
    }
  }

  /** Distinct integers have distinct decimal texts. */
  lemma IntToStringInjective(a: int, b: int)
    requires IntToString(a) == IntToString(b)
    ensures a == b
  {
    ParseIntToString(a);
    ParseIntToString(b);
  }
}
