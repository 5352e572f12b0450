/** Decimal digit strings, the model of `parseFloat`/`parseInt`, integer rendering,
    `Math.pow` with a natural exponent and rounding to cents. */
module Decimal {
  import opened Wrappers
  import opened Strings

  predicate IsDigit(c: char) { '0' <= c <= '9' }

  predicate AllDigits(s: string) { forall i :: 0 <= i < |s| ==> IsDigit(s[i]) }

  function DigitValue(c: char): nat
    requires IsDigit(c)
  {
    c as int - '0' as int
  }

  function DigitChar(d: nat): (c: char)
    requires d < 10
    ensures IsDigit(c) && DigitValue(c) == d
  {
    ('0' as int + d) as char
  }

  function Pow10(n: nat): (r: nat)
    ensures r >= 1
  {
    if n == 0 then 1 else 10 * Pow10(n - 1)
  }

  /** The number a string of decimal digits denotes. */
  function DigitsValue(s: string): nat
    requires AllDigits(s)
  {
    if |s| == 0 then 0 else 10 * DigitsValue(s[..|s| - 1]) + DigitValue(s[|s| - 1])
  }

  lemma {:induction false} DigitsValueBound(s: string)
    requires AllDigits(s)
    ensures DigitsValue(s) < Pow10(|s|)
  {
    if |s| > 0 { DigitsValueBound(s[..|s| - 1]); }
  }

  /** Every character of an all-digit string is a digit. */
  lemma AllDigitsMembers(s: string)
    requires AllDigits(s)
    ensures forall c :: c in s ==> IsDigit(c)
  {
    forall c | c in s ensures IsDigit(c) {
      var i :| 0 <= i < |s| && s[i] == c;
    }
  }

  lemma AllDigitsAppend(a: string, b: string)
    requires AllDigits(a) && AllDigits(b)
    ensures AllDigits(a + b)
  {
    forall i | 0 <= i < |a + b| ensures IsDigit((a + b)[i]) {
      if i < |a| { assert (a + b)[i] == a[i]; } else { assert (a + b)[i] == b[i - |a|]; }
    }
  }

  lemma ShiftStep(x: int, p: int, v: int, d: int)
    ensures 10 * (x * p + v) + d == x * (10 * p) + (10 * v + d)
  {
  }

  /** Reading `a + b` shifts `a` by the length of `b`. */
  lemma {:induction false} DigitsValueAppend(a: string, b: string)
    requires AllDigits(a) && AllDigits(b)
    ensures AllDigits(a + b)
    ensures DigitsValue(a + b) == DigitsValue(a) * Pow10(|b|) + DigitsValue(b)
    decreases |b|
  {
    AllDigitsAppend(a, b);
    if |b| > 0 {
      var b' := b[..|b| - 1];
      var d := DigitValue(b[|b| - 1]);
      assert AllDigits(b');
      assert (a + b)[..|a + b| - 1] == a + b';
      assert (a + b)[|a + b| - 1] == b[|b| - 1];
      DigitsValueAppend(a, b');
      var x, p, v := DigitsValue(a), Pow10(|b'|), DigitsValue(b');
      assert DigitsValue(a + b) == 10 * (x * p + v) + d;
      ShiftStep(x, p, v, d);
    } else {
      assert a + b == a;
    }
  }

  /** Leading zeros do not change the value. */
  lemma {:induction false} DigitsValueLeadingZero(s: string)
    requires AllDigits(s) && |s| > 0 && s[0] == '0'
    ensures DigitsValue(s) == DigitsValue(s[1..])
  {
    assert s == [s[0]] + s[1..];
    DigitsValueAppend([s[0]], s[1..]);
    assert [s[0]][..0] == [];
  }

  /** Decimal rendering of a natural number (`String(n)`): digits only, no leading zero. */
  function NatToDigits(n: nat): (r: string)
    ensures |r| > 0 && AllDigits(r)
    ensures |r| > 1 ==> r[0] != '0'
    ensures DigitsValue(r) == n
  {
    if n < 10 then [DigitChar(n)]
    else
      var r := NatToDigits(n / 10) + [DigitChar(n % 10)];
      assert r[..|r| - 1] == NatToDigits(n / 10);
      r
  }

  /** Rendering inverts reading on strings without a leading zero. */
  lemma {:induction false} NatToDigitsOfValue(s: string)
    requires |s| > 0 && AllDigits(s) && (|s| > 1 ==> s[0] != '0')
    ensures NatToDigits(DigitsValue(s)) == s
  {
    var p := s[..|s| - 1];
    var v := DigitsValue(s);
    if |s| == 1 {
      assert s[..|s| - 1] == [];
      assert DigitsValue(s[..|s| - 1]) == 0;
      assert v == DigitValue(s[0]);
    } else {
      assert p[0] == s[0];
      if |p| > 1 { assert p[0] != '0'; }
      DigitsValuePositive(p);
      assert v / 10 == DigitsValue(p) && v % 10 == DigitValue(s[|s| - 1]);
      NatToDigitsOfValue(p);
      assert s == p + [s[|s| - 1]];
    }
  }

  lemma DigitsValuePositive(s: string)
    requires |s| > 0 && AllDigits(s) && s[0] != '0'
    ensures DigitsValue(s) >= 1
  {
    var t := s[1..];
    assert s == [s[0]] + t;
    DigitsValueAppend([s[0]], t);
    assert [s[0]][..0] == [];
  }

  /** `String(i)` for an integer. */
  function IntToString(i: int): (r: string)
    ensures |r| > 0
    ensures i >= 0 ==> r == NatToDigits(i)
    ensures i < 0 ==> r == "-" + NatToDigits(-i)
  {
    if i < 0 then "-" + NatToDigits(-i) else NatToDigits(i)
  }

  /** `Math.pow(x, n)` for a natural exponent. */
  function Pow(x: real, n: nat): real {
    if n == 0 then 1.0 else x * Pow(x, n - 1)
  }

  lemma {:induction false} PowPositive(x: real, n: nat)
    requires x > 0.0
    ensures Pow(x, n) > 0.0
  {
    if n > 0 { PowPositive(x, n - 1); }
  }

  /** Multiplying by a non-negative number keeps the order. */
  lemma ProdutoMonotono(a: real, b: real, d: real)
    requires a <= b && d >= 0.0
    ensures a * d <= b * d
  {
    assert b * d - a * d == (b - a) * d;
  }

  /** Multiplying a positive number by a factor above one makes it larger. */
  lemma ProdutoAcimaDeUm(x: real, f: real)
    requires x > 0.0 && f > 1.0
    ensures x * f > x
  {
    assert x * f - x == x * (f - 1.0);
  }

  /** A base above one raised to a positive power stays above one. */
  lemma {:induction false} PowAboveOne(x: real, n: nat)
    requires x > 1.0 && n > 0
    ensures Pow(x, n) > 1.0
  {
    if n > 1 { PowAboveOne(x, n - 1); }
  }

  lemma {:induction false} PowAtLeastOne(x: real, n: nat)
    requires x >= 1.0
    ensures Pow(x, n) >= 1.0
  {
    if n > 0 { PowAtLeastOne(x, n - 1); }
  }

  lemma {:induction false} PowAdd(x: real, a: nat, b: nat)
    ensures Pow(x, a + b) == Pow(x, a) * Pow(x, b)
    decreases a
  {
    if a > 0 {
      PowAdd(x, a - 1, b);
      assert Pow(x, a + b) == x * Pow(x, a - 1 + b);
    }
  }

  lemma {:induction false} Pow10AsPow(n: nat)
    ensures Pow10(n) as real == Pow(10.0, n)
  {
    if n > 0 { Pow10AsPow(n - 1); }
  }

  /** The value of `ip.fp` with an integer part and a fraction part of digits. */
  function DecimalValue(ip: string, fp: string): (r: real)
    requires AllDigits(ip) && AllDigits(fp)
    ensures r >= 0.0
    ensures DigitsValue(ip) as real <= r < DigitsValue(ip) as real + 1.0
  {
    DigitsValueBound(fp);
    FractionBelowOne(DigitsValue(fp) as real, Pow10(|fp|) as real);
    DigitsValue(ip) as real + DigitsValue(fp) as real / Pow10(|fp|) as real
  }

  lemma FractionBelowOne(n: real, d: real)
    requires 0.0 <= n < d
    ensures 0.0 <= n / d < 1.0
  {
    var q := n / d;
    assert q * d == n;
  }

  /** The longest prefix of decimal digits. */
  function DigitPrefix(s: string): (r: string)
    ensures |r| <= |s| && r == s[..|r|] && AllDigits(r)
    ensures |r| < |s| ==> !IsDigit(s[|r|])
    ensures AllDigits(s) ==> r == s
  {
    if |s| > 0 && IsDigit(s[0]) then
      var r := [s[0]] + DigitPrefix(s[1..]);
      assert s == [s[0]] + s[1..];
      r
    else ""
  }

  /** The digit prefix of `a + b` is `a` when `b` does not start with a digit. */
  lemma {:induction false} DigitPrefixStops(a: string, b: string)
    requires AllDigits(a) && (|b| == 0 || !IsDigit(b[0]))
    ensures DigitPrefix(a + b) == a
    decreases |a|
  {
    if |a| > 0 {
      assert (a + b)[1..] == a[1..] + b;
      DigitPrefixStops(a[1..], b);
      assert [a[0]] + a[1..] == a;
    } else {
      assert a + b == b;
    }
  }

  /** `parseFloat` without a sign: the longest numeral prefix `ddd`, `ddd.ddd`, `.ddd` or `ddd.`
      of `s`, or `None` (standing for `NaN`) when `s` does not start with one. */
  function ParseUnsigned(s: string): (r: Option<real>)
    ensures r.Some? ==> r.value >= 0.0
    ensures r.None? <==> !(|s| > 0 && IsDigit(s[0])) && !(|s| > 1 && s[0] == '.' && IsDigit(s[1]))
    ensures |s| > 0 && AllDigits(s) ==> r == Some(DigitsValue(s) as real)
  {
    var ip := DigitPrefix(s);
    var rest := s[|ip|..];
    if |rest| > 0 && rest[0] == '.' then
      var fp := DigitPrefix(rest[1..]);
      if |ip| + |fp| == 0 then None else Some(DecimalValue(ip, fp))
    else if |ip| == 0 then None
    else Some(DigitsValue(ip) as real)
  }

  /** `parseFloat(s)`: leading blanks, an optional sign, then the longest numeral prefix;
      `None` stands for `NaN`. */
  function ParseDecimal(s: string): (r: Option<real>)
    ensures |s| > 0 && AllDigits(s) ==> r == Some(DigitsValue(s) as real)
    ensures (forall i :: 0 <= i < |s| ==> IsSpace(s[i])) ==> r.None?
  {
    var t := TrimStart(s);
    if |t| > 0 && t[0] == '-' then
      match ParseUnsigned(t[1..])
      case None => None
      case Some(v) => Some(-v)
    else if |t| > 0 && t[0] == '+' then ParseUnsigned(t[1..])
    else ParseUnsigned(t)
  }

  /** A string that starts with a digit is read by `parseFloat` as an unsigned numeral. */
  lemma ParseDecimalDigitFirst(s: string)
    requires |s| > 0 && IsDigit(s[0])
    ensures ParseDecimal(s) == ParseUnsigned(s)
  {
    assert !IsSpace(s[0]);
    assert TrimStart(s) == s;
  }

  /** The unsigned numeral `ip.fp`, whatever follows that is not a digit. */
  lemma ParseUnsignedFraction(ip: string, fp: string, tail: string)
    requires AllDigits(ip) && AllDigits(fp) && |ip| > 0
    requires |tail| == 0 || !IsDigit(tail[0])
    ensures ParseUnsigned(ip + ("." + (fp + tail))) == Some(DecimalValue(ip, fp))
  {
    var rest := "." + (fp + tail);
    var s := ip + rest;
    DigitPrefixStops(ip, rest);
    assert s[|ip|..] == rest;
    assert rest[1..] == fp + tail;
    DigitPrefixStops(fp, tail);
  }

  /** Digits, a dot and digits read as a decimal fraction, whatever follows that is not a digit. */
  lemma ParseDecimalFractionPrefix(ip: string, fp: string, tail: string)
    requires AllDigits(ip) && AllDigits(fp) && |ip| > 0
    requires |tail| == 0 || !IsDigit(tail[0])
    ensures ParseDecimal(ip + "." + fp + tail) == Some(DecimalValue(ip, fp))
  {
    var s := ip + "." + fp + tail;
    assert s == ip + ("." + (fp + tail));
    assert s[0] == ip[0];
    ParseDecimalDigitFirst(s);
    ParseUnsignedFraction(ip, fp, tail);
  }

  /** A digit string with a dot before its last `|fp|` digits reads as a decimal fraction. */
  lemma ParseDecimalFraction(ip: string, fp: string)
    requires AllDigits(ip) && AllDigits(fp) && |ip| > 0
    ensures ParseDecimal(ip + "." + fp) == Some(DecimalValue(ip, fp))
  {
    ParseDecimalFractionPrefix(ip, fp, "");
    assert ip + "." + fp + "" == ip + "." + fp;
  }

  /** `parseInt(s)` with no radix: optional leading blanks and sign, then either `0x`/`0X`
      and the leading hexadecimal digits, or the leading decimal digits; `None` stands for `NaN`. */
  function ParseIntPrefix(s: string): Option<int> {
    ParseIntSigned(TrimStart(s))
  }

  function ParseIntSigned(t: string): Option<int> {
    if |t| > 0 && t[0] == '-' then
      match ParseIntBody(t[1..])
      case None => None
      case Some(v) => Some(0 - v)
    else if |t| > 0 && t[0] == '+' then ParseIntBody(t[1..])
    else ParseIntBody(t)
  }

  /** The text after the sign starts with the hexadecimal marker `0x` or `0X`. */
  predicate HexMarker(b: string) {
    |b| >= 2 && b[0] == '0' && (b[1] == 'x' || b[1] == 'X')
  }

  /** The unsigned part: radix 16 after the hexadecimal marker, radix 10 otherwise. */
  function ParseIntBody(b: string): Option<int> {
    if HexMarker(b) then ParseHexDigits(b[2..]) else ParseIntDigits(b)
  }

  function ParseIntDigits(b: string): Option<int> {
    var d := DigitPrefix(b);
    if |d| == 0 then None else Some(DigitsValue(d) as int)
  }

  predicate IsHexDigit(c: char) { IsDigit(c) || 'a' <= c <= 'f' || 'A' <= c <= 'F' }

  predicate AllHexDigits(s: string) { forall i :: 0 <= i < |s| ==> IsHexDigit(s[i]) }

  function HexDigitValue(c: char): (r: nat)
    requires IsHexDigit(c)
    ensures r < 16
  {
    if IsDigit(c) then DigitValue(c)
    else if 'a' <= c <= 'f' then c as int - 'a' as int + 10
    else c as int - 'A' as int + 10
  }

  /** The value of a string of hexadecimal digits, most significant first. */
  function HexValue(s: string): nat
    requires AllHexDigits(s)
  {
    if |s| == 0 then 0 else 16 * HexValue(s[..|s| - 1]) + HexDigitValue(s[|s| - 1])
  }

  /** The longest prefix of `s` made of hexadecimal digits. */
  function HexDigitPrefix(s: string): (r: string)
    ensures |r| <= |s| && r == s[..|r|] && AllHexDigits(r)
    ensures |r| < |s| ==> !IsHexDigit(s[|r|])
  {
    if |s| > 0 && IsHexDigit(s[0]) then
      var r := [s[0]] + HexDigitPrefix(s[1..]);
      assert s == [s[0]] + s[1..];
      r
    else ""
  }

  function ParseHexDigits(b: string): Option<int> {
    var h := HexDigitPrefix(b);
    if |h| == 0 then None else Some(HexValue(h) as int)
  }

  /** The hexadecimal prefix of `a + b` is `a` when `b` does not start with a hexadecimal digit. */
  lemma {:induction false} HexDigitPrefixStops(a: string, b: string)
    requires AllHexDigits(a) && (|b| == 0 || !IsHexDigit(b[0]))
    ensures HexDigitPrefix(a + b) == a
    decreases |a|
  {
    if |a| > 0 {
      assert (a + b)[1..] == a[1..] + b;
      HexDigitPrefixStops(a[1..], b);
      assert [a[0]] + a[1..] == a;
    } else {
      assert a + b == b;
    }
  }

  /** The leading hexadecimal digits of `h + tail` are `h` when `tail` does not start with one. */
  lemma ParseHexDigitsLeading(h: string, tail: string)
    requires AllHexDigits(h) && (|tail| == 0 || !IsHexDigit(tail[0]))
    ensures ParseHexDigits(h + tail) == (if |h| == 0 then None else Some(HexValue(h) as int))
  {
    HexDigitPrefixStops(h, tail);
  }

  /** The leading digits of `d + tail` are `d` when `tail` does not start with a digit. */
  lemma ParseIntDigitsLeading(d: string, tail: string)
    requires |d| > 0 && AllDigits(d) && (|tail| == 0 || !IsDigit(tail[0]))
    ensures ParseIntDigits(d + tail) == Some(DigitsValue(d) as int)
  {
    DigitPrefixStops(d, tail);
  }

  /** Decimal digits not forming the marker `0x`/`0X` are read in base ten, whatever
      non-digit follows. */
  lemma ParseIntBodyLeading(d: string, tail: string)
    requires |d| > 0 && AllDigits(d) && (|tail| == 0 || !IsDigit(tail[0]))
    requires !(d == "0" && |tail| > 0 && (tail[0] == 'x' || tail[0] == 'X'))
    ensures ParseIntBody(d + tail) == Some(DigitsValue(d) as int)
  {
    var x := d + tail;
    assert !HexMarker(x) by {
      if |d| > 1 {
        assert x[1] == d[1];
      } else if |tail| > 0 {
        assert x[0] == d[0] && x[1] == tail[0];
      }
    }
    ParseIntDigitsLeading(d, tail);
  }

  /** Digits followed by anything but a digit, unless they are the `0` of a `0x`/`0X` marker:
      `parseInt` reads the digits in base ten. */
  lemma ParseIntLeading(d: string, tail: string)
    requires |d| > 0 && AllDigits(d) && (|tail| == 0 || !IsDigit(tail[0]))
    requires !(d == "0" && |tail| > 0 && (tail[0] == 'x' || tail[0] == 'X'))
    ensures ParseIntPrefix(d + tail) == Some(DigitsValue(d) as int)
  {
    var x := d + tail;
    assert ParseIntBody(x) == Some(DigitsValue(d) as int) by { ParseIntBodyLeading(d, tail); }
    assert TrimStart(x) == x by { TrimStartKeeps(x); }
    assert ParseIntSigned(x) == ParseIntBody(x);
  }

  /** Text starting with a digit has no blank or sign for `parseInt` to skip. */
  lemma ParseIntUnsigned(s: string)
    requires |s| > 0 && IsDigit(s[0])
    ensures ParseIntPrefix(s) == ParseIntBody(s)
  {
    TrimStartKeeps(s);
  }

  /** After the marker `0x` or `0X` the rest is read in base 16. */
  lemma ParseIntBodyHex(x: char, b: string)
    requires x == 'x' || x == 'X'
    ensures ParseIntBody(['0', x] + b) == ParseHexDigits(b)
  {
    assert (['0', x] + b)[2..] == b;
  }

  /** After `0x` or `0X`, `parseInt` reads the leading hexadecimal digits in base 16, whatever
      follows that is not a hexadecimal digit; with no such digit the result is `NaN`. */
  lemma ParseIntHex(x: char, h: string, tail: string)
    requires x == 'x' || x == 'X'
    requires AllHexDigits(h) && (|tail| == 0 || !IsHexDigit(tail[0]))
    ensures ParseIntPrefix(['0', x] + (h + tail)) == (if |h| == 0 then None else Some(HexValue(h) as int))
  {
    ParseIntUnsigned(['0', x] + (h + tail));
    ParseIntBodyHex(x, h + tail);
    ParseHexDigitsLeading(h, tail);
  }

  /** Text that does not start with a blank is kept by `TrimStart`. */
  lemma TrimStartKeeps(s: string)
    requires |s| > 0 && IsDigit(s[0])
    ensures TrimStart(s) == s
  {
    assert !IsSpace(s[0]);
  }

  /** After a minus sign a number that `parseInt` reads is read negated, in either radix. */
  lemma ParseIntNegated(m: string, x: string)
    requires |m| > 0 && m[0] == '-' && m[1..] == x
    requires ParseIntBody(x).Some?
    ensures ParseIntPrefix(m) == Some(0 - ParseIntBody(x).value)
  {
    assert TrimStart(m) == m;
  }

  /** Hexadecimal text as `parseInt` reads it: `0x1A` is 26, `-0x1A` is -26, and `0x` alone
      is `NaN`. */
  lemma ParseIntHexExamples()
    ensures ParseIntPrefix("0x1A") == Some(26)
    ensures ParseIntPrefix("-0x1A") == Some(-26)
    ensures ParseIntPrefix("0x") == None
  {
    assert HexValue("1A") == 26 by {
      assert "1A"[..1] == "1";
      assert "1"[..0] == "";
    }
    assert "0x1A" == ['0', 'x'] + ("1A" + "");
    ParseIntHex('x', "1A", "");
    assert "0x" == ['0', 'x'] + ("" + "");
    ParseIntHex('x', "", "");
    var m := "-0x1A";
    assert m[1..] == ['0', 'x'] + ("1A" + "");
    ParseIntBodyHex('x', "1A" + "");
    ParseHexDigitsLeading("1A", "");
    ParseIntNegated(m, m[1..]);
  }

  /** The value of `x.toFixed(2)` read back as a number: `x` rounded half up to whole cents. */
  function RoundCents(x: real): (r: real)
    ensures x - 0.005 < r <= x + 0.005
  {
    (x * 100.0 + 0.5).Floor as real / 100.0
  }

  /** Rounding to the cent keeps the order of its arguments. */
  lemma RoundCentsMonotone(x: real, y: real)
    requires x <= y
    ensures RoundCents(x) <= RoundCents(y)
  {
    assert (x * 100.0 + 0.5).Floor <= (y * 100.0 + 0.5).Floor;
  }

  /** `RoundCents` yields a whole number of cents: rounding its result again changes nothing. */
  lemma RoundCentsIdempotent(x: real)
    ensures RoundCents(RoundCents(x)) == RoundCents(x)
  {
    RoundCentsExact((x * 100.0 + 0.5).Floor);
  }

  /** The difference of two amounts rounded to the cent is itself a whole number of cents. */
  lemma RoundCentsDifference(x: real, y: real)
    requires RoundCents(x) == x && RoundCents(y) == y
    ensures RoundCents(x - y) == x - y
  {
    var kx, ky := (x * 100.0 + 0.5).Floor, (y * 100.0 + 0.5).Floor;
    assert x - y == (kx - ky) as real / 100.0;
    RoundCentsExact(kx - ky);
  }

  /** A whole number of cents is kept by `RoundCents`. */
  lemma RoundCentsExact(k: int)
    ensures RoundCents(k as real / 100.0) == k as real / 100.0
  {
    var x := k as real / 100.0;
    assert x * 100.0 + 0.5 == k as real + 0.5;
    assert (k as real + 0.5).Floor == k;
  }
}
