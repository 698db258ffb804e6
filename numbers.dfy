/** The number-to-text and text-to-number conversions the scripts rely on:
    `String(n)` for whole numbers, `padStart(2, '0')`, and readings of
    text in the manner of `parseFloat`, `parseInt` (decimal or `0x` hexadecimal)
    and `Number`.  NaN is `None`. */
module Numbers {
  import opened Common

  predicate IsDigit(c: char) {
    '0' <= c <= '9'
  }

  predicate AllDigits(s: string) {
    forall i :: 0 <= i < |s| ==> IsDigit(s[i])
  }

  function DigitValue(c: char): (d: nat)
    requires IsDigit(c)
    ensures d < 10
  {
    (c as int - '0' as int) as nat
  }

  function DigitChar(d: nat): (c: char)
    requires d < 10
    ensures IsDigit(c) && DigitValue(c) == d
  {
    ('0' as int + d) as char
  }

  /** `String(n)` for a whole number: decimal digits, no leading zero. */
  function NatToString(n: nat): (s: string)
    ensures 1 <= |s| && AllDigits(s)
    ensures s[0] == '0' <==> n == 0
    ensures |s| == 1 <==> n < 10
  {
    if n < 10 then [DigitChar(n)] else NatToString(n / 10) + [DigitChar(n % 10)]
  }

  /** The value of a run of decimal digits. */
  function DigitsValue(s: string): nat
    requires AllDigits(s)
  {
    if s == [] then 0 else DigitsValue(s[..|s| - 1]) * 10 + DigitValue(s[|s| - 1])
  }

  /** The value of the digits after a decimal point. */
  function FracValue(s: string): (r: real)
    requires AllDigits(s)
    ensures 0.0 <= r < 1.0
  {
    if s == [] then 0.0 else (DigitValue(s[0]) as real + FracValue(s[1..])) / 10.0
  }

  /** `String(n).padStart(2, '0')` */
  function PadStart2(s: string): (r: string)
    ensures |r| == if |s| < 2 then 2 else |s|
    ensures r[|r| - |s|..] == s
    ensures forall i :: 0 <= i < |r| - |s| ==> r[i] == '0'
  {
    if |s| < 2 then Repeat('0', 2 - |s|) + s else s
  }

  /** The two-digit, zero-padded rendering of a month or day number. */
  function TwoDigits(n: nat): string {
    PadStart2(NatToString(n))
  }

  /** The white space `trim`, `parseFloat`, `parseInt` and `Number` skip: the
      WhiteSpace and LineTerminator characters of ECMAScript (tab, vertical tab,
      form feed, space, no-break space, the byte-order mark, the other space
      separators U+1680, U+2000 to U+200A, U+202F, U+205F and U+3000, line feed,
      carriage return, and U+2028 and U+2029). */
  predicate IsSpace(c: char) {
    c == ' ' || c == '\t' || c == '\n' || c == '\r' || c == '\U{B}' || c == '\U{C}'
    || c == '\U{A0}' || c == '\U{FEFF}' || c == '\U{1680}' || '\U{2000}' <= c <= '\U{200A}'
    || c == '\U{2028}' || c == '\U{2029}' || c == '\U{202F}' || c == '\U{205F}' || c == '\U{3000}'
  }

  /** `s.trimStart()` */
  function TrimStart(s: string): (r: string)
    ensures |r| <= |s| && r == s[|s| - |r|..]
    ensures r == [] || !IsSpace(r[0])
  {
    if s != [] && IsSpace(s[0]) then TrimStart(s[1..]) else s
  }

  /** `s.trimEnd()` */
  function TrimEnd(s: string): (r: string)
    ensures |r| <= |s| && r == s[..|r|]
    ensures r == [] || !IsSpace(r[|r| - 1])
  {
    if s != [] && IsSpace(s[|s| - 1]) then TrimEnd(s[..|s| - 1]) else s
  }

  /** The length of the run of digits that `s` starts with. */
  function DigitRun(s: string): (n: nat)
    ensures n <= |s| && AllDigits(s[..n])
    ensures n < |s| ==> !IsDigit(s[n])
  {
    if s == [] || !IsDigit(s[0]) then 0
    else
      var n := 1 + DigitRun(s[1..]);
      assert s[..n] == [s[0]] + s[1..][..n - 1];
      n
  }

  /** The longest decimal literal `[sign] digits [. digits]` that `t` starts with:
      its value and the number of characters it spans, or `None` when `t` does
      not start with one. */
  function ScanDecimal(t: string): (r: Option<(real, nat)>)
    ensures r.Some? ==> r.value.1 <= |t|
  {
    var k := if t != [] && (t[0] == '-' || t[0] == '+') then 1 else 0;
    var sign := if k == 1 && t[0] == '-' then -1.0 else 1.0;
    var body := t[k..];
    var n := DigitRun(body);
    var whole := DigitsValue(body[..n]) as real;
    var rest := body[n..];
    if rest != [] && rest[0] == '.' then
      var m := DigitRun(rest[1..]);
      if n == 0 && m == 0 then None
      else Some((sign * (whole + FracValue(rest[1..][..m])), k + n + 1 + m))
    else if n == 0 then None
    else Some((sign * whole, k + n))
  }

  /** `parseFloat(s)`: the longest decimal prefix after leading white space. */
  function ParseFloat(s: string): Option<real> {
    match ScanDecimal(TrimStart(s))
    case None => None
    case Some((v, _)) => Some(v)
  }

  /** `Number(s)`: the whole trimmed text must be a decimal literal; blank text is 0. */
  function ToNumber(s: string): Option<real> {
    var t := TrimEnd(TrimStart(s));
    if t == [] then Some(0.0)
    else match ScanDecimal(t)
      case Some((v, len)) => if len == |t| then Some(v) else None
      case None => None
  }

  predicate IsHexDigit(c: char) {
    IsDigit(c) || 'a' <= c <= 'f' || 'A' <= c <= 'F'
  }

  predicate AllHexDigits(s: string) {
    forall i :: 0 <= i < |s| ==> IsHexDigit(s[i])
  }

  function HexDigitValue(c: char): (d: nat)
    requires IsHexDigit(c)
    ensures d < 16
    ensures IsDigit(c) ==> d == DigitValue(c)
  {
    if IsDigit(c) then DigitValue(c)
    else if 'a' <= c <= 'f' then (c as int - 'a' as int + 10) as nat
    else (c as int - 'A' as int + 10) as nat
  }

  /** The value of a run of hexadecimal digits. */
  function HexDigitsValue(s: string): nat
    requires AllHexDigits(s)
  {
    if s == [] then 0 else HexDigitsValue(s[..|s| - 1]) * 16 + HexDigitValue(s[|s| - 1])
  }

  /** The length of the run of hexadecimal digits that `s` starts with. */
  function HexRun(s: string): (n: nat)
    ensures n <= |s| && AllHexDigits(s[..n])
    ensures n < |s| ==> !IsHexDigit(s[n])
  {
    if s == [] || !IsHexDigit(s[0]) then 0
    else
      var n := 1 + HexRun(s[1..]);
      assert s[..n] == [s[0]] + s[1..][..n - 1];
      n
  }

  predicate HasHexPrefix(s: string) {
    |s| >= 2 && s[0] == '0' && (s[1] == 'x' || s[1] == 'X')
  }

  /** The unsigned part of `parseInt`: a `0x` or `0X` prefix selects base 16,
      and the value is that of the longest run of digits of the base that
      follows; NaN when that run is empty. */
  function ParseUnsigned(body: string): Option<nat> {
    if HasHexPrefix(body) then
      var n := HexRun(body[2..]);
      if n == 0 then None else Some(HexDigitsValue(body[2..][..n]))
    else
      var n := DigitRun(body);
      if n == 0 then None else Some(DigitsValue(body[..n]))
  }

  /** `parseInt(s)` without a radix: white space, then a signed number. */
  function ParseInt(s: string): Option<int> {
    ParseSigned(TrimStart(s))
  }

  /** An optional sign, then the unsigned part, decimal or `0x` hexadecimal. */
  function ParseSigned(t: string): Option<int> {
    if t != [] && (t[0] == '-' || t[0] == '+') then ApplySign(t[0] == '-', ParseUnsigned(t[1..]))
    else ApplySign(false, ParseUnsigned(t))
  }

  function ApplySign(negative: bool, u: Option<nat>): Option<int> {
    match u
    case None => None
    case Some(v) => Some(if negative then -(v as int) else v)
  }

  /** `Math.trunc(x)`, which is what `parseInt` gives for a number's text. */
  function Trunc(x: real): (r: int)
    ensures x >= 0.0 ==> r as real <= x < r as real + 1.0
    ensures x < 0.0 ==> r as real - 1.0 < x <= r as real
  {
    if x >= 0.0 then x.Floor else -((-x).Floor)
  }

  lemma {:induction false} NatToStringValue(n: nat)
    ensures DigitsValue(NatToString(n)) == n
  {
    if n >= 10 {
      var s := NatToString(n);
      assert s[..|s| - 1] == NatToString(n / 10);
      NatToStringValue(n / 10);
    }
  }

  /** Distinct whole numbers have distinct texts. */
  lemma NatToStringInjective(a: nat, b: nat)
    requires NatToString(a) == NatToString(b)
    ensures a == b
  {
    NatToStringValue(a);
    NatToStringValue(b);
  }

  lemma {:induction false} DigitRunAll(s: string)
    requires AllDigits(s)
    ensures DigitRun(s) == |s|
  {
    if s != [] {
      DigitRunAll(s[1..]);
    }
  }

  /** Two-digit padding: a one-digit number gains a leading zero, and the value is kept. */
  lemma TwoDigitsValue(n: nat)
    requires n < 100
    ensures |TwoDigits(n)| == 2 && AllDigits(TwoDigits(n))
    ensures DigitsValue(TwoDigits(n)) == n
  {
    var s := NatToString(n);
    NatToStringValue(n);
    if n < 10 {
      assert TwoDigits(n) == "0" + s;
      assert (TwoDigits(n))[..1] == "0";
    }
  }

  /** A run of digits scans as a whole, with its digits' value. */
  lemma ScanAllDigits(s: string)
    requires s != [] && AllDigits(s)
    ensures ScanDecimal(s) == Some((DigitsValue(s) as real, |s|))
  {
    assert !(s[0] == '-' || s[0] == '+');
    assert s[0..] == s;
    DigitRunAll(s);
    assert s[..|s|] == s;
    assert s[|s|..] == [];
  }

  lemma TrimDigits(s: string)
    requires s != [] && AllDigits(s)
    ensures TrimStart(s) == s && TrimEnd(s) == s
  {
    DigitNotSpace(s[0]);
    DigitNotSpace(s[|s| - 1]);
  }

  lemma DigitNotSpace(c: char)
    requires IsDigit(c)
    ensures !IsSpace(c)
  {
  }

  /** A whole number's text reads back as that number with `parseFloat`, `Number` and `parseInt`. */
  lemma ParseNatToString(n: nat)
    ensures ParseFloat(NatToString(n)) == Some(n as real)
    ensures ToNumber(NatToString(n)) == Some(n as real)
    ensures ParseInt(NatToString(n)) == Some(n)
  {
    var s := NatToString(n);
    TrimDigits(s);
    ScanAllDigits(s);
    NatToStringValue(n);
    ParseIntDigits(s);
  }

  lemma UnsignedDigits(s: string)
    requires s != [] && AllDigits(s)
    ensures ParseUnsigned(s) == Some(DigitsValue(s))
  {
    assert |s| >= 2 ==> IsDigit(s[1]);
    assert !HasHexPrefix(s);
    DigitRunAll(s);
    assert s[..|s|] == s;
  }

  /** Text that, after white space, starts with neither sign reads as its unsigned part. */
  lemma ParseIntUnsigned(s: string)
    requires TrimStart(s) != [] && TrimStart(s)[0] != '-' && TrimStart(s)[0] != '+'
    ensures ParseInt(s) == ApplySign(false, ParseUnsigned(TrimStart(s)))
  {
  }

  lemma ParseIntDigits(s: string)
    requires s != [] && AllDigits(s)
    ensures ParseInt(s) == Some(DigitsValue(s) as int)
  {
    TrimDigits(s);
    UnsignedDigits(s);
    ParseIntUnsigned(s);
  }

  /** `parseFloat` of text that starts with no number is NaN. */
  lemma ParseFloatNaN(s: string)
    requires TrimStart(s) == [] || !(IsDigit(TrimStart(s)[0]) || TrimStart(s)[0] in "+-.")
    ensures ParseFloat(s) == None
  {
    var t := TrimStart(s);
    if t != [] {
      assert t[0..] == t;
    }
  }

  lemma {:induction false} HexRunAll(s: string)
    requires AllHexDigits(s)
    ensures HexRun(s) == |s|
  {
    if s != [] {
      HexRunAll(s[1..]);
    }
  }

  lemma UnsignedHex(digits: string)
    requires AllHexDigits(digits)
    ensures ParseUnsigned("0x" + digits) == if digits == [] then None else Some(HexDigitsValue(digits))
  {
    var b := "0x" + digits;
    assert HasHexPrefix(b);
    assert b[2..] == digits;
    HexRunAll(digits);
    assert digits[..|digits|] == digits;
  }

  lemma TrimStartKeeps(s: string)
    requires s != [] && !IsSpace(s[0])
    ensures TrimStart(s) == s
  {
  }

  /** `0x` followed by hexadecimal digits reads as their base-16 value, and
      `0x` with no digit after it is NaN. */
  lemma ParseIntHex(digits: string)
    requires AllHexDigits(digits)
    ensures ParseInt("0x" + digits) == if digits == [] then None else Some(HexDigitsValue(digits) as int)
  {
    UnsignedHex(digits);
    var s := "0x" + digits;
    TrimStartKeeps(s);
    ParseIntUnsigned(s);
  }

  lemma SignedHex3()
    ensures TrimStart("0x3") == "0x3" && ParseSigned("0x3") == Some(3)
  {
  }

  lemma SignedHex1a()
    ensures TrimStart("0x1a") == "0x1a" && ParseSigned("0x1a") == Some(26)
  {
    HexValue1a();
    assert ParseSigned("0x1a") == ApplySign(false, ParseUnsigned("0x1a"));
  }

  lemma HexValue1a()
    ensures ParseUnsigned("0x1a") == Some(26)
  {
    UnsignedHex("1a");
    assert "0x" + "1a" == "0x1a";
    assert "1a"[..1] == "1";
  }

  lemma SignedHexEmpty()
    ensures TrimStart("0x") == "0x" && ParseSigned("0x") == None
  {
  }

  /** `parseInt` of `0x3` is 3, of `0x1a` is 26, and of `0x` alone NaN. */
  lemma ParseIntHexExamples()
    ensures ParseInt("0x3") == Some(3)
    ensures ParseInt("0x1a") == Some(26)
    ensures ParseInt("0x") == None
  {
    SignedHex3();
    SignedHex1a();
    SignedHexEmpty();
  }

  lemma TrimStartSpace(c: char, t: string)
    requires IsSpace(c)
    ensures TrimStart([c] + t) == TrimStart(t)
  {
    assert ([c] + t)[1..] == t;
  }

  lemma TrimEndSpace(t: string, c: char)
    requires IsSpace(c)
    ensures TrimEnd(t + [c]) == TrimEnd(t)
  {
    assert (t + [c])[..|t|] == t;
  }

  /** A leading white-space character does not change what `parseFloat` and
      `parseInt` read. */
  lemma LeadingSpaceIgnored(c: char, t: string)
    requires IsSpace(c)
    ensures ParseFloat([c] + t) == ParseFloat(t)
    ensures ParseInt([c] + t) == ParseInt(t)
  {
    TrimStartSpace(c, t);
  }

  /** Every ECMAScript white-space character is skipped in front of a number:
      text such as `"\U{3000}5"` reads as 5 with `parseFloat` and `parseInt`. */
  lemma LeadingSpaceSkipped(c: char, n: nat)
    requires IsSpace(c)
    ensures ParseFloat([c] + NatToString(n)) == Some(n as real)
    ensures ParseInt([c] + NatToString(n)) == Some(n)
  {
    LeadingSpaceIgnored(c, NatToString(n));
    ParseNatToString(n);
  }

  /** `Number` trims that white space on both sides. */
  lemma SurroundingSpaceTrimmed(c: char, n: nat)
    requires IsSpace(c)
    ensures ToNumber([c] + NatToString(n) + [c]) == Some(n as real)
  {
    var d := NatToString(n);
    TrimDigits(d);
    assert [c] + d + [c] == [c] + (d + [c]);
    TrimStartSpace(c, d + [c]);
    TrimStartKeeps(d + [c]);
    TrimEndSpace(d, c);
    assert TrimEnd(TrimStart([c] + d + [c])) == TrimEnd(TrimStart(d));
    ParseNatToString(n);
  }
}
