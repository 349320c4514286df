/** The slice of JavaScript value semantics the backend handlers depend on:
    optional request fields and their truthiness, JSON values and their
    `.length`, `String(n)` for integers and the global `parseInt`. */
module Js {

  datatype Option<T> = None | Some(value: T)

  /** A request-body or query field holding a string, or absent. In JavaScript
      both `undefined` and `""` are falsy, every other string is truthy. */
  predicate Truthy(field: Option<string>) {
    field.Some? && field.value != ""
  }

  /** `field || fallback` for a string field: an absent or empty field gives
      the fallback. */
  function OrElse(field: Option<string>, fallback: string): string {
    if Truthy(field) then field.value else fallback
  }

  /** A parsed JSON document. Numbers are restricted to integers. */
  datatype Json =
    | JNull
    | JBool(b: bool)
    | JNum(n: int)
    | JStr(s: string)
    | JArr(items: seq<Json>)
    | JObj(members: map<string, Json>)

  /** What reading `.length` of a JSON value gives: reading it on `null`
      throws a TypeError, booleans, numbers and objects have none. */
  datatype Length = Throws | Undefined | Len(n: nat)

  function LengthOf(v: Json): Length {
    match v
    case JNull => Throws
    case JStr(s) => Len(|s|)
    case JArr(items) => Len(|items|)
    case _ => Undefined
  }

  // ---------------------------------------------------------------------
  // String(n) for an integer n: plain decimal below 10^21 in magnitude,
  // exponent form ("1e+21", "1.5e+22") from there on.
  // ---------------------------------------------------------------------

  /** 10^k. */
  function Pow10(k: nat): (p: nat)
    ensures p >= 1
  {
    if k == 0 then 1 else 10 * Pow10(k - 1)
  }

  /** The magnitude from which `String` switches to exponent form: 10^21. */
  const ExponentThreshold: nat := Pow10(21)

  function DigitChar(d: nat): (c: char)
    requires d < 10
    ensures '0' <= c <= '9' && DigitValue(c) == d
  {
    "0123456789"[d]
  }

  /** The plain decimal digits of `n`, most significant first. */
  function NatToString(n: nat): (s: string)
    ensures |s| >= 1
    decreases n
  {
    if n < 10 then [DigitChar(n)] else NatToString(n / 10) + [DigitChar(n % 10)]
  }

  /** `n` with its trailing decimal zeros removed. */
  function StripTrailingZeros(n: nat): (m: nat)
    requires n > 0
    ensures m > 0 && m % 10 != 0
    decreases n
  {
    if n % 10 == 0 then StripTrailingZeros(n / 10) else n
  }

  /** Exponent form of a positive integer: the first significant digit, then
      a point and the other significant digits when there are any, then `e+`
      and the decimal exponent. */
  function ExponentForm(n: nat): string
    requires n > 0
  {
    var mantissa := NatToString(StripTrailingZeros(n));
    [mantissa[0]] + (if |mantissa| > 1 then "." + mantissa[1..] else "")
    + "e+" + NatToString(|NatToString(n)| - 1)
  }

  function NatToJsString(n: nat): string {
    if n < ExponentThreshold then NatToString(n) else ExponentForm(n)
  }

  function IntToString(n: int): string {
    if n < 0 then "-" + NatToJsString(-n) else NatToJsString(n)
  }

  /** The most significant decimal digit of `n`. */
  function LeadingDigit(n: nat): (d: nat)
    ensures d < 10
    ensures n > 0 ==> d > 0
  {
    if n < 10 then n else LeadingDigit(n / 10)
  }

  // ---------------------------------------------------------------------
  // parseInt(s) with no radix argument.
  // ---------------------------------------------------------------------

  /** The result of parseInt: an integer, or NaN when no digit was found. */
  datatype Parsed = Num(value: int) | NaN

  /** The white space and line terminators parseInt skips at the start. */
  predicate IsWhitespace(c: char) {
    c == ' ' || c == '\t' || c == '\n' || c == '\r' || c == '\U{B}' || c == '\U{C}'
    || c == '\U{A0}' || c == '\U{FEFF}' || c == '\U{2028}' || c == '\U{2029}'
  }

  function TrimStart(s: string): string {
    if s != [] && IsWhitespace(s[0]) then TrimStart(s[1..]) else s
  }

  /** The value of a digit in radix 36; 36 for a character that is no digit. */
  function DigitValue(c: char): nat {
    if '0' <= c <= '9' then (c - '0') as nat
    else if 'a' <= c <= 'z' then (c - 'a') as nat + 10
    else if 'A' <= c <= 'Z' then (c - 'A') as nat + 10
    else 36
  }

  /** The longest prefix of `s` made of digits of the given radix. */
  function DigitPrefix(s: string, radix: nat): (ds: string)
    ensures |ds| <= |s| && ds == s[..|ds|]
    ensures forall i :: 0 <= i < |ds| ==> DigitValue(ds[i]) < radix
    ensures |ds| < |s| ==> DigitValue(s[|ds|]) >= radix
  {
    if s != [] && DigitValue(s[0]) < radix then [s[0]] + DigitPrefix(s[1..], radix) else []
  }

  /** The value of a digit string, most significant digit first. */
  function DigitsValue(ds: string, radix: nat): nat {
    if ds == [] then 0
    else DigitsValue(ds[..|ds| - 1], radix) * radix + DigitValue(ds[|ds| - 1])
  }

  /** parseInt(s): skip leading white space, read an optional sign, then the
      longest run of digits, in radix 16 after a `0x`/`0X` prefix and in
      radix 10 otherwise. */
  function ParseInt(s: string): Parsed {
    ParseSigned(TrimStart(s))
  }

  function ParseSigned(t: string): Parsed {
    if t != [] && t[0] == '-' then Negate(ParseRadix(t[1..]))
    else if t != [] && t[0] == '+' then ParseRadix(t[1..])
    else ParseRadix(t)
  }

  function Negate(p: Parsed): Parsed {
    match p
    case Num(v) => Num(-v)
    case NaN => NaN
  }

  function ParseRadix(u: string): Parsed {
    if |u| >= 2 && u[0] == '0' && (u[1] == 'x' || u[1] == 'X') then ParseDigits(u[2..], 16)
    else ParseDigits(u, 10)
  }

  function ParseDigits(w: string, radix: nat): Parsed {
    var ds := DigitPrefix(w, radix);
    if ds == [] then NaN else Num(DigitsValue(ds, radix))
  }

  // ---------------------------------------------------------------------
  // Round trip: parseInt(String(n)) === n below 10^21 in magnitude; from
  // there on parseInt stops at the point or the `e` of the exponent form
  // and reads the leading digit only.
  // ---------------------------------------------------------------------

  lemma {:induction false} NatToStringDigits(n: nat)
    ensures forall i :: 0 <= i < |NatToString(n)| ==> '0' <= NatToString(n)[i] <= '9'
    ensures n >= 1 ==> NatToString(n)[0] != '0'
    decreases n
  {
    if n >= 10 {
      NatToStringDigits(n / 10);
      assert NatToString(n)[0] == NatToString(n / 10)[0];
    }
  }

  lemma {:induction false} NatToStringValue(n: nat)
    ensures DigitsValue(NatToString(n), 10) == n
    decreases n
  {
    var s := NatToString(n);
    if n >= 10 {
      NatToStringValue(n / 10);
      assert s[..|s| - 1] == NatToString(n / 10);
    }
  }

  /** The first character `NatToString` writes is the leading digit. */
  lemma {:induction false} NatToStringLeading(n: nat)
    ensures DigitValue(NatToString(n)[0]) == LeadingDigit(n)
    decreases n
  {
    if n >= 10 {
      NatToStringLeading(n / 10);
      assert NatToString(n)[0] == NatToString(n / 10)[0];
    }
  }

  /** Removing trailing zeros keeps the leading digit. */
  lemma {:induction false} StripTrailingZerosLeading(n: nat)
    requires n > 0
    ensures LeadingDigit(StripTrailingZeros(n)) == LeadingDigit(n)
    decreases n
  {
    if n % 10 == 0 {
      StripTrailingZerosLeading(n / 10);
    }
  }

  lemma {:induction false} DigitPrefixOfDigits(s: string)
    requires forall i :: 0 <= i < |s| ==> '0' <= s[i] <= '9'
    ensures DigitPrefix(s, 10) == s
    decreases |s|
  {
    if s != [] {
      DigitPrefixOfDigits(s[1..]);
    }
  }

  /** parseInt reads back the digits `NatToString` writes. */
  lemma ParseRadixOfNatToString(m: nat)
    ensures ParseRadix(NatToString(m)) == Num(m)
  {
    var digits := NatToString(m);
    NatToStringDigits(m);
    NatToStringValue(m);
    DigitPrefixOfDigits(digits);
    assert !(|digits| >= 2 && digits[0] == '0');
  }

  /** parseInt reads the exponent form up to its first non-digit, which
      directly follows the leading digit. */
  lemma ParseRadixOfExponentForm(m: nat)
    requires m > 0
    ensures ParseRadix(ExponentForm(m)) == Num(LeadingDigit(m))
  {
    var s := ExponentForm(m);
    var stripped := StripTrailingZeros(m);
    NatToStringDigits(stripped);
    NatToStringLeading(stripped);
    StripTrailingZerosLeading(m);
    assert s[1] == '.' || s[1] == 'e';
    assert DigitPrefix(s[1..], 10) == [];
    assert s[0] == NatToString(stripped)[0];
    assert DigitPrefix(s, 10) == [s[0]];
    assert [s[0]][..0] == [];
    assert DigitsValue([s[0]], 10) == DigitValue(s[0]);
    assert ParseDigits(s, 10) == Num(LeadingDigit(m));
  }

  lemma {:induction false} LeadingDigitPow10(k: nat)
    ensures LeadingDigit(Pow10(k)) == 1
  {
    if k > 0 {
      LeadingDigitPow10(k - 1);
      assert Pow10(k) / 10 == Pow10(k - 1);
    }
  }

  /** 10^k grows at least as fast as 10 * k. */
  lemma {:induction false} Pow10Bound(k: nat)
    ensures Pow10(k) >= 10 * k
  {
    if k > 0 {
      Pow10Bound(k - 1);
    }
  }

  /** 10^21, the first integer written in exponent form ("1e+21"), has
      leading digit 1. */
  lemma ThresholdLeadingDigit()
    ensures LeadingDigit(ExponentThreshold) == 1
  {
    LeadingDigitPow10(21);
  }

  /** The first character of `String(m)` for m >= 0 is a digit. */
  lemma NatToJsStringStart(m: nat)
    ensures |NatToJsString(m)| >= 1 && '0' <= NatToJsString(m)[0] <= '9'
  {
    NatToStringDigits(m);
    if m >= ExponentThreshold {
      NatToStringDigits(StripTrailingZeros(m));
    }
  }

  lemma ParseIntOfIntToString(n: int)
    ensures var m := if n < 0 then -n else n;
            ParseInt(IntToString(n)) ==
              if m < ExponentThreshold then Num(n)
              else var d: int := LeadingDigit(m); Num(if n < 0 then -d else d)
  {
    var s := IntToString(n);
    var m: nat := if n < 0 then -n else n;
    NatToJsStringStart(m);
    if m < ExponentThreshold {
      ParseRadixOfNatToString(m);
    } else {
      ParseRadixOfExponentForm(m);
    }
    assert !IsWhitespace(s[0]);
    assert TrimStart(s) == s;
    if n < 0 {
      assert s[1..] == NatToJsString(m);
    }
  }
}
