/** The number conversions the consent record relies on, with JavaScript's meaning on integers:
    the global `parseInt(string)` with no radix argument (ECMA-262 section 19.2.5, "parseInt"),
    where `None` stands for `NaN`, and `Number.prototype.toString()` of an integer. */
module JsNumber {
  import opened Common
  import opened JsString

  predicate IsDecimalDigit(c: char) {
    '0' <= c <= '9'
  }

  /** A digit of radix 10 or 16 (letters in either case for 16). */
  predicate IsRadixDigit(c: char, radix: int) {
    if radix == 16 then IsDecimalDigit(c) || 'a' <= c <= 'f' || 'A' <= c <= 'F'
    else IsDecimalDigit(c)
  }

  function DigitValue(c: char): (v: nat)
    ensures IsDecimalDigit(c) ==> v == c as int - '0' as int
    ensures v < 16
  {
    if IsDecimalDigit(c) then c as int - '0' as int
    else if 'a' <= c <= 'f' then c as int - 'a' as int + 10
    else if 'A' <= c <= 'F' then c as int - 'A' as int + 10
    else 0
  }

  /** The length of the longest prefix of `s` made of digits of `radix`. */
  function DigitPrefixLength(s: string, radix: int): (n: nat)
    ensures n <= |s|
    ensures forall i :: 0 <= i < n ==> IsRadixDigit(s[i], radix)
    ensures n < |s| ==> !IsRadixDigit(s[n], radix)
  {
    if s != [] && IsRadixDigit(s[0], radix) then 1 + DigitPrefixLength(s[1..], radix) else 0
  }

  /** The mathematical value of a string of digits read in `radix`, most significant first. */
  function DigitsValue(s: string, radix: nat): nat {
    if s == [] then 0 else DigitsValue(s[..|s| - 1], radix) * radix + DigitValue(s[|s| - 1])
  }

  /** `0x` or `0X` at the start of `u`, which switches `parseInt` to radix 16. */
  predicate HasHexPrefix(u: string) {
    |u| >= 2 && u[0] == '0' && (u[1] == 'x' || u[1] == 'X')
  }

  predicate NoDecimalDigit(s: string) {
    forall i :: 0 <= i < |s| ==> !IsDecimalDigit(s[i])
  }

  /** `parseInt(s)`: skip leading white space, take an optional sign, switch to radix 16 after
      a `0x`/`0X` prefix, and read the longest run of digits; no digit at all gives `NaN`.
      Whatever follows the digits is ignored. A string of white space alone is `NaN`, and a
      negative result comes only from a leading `-` (which in turn never gives a positive one). */
  function ParseInt(s: string): (r: Option<int>)
    ensures TrimStart(s) == [] ==> r == None
    ensures r.Some? && r.value < 0 ==> TrimStart(s)[0] == '-'
    ensures r.Some? && TrimStart(s)[0] == '-' ==> r.value <= 0
  {
    var t := TrimStart(s);
    var negative := |t| > 0 && t[0] == '-';
    var u := if |t| > 0 && (t[0] == '-' || t[0] == '+') then t[1..] else t;
    var hex := HasHexPrefix(u);
    var radix := if hex then 16 else 10;
    var w := if hex then u[2..] else u;
    var n := DigitPrefixLength(w, radix);
    if n == 0 then None
    else
      var v: int := DigitsValue(w[..n], radix);
      Some(if negative then -v else v)
  }

  function DigitChar(d: nat): (c: char)
    requires d < 10
    ensures IsDecimalDigit(c) && DigitValue(c) == d
  {
    ('0' as int + d) as char
  }

  /** The decimal numeral of a natural number, without leading zeros. */
  function NatToString(n: nat): (s: string)
    ensures |s| >= 1
    ensures forall i :: 0 <= i < |s| ==> IsDecimalDigit(s[i])
    ensures |s| > 1 ==> s[0] != '0'
  {
    if n < 10 then [DigitChar(n)] else NatToString(n / 10) + [DigitChar(n % 10)]
  }

  /** `n.toString()` for an integer `n` (as `Date.now().toString()` produces it). */
  function IntToString(n: int): (s: string)
    ensures |s| >= 1
    ensures n >= 0 ==> s == NatToString(n)
    ensures n < 0 ==> s == "-" + NatToString(-n)
  {
    if n < 0 then "-" + NatToString(-n) else NatToString(n)
  }

  /** Reading back the decimal numeral of `n` gives `n`. */
  lemma {:induction false} NatToStringValue(n: nat)
    ensures DigitsValue(NatToString(n), 10) == n
  {
    var s := NatToString(n);
    if n >= 10 {
      NatToStringValue(n / 10);
      assert s[..|s| - 1] == NatToString(n / 10);
    }
  }

  /** Parsing a digit-only string in radix 10 reads the whole string. */
  lemma DecimalPrefixIsWhole(s: string)
    requires forall i :: 0 <= i < |s| ==> IsDecimalDigit(s[i])
    ensures DigitPrefixLength(s, 10) == |s|
  {
    if s != [] {
      DecimalPrefixIsWhole(s[1..]);
    }
  }

  /** The numeral of a natural number, possibly after a sign, is read back by `parseInt`. */
  lemma ParseUnsigned(u: string, n: nat)
    requires u == NatToString(n)
    ensures !HasHexPrefix(u)
    ensures DigitPrefixLength(u, 10) == |u|
    ensures DigitsValue(u[..|u|], 10) == n
  {
    DecimalPrefixIsWhole(u);
    NatToStringValue(n);
    assert u[..|u|] == u;
  }

  /** Round trip of the stored consent time: `parseInt(String(n)) === n` for every integer. */
  lemma ParseIntOfIntToString(n: int)
    ensures ParseInt(IntToString(n)) == Some(n)
  {
    var s := IntToString(n);
    assert !IsWhiteSpace(s[0]);
    assert TrimStart(s) == s;
    if n < 0 {
      assert s[1..] == NatToString(-n);
      ParseUnsigned(s[1..], -n);
    } else {
      ParseUnsigned(s, n);
    }
  }

  /** A string with no decimal digit in it is not a number to `parseInt`. */
  lemma ParseIntWithoutDigits(s: string)
    requires NoDecimalDigit(s)
    ensures ParseInt(s) == None
  {
    var t := TrimStart(s);
    assert NoDecimalDigit(t) by {
      forall i | 0 <= i < |t| ensures !IsDecimalDigit(t[i]) {
        assert t[i] == s[|s| - |t| + i];
      }
    }
    var u := if |t| > 0 && (t[0] == '-' || t[0] == '+') then t[1..] else t;
    assert NoDecimalDigit(u) by {
      forall i | 0 <= i < |u| ensures !IsDecimalDigit(u[i]) {
        assert u[i] == t[|t| - |u| + i];
      }
    }
    assert !HasHexPrefix(u);
    assert DigitPrefixLength(u, 10) == 0;
  }

  /** `Math.ceil(a / b)` for integers and a positive divisor. */
  function CeilDiv(a: int, b: int): (q: int)
    requires b > 0
    ensures (q - 1) * b < a <= q * b
  {
    -((-a) / b)
  }
}
