/** Base-10 integer text as the dump formats write and read it:
    strconv.FormatInt(x, 10) and strconv.ParseInt(s, 10, 64) of the Go library. */
module Decimal {

  const Int64Min: int := -0x8000_0000_0000_0000
  const Int64Max: int := 0x7fff_ffff_ffff_ffff
  const Uint64Max: int := 0xffff_ffff_ffff_ffff

  predicate InInt64(n: int) {
    Int64Min <= n <= Int64Max
  }

  predicate IsDigit(c: char) {
    '0' <= c <= '9'
  }

  predicate AllDigits(s: string) {
    forall i :: 0 <= i < |s| ==> IsDigit(s[i])
  }

  function DigitChar(d: nat): (c: char)
    requires d < 10
    ensures IsDigit(c)
  {
    (('0' as int) + d) as char
  }

  /** The value of a string of decimal digits (0 for the empty string). */
  function DigitsValue(s: string): nat
    requires AllDigits(s)
  {
    if |s| == 0 then 0
    else DigitsValue(s[..|s| - 1]) * 10 + ((s[|s| - 1] as int) - ('0' as int))
  }

  /** Shortest decimal text of a natural number: never empty, digits only. */
  function FormatNat(n: nat): (s: string)
    ensures |s| > 0 && AllDigits(s)
  {
    if n < 10 then [DigitChar(n)] else FormatNat(n / 10) + [DigitChar(n % 10)]
  }

  /** Reading the text of a natural number back gives the number. */
  lemma {:induction false} FormatNatValue(n: nat)
    ensures DigitsValue(FormatNat(n)) == n
  {
    if n >= 10 {
      FormatNatValue(n / 10);
      var s := FormatNat(n);
      assert s[..|s| - 1] == FormatNat(n / 10);
    }
  }

  /** strconv.FormatInt(n, 10): a minus sign for negative numbers, no sign otherwise. */
  function FormatInt(n: int): (s: string)
    ensures |s| > 0
    ensures s[0] == '-' <==> n < 0
    ensures IsDigit(s[0]) || s[0] == '-'
    ensures AllDigits(s[1..])
  {
    if n < 0 then "-" + FormatNat(-n) else FormatNat(n)
  }

  /** The text of a number holds nothing but digits and a leading minus sign,
      so no separator of the dump formats and no white space. */
  lemma FormatIntAvoids(n: int, c: char)
    requires !IsDigit(c) && c != '-'
    ensures c !in FormatInt(n)
  {
    var s := FormatInt(n);
    forall i | 0 <= i < |s| ensures s[i] != c {
      if i > 0 {
        assert s[i] == s[1..][i - 1];
      }
    }
  }

  /** What strconv.ParseInt hands back: the value, or a syntax error (value 0),
      or a range error together with the clamped value it returns. */
  datatype IntParse = IntOk(value: int) | SyntaxError | RangeError(clamped: int)

  /** The value the Go caller gets when it discards the error. */
  function ValueOf(r: IntParse): int {
    match r
    case IntOk(v) => v
    case SyntaxError => 0
    case RangeError(c) => c
  }

  /** The string with one leading sign character removed, if there is one. */
  function Unsigned(s: string): string {
    if |s| > 0 && (s[0] == '+' || s[0] == '-') then s[1..] else s
  }

  /** The longest prefix of s made of digits. */
  function DigitPrefix(s: string): (p: string)
    ensures AllDigits(p) && p <= s
    ensures |p| < |s| ==> !IsDigit(s[|p|])
  {
    if |s| == 0 || !IsDigit(s[0]) then [] else [s[0]] + DigitPrefix(s[1..])
  }

  /** strconv.ParseInt(s, 10, 64). The digits are scanned left to right and the
      scan gives up with a range error as soon as the magnitude passes the
      uint64 maximum, so an overflowing run of digits followed by junk is a
      range error, not a syntax error. */
  function ParseInt(s: string): (r: IntParse)
    ensures r.IntOk? ==> InInt64(r.value)
    ensures r.IntOk? ==> |s| > 0 && AllDigits(Unsigned(s)) && |Unsigned(s)| > 0
    ensures r.RangeError? ==> r.clamped == Int64Max || r.clamped == Int64Min
    ensures |s| == 0 ==> r == SyntaxError
  {
    var body := Unsigned(s);
    var digits := DigitPrefix(body);
    var negative := |s| > 0 && s[0] == '-';
    if |body| == 0 then SyntaxError
    else if DigitsValue(digits) > Uint64Max then
      RangeError(if negative then Int64Min else Int64Max)
    else if |digits| < |body| then SyntaxError
    else
      var magnitude: int := DigitsValue(digits);
      var n := if negative then -magnitude else magnitude;
      if n > Int64Max then RangeError(Int64Max)
      else if n < Int64Min then RangeError(Int64Min)
      else IntOk(n)
  }

  lemma {:induction false} DigitPrefixOfDigits(s: string)
    requires AllDigits(s)
    ensures DigitPrefix(s) == s
  {
    if |s| > 0 {
      DigitPrefixOfDigits(s[1..]);
    }
  }

  /** Every int64 value survives FormatInt followed by ParseInt. */
  lemma ParseFormat(n: int)
    requires InInt64(n)
    ensures ParseInt(FormatInt(n)) == IntOk(n)
  {
    var magnitude: nat := if n < 0 then -n else n;
    var s := FormatInt(n);
    var digits := FormatNat(magnitude);
    FormatNatValue(magnitude);
    assert Unsigned(s) == digits;
    DigitPrefixOfDigits(digits);
  }
}
