/** Machine integer ranges and decimal text, as the Rust standard library
    provides them to the interpreter: `i64`, `usize`, the `Display` of an
    unsigned number and `str::parse::<i64>`. */
module Decimal {
  import opened Wrappers

  const I64_MIN: int := -0x8000_0000_0000_0000
  const I64_MAX: int := 0x7FFF_FFFF_FFFF_FFFF
  const USIZE_MAX: int := 0xFFFF_FFFF_FFFF_FFFF

  type i64 = x: int | -0x8000_0000_0000_0000 <= x <= 0x7FFF_FFFF_FFFF_FFFF
  type i32 = x: int | -0x8000_0000 <= x <= 0x7FFF_FFFF
  type usize = x: int | 0 <= x <= 0xFFFF_FFFF_FFFF_FFFF

  predicate IsDigit(c: char) {
    '0' <= c <= '9'
  }

  predicate AllDigits(s: string) {
    forall i :: 0 <= i < |s| ==> IsDigit(s[i])
  }

  function DigitChar(d: nat): (c: char)
    requires d < 10
    ensures IsDigit(c)
  {
    (('0' as int) + d) as char
  }

  function DigitValue(c: char): (d: nat)
    requires IsDigit(c)
    ensures d < 10 && DigitChar(d) == c
  {
    (c as int) - ('0' as int)
  }

  /** The decimal rendering of `n`, most significant digit first, without
      leading zeros (`Display` for unsigned integers). */
  function NatToString(n: nat): (s: string)
    ensures |s| >= 1 && AllDigits(s)
    ensures |s| > 1 ==> s[0] != '0'
    decreases n
  {
    if n < 10 then [DigitChar(n)] else NatToString(n / 10) + [DigitChar(n % 10)]
  }

  /** The number a non-empty run of decimal digits denotes. */
  function DigitsValue(s: string): nat
    requires AllDigits(s)
    decreases |s|
  {
    if s == [] then 0 else DigitsValue(s[..|s| - 1]) * 10 + DigitValue(s[|s| - 1])
  }

  /** Reading back a rendered number gives the number. */
  lemma {:induction false} DigitsValueOfNatToString(n: nat)
    ensures DigitsValue(NatToString(n)) == n
    decreases n
  {
    var s := NatToString(n);
    if n >= 10 {
      DigitsValueOfNatToString(n / 10);
      assert s[..|s| - 1] == NatToString(n / 10);
    }
  }

  /** Rendering is injective: two numbers with the same text are equal. */
  lemma NatToStringInjective(m: nat, n: nat)
    requires NatToString(m) == NatToString(n)
    ensures m == n
  {
    DigitsValueOfNatToString(m);
    DigitsValueOfNatToString(n);
  }

  /** `Display` for `i64`: a minus sign, then the magnitude. */
  function I64ToString(v: i64): (s: string)
    ensures |s| >= 1
  {
    if v < 0 then "-" + NatToString(-(v as int)) else NatToString(v)
  }

  /** The error `str::parse::<i64>` returns. Its kind (empty, invalid digit,
      overflow) is not distinguished here. */
  datatype ParseIntError = ParseIntError

  /** The digits after an optional leading sign. */
  function Unsigned(s: string): string {
    if |s| > 0 && (s[0] == '-' || s[0] == '+') then s[1..] else s
  }

  /** `str::parse::<i64>`: an optional `+` or `-`, then one or more ASCII
      digits, whose value must lie in the `i64` range. */
  function ParseI64(s: string): (r: Result<i64, ParseIntError>)
    ensures r.Ok? ==> Unsigned(s) != [] && AllDigits(Unsigned(s))
    ensures r.Ok? && s[0] != '-' ==> r.value == DigitsValue(Unsigned(s))
    ensures r.Ok? && s[0] == '-' ==> r.value == -(DigitsValue(Unsigned(s)) as int)
  {
    var neg := |s| > 0 && s[0] == '-';
    var digits := Unsigned(s);
    if digits == [] || !AllDigits(digits) then Err(ParseIntError)
    else
      var v: int := if neg then -(DigitsValue(digits) as int) else DigitsValue(digits);
      if I64_MIN <= v <= I64_MAX then Ok(v) else Err(ParseIntError)
  }

  /** The value of an optional sign followed by digits. */
  function SignedValue(s: string): int
    requires AllDigits(Unsigned(s))
  {
    if |s| > 0 && s[0] == '-' then -(DigitsValue(Unsigned(s)) as int) else DigitsValue(Unsigned(s))
  }

  /** `str::parse::<i64>` accepts exactly an optional sign followed by one
      or more digits whose signed value is in the `i64` range, leading
      zeros included, and returns that value. */
  lemma ParseI64Complete(s: string)
    ensures ParseI64(s).Ok?
      <==> (Unsigned(s) != [] && AllDigits(Unsigned(s)) && I64_MIN <= SignedValue(s) <= I64_MAX)
    ensures ParseI64(s).Ok? ==> ParseI64(s).value == SignedValue(s)
  {
  }

  /** Leading zeros and a `+` are accepted; a sign alone is not. */
  lemma ParseI64Examples()
    ensures ParseI64("007") == Ok(7)
    ensures ParseI64("+12") == Ok(12)
    ensures ParseI64("-0") == Ok(0)
    ensures ParseI64("-").Err? && ParseI64("").Err?
  {
    assert Unsigned("007") == "007" && "007"[..2] == "00" && "00"[..1] == "0" && "0"[..0] == "";
    assert Unsigned("+12") == "12" && "12"[..1] == "1" && "1"[..0] == "";
    assert Unsigned("-0") == "0" && "0"[..0] == "";
    assert Unsigned("-") == [];
  }

  /** Every `i64` survives rendering and parsing back. */
  lemma ParseI64OfI64ToString(v: i64)
    ensures ParseI64(I64ToString(v)) == Ok(v)
  {
    var s := I64ToString(v);
    if v < 0 {
      assert Unsigned(s) == NatToString(-(v as int));
      DigitsValueOfNatToString(-(v as int));
    } else {
      assert Unsigned(s) == NatToString(v);
      DigitsValueOfNatToString(v);
    }
  }
}
