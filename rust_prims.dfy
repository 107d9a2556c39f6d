/** Rust primitives the dashboard relies on: the `u16` coordinates of the
    terminal, the bounds of `i32`, and `str::parse::<i32>` as Rust's core
    library defines it (`FromStr for i32`). */
module RustPrims {

  /** Rust's `u16`: terminal coordinates and sizes. */
  type U16 = x: int | 0 <= x <= 0xFFFF

  const U16_MAX: int := 0xFFFF
  const I32_MIN: int := -0x8000_0000
  const I32_MAX: int := 0x7FFF_FFFF

  datatype Option<T> = None | Some(value: T)

  predicate IsDigit(c: char) {
    '0' <= c <= '9'
  }

  predicate AllDigits(s: string) {
    forall k :: 0 <= k < |s| ==> IsDigit(s[k])
  }

  function DigitValue(c: char): (d: nat)
    requires IsDigit(c)
    ensures d < 10
  {
    c as int - '0' as int
  }

  function DigitChar(d: nat): (c: char)
    requires d < 10
    ensures IsDigit(c) && DigitValue(c) == d
  {
    ('0' as int + d) as char
  }

  /** The value of a string of decimal digits, most significant first. */
  function DigitsValue(s: string): nat
    requires AllDigits(s)
  {
    if |s| == 0 then 0 else DigitsValue(s[..|s| - 1]) * 10 + DigitValue(s[|s| - 1])
  }

  /** `s.parse::<i32>()`: an optional single `+` or `-`, then one or more ASCII
      decimal digits and nothing else (no whitespace), and the value must lie
      in the range of `i32`; anything else is an error (`None`). */
  function ParseI32(s: string): (r: Option<int>)
    ensures r.Some? ==> I32_MIN <= r.value <= I32_MAX
    ensures r.Some? ==> |s| > 0 && IsDigit(s[|s| - 1])
    ensures r.Some? ==> IsDigit(s[0]) || s[0] == '+' || s[0] == '-'
    ensures r.Some? ==> forall k :: 1 <= k < |s| ==> IsDigit(s[k])
  {
    if |s| == 0 || s == "+" || s == "-" then None
    else
      var digits := if s[0] == '+' || s[0] == '-' then s[1..] else s;
      if !AllDigits(digits) then None
      else
        var magnitude: int := DigitsValue(digits);
        var v := if s[0] == '-' then -magnitude else magnitude;
        if I32_MIN <= v <= I32_MAX then Some(v) else None
  }

  /** `x.unwrap_or(fallback)` applied to `s.parse::<i32>()`. */
  function ParseI32Or(s: string, fallback: int): int {
    match ParseI32(s)
    case Some(v) => v
    case None => fallback
  }

  /** Decimal rendering of a natural number, without leading zeros. */
  function FormatNat(n: nat): string
    decreases n
  {
    if n < 10 then [DigitChar(n)] else FormatNat(n / 10) + [DigitChar(n % 10)]
  }

  /** Decimal rendering of an integer, as Rust's `Display for i32` writes it. */
  function FormatI32(n: int): string {
    if n < 0 then "-" + FormatNat(-n) else FormatNat(n)
  }

  lemma {:induction false} FormatNatDigits(n: nat)
    ensures |FormatNat(n)| > 0 && AllDigits(FormatNat(n))
    ensures DigitsValue(FormatNat(n)) == n
    decreases n
  {
    if n >= 10 {
      FormatNatDigits(n / 10);
      var s := FormatNat(n);
      assert s[..|s| - 1] == FormatNat(n / 10);
    }
  }

  /** Parsing is the inverse of rendering on the whole range of `i32`. */
  lemma ParseFormatI32(n: int)
    requires I32_MIN <= n <= I32_MAX
    ensures ParseI32(FormatI32(n)) == Some(n)
  {
    var s := FormatI32(n);
    if n < 0 {
      FormatNatDigits(-n);
      assert s[1..] == FormatNat(-n);
    } else {
      FormatNatDigits(n);
    }
  }

  /** Conversely, one or more digits, with or without a sign in front, parse
      to their value whenever it lies in `i32` (leading zeros are allowed). */
  lemma ParseAcceptsDigits(digits: string)
    requires |digits| > 0 && AllDigits(digits)
    ensures DigitsValue(digits) <= I32_MAX ==> ParseI32(digits) == Some(DigitsValue(digits))
    ensures DigitsValue(digits) <= I32_MAX ==> ParseI32("+" + digits) == Some(DigitsValue(digits))
    ensures DigitsValue(digits) <= -I32_MIN ==> ParseI32("-" + digits) == Some(0 - DigitsValue(digits) as int)
  {
    assert ("+" + digits)[1..] == digits;
    assert ("-" + digits)[1..] == digits;
  }

  /** Digits whose value lies outside `i32`, bare or after a sign, do not
      parse (Rust's overflow errors). */
  lemma ParseRejectsOverflow(digits: string)
    requires |digits| > 0 && AllDigits(digits)
    ensures DigitsValue(digits) > I32_MAX ==> ParseI32(digits) == None && ParseI32("+" + digits) == None
    ensures DigitsValue(digits) > -I32_MIN ==> ParseI32("-" + digits) == None
  {
    assert ("+" + digits)[1..] == digits;
    assert ("-" + digits)[1..] == digits;
  }

  /** A string that has any character other than a sign in front or digits
      after it (a space, a letter, a decimal point) does not parse. */
  lemma ParseRejectsNonDigit(s: string, k: nat)
    requires 0 < k < |s| && !IsDigit(s[k])
    ensures ParseI32(s) == None
  {
  }

  /** Every parsed value lies in `i32`, so `unwrap_or(0)` never exceeds
      `i32::MAX`; and an unparseable string under `unwrap_or(i32::MAX)` is
      exactly `i32::MAX`. */
  lemma ParseOrFallbackBounds(s: string)
    ensures ParseI32Or(s, 0) <= I32_MAX
    ensures ParseI32(s).None? ==> ParseI32Or(s, I32_MAX) == I32_MAX
  {
  }
}
