/** Decimal integer text as Go's `strconv.Atoi` reads it and as the `%d`
    verb of `fmt.Sprintf` writes it, for a 64-bit `int`. */
module Strconv {
  import opened Common

  const MaxInt64: int := 0x7fff_ffff_ffff_ffff
  const MinInt64: int := -0x8000_0000_0000_0000

  predicate IsDigit(c: char)
  {
    '0' <= c <= '9'
  }

  predicate AllDigits(s: string)
  {
    forall i :: 0 <= i < |s| ==> IsDigit(s[i])
  }

  /** The number a string of decimal digits denotes, most significant first. */
  function DigitsValue(s: string): nat
    requires AllDigits(s)
  {
    if s == [] then 0 else DigitsValue(s[..|s| - 1]) * 10 + (s[|s| - 1] as int - '0' as int)
  }

  /** `strconv.Atoi`: an optional sign and at least one decimal digit, with
      no other character, and a value that fits in 64 bits. Any other input
      is an error (None). */
  function Atoi(s: string): (r: Option<int>)
    ensures r.Some? ==> MinInt64 <= r.value <= MaxInt64
    ensures r.Some? ==> s != [] && (IsDigit(s[0]) || s[0] == '+' || s[0] == '-')
  {
    var signed := |s| > 0 && (s[0] == '+' || s[0] == '-');
    var digits := if signed then s[1..] else s;
    if digits == [] || !AllDigits(digits) then None
    else
      var v: int := if signed && s[0] == '-' then -(DigitsValue(digits) as int) else DigitsValue(digits) as int;
      if MinInt64 <= v <= MaxInt64 then Some(v) else None
  }

  /** The decimal digits of a natural number, without leading zeros. */
  function NatToDecimal(n: nat): (s: string)
    ensures s != [] && AllDigits(s)
    ensures DigitsValue(s) == n
    ensures |s| > 1 ==> s[0] != '0'
  {
    var last := ['0' + (n % 10) as char];
    if n < 10 then last
    else
      var front := NatToDecimal(n / 10);
      var s := front + last;
      assert s[..|s| - 1] == front;
      s
  }

  /** Go's `%d` of an int. */
  function IntToDecimal(n: int): (s: string)
    ensures s != []
  {
    if n < 0 then "-" + NatToDecimal(-n) else NatToDecimal(n)
  }

  /** Reading back what `%d` wrote gives the same number. */
  lemma IntToDecimalRoundTrip(n: int)
    requires MinInt64 <= n <= MaxInt64
    ensures Atoi(IntToDecimal(n)) == Some(n)
  {
    if n < 0 {
      var d := NatToDecimal(-n);
      assert ("-" + d)[1..] == d;
    }
  }
}
