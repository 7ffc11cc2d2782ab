/** Stack values of the evaluator. The original keeps them as decimal text
    and re-parses them as IEEE doubles; this model keeps exact `real`
    values and recognises numeric literals with a decimal reader. */
module Numbers {
  import opened Outcomes

  predicate IsDigit(c: char) {
    '0' <= c <= '9'
  }

  predicate AllDigits(s: string) {
    forall i :: 0 <= i < |s| ==> IsDigit(s[i])
  }

  /** Index of the first `.` in `s`, or `|s|` when there is none. */
  function DotIndex(s: string): (k: nat)
    ensures k <= |s|
    ensures forall i :: 0 <= i < k ==> s[i] != '.'
    ensures k < |s| ==> s[k] == '.'
  {
    if |s| == 0 then 0
    else if s[0] == '.' then 0
    else 1 + DotIndex(s[1..])
  }

  /** Digits with at most one decimal point and at least one digit:
      `12`, `1.5`, `.5`, `3.`. */
  predicate IsUnsignedLiteral(s: string) {
    var k := DotIndex(s);
    && AllDigits(s[..k])
    && (k < |s| ==> AllDigits(s[k + 1..]))
    && (if k < |s| then |s| > 1 else |s| > 0)
  }

  /** A numeric literal: an optional sign followed by an unsigned literal. */
  predicate IsNumeric(s: string) {
    if |s| > 0 && (s[0] == '-' || s[0] == '+') then IsUnsignedLiteral(s[1..])
    else IsUnsignedLiteral(s)
  }

  /** A lone non-digit, or a text starting with a character that is
      neither a digit, a sign nor a point, is not a number. */
  lemma NonNumericText(t: string)
    requires |t| > 0 && !IsDigit(t[0])
    requires |t| == 1 || (t[0] != '.' && t[0] != '+' && t[0] != '-')
    ensures !IsNumeric(t)
  {
    if |t| == 1 {
      if t[0] == '+' || t[0] == '-' {
        assert t[1..] == [];
      } else if t[0] == '.' {
        assert DotIndex(t) == 0;
      } else {
        assert DotIndex(t[1..]) == 0;
        assert t[..DotIndex(t)] == t;
      }
    } else {
      assert t[..DotIndex(t)][0] == t[0];
    }
  }

  function DigitValue(c: char): nat
    requires IsDigit(c)
  {
    (c as int - '0' as int) as nat
  }

  /** The natural number written by the decimal digits `s` (0 for none). */
  function DigitsValue(s: string): nat
    requires AllDigits(s)
  {
    if |s| == 0 then 0
    else DigitsValue(s[..|s| - 1]) * 10 + DigitValue(s[|s| - 1])
  }

  function Pow10(n: nat): (r: nat)
    ensures r >= 1
  {
    if n == 0 then 1 else 10 * Pow10(n - 1)
  }

  function UnsignedValue(s: string): real
    requires IsUnsignedLiteral(s)
  {
    var k := DotIndex(s);
    var whole := DigitsValue(s[..k]) as real;
    if k < |s| then whole + DigitsValue(s[k + 1..]) as real / Pow10(|s| - k - 1) as real
    else whole
  }

  /** The value of a numeric literal. */
  function NumberValue(s: string): real
    requires IsNumeric(s)
  {
    if |s| > 0 && s[0] == '-' then -UnsignedValue(s[1..])
    else if |s| > 0 && s[0] == '+' then UnsignedValue(s[1..])
    else UnsignedValue(s)
  }

  function DigitChar(d: nat): (c: char)
    requires d < 10
    ensures IsDigit(c) && DigitValue(c) == d
  {
    ('0' as int + d) as char
  }

  /** Decimal text of a natural number, most significant digit first. */
  function NatText(n: nat): (s: string)
    ensures |s| > 0 && AllDigits(s)
  {
    if n < 10 then [DigitChar(n)] else NatText(n / 10) + [DigitChar(n % 10)]
  }

  /** Decimal text of an integer, with a leading `-` when negative. */
  function IntText(i: int): string {
    if i < 0 then "-" + NatText(-i) else NatText(i)
  }

  lemma {:induction false} NatTextValue(n: nat)
    ensures DigitsValue(NatText(n)) == n
  {
    if n >= 10 {
      var s := NatText(n);
      assert s[..|s| - 1] == NatText(n / 10);
      NatTextValue(n / 10);
    }
  }

  lemma DotIndexOfDigits(s: string)
    requires AllDigits(s)
    ensures DotIndex(s) == |s|
  {
    if |s| > 0 {
      assert AllDigits(s[1..]);
      DotIndexOfDigits(s[1..]);
    }
  }

  /** Printing an integer and reading the text back gives the integer: the
      values the reroll expansion writes into the instruction stream parse
      back to themselves. */
  lemma IntTextRoundTrip(i: int)
    ensures IsNumeric(IntText(i))
    ensures NumberValue(IntText(i)) == i as real
  {
    var n: nat := if i < 0 then -i else i;
    var digits := NatText(n);
    DotIndexOfDigits(digits);
    assert digits[..|digits|] == digits;
    NatTextValue(n);
    if i < 0 {
      assert IntText(i)[1..] == digits;
    } else {
      assert IntText(i)[0] == digits[0];
    }
  }

  /** The least integer not below `v`. */
  function Ceil(v: real): (c: int)
    ensures c as real >= v
    ensures (c - 1) as real < v
  {
    if v.Floor as real == v then v.Floor else v.Floor + 1
  }

  function PowNat(a: real, n: nat): (r: real)
    ensures a != 0.0 ==> r != 0.0
  {
    if n == 0 then 1.0 else a * PowNat(a, n - 1)
  }

  /** `a ^ b` for an integral exponent `b`; a negative exponent divides. */
  function Power(a: real, b: real): (r: Result<real>)
    ensures r.Ok? <==> b.Floor as real == b && (b < 0.0 ==> a != 0.0)
    ensures r.Ok? && b >= 0.0 ==> r.value == PowNat(a, b.Floor)
    ensures r.Ok? && b < 0.0 ==> r.value * PowNat(a, -b.Floor) == 1.0
  {
    if b.Floor as real != b then Err(UnsupportedPower)
    else if b.Floor >= 0 then Ok(PowNat(a, b.Floor))
    else if a == 0.0 then Err(UnsupportedPower)
    else Ok(1.0 / PowNat(a, -b.Floor))
  }
}
