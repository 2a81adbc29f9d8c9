/** Small value types shared by the modules of this model. */
module Common {

  /** A value that may be absent (Python's None, a JavaScript null). */
  datatype Option<+T> = None | Some(value: T)

  /** The result of an operation that either yields a value or raises an error. */
  datatype Result<+T, +E> = Ok(value: T) | Err(error: E)

  /** The result of an operation that yields nothing or raises an error. */
  datatype Outcome<+E> = Pass | Fail(error: E)

  function Min(a: int, b: int): int { if a <= b then a else b }

  function Max(a: int, b: int): int { if a >= b then a else b }

  /** The decimal digit for 0 <= d < 10. */
  function Digit(d: nat): (c: char)
    requires d < 10
    ensures '0' <= c <= '9'
  {
    ('0' as int + d) as char
  }

  /** The value of a decimal digit character. */
  function DigitValue(c: char): int
  {
    c as int - '0' as int
  }

  /** The number a string of decimal digits denotes, read left to right. */
  function DecValue(s: string): int
  {
    if s == [] then 0 else 10 * DecValue(s[..|s| - 1]) + DigitValue(s[|s| - 1])
  }

  /** The number a rendering denotes, with a leading '-' negating the digits after it. */
  function SignedDecValue(s: string): int
  {
    if s != [] && s[0] == '-' then -DecValue(s[1..]) else DecValue(s)
  }

  /** The decimal rendering of a natural number, as Python's str() or an f-string gives it:
      digits only, with no leading zero. */
  function NatDecimal(n: nat): (s: string)
    ensures |s| > 0
    ensures forall i :: 0 <= i < |s| ==> '0' <= s[i] <= '9'
    ensures (s[0] == '0') <==> n == 0
    ensures |s| > 1 ==> s[0] != '0'
    decreases n
  {
    if n < 10 then [Digit(n)] else NatDecimal(n / 10) + [Digit(n % 10)]
  }

  /** Reading the rendering back gives the number. */
  lemma {:induction false} NatDecimalValue(n: nat)
    ensures DecValue(NatDecimal(n)) == n
    decreases n
  {
    if n >= 10 {
      NatDecimalValue(n / 10);
      var s := NatDecimal(n);
      assert s[..|s| - 1] == NatDecimal(n / 10);
      assert DigitValue(s[|s| - 1]) == n % 10;
    }
  }

  /** The decimal rendering of an integer, with a leading '-' when it is negative. */
  function Decimal(n: int): (s: string)
    ensures |s| > 0
    ensures (s[0] == '-') <==> n < 0
    ensures forall i :: (if n < 0 then 1 else 0) <= i < |s| ==> '0' <= s[i] <= '9'
  {
    if n < 0 then "-" + NatDecimal(-n) else NatDecimal(n)
  }

  /** The rendering of an integer denotes it, and its digits have no leading zero. */
  lemma DecimalValue(n: int)
    ensures SignedDecValue(Decimal(n)) == n
    ensures var digits := if n < 0 then Decimal(n)[1..] else Decimal(n);
      digits != [] && (|digits| > 1 ==> digits[0] != '0')
  {
    if n < 0 {
      NatDecimalValue(-n);
      assert Decimal(n)[1..] == NatDecimal(-n);
    } else {
      NatDecimalValue(n);
    }
  }
}
