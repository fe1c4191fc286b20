/** Decimal rounding to a fixed number of places, half to even. */
module Decimals {
  function RoundHalfEven(x: real): int {
    var low := x.Floor;
    var rest := x - low as real;
    if rest < 0.5 || (rest == 0.5 && low % 2 == 0) then low else low + 1
  }

  /** `x` rounded to a multiple of 1 / `unit`. */
  function Quantize(x: real, unit: real): real
    requires unit > 0.0
  {
    RoundHalfEven(x * unit) as real / unit
  }

  function Abs(x: real): real {
    if x < 0.0 then -x else x
  }

  lemma RoundClose(x: real)
    ensures Abs(RoundHalfEven(x) as real - x) <= 0.5
  {
  }

  lemma QuantizeClose(x: real, unit: real)
    requires unit > 0.0
    ensures Abs(Quantize(x, unit) - x) <= 0.5 / unit
  {
    RoundClose(x * unit);
    var q := Quantize(x, unit);
    assert (q - x) * unit == RoundHalfEven(x * unit) as real - x * unit;
    assert -0.5 <= (q - x) * unit <= 0.5;
    assert 0.5 / unit * unit == 0.5;
    if q - x > 0.5 / unit {
      assert (q - x - 0.5 / unit) * unit > 0.0;
    }
    if x - q > 0.5 / unit {
      assert (x - q - 0.5 / unit) * unit > 0.0;
    }
  }

  /** No integer is nearer, and of two equally near ones the even one is taken. */
  lemma RoundsHalfEven(x: real, n: int)
    ensures Abs(RoundHalfEven(x) as real - x) <= Abs(n as real - x)
    ensures n != RoundHalfEven(x) && Abs(n as real - x) == Abs(RoundHalfEven(x) as real - x) ==>
      RoundHalfEven(x) % 2 == 0
  {
    var low := x.Floor;
    if n < low {
      assert n + 1 <= low;
    }
    if n > low + 1 {
      assert n as real >= low as real + 2.0;
    }
  }
}
