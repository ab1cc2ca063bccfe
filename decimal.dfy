/**
 * Arbitrary-precision decimals as the engine sees them: a value is an
 * integer coefficient scaled by a power of ten. Construction, the sign
 * test, negation and the exponent are concrete; every other operation of
 * the decimal library is a function supplied in a `DecimalOps` record, so
 * the model says nothing about how it rounds or how precise it is.
 */
module Decimals {

  /** `mantissa` × 10^`exp`. */
  datatype Decimal = Decimal(mantissa: int, exp: int)

  /** The zero value of the Go struct, returned on error paths and by `Pop` on an empty stack. */
  const ZeroValue: Decimal := Decimal(0, 0)

  /** The library's named zero, built as `New(0, 1)`. */
  const Zero: Decimal := Decimal(0, 1)

  function Pow10(n: nat): (r: nat)
    ensures r >= 1
  {
    if n == 0 then 1 else 10 * Pow10(n - 1)
  }

  /** The number a decimal denotes. */
  function Value(d: Decimal): real {
    if d.exp >= 0 then (d.mantissa * Pow10(d.exp)) as real
    else d.mantissa as real / Pow10(-d.exp) as real
  }

  /** `value` × 10^`exp`. */
  function New(value: int, exp: int): (d: Decimal)
    ensures exp <= 0 ==> Value(d) == value as real / Pow10(-exp) as real
  {
    Decimal(value, exp)
  }

  function IsZero(d: Decimal): (r: bool)
    ensures r <==> Value(d) == 0.0
  {
    d.mantissa == 0
  }

  function Neg(d: Decimal): (r: Decimal)
    ensures Value(r) == -Value(d)
    ensures r.exp == d.exp
  {
    var r := Decimal(-d.mantissa, d.exp);
    assert Value(r) == -Value(d) by {
      if d.exp >= 0 {
        var p := Pow10(d.exp);
        assert (-d.mantissa) * p == -(d.mantissa * p);
      } else {
        var p := Pow10(-d.exp) as real;
        assert (-d.mantissa) as real / p == -(d.mantissa as real / p);
      }
    }
    r
  }

  function Exponent(d: Decimal): int {
    d.exp
  }

  /** The shapes of the library operations. */
  type BinaryFn = (Decimal, Decimal) -> Decimal
  type ScaleFn = (Decimal, int) -> Decimal
  type UnaryFn = Decimal -> Decimal
  type ListFn = (Decimal, seq<Decimal>) -> Decimal

  /** The decimal library's operations the engine calls; how they compute is not modelled. */
  datatype DecimalOps = DecimalOps(
    add: BinaryFn,
    sub: BinaryFn,
    mul: BinaryFn,
    div: BinaryFn,
    mod: BinaryFn,
    pow: BinaryFn,
    round: ScaleFn,
    truncate: ScaleFn,
    abs: UnaryFn,
    floor: UnaryFn,
    ceil: UnaryFn,
    max: ListFn,
    min: ListFn,
    sum: ListFn,
    avg: ListFn,
    intPart: Decimal -> int)
}
