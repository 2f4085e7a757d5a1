/** Vocabulary shared by the portfolio engine, the single-instrument back-tester
    and the driver loop: dates, optional values, the exceptions the engine can
    raise, trade sides and real-valued min/max. */
module Basics {

  /** A trading day, as an ordinal day number. Only the order of dates matters. */
  type Date = int

  datatype Option<T> = None | Some(value: T)

  /** The exceptions the modelled code raises: a float division by zero
      (ZeroDivisionError) and a price frame whose index is not made of
      datetimes (ValueError). */
  datatype Error = DivisionByZero | IndexNotDatetime

  datatype Result<T> = Ok(value: T) | Err(error: Error)

  /** The side of an executed order ('BUY' or 'SELL'). */
  datatype Side = Buy | Sell

  function Max(a: real, b: real): (m: real)
    ensures m >= a && m >= b && (m == a || m == b)
  {
    if a >= b then a else b
  }

  function Min(a: real, b: real): (m: real)
    ensures m <= a && m <= b && (m == a || m == b)
  {
    if a <= b then a else b
  }

  /** `price * qty`: the notional of an order. */
  function Notional(price: real, qty: int): real {
    price * qty as real
  }

  /** `(final / initial - 1) * 100`: the percentage return. */
  function ReturnPct(initial: real, final: real): real
    requires initial != 0.0
  {
    (final / initial - 1.0) * 100.0
  }

  /** From a positive starting value the return is positive, zero or negative
      exactly as the final value is above, at or below the start. */
  lemma ReturnPctSign(initial: real, final: real)
    requires initial > 0.0
    ensures ReturnPct(initial, final) > 0.0 <==> final > initial
    ensures ReturnPct(initial, final) == 0.0 <==> final == initial
    ensures ReturnPct(initial, final) < 0.0 <==> final < initial
  {
    var q := final / initial;
    assert q * initial == final;
    if q > 1.0 {
      MulStrictMonotone(1.0, q, initial);
    } else if q < 1.0 {
      MulStrictMonotone(q, 1.0, initial);
    }
  }

  /** `a / p` rounded down, for a positive divisor: the largest whole number
      of units of price `p` that `a` pays for, and the bounds that make it so. */
  function FloorDiv(a: real, p: real): (q: int)
    requires p > 0.0
    ensures q as real * p <= a < (q + 1) as real * p
  {
    var q := (a / p).Floor;
    FloorDivBounds(a, p, q);
    q
  }

  lemma FloorDivBounds(a: real, p: real, q: int)
    requires p > 0.0 && q == (a / p).Floor
    ensures q as real * p <= a < (q + 1) as real * p
  {
    var x := a / p;
    var lo := q as real;
    var hi := (q + 1) as real;
    assert lo <= x < hi;
    assert x * p == a;
    MulMonotone(lo, x, p);
    MulStrictMonotone(x, hi, p);
  }

  lemma MulMonotone(x: real, y: real, p: real)
    requires x <= y && p >= 0.0
    ensures x * p <= y * p
  {
    assert y * p - x * p == (y - x) * p;
  }

  lemma MulStrictMonotone(x: real, y: real, p: real)
    requires x < y && p > 0.0
    ensures x * p < y * p
  {
    assert y * p - x * p == (y - x) * p;
  }
}
