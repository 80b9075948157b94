/**
 Target prices of an inverse perpetual contract (core/inverse_perp_math.py).

 The realised fraction of a position moved from `avg` to `price` has the price,
 not the entry, as its denominator. The two target functions invert it.
 */
module InversePerpMath {
  datatype Side = Long | Short

  function Max(a: real, b: real): (m: real) { if a >= b then a else b }

  function Min(a: real, b: real): (m: real) { if a <= b then a else b }

  /** The divisor of a take-profit target. */
  function TpDivisor(pct: real, side: Side): real {
    if side.Long? then 1.0 - pct / 100.0 else 1.0 + pct / 100.0
  }

  /** The divisor of a stop-loss target. */
  function SlDivisor(pct: real, side: Side): real {
    if side.Long? then 1.0 + pct / 100.0 else 1.0 - pct / 100.0
  }

  function TpTarget(avg: real, pct: real, side: Side): (target: real)
    requires TpDivisor(pct, side) != 0.0
  {
    avg / TpDivisor(pct, side)
  }

  function SlTarget(avg: real, pct: real, side: Side): (target: real)
    requires SlDivisor(pct, side) != 0.0
  {
    avg / SlDivisor(pct, side)
  }

  /** Gain per unit of size and leverage when a position entered at `avg` stands at `price`. */
  function Return(avg: real, price: real, side: Side): real
    requires price != 0.0
  {
    if side.Long? then (price - avg) / price else (avg - price) / price
  }

  lemma {:induction false} DivLe(a: real, b: real, x: real)
    requires x > 0.0
    ensures a / x <= b <==> a <= b * x
    ensures b <= a / x <==> b * x <= a
    ensures a / x == b <==> a == b * x
  {
    assert a == (a / x) * x;
    if a / x <= b { assert (a / x) * x <= b * x; }
    if b <= a / x { assert b * x <= (a / x) * x; }
  }

  /** Dividing by a positive number keeps the sign. */
  lemma {:induction false} DivPositive(a: real, x: real)
    requires a > 0.0 && x > 0.0
    ensures a / x > 0.0
  {
    DivLe(a, 0.0, x);
  }

  lemma {:induction false} ReturnForms(avg: real, price: real)
    requires price > 0.0
    ensures (price - avg) / price == 1.0 - avg / price
    ensures (avg - price) / price == avg / price - 1.0
  {
    assert avg == (avg / price) * price;
    DivLe(price - avg, 1.0 - avg / price, price);
    DivLe(avg - price, avg / price - 1.0, price);
  }

  /**
   A positive price has reached the take-profit target exactly when the position's
   return has reached the configured percentage, for either side.
   */
  lemma {:induction false} TpReachedIffReturn(avg: real, pct: real, side: Side, price: real)
    requires avg > 0.0 && price > 0.0 && TpDivisor(pct, side) > 0.0
    ensures side.Long? ==> (price >= TpTarget(avg, pct, side) <==> Return(avg, price, side) >= pct / 100.0)
    ensures side.Short? ==> (price <= TpTarget(avg, pct, side) <==> Return(avg, price, side) >= pct / 100.0)
    ensures TpTarget(avg, pct, side) > 0.0
    ensures Return(avg, TpTarget(avg, pct, side), side) == pct / 100.0
  {
    var d, t := TpDivisor(pct, side), TpTarget(avg, pct, side);
    DivPositive(avg, d);
    assert avg == t * d;
    DivLe(avg, price, d);
    DivLe(avg, d, price);
    DivLe(avg, d, t);
    assert d * t == t * d;
    assert d * price == price * d;
    ReturnForms(avg, price);
    ReturnForms(avg, t);
  }

  /** The stop-loss mirror: the loss has reached `pct` percent exactly when the price reached the line. */
  lemma {:induction false} SlReachedIffReturn(avg: real, pct: real, side: Side, price: real)
    requires avg > 0.0 && price > 0.0 && SlDivisor(pct, side) > 0.0
    ensures side.Long? ==> (price <= SlTarget(avg, pct, side) <==> Return(avg, price, side) <= -(pct / 100.0))
    ensures side.Short? ==> (price >= SlTarget(avg, pct, side) <==> Return(avg, price, side) <= -(pct / 100.0))
    ensures SlTarget(avg, pct, side) > 0.0
    ensures Return(avg, SlTarget(avg, pct, side), side) == -(pct / 100.0)
  {
    TpReachedIffReturn(avg, -pct, side, price);
    if side.Long? {
      var d, t := SlDivisor(pct, side), SlTarget(avg, pct, side);
      DivLe(avg, price, d);
      DivLe(avg, d, price);
      ReturnForms(avg, price);
    } else {
      DivLe(avg, price, SlDivisor(pct, side));
      DivLe(avg, SlDivisor(pct, side), price);
      ReturnForms(avg, price);
    }
  }

  /** A long's return grows with the price and a short's falls. */
  lemma {:induction false} ReturnMonotone(avg: real, p: real, q: real)
    requires avg > 0.0 && 0.0 < p <= q
    ensures Return(avg, p, Long) <= Return(avg, q, Long)
    ensures Return(avg, q, Short) <= Return(avg, p, Short)
  {
    ReturnForms(avg, p);
    ReturnForms(avg, q);
    DivPositive(avg, p);
    assert avg == (avg / p) * p;
    assert (avg / p) * p <= (avg / p) * q;
    DivLe(avg, avg / p, q);
  }

  /** Both targets rise with the entry (or peak) they are taken from. */
  lemma {:induction false} TargetsMonotone(a: real, b: real, d: real)
    requires a <= b && d > 0.0
    ensures a / d <= b / d
    ensures a < b ==> a / d < b / d
  {
    assert b == (b / d) * d;
    DivLe(a, b / d, d);
  }
}
