/**
 Deals and their profit (paper/paper_state.py, class PaperDeal).

 A deal is a value: the engines replace the deal stored in the ledger where the
 program assigns to its fields.
 */
module Deals {
  import opened Options
  import opened InversePerpMath

  type DealId = string

  datatype OrderKind = BaseOrder | DcaOrder

  datatype Order = Order(number: nat, price: real, size: real, kind: OrderKind)

  /** Portal overrides: an absent key falls back to the bot's configuration. */
  datatype TpOverride = TpOverride(enabled: Option<bool>, targetPct: Option<real>)

  datatype StopType = NoStop | Fixed | Trailing

  datatype SlOverride = SlOverride(enabled: Option<bool>, kind: Option<StopType>, pct: Option<real>)

  /** Trailing peak (0 until the first trailing check) and the extreme ticks since the deal opened. */
  datatype Trackers = Trackers(peak: real, high: real, low: real)

  datatype Overrides = Overrides(tp: Option<TpOverride>, sl: Option<SlOverride>, dca: bool)

  datatype Closing = Closing(
    isOpen: bool,
    price: Option<real>,
    reason: Option<string>,
    trigger: Option<string>,
    pnlBtc: real,
    pnlPct: real)

  datatype Deal = Deal(
    id: DealId,
    side: Side,
    leverage: nat,
    orders: seq<Order>,
    trackers: Trackers,
    overrides: Overrides,
    closing: Closing)

  function TotalSize(orders: seq<Order>): real {
    if orders == [] then 0.0 else TotalSize(orders[..|orders| - 1]) + orders[|orders| - 1].size
  }

  function TotalValue(orders: seq<Order>): real {
    if orders == [] then 0.0
    else TotalValue(orders[..|orders| - 1]) + orders[|orders| - 1].price * orders[|orders| - 1].size
  }

  /** What every order list the engines build looks like: a real base order, then fills of non-negative size. */
  predicate SoundOrders(orders: seq<Order>) {
    && |orders| > 0
    && orders[0].size > 0.0
    && forall i :: 0 <= i < |orders| ==> orders[i].price > 0.0 && orders[i].size >= 0.0
  }

  lemma {:induction false} SoundSums(orders: seq<Order>)
    requires SoundOrders(orders)
    ensures TotalSize(orders) > 0.0
    ensures TotalValue(orders) > 0.0
  {
    var last := orders[|orders| - 1];
    if |orders| > 1 {
      SoundSums(orders[..|orders| - 1]);
    } else {
      assert orders[..0] == [];
      assert TotalSize(orders[..0]) == 0.0 && TotalValue(orders[..0]) == 0.0;
    }
    assert last.price * last.size >= 0.0;
    if |orders| == 1 { assert last.price * last.size > 0.0; }
  }

  function Mean(value: real, size: real): real
    requires size != 0.0
  {
    value / size
  }

  /** Volume-weighted average entry; 0 for a deal without orders, as the source returns. */
  function AvgEntry(orders: seq<Order>): (avg: real)
    requires orders != [] ==> TotalSize(orders) != 0.0
  {
    if orders == [] then 0.0 else Mean(TotalValue(orders), TotalSize(orders))
  }

  lemma {:induction false} SoundAvg(orders: seq<Order>)
    requires SoundOrders(orders)
    ensures TotalSize(orders) > 0.0
    ensures AvgEntry(orders) > 0.0
  {
    SoundSums(orders);
    DivPositive(TotalValue(orders), TotalSize(orders));
  }

  function DcaCount(orders: seq<Order>): nat {
    if orders == [] then 0
    else DcaCount(orders[..|orders| - 1]) + if orders[|orders| - 1].kind.DcaOrder? then 1 else 0
  }

  /** The BTC profit of a position of `size` whose return is `r`. */
  function Leveraged(size: real, r: real, lev: real): real {
    size * r * lev
  }

  /** Unrealised profit in BTC and in percent of the margin, with the source's guards. */
  function CalculatePnl(side: Side, leverage: nat, orders: seq<Order>, price: real): (pnl: (real, real))
    requires orders != [] ==> TotalSize(orders) != 0.0
    requires leverage > 0
  {
    if orders == [] || price <= 0.0 then (0.0, 0.0)
    else
      var avg := AvgEntry(orders);
      if avg <= 0.0 then (0.0, 0.0)
      else
        var size := TotalSize(orders);
        var lev := leverage as real;
        var btc := Leveraged(size, Return(avg, price, side), lev);
        (btc, btc / (size / lev) * 100.0)
  }

  /** A deal's BTC profit is the sum of what its orders would make as deals of their own. */
  function SumOfOrderPnls(side: Side, leverage: nat, orders: seq<Order>, price: real): real
    requires forall i :: 0 <= i < |orders| ==> orders[i].size > 0.0
    requires leverage > 0
  {
    if orders == [] then 0.0
    else
      var last := orders[|orders| - 1];
      assert TotalSize([last]) == TotalSize([last][..0]) + last.size;
      SumOfOrderPnls(side, leverage, orders[..|orders| - 1], price)
      + CalculatePnl(side, leverage, [last], price).0
  }

  /** Profit without the average: value and size enter linearly. */
  function LinearPnl(side: Side, lev: real, size: real, value: real, price: real): real
    requires price != 0.0
  {
    if side.Long? then lev * (size - value / price) else lev * (value / price - size)
  }

  lemma {:induction false} PnlIsLinear(side: Side, leverage: nat, orders: seq<Order>, price: real)
    requires SoundOrders(orders) && price > 0.0 && leverage > 0
    ensures TotalSize(orders) > 0.0
    ensures CalculatePnl(side, leverage, orders, price).0
         == LinearPnl(side, leverage as real, TotalSize(orders), TotalValue(orders), price)
  {
    PnlUnfolded(side, leverage, orders, price);
    AvgTimesSize(orders);
    ReturnIsLinear(side, leverage as real, TotalSize(orders), TotalValue(orders), AvgEntry(orders), price);
  }

  lemma {:induction false} AvgTimesSize(orders: seq<Order>)
    requires SoundOrders(orders)
    ensures TotalSize(orders) > 0.0
    ensures TotalValue(orders) == AvgEntry(orders) * TotalSize(orders)
  {
    SoundSums(orders);
  }

  lemma {:induction false} ReturnIsLinear(side: Side, lev: real, size: real, value: real, avg: real, price: real)
    requires price > 0.0 && value == avg * size
    ensures Leveraged(size, Return(avg, price, side), lev) == LinearPnl(side, lev, size, value, price)
  {
    ReturnForms(avg, price);
    var r := avg / price;
    assert value / price == size * r by {
      assert avg == r * price;
      DivLe(value, size * r, price);
    }
    assert size * (1.0 - r) * lev == lev * (size - size * r);
    assert size * (r - 1.0) * lev == lev * (size * r - size);
  }

  lemma {:induction false} LinearPnlAdds(side: Side, lev: real, s: real, v: real, s': real, v': real, price: real)
    requires price > 0.0
    ensures LinearPnl(side, lev, s + s', v + v', price)
         == LinearPnl(side, lev, s, v, price) + LinearPnl(side, lev, s', v', price)
  {
    assert (v + v') / price == v / price + v' / price;
    var a, b := v / price, v' / price;
    assert lev * ((s + s') - (a + b)) == lev * (s - a) + lev * (s' - b);
    assert lev * ((a + b) - (s + s')) == lev * (a - s) + lev * (b - s');
  }

  lemma {:induction false} SingleOrder(o: Order)
    ensures TotalSize([o]) == o.size
    ensures TotalValue([o]) == o.price * o.size
  {
    assert [o][..0] == [];
  }

  lemma {:induction false} PnlAdditive(side: Side, leverage: nat, orders: seq<Order>, price: real)
    requires SoundOrders(orders) && price > 0.0 && leverage > 0
    requires forall i :: 0 <= i < |orders| ==> orders[i].size > 0.0
    ensures TotalSize(orders) > 0.0
    ensures CalculatePnl(side, leverage, orders, price).0 == SumOfOrderPnls(side, leverage, orders, price)
  {
    var front, last := orders[..|orders| - 1], orders[|orders| - 1];
    SingleOrder(last);
    PnlIsLinear(side, leverage, orders, price);
    PnlIsLinear(side, leverage, [last], price);
    if front == [] {
      assert orders == [last];
      assert SumOfOrderPnls(side, leverage, front, price) == 0.0;
    } else {
      assert forall i :: 0 <= i < |front| ==> front[i] == orders[i];
      PnlAdditive(side, leverage, front, price);
      PnlIsLinear(side, leverage, front, price);
      assert TotalSize(orders) == TotalSize(front) + TotalSize([last]);
      assert TotalValue(orders) == TotalValue(front) + TotalValue([last]);
      LinearPnlAdds(side, leverage as real, TotalSize(front), TotalValue(front),
                    last.size, last.price * last.size, price);
    }
  }

  /** The margin percentage of a return: leverage counts once for the size and once for the margin. */
  function PercentAt(lev: real, r: real): real {
    lev * lev * r * 100.0
  }

  /** leverage^2 times a percentage: what a deal realises at a target of that percentage. */
  function Goal(leverage: nat, pct: real): real {
    leverage as real * leverage as real * pct
  }

  lemma {:induction false} PercentAgainstGoal(leverage: nat, r: real, pct: real)
    requires leverage > 0
    ensures PercentAt(leverage as real, r) >= Goal(leverage, pct) <==> r >= pct / 100.0
    ensures PercentAt(leverage as real, r) <= Goal(leverage, pct) <==> r <= pct / 100.0
  {
    var k := leverage as real * leverage as real;
    assert k > 0.0;
    ScaleLe(k, pct / 100.0, r);
    ScaleLe(k, r, pct / 100.0);
    assert k * (pct / 100.0) * 100.0 == k * pct;
  }

  lemma {:induction false} PnlPercent(side: Side, leverage: nat, orders: seq<Order>, price: real)
    requires SoundOrders(orders) && price > 0.0 && leverage > 0
    ensures TotalSize(orders) > 0.0
    ensures CalculatePnl(side, leverage, orders, price).1
         == PercentAt(leverage as real, Return(AvgEntry(orders), price, side))
  {
    SoundAvg(orders);
    PercentOfMargin(TotalSize(orders), Return(AvgEntry(orders), price, side), leverage as real);
  }

  lemma {:induction false} PercentOfMargin(size: real, r: real, lev: real)
    requires size > 0.0 && lev > 0.0
    ensures size / lev > 0.0
    ensures Leveraged(size, r, lev) / (size / lev) == lev * lev * r
  {
    DivPositive(size, lev);
    var m := size / lev;
    assert size == m * lev;
    assert m * lev * r * lev == (lev * lev * r) * m;
    DivLe(Leveraged(size, r, lev), lev * lev * r, m);
  }

  /** Multiplying by a positive number keeps the order. */
  lemma {:induction false} ScaleLe(k: real, a: real, b: real)
    requires k > 0.0
    ensures a <= b <==> k * a <= k * b
    ensures a == b <==> k * a == k * b
  {
    assert k * b - k * a == k * (b - a);
    if a < b { assert k * (b - a) > 0.0; }
    if a > b { assert k * (b - a) < 0.0; }
  }

  /**
   At the take-profit target a deal realises exactly leverage^2 times the configured
   percentage, and reaching the target is the same as realising at least that.
   */
  lemma {:induction false} TpTargetExact(side: Side, leverage: nat, orders: seq<Order>, pct: real, price: real)
    requires SoundOrders(orders) && price > 0.0 && leverage > 0 && TpDivisor(pct, side) > 0.0
    ensures TotalSize(orders) > 0.0
    ensures var target := TpTarget(AvgEntry(orders), pct, side);
            var goal := Goal(leverage, pct);
            && target > 0.0
            && CalculatePnl(side, leverage, orders, target).1 == goal
            && ((if side.Long? then price >= target else price <= target)
                <==> CalculatePnl(side, leverage, orders, price).1 >= goal)
  {
    SoundAvg(orders);
    var avg := AvgEntry(orders);
    var target := TpTarget(avg, pct, side);
    TpReachedIffReturn(avg, pct, side, price);
    PnlPercent(side, leverage, orders, price);
    PnlPercent(side, leverage, orders, target);
    PercentAgainstGoal(leverage, Return(avg, price, side), pct);
    PercentAgainstGoal(leverage, Return(avg, target, side), pct);
  }

  lemma {:induction false} SlTargetExact(side: Side, leverage: nat, orders: seq<Order>, pct: real, price: real)
    requires SoundOrders(orders) && price > 0.0 && leverage > 0 && SlDivisor(pct, side) > 0.0
    ensures TotalSize(orders) > 0.0
    ensures var line := SlTarget(AvgEntry(orders), pct, side);
            var goal := Goal(leverage, -pct);
            && line > 0.0
            && CalculatePnl(side, leverage, orders, line).1 == goal
            && ((if side.Long? then price <= line else price >= line)
                <==> CalculatePnl(side, leverage, orders, price).1 <= goal)
  {
    SoundAvg(orders);
    var avg := AvgEntry(orders);
    var line := SlTarget(avg, pct, side);
    SlReachedIffReturn(avg, pct, side, price);
    PnlPercent(side, leverage, orders, price);
    PnlPercent(side, leverage, orders, line);
    PercentAgainstGoal(leverage, Return(avg, price, side), -pct);
    PercentAgainstGoal(leverage, Return(avg, line, side), -pct);
  }

  lemma {:induction false} PnlUnfolded(side: Side, leverage: nat, orders: seq<Order>, price: real)
    requires SoundOrders(orders) && price > 0.0 && leverage > 0
    ensures TotalSize(orders) > 0.0
    ensures CalculatePnl(side, leverage, orders, price).0
         == Leveraged(TotalSize(orders), Return(AvgEntry(orders), price, side), leverage as real)
  {
    SoundAvg(orders);
  }

  /** A long gains with the price; a short loses. */
  lemma {:induction false} PnlMonotone(side: Side, leverage: nat, orders: seq<Order>, p: real, q: real)
    requires SoundOrders(orders) && 0.0 < p <= q && leverage > 0
    ensures TotalSize(orders) > 0.0
    ensures side.Long? ==> CalculatePnl(side, leverage, orders, p).0 <= CalculatePnl(side, leverage, orders, q).0
    ensures side.Short? ==> CalculatePnl(side, leverage, orders, q).0 <= CalculatePnl(side, leverage, orders, p).0
  {
    SoundAvg(orders);
    var avg := AvgEntry(orders);
    ReturnMonotone(avg, p, q);
    var a, b := Return(avg, p, side), Return(avg, q, side);
    PnlUnfolded(side, leverage, orders, p);
    PnlUnfolded(side, leverage, orders, q);
    if side.Long? {
      ScaledBetween(TotalSize(orders), a, b, leverage as real);
    } else {
      ScaledBetween(TotalSize(orders), b, a, leverage as real);
    }
  }

  lemma {:induction false} ScaledBetween(k: real, a: real, b: real, l: real)
    requires k > 0.0 && l > 0.0 && a <= b
    ensures Leveraged(k, a, l) <= Leveraged(k, b, l)
  {
    var d := b - a;
    assert k * b * l - k * a * l == k * d * l;
    assert k * d >= 0.0;
    assert k * d * l >= 0.0;
  }

  /** Rounding half to even at `scale` units, as Python's round() does on an exact value. */
  function RoundTo(x: real, scale: real): (r: real)
    requires scale > 0.0
    ensures x - 0.5 / scale <= r <= x + 0.5 / scale
    ensures x >= 0.0 ==> r >= 0.0
  {
    var y := x * scale;
    var f := y.Floor;
    var part := y - f as real;
    var n := if part < 0.5 then f else if part > 0.5 then f + 1 else if f % 2 == 0 then f else f + 1;
    assert y - 0.5 <= n as real <= y + 0.5;
    assert x >= 0.0 ==> y >= 0.0;
    RoundingError(x, scale, n as real);
    n as real / scale
  }

  lemma {:induction false} RoundingError(x: real, scale: real, n: real)
    requires scale > 0.0 && x * scale - 0.5 <= n <= x * scale + 0.5
    ensures x - 0.5 / scale <= n / scale <= x + 0.5 / scale
    ensures n >= 0.0 ==> n / scale >= 0.0
  {
    var h := 0.5 / scale;
    assert h * scale == 0.5;
    DivLe(n, x + h, scale);
    DivLe(n, x - h, scale);
    DivLe(n, 0.0, scale);
    assert (x + h) * scale == x * scale + 0.5;
    assert (x - h) * scale == x * scale - 0.5;
  }

  const EIGHT_DECIMALS := 100000000.0
  const TEN_DECIMALS := 10000000000.0

  function Pow(b: real, n: nat): real {
    if n == 0 then 1.0 else b * Pow(b, n - 1)
  }

  lemma {:induction false} PowPositive(b: real, n: nat)
    requires b > 0.0
    ensures Pow(b, n) > 0.0
  {
    if n > 0 {
      PowPositive(b, n - 1);
      assert b * Pow(b, n - 1) > 0.0;
    }
  }

  lemma {:induction false} Snoc(orders: seq<Order>, o: Order)
    ensures TotalSize(orders + [o]) == TotalSize(orders) + o.size
    ensures TotalValue(orders + [o]) == TotalValue(orders) + o.price * o.size
    ensures DcaCount(orders + [o]) == DcaCount(orders) + if o.kind.DcaOrder? then 1 else 0
  {
    var all := orders + [o];
    assert all[..|all| - 1] == orders;
  }

  /** Exactly between two units the even one is taken. */
  lemma {:induction false} HalvesGoToEven(x: real, scale: real, n: int)
    requires scale > 0.0 && x * scale == n as real + 0.5
    ensures n % 2 == 0 ==> RoundTo(x, scale) == n as real / scale
    ensures n % 2 != 0 ==> RoundTo(x, scale) == (n + 1) as real / scale
  {
    var y := x * scale;
    assert y.Floor == n;
  }
}
