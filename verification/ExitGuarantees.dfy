/**
 What an exit is worth: the engine compares prices, an operator configures percentages of
 profit (core/trading_engine.py, `_check_tp`, `_check_sl`).
 */
module ExitGuarantees {
  import opened Options
  import opened InversePerpMath
  import opened Deals
  import opened TickRules

  /** The percentage of margin a deal would realise at a price. */
  function PctAt(d: Deal, price: real): real
    requires SoundOrders(d.orders) && d.leverage > 0
  {
    SoundSums(d.orders);
    CalculatePnl(d.side, d.leverage, d.orders, price).1
  }

  /** Confirmation is asked for only when there are candles to ask about. */
  predicate Cleared(cfg: Config, d: Deal, price: real, ind: Indicators)
    requires SoundOrders(d.orders) && d.leverage > 0
  {
    (cfg.tp.minPct.Some? ==> PctAt(d, price) >= cfg.tp.minPct.value) && (ind.haveCloses ==> ind.confirmed)
  }

  lemma {:induction false} TargetIsGoal(cfg: Config, d: Deal, price: real)
    requires SoundDeal(cfg, d) && price > 0.0 && TpOf(cfg, d).TpAt?
    ensures Target(cfg, d) > 0.0 && PctAt(d, Target(cfg, d)) == Goal(d.leverage, TpOf(cfg, d).pct)
    ensures Reached(d.side, price, Target(cfg, d)) <==> PctAt(d, price) >= Goal(d.leverage, TpOf(cfg, d).pct)
  {
    TpTargetExact(d.side, d.leverage, d.orders, TpOf(cfg, d).pct, price);
  }

  /** The price a take-profit is judged by. */
  function BestPrice(cfg: Config, d: Deal, price: real): real {
    if cfg.wickSim then WickBest(d, price) else price
  }

  /**
   A deal takes profit exactly when either its best price would realise leverage^2 times the
   configured percentage, the minimum is met now and the exit is confirmed, or it would not
   and an indicator group fires. It leaves at the market if the market itself is that good,
   otherwise at the target, which realises exactly the goal.
   */
  lemma {:induction false} TakesProfitIff(cfg: Config, d: Deal, price: real, ind: Indicators)
    requires SoundDeal(cfg, d) && price > 0.0
    ensures BestPrice(cfg, d, price) > 0.0
    ensures TpOf(cfg, d).TpAt? ==>
              var goal, best := Goal(d.leverage, TpOf(cfg, d).pct), PctAt(d, BestPrice(cfg, d, price));
              var exit := CheckTp(cfg, d, price, ind);
              && (exit.Leave? <==>
                    if best >= goal then Cleared(cfg, d, price, ind) else cfg.tp.groups && ind.tpGroupHit)
              && (exit.Leave? ==> exit.trigger == if best >= goal then PRICE_TP else INDICATOR_TP)
              && (exit.Leave? && exit.fill != price ==> best >= goal && PctAt(d, exit.fill) == goal)
              && (exit.Leave? && PctAt(d, price) >= goal ==> exit.fill == price)
    ensures TpOf(cfg, d).TpOff? ==> CheckTp(cfg, d, price, ind).Stay?
  {
    if TpOf(cfg, d).TpAt? {
      TargetIsGoal(cfg, d, price);
      TargetIsGoal(cfg, d, BestPrice(cfg, d, price));
      SoundSums(d.orders);
    }
  }

  /** A fixed stop fires exactly when the deal would lose leverage^2 times its percentage or more. */
  lemma {:induction false} StopsOutIff(cfg: Config, d: Deal, price: real)
    requires SoundDeal(cfg, d) && price > 0.0 && StopOf(cfg, d).StopAt? && !StopOf(cfg, d).kind.Trailing?
    ensures CheckSl(cfg, d, price).Leave? <==> PctAt(d, price) <= Goal(d.leverage, -StopOf(cfg, d).pct)
    ensures CheckSl(cfg, d, price).Leave? ==> CheckSl(cfg, d, price) == Leave(price, SL, PRICE_SL)
  {
    SlTargetExact(d.side, d.leverage, d.orders, StopOf(cfg, d).pct, price);
  }

  /** The percentage grows in the deal's direction. */
  lemma {:induction false} PctMonotone(d: Deal, worse: real, better: real)
    requires SoundOrders(d.orders) && d.leverage > 0 && worse > 0.0 && better > 0.0
    requires Reached(d.side, better, worse)
    ensures PctAt(d, worse) <= PctAt(d, better)
  {
    PnlPercent(d.side, d.leverage, d.orders, worse);
    PnlPercent(d.side, d.leverage, d.orders, better);
    SoundAvg(d.orders);
    var avg := AvgEntry(d.orders);
    if d.side.Long? { ReturnMonotone(avg, worse, better); } else { ReturnMonotone(avg, better, worse); }
    PercentGrows(d.leverage as real, Return(avg, worse, d.side), Return(avg, better, d.side));
  }

  lemma {:induction false} PercentGrows(lev: real, a: real, b: real)
    requires lev > 0.0 && a <= b
    ensures PercentAt(lev, a) <= PercentAt(lev, b)
  {
    ScaleLe(lev, a, b);
    ScaleLe(lev, lev * a, lev * b);
    assert PercentAt(lev, a) == lev * (lev * a) * 100.0;
    assert PercentAt(lev, b) == lev * (lev * b) * 100.0;
  }

  /**
   Wick simulation included: whatever the market does, a price take-profit realises at least
   leverage^2 times the configured percentage and at least the configured minimum, and is confirmed.
   */
  lemma {:induction false} TakeProfitPays(cfg: Config, d: Deal, price: real, ind: Indicators)
    requires SoundDeal(cfg, d) && price > 0.0
    requires CheckTp(cfg, d, price, ind).Leave? && CheckTp(cfg, d, price, ind).trigger == PRICE_TP
    ensures var fill := CheckTp(cfg, d, price, ind).fill;
            && fill > 0.0
            && PctAt(d, fill) >= Goal(d.leverage, TpOf(cfg, d).pct)
            && (cfg.tp.minPct.Some? ==> PctAt(d, fill) >= cfg.tp.minPct.value)
            && (ind.haveCloses ==> ind.confirmed)
  {
    TargetIsGoal(cfg, d, price);
    SoundSums(d.orders);
    var target := Target(cfg, d);
    if !Reached(d.side, price, target) {
      PctMonotone(d, price, target);
    }
  }
}
