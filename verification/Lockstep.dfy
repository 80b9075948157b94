/**
 The two engines side by side (core/trading_engine.py and backtest/backtest_engine.py).
 The backtest says it reuses the paper engine's logic; here is where that is so. A price
 series is fed to the tick engine as ticks and to the backtest as flat candles.
 */
module Lockstep {
  import opened Options
  import opened InversePerpMath
  import opened Deals
  import opened TickRules
  import opened PaperLedger
  import opened CandleRules
  import opened TrailingStop
  import opened WickFills

  /** A candle on which nothing moves. */
  function Flat(price: real): Candle { Candle(0, price, price, price, price) }

  /** No minimum profit and no indicator groups. */
  predicate PriceRules(cfg: Config) {
    cfg.Valid() && cfg.tp.minPct.None? && !cfg.tp.groups
  }

  /** Only the price decides: confirmation is given or not asked for. */
  predicate PriceOnly(cfg: Config, ind: Indicators) {
    PriceRules(cfg) && (ind.haveCloses ==> ind.confirmed)
  }

  predicate PriceTick(cfg: Config, tick: Tick) {
    PriceOnly(cfg, tick.ind) && tick.price > 0.0
  }

  /** The same position in the two engines; trackers other than the trailing peak may differ. */
  predicate Alike(cfg: Config, d: Deal, e: Deal) {
    && Plain(cfg, d) && Plain(cfg, e)
    && d.orders == e.orders && d.leverage == e.leverage && d.trackers.peak == e.trackers.peak
  }

  /** Both stay with the same orders and peak, or both leave for the same reason. */
  predicate Agree(v: Verdict, w: Verdict) {
    && (v.Closes? <==> w.Closes?)
    && v.deal.orders == w.deal.orders
    && v.deal.leverage == w.deal.leverage
    && v.deal.trackers.peak == w.deal.trackers.peak
    && (v.Closes? ==> v.reason == w.reason)
  }

  /** Where each engine fills: the tick engine at the market, the backtest at its line. */
  predicate FillsApart(v: Verdict, w: Verdict, price: real) {
    v.Closes? && w.Closes? ==>
      && v.fill == price && w.fill > 0.0
      && (v.reason == TP ==> w.fill <= price)
      && (v.reason == SL ==> price <= w.fill)
  }

  function TickVerdict(cfg: Config, d: Deal, price: real, ind: Indicators): Verdict
    requires SoundDeal(cfg, d) && price > 0.0
  {
    TickDeal(cfg, d, Tick(price, ind))
  }

  function CandleVerdict(cfg: Config, e: Deal, price: real): Verdict
    requires cfg.Valid() && Plain(cfg, e)
  {
    CandleDeal(cfg, e, Flat(price), false)
  }

  // ---- One step --------------------------------------------------------------------------

  lemma {:induction false} SamePeak(cfg: Config, d: Deal, e: Deal, price: real)
    requires Alike(cfg, d, e) && price > 0.0
    requires cfg.wickSim ==> d.trackers.high <= Max(if d.trackers.peak == 0.0 then price else d.trackers.peak, price)
    ensures NewPeak(cfg, FoldTrackers(d, price), price) == CandlePeak(e, Flat(price))
  {
  }

  /** The take-profit branches of the two engines meet. */
  lemma {:induction false} SameTp(cfg: Config, d: Deal, e: Deal, price: real, ind: Indicators)
    requires PriceOnly(cfg, ind) && Alike(cfg, d, e) && price > 0.0
    requires cfg.tp.enabled ==> cfg.tp.priceEnabled
    requires cfg.wickSim ==> !Seen(cfg, d)
    ensures var v, w := CheckTp(cfg, FoldTrackers(d, price), price, ind), CandleTp(cfg, e, Flat(price), false);
            && (v.Leave? <==> w.Leave?)
            && (v.Leave? ==> v.reason == w.reason == TP && v.fill == price && 0.0 < w.fill <= price)
  {
    if cfg.tp.enabled {
      assert Target(cfg, FoldTrackers(d, price)) == TpLine(cfg, e) == Target(cfg, d);
      SoundAvg(e.orders);
      DivPositive(Avg(e), TpDivisor(cfg.tp.pct, Long));
    }
  }

  lemma {:induction false} SameSl(cfg: Config, d: Deal, e: Deal, price: real)
    requires cfg.Valid() && Alike(cfg, d, e) && price > 0.0
    requires cfg.stop.kind.Trailing? ==> NewPeak(cfg, FoldTrackers(d, price), price) == CandlePeak(e, Flat(price))
    ensures var v, w := CheckSl(cfg, FoldTrackers(d, price), price), CandleSl(cfg, e, Flat(price));
            && (v.Leave? <==> w.Leave?)
            && (v.Leave? ==> v.reason == w.reason == SL && v.fill == price <= w.fill)
  {
  }

  lemma {:induction false} SameDca(cfg: Config, d: Deal, e: Deal, price: real)
    requires cfg.Valid() && Alike(cfg, d, e) && price > 0.0
    requires cfg.stop.kind.Trailing? ==> NewPeak(cfg, FoldTrackers(d, price), price) == CandlePeak(e, Flat(price))
    ensures var d1, e1 := AfterStopCheck(cfg, FoldTrackers(d, price), price), AfterCandleStop(cfg, e, Flat(price));
            && d1.trackers.peak == e1.trackers.peak && d1.orders == e1.orders == d.orders && d1.leverage == e1.leverage
            && CheckDca(cfg, d1, price) == CandleDca(cfg, e1, price)
  {
  }

  /** The steps of the two engines meet whenever their take-profits and trailing peaks do. */
  lemma {:induction false} SameStep(cfg: Config, d: Deal, e: Deal, price: real, ind: Indicators)
    requires PriceOnly(cfg, ind) && Alike(cfg, d, e) && price > 0.0
    requires cfg.tp.enabled ==> cfg.tp.priceEnabled
    requires cfg.wickSim ==> !Seen(cfg, d)
    requires cfg.stop.kind.Trailing? ==> NewPeak(cfg, FoldTrackers(d, price), price) == CandlePeak(e, Flat(price))
    ensures var v, w := TickVerdict(cfg, d, price, ind), CandleVerdict(cfg, e, price);
            && Agree(v, w) && FillsApart(v, w, price)
            && Plain(cfg, v.deal) && Plain(cfg, w.deal)
  {
    var v, w := TickVerdict(cfg, d, price, ind), CandleVerdict(cfg, e, price);
    TickSound(cfg, d, Tick(price, ind));
    CandleKeepsPlain(cfg, e, Flat(price), false);
    SameTp(cfg, d, e, price, ind);
    SameSl(cfg, d, e, price);
    SameDca(cfg, d, e, price);
    if w.Closes? && w.reason == SL { assert w.fill >= price; }
    assert v.deal.side == d.side && v.deal.overrides == d.overrides;
  }

  // ---- Whole runs --------------------------------------------------------------------------

  /** Tick by tick the engines agree until both close on the same tick, at fills that differ only as stated. */
  ghost predicate InStep(cfg: Config, d: Deal, e: Deal, ticks: seq<Tick>)
    requires cfg.Valid() && Plain(cfg, d) && Plain(cfg, e)
    requires forall i :: 0 <= i < |ticks| ==> PriceTick(cfg, ticks[i])
    decreases |ticks|
  {
    if ticks == [] then true
    else
      assert PriceTick(cfg, ticks[0]);
      var v, w := TickVerdict(cfg, d, ticks[0].price, ticks[0].ind), CandleVerdict(cfg, e, ticks[0].price);
      && Agree(v, w) && FillsApart(v, w, ticks[0].price)
      && Plain(cfg, v.deal) && Plain(cfg, w.deal)
      && (v.Closes? || InStep(cfg, v.deal, w.deal, ticks[1..]))
  }

  /** With wick simulation off the two engines move in step on every price series. */
  lemma {:induction false} EnginesInStep(cfg: Config, d: Deal, e: Deal, ticks: seq<Tick>)
    requires PriceRules(cfg) && Alike(cfg, d, e) && !cfg.wickSim
    requires cfg.tp.enabled ==> cfg.tp.priceEnabled
    requires forall i :: 0 <= i < |ticks| ==> PriceTick(cfg, ticks[i])
    ensures InStep(cfg, d, e, ticks)
    decreases |ticks|
  {
    if ticks != [] {
      SamePeak(cfg, d, e, ticks[0].price);
      SameStep(cfg, d, e, ticks[0].price, ticks[0].ind);
      var v, w := TickVerdict(cfg, d, ticks[0].price, ticks[0].ind), CandleVerdict(cfg, e, ticks[0].price);
      if v.Stays? {
        EnginesInStep(cfg, v.deal, w.deal, ticks[1..]);
      }
    }
  }

  /** So a take-profit pays at least as much live as in the backtest, and a stop costs at least as much. */
  lemma {:induction false} BacktestBounds(v: Verdict, w: Verdict, price: real)
    requires Agree(v, w) && FillsApart(v, w, price) && v.Closes? && price > 0.0
    requires SoundOrders(v.deal.orders) && v.deal.leverage > 0
    ensures TotalSize(v.deal.orders) > 0.0
    ensures var live := CalculatePnl(Long, v.deal.leverage, v.deal.orders, v.fill).0;
            var simulated := CalculatePnl(Long, w.deal.leverage, w.deal.orders, w.fill).0;
            && (v.reason == TP ==> live >= simulated)
            && (v.reason == SL ==> live <= simulated)
  {
    SoundSums(v.deal.orders);
    if v.reason == TP {
      PnlMonotone(Long, v.deal.leverage, v.deal.orders, w.fill, price);
    }
    if v.reason == SL {
      PnlMonotone(Long, v.deal.leverage, v.deal.orders, price, w.fill);
    }
  }

  // ---- Where they part -----------------------------------------------------------------------

  /**
   The tick engine never reads the switch for the price take-profit. With the switch off the
   engines agree on a tick exactly when the price has not reached the target.
   */
  lemma {:induction false} PriceSwitchIff(cfg: Config, d: Deal, e: Deal, price: real, ind: Indicators)
    requires PriceOnly(cfg, ind) && Alike(cfg, d, e) && price > 0.0 && !cfg.wickSim
    requires cfg.tp.enabled && !cfg.tp.priceEnabled
    ensures Agree(TickVerdict(cfg, d, price, ind), CandleVerdict(cfg, e, price)) <==> price < Target(cfg, d)
  {
    var on := cfg.(tp := cfg.tp.(priceEnabled := true));
    SamePeak(cfg, d, e, price);
    assert Target(cfg, FoldTrackers(d, price)) == Target(cfg, d);
    SameSl(cfg, d, e, price);
    SameDca(cfg, d, e, price);
    if price < Target(cfg, d) {
      assert CheckTp(cfg, FoldTrackers(d, price), price, ind).Stay?;
    } else {
      assert TickVerdict(cfg, d, price, ind).reason == TP;
      assert CandleTp(cfg, e, Flat(price), false).Stay?;
    }
  }

  /**
   With wick simulation on, a trailing stop starts from the entry price in the tick engine
   but from the first candle in the backtest: on the first tick after the entry the engines
   agree exactly when the price is not below the entry.
   */
  lemma {:induction false} FirstTickIff(cfg: Config, id: DealId, entry: real, price: real, ind: Indicators)
    requires PriceOnly(cfg, ind) && cfg.wickSim && cfg.stop.kind.Trailing? && cfg.stop.pct > 0.0
    requires cfg.tp.enabled ==> cfg.tp.priceEnabled
    requires entry > 0.0 && price > 0.0
    ensures Plain(cfg, OpenedDeal(cfg, id, Long, entry))
    ensures var d := OpenedDeal(cfg, id, Long, entry);
            Agree(TickVerdict(cfg, d, price, ind), CandleVerdict(cfg, d, price)) <==> price >= entry
  {
    var d := OpenedDeal(cfg, id, Long, entry);
    OpenedIsPlain(cfg, id, entry);
    OpenedTargetUnseen(cfg, id, Long, entry);
    if price >= entry {
      SamePeak(cfg, d, d, price);
      SameStep(cfg, d, d, price, ind);
    } else {
      BelowEntry(cfg, d, entry, price, ind);
    }
  }

  lemma {:induction false} BelowEntry(cfg: Config, d: Deal, entry: real, price: real, ind: Indicators)
    requires PriceOnly(cfg, ind) && cfg.wickSim && cfg.stop.kind.Trailing? && cfg.stop.pct > 0.0
    requires 0.0 < price < entry && Plain(cfg, d) && !Seen(cfg, d)
    requires d.trackers == Trackers(0.0, entry, entry)
    ensures !Agree(TickVerdict(cfg, d, price, ind), CandleVerdict(cfg, d, price))
  {
    var x := SlDivisor(cfg.stop.pct, Long);
    DivLe(price, price, x);
    assert price * x > price;
    assert CandlePeak(d, Flat(price)) == price;
    assert CandleSl(cfg, d, Flat(price)).Stay?;
    assert NewPeak(cfg, FoldTrackers(d, price), price) == entry;
    SameTpUnseen(cfg, d, price, ind);
    assert CandleVerdict(cfg, d, price).Stays? && CandleVerdict(cfg, d, price).deal.trackers.peak == price;
  }

  lemma {:induction false} SameTpUnseen(cfg: Config, d: Deal, price: real, ind: Indicators)
    requires PriceOnly(cfg, ind) && Plain(cfg, d) && !Seen(cfg, d) && 0.0 < price <= d.trackers.high
    ensures CheckTp(cfg, FoldTrackers(d, price), price, ind).Stay?
    ensures CandleTp(cfg, d, Flat(price), false).Stay?
  {
    if cfg.tp.enabled {
      assert Target(cfg, FoldTrackers(d, price)) == TpLine(cfg, d) == Target(cfg, d);
    }
  }

  /** The trailing peak already holds every tick seen. */
  predicate PeakHoldsHigh(d: Deal) { d.trackers.high <= d.trackers.peak }

  lemma {:induction false} PeakKept(cfg: Config, d: Deal, e: Deal, price: real, ind: Indicators)
    requires PriceOnly(cfg, ind) && cfg.wickSim && cfg.stop.kind.Trailing? && Alike(cfg, d, e) && price > 0.0
    requires NeverAverages(cfg, d) && !Seen(cfg, d) && (cfg.tp.enabled ==> cfg.tp.priceEnabled)
    requires d.trackers.high <= Max(if d.trackers.peak == 0.0 then price else d.trackers.peak, price)
    ensures var v := TickVerdict(cfg, d, price, ind);
            v.Stays? && SoundDeal(cfg, v.deal) ==>
              PeakHoldsHigh(v.deal) && !Seen(cfg, v.deal) && NeverAverages(cfg, v.deal)
  {
    var v, d0 := TickVerdict(cfg, d, price, ind), FoldTrackers(d, price);
    if v.Stays? {
      var d1 := AfterStopCheck(cfg, d0, price);
      assert CheckDca(cfg, d1, price).None?;
      assert v.deal == d1;
      if cfg.tp.enabled {
        assert Target(cfg, d0) == Target(cfg, d);
        assert Target(cfg, d1) == Target(cfg, d);
        assert CheckTp(cfg, d0, price, ind).Stay?;
      }
    }
  }

  lemma {:induction false} WickInStep(cfg: Config, d: Deal, e: Deal, ticks: seq<Tick>)
    requires PriceRules(cfg) && cfg.wickSim && cfg.stop.kind.Trailing? && Alike(cfg, d, e)
    requires NeverAverages(cfg, d) && !Seen(cfg, d) && (cfg.tp.enabled ==> cfg.tp.priceEnabled)
    requires forall i :: 0 <= i < |ticks| ==> PriceTick(cfg, ticks[i])
    requires ticks != [] ==>
               var p := ticks[0].price;
               d.trackers.high <= Max(if d.trackers.peak == 0.0 then p else d.trackers.peak, p)
    ensures InStep(cfg, d, e, ticks)
    decreases |ticks|
  {
    if ticks != [] {
      SamePeak(cfg, d, e, ticks[0].price);
      SameStep(cfg, d, e, ticks[0].price, ticks[0].ind);
      PeakKept(cfg, d, e, ticks[0].price, ticks[0].ind);
      var v, w := TickVerdict(cfg, d, ticks[0].price, ticks[0].ind), CandleVerdict(cfg, e, ticks[0].price);
      if v.Stays? {
        WickInStep(cfg, v.deal, w.deal, ticks[1..]);
      }
    }
  }

  /**
   For a trailing stop under wick simulation, without averaging down, the engines stay in
   step over a whole run exactly when the first price after the entry is not below it.
   */
  lemma {:induction false} WickTrailingInStepIff(cfg: Config, id: DealId, entry: real, ticks: seq<Tick>)
    requires PriceRules(cfg) && cfg.wickSim && cfg.stop.kind.Trailing? && cfg.stop.pct > 0.0
    requires cfg.tp.enabled ==> cfg.tp.priceEnabled
    requires !cfg.dca.enabled || cfg.dca.maxOrders <= 1
    requires entry > 0.0 && ticks != [] && forall i :: 0 <= i < |ticks| ==> PriceTick(cfg, ticks[i])
    ensures Plain(cfg, OpenedDeal(cfg, id, Long, entry))
    ensures var d := OpenedDeal(cfg, id, Long, entry);
            InStep(cfg, d, d, ticks) <==> ticks[0].price >= entry
  {
    var d := OpenedDeal(cfg, id, Long, entry);
    OpenedIsPlain(cfg, id, entry);
    OpenedTargetUnseen(cfg, id, Long, entry);
    FirstTickIff(cfg, id, entry, ticks[0].price, ticks[0].ind);
    if ticks[0].price >= entry {
      WickInStep(cfg, d, d, ticks);
    }
  }

  // ---- Exactly when they agree -----------------------------------------------------------------

  /** The price stands at the take-profit target in force. */
  predicate AtTarget(cfg: Config, d: Deal, price: real)
    requires Computes(cfg, d)
  {
    TpOf(cfg, d).TpAt? && Reached(d.side, price, Target(cfg, d))
  }

  /** The trailing peak of the tick engine has nothing to remember that this price does not show. */
  predicate PeaksMeet(cfg: Config, d: Deal, price: real) {
    cfg.wickSim ==> d.trackers.high <= Max(if d.trackers.peak == 0.0 then price else d.trackers.peak, price)
  }

  /** What the two engines need on one price: no target left behind, and no extreme the peak does not hold. */
  predicate Meets(cfg: Config, d: Deal, price: real)
    requires Computes(cfg, d)
  {
    && (cfg.wickSim && Seen(cfg, d) ==> AtTarget(cfg, d, price))
    && (cfg.stop.kind.Trailing? ==> AtTarget(cfg, d, price) || PeaksMeet(cfg, d, price))
  }

  lemma {:induction false} PeaksMeetIff(cfg: Config, d: Deal, e: Deal, price: real)
    requires Alike(cfg, d, e) && price > 0.0
    ensures NewPeak(cfg, FoldTrackers(d, price), price) == CandlePeak(e, Flat(price)) <==> PeaksMeet(cfg, d, price)
  {
  }

  lemma {:induction false} TpsAt(cfg: Config, d: Deal, e: Deal, price: real, ind: Indicators)
    requires PriceOnly(cfg, ind) && Alike(cfg, d, e) && price > 0.0 && (cfg.tp.enabled ==> cfg.tp.priceEnabled)
    ensures CandleTp(cfg, e, Flat(price), false).Leave? <==> AtTarget(cfg, d, price)
    ensures CheckTp(cfg, FoldTrackers(d, price), price, ind).Leave?
            <==> AtTarget(cfg, d, price) || (cfg.wickSim && Seen(cfg, d))
  {
    if cfg.tp.enabled {
      assert Target(cfg, FoldTrackers(d, price)) == TpLine(cfg, e) == Target(cfg, d);
    }
  }

  /** One step at the target: both take profit and leave the peak alone. */
  lemma {:induction false} StepAtTarget(cfg: Config, d: Deal, e: Deal, price: real, ind: Indicators)
    requires PriceOnly(cfg, ind) && Alike(cfg, d, e) && price > 0.0 && (cfg.tp.enabled ==> cfg.tp.priceEnabled)
    requires AtTarget(cfg, d, price)
    ensures var v, w := TickVerdict(cfg, d, price, ind), CandleVerdict(cfg, e, price);
            Agree(v, w) && FillsApart(v, w, price) && Plain(cfg, v.deal) && Plain(cfg, w.deal)
  {
    TpsAt(cfg, d, e, price, ind);
    assert Target(cfg, FoldTrackers(d, price)) == TpLine(cfg, e) == Target(cfg, d);
    SoundAvg(e.orders);
    DivPositive(Avg(e), TpDivisor(cfg.tp.pct, Long));
    TickSound(cfg, d, Tick(price, ind));
    CandleKeepsPlain(cfg, e, Flat(price), false);
  }

  /** One step away from it: the tick engine may still fill at it, or its peak may remember more. */
  lemma {:induction false} StepOffTarget(cfg: Config, d: Deal, e: Deal, price: real, ind: Indicators)
    requires PriceOnly(cfg, ind) && Alike(cfg, d, e) && price > 0.0 && (cfg.tp.enabled ==> cfg.tp.priceEnabled)
    requires !AtTarget(cfg, d, price) && !Meets(cfg, d, price)
    ensures !Agree(TickVerdict(cfg, d, price, ind), CandleVerdict(cfg, e, price))
  {
    TpsAt(cfg, d, e, price, ind);
    PeaksMeetIff(cfg, d, e, price);
    assert SL != TP by { assert SL[0] != TP[0]; }
  }

  lemma {:induction false} StepAgreesIff(cfg: Config, d: Deal, e: Deal, price: real, ind: Indicators)
    requires PriceOnly(cfg, ind) && Alike(cfg, d, e) && price > 0.0 && (cfg.tp.enabled ==> cfg.tp.priceEnabled)
    ensures var v, w := TickVerdict(cfg, d, price, ind), CandleVerdict(cfg, e, price);
            && (Agree(v, w) <==> Meets(cfg, d, price))
            && (Agree(v, w) ==> FillsApart(v, w, price) && Plain(cfg, v.deal) && Plain(cfg, w.deal))
  {
    if AtTarget(cfg, d, price) {
      StepAtTarget(cfg, d, e, price, ind);
    } else if Meets(cfg, d, price) {
      PeaksMeetIff(cfg, d, e, price);
      SameStep(cfg, d, e, price, ind);
    } else {
      StepOffTarget(cfg, d, e, price, ind);
    }
  }

  /** The condition of every step, up to the one that closes the deal; the backtest does not appear in it. */
  ghost predicate MeetsAlong(cfg: Config, d: Deal, ticks: seq<Tick>)
    requires cfg.Valid() && Plain(cfg, d)
    requires forall i :: 0 <= i < |ticks| ==> PriceTick(cfg, ticks[i])
    decreases |ticks|
  {
    if ticks == [] then true
    else
      assert PriceTick(cfg, ticks[0]);
      var v := TickVerdict(cfg, d, ticks[0].price, ticks[0].ind);
      TickSound(cfg, d, ticks[0]);
      TickKeepsPlain(cfg, d, ticks[0]);
      Meets(cfg, d, ticks[0].price) && (v.Closes? || MeetsAlong(cfg, v.deal, ticks[1..]))
  }

  lemma {:induction false} TickKeepsPlain(cfg: Config, d: Deal, tick: Tick)
    requires cfg.Valid() && Plain(cfg, d) && tick.price > 0.0
    ensures Plain(cfg, TickDeal(cfg, d, tick).deal)
  {
    TickSound(cfg, d, tick);
    StopStays(cfg, d, tick);
  }

  /** The engines stay in step over a run exactly when every step of it meets, averaging down included. */
  lemma {:induction false} InStepIff(cfg: Config, d: Deal, e: Deal, ticks: seq<Tick>)
    requires PriceRules(cfg) && Alike(cfg, d, e) && (cfg.tp.enabled ==> cfg.tp.priceEnabled)
    requires forall i :: 0 <= i < |ticks| ==> PriceTick(cfg, ticks[i])
    ensures InStep(cfg, d, e, ticks) <==> MeetsAlong(cfg, d, ticks)
    decreases |ticks|
  {
    if ticks != [] {
      assert PriceTick(cfg, ticks[0]);
      StepAgreesIff(cfg, d, e, ticks[0].price, ticks[0].ind);
      TickKeepsPlain(cfg, d, ticks[0]);
      var v, w := TickVerdict(cfg, d, ticks[0].price, ticks[0].ind), CandleVerdict(cfg, e, ticks[0].price);
      if Agree(v, w) && v.Stays? {
        InStepIff(cfg, v.deal, w.deal, ticks[1..]);
      }
    }
  }
}
