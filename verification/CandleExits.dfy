/**
 What a backtest does with a whole candle, in percentages and plain prices: the high takes
 profit, the low stops out, the close averages down and enters
 (backtest/backtest_engine.py, `_process_candle`, `_check_tp_sl_intracandle`, `run`).
 */
module CandleExits {
  import opened Options
  import opened InversePerpMath
  import opened Deals
  import opened TickRules
  import opened PaperLedger
  import opened ExitGuarantees
  import opened DcaLevels
  import opened CandleRules
  import opened BacktestRuns

  /** The candle's high is worth the configured goal. */
  predicate PriceTakes(cfg: Config, d: Deal, c: Candle)
    requires Orderly(d)
  {
    cfg.tp.enabled && cfg.tp.priceEnabled && PctAt(d, c.high) >= Goal(d.leverage, cfg.tp.pct)
  }

  predicate GroupTakes(cfg: Config, groupHit: bool) { cfg.tp.enabled && cfg.tp.groups && groupHit }

  /**
   A candle takes profit exactly when its high is worth the goal or an indicator group fires:
   at a price worth exactly the goal in the first case, else at its close.
   */
  lemma {:induction false} CandleTakesProfitIff(cfg: Config, d: Deal, c: Candle, groupHit: bool)
    requires cfg.Valid() && Plain(cfg, d) && c.Priced()
    ensures var v := CandleDeal(cfg, d, c, groupHit);
            && (v.Closes? && v.reason == TP <==> PriceTakes(cfg, d, c) || GroupTakes(cfg, groupHit))
            && (PriceTakes(cfg, d, c) ==>
                  && v.fill > 0.0 && PctAt(d, v.fill) == Goal(d.leverage, cfg.tp.pct)
                  && v.deal.closing.trigger == Some(PRICE_TP))
            && (!PriceTakes(cfg, d, c) && GroupTakes(cfg, groupHit) ==>
                  v.fill == c.close && v.deal.closing.trigger == Some(INDICATOR_TP))
  {
    assert SL != TP by { assert SL[0] != TP[0]; }
    if cfg.tp.enabled {
      TargetIsGoal(cfg, d, c.high);
      assert TpLine(cfg, d) == Target(cfg, d);
    }
  }

  /** Without a take-profit a fixed stop fires exactly when the low is worth its loss or less, and costs that loss. */
  lemma {:induction false} CandleStopsOutIff(cfg: Config, d: Deal, c: Candle, groupHit: bool)
    requires cfg.Valid() && Plain(cfg, d) && c.Priced() && cfg.stop.kind.Fixed?
    requires !PriceTakes(cfg, d, c) && !GroupTakes(cfg, groupHit)
    ensures var v := CandleDeal(cfg, d, c, groupHit);
            && (v.Closes? <==> PctAt(d, c.low) <= Goal(d.leverage, -cfg.stop.pct))
            && (v.Closes? ==>
                  && v.reason == SL && v.deal.closing.trigger == Some(PRICE_SL)
                  && v.fill > 0.0 && PctAt(d, v.fill) == Goal(d.leverage, -cfg.stop.pct))
  {
    CandleTakesProfitIff(cfg, d, c, groupHit);
    SlTargetExact(d.side, d.leverage, d.orders, cfg.stop.pct, c.low);
  }

  /** No stop and no take-profit: the deal stays. */
  lemma {:induction false} CandleWithoutStop(cfg: Config, d: Deal, c: Candle, groupHit: bool)
    requires cfg.Valid() && Plain(cfg, d) && c.Priced() && cfg.stop.kind.NoStop?
    requires !PriceTakes(cfg, d, c) && !GroupTakes(cfg, groupHit)
    ensures CandleDeal(cfg, d, c, groupHit).Stays?
  {
    CandleTakesProfitIff(cfg, d, c, groupHit);
  }

  // ---- The trailing stop over a run of candles -------------------------------------------------

  /** The largest of the first opening price and all highs. */
  ghost predicate IsHighest(m: real, cs: seq<Candle>) {
    && cs != []
    && (m == cs[0].first || exists k :: 0 <= k < |cs| && m == cs[k].high)
    && m >= cs[0].first && forall k :: 0 <= k < |cs| ==> m >= cs[k].high
  }

  predicate AllPriced(cs: seq<Candle>) { forall k :: 0 <= k < |cs| ==> cs[k].Priced() }

  /** The deal after a run of candles, None if one of them closed it. */
  function Held(cfg: Config, d: Deal, cs: seq<Candle>, hits: seq<bool>): (e: Option<Deal>)
    requires cfg.Valid() && Plain(cfg, d) && AllPriced(cs) && |hits| == |cs|
    ensures e.Some? ==> Plain(cfg, e.value)
    decreases |cs|
  {
    if cs == [] then Some(d)
    else
      var n := |cs| - 1;
      match Held(cfg, d, cs[..n], hits[..n])
      case None => None
      case Some(e) =>
        CandleKeepsPlain(cfg, e, cs[n], hits[n]);
        var v := CandleDeal(cfg, e, cs[n], hits[n]);
        if v.Closes? then None else Some(v.deal)
  }

  /** One candle under a trailing stop: the high moves the peak, the low is held against it. */
  lemma {:induction false} TrailingCandle(cfg: Config, d: Deal, c: Candle, groupHit: bool, peak: real)
    requires cfg.Valid() && Plain(cfg, d) && c.Priced() && cfg.stop.kind.Trailing?
    requires var from := if d.trackers.peak == 0.0 then c.first else d.trackers.peak;
             peak >= from && peak >= c.high && (peak == from || peak == c.high)
    ensures var v := CandleDeal(cfg, d, c, groupHit);
            && v.deal.side == d.side
            && (v.Stays? ==> v.deal.trackers.peak == peak)
            && (!PriceTakes(cfg, d, c) && !GroupTakes(cfg, groupHit) ==>
                  && (v.Closes? <==> c.low * (1.0 + cfg.stop.pct / 100.0) <= peak)
                  && (v.Closes? ==> v.reason == SL && v.fill * (1.0 + cfg.stop.pct / 100.0) == peak))
  {
    CandleTakesProfitIff(cfg, d, c, groupHit);
    assert CandlePeak(d, c) == peak;
    DivLe(peak, c.low, 1.0 + cfg.stop.pct / 100.0);
    DivLe(peak, SlLine(cfg, d, c), 1.0 + cfg.stop.pct / 100.0);
  }

  /** The peak a deal carries after these candles; none before the first. */
  ghost predicate PeakOf(m: real, cs: seq<Candle>) {
    if cs == [] then m == 0.0 else m > 0.0 && IsHighest(m, cs)
  }

  lemma {:induction false} HighestSnoc(m: real, cs: seq<Candle>, c: Candle, peak: real)
    requires PeakOf(m, cs) && c.Priced()
    requires var from := if cs == [] then c.first else m;
             peak >= from && peak >= c.high && (peak == from || peak == c.high)
    ensures PeakOf(peak, cs + [c])
  {
    var all := cs + [c];
    assert all[|cs|] == c && forall k :: 0 <= k < |cs| ==> all[k] == cs[k];
    if cs != [] && m != cs[0].first {
      var k :| 0 <= k < |cs| && m == cs[k].high;
      assert all[k] == cs[k];
    }
  }

  /** A candle survived leaves the peak of all candles so far. */
  lemma {:induction false} PeakStep(cfg: Config, d: Deal, cs: seq<Candle>, c: Candle, groupHit: bool)
    requires cfg.Valid() && Plain(cfg, d) && c.Priced() && cfg.stop.kind.Trailing?
    requires PeakOf(d.trackers.peak, cs) && CandleDeal(cfg, d, c, groupHit).Stays?
    ensures PeakOf(CandleDeal(cfg, d, c, groupHit).deal.trackers.peak, cs + [c])
  {
    var m := d.trackers.peak;
    var from := if m == 0.0 then c.first else m;
    var peak := if c.high > from then c.high else from;
    TrailingCandle(cfg, d, c, groupHit, peak);
    HighestSnoc(m, cs, c, peak);
  }

  /** The last step of a run that was survived. */
  lemma {:induction false} HeldLast(cfg: Config, d: Deal, cs: seq<Candle>, hits: seq<bool>)
    returns (n: nat, before: Deal)
    requires cfg.Valid() && Plain(cfg, d) && AllPriced(cs) && |hits| == |cs| && cs != []
    requires Held(cfg, d, cs, hits).Some?
    ensures n == |cs| - 1 && Held(cfg, d, cs[..n], hits[..n]) == Some(before) && Plain(cfg, before)
    ensures var v := CandleDeal(cfg, before, cs[n], hits[n]);
            v.Stays? && Held(cfg, d, cs, hits) == Some(v.deal)
  {
    n := |cs| - 1;
    before := Held(cfg, d, cs[..n], hits[..n]).value;
  }

  /** A deal that has survived a run of candles from its opening carries the highest price of the run as its peak. */
  lemma {:induction false} PeakIsHighest(cfg: Config, d: Deal, cs: seq<Candle>, hits: seq<bool>, e: Deal)
    requires cfg.Valid() && Plain(cfg, d) && AllPriced(cs) && |hits| == |cs|
    requires cfg.stop.kind.Trailing? && d.trackers.peak == 0.0 && Held(cfg, d, cs, hits) == Some(e)
    ensures PeakOf(e.trackers.peak, cs)
    decreases |cs|
  {
    if cs != [] {
      var n, before := HeldLast(cfg, d, cs, hits);
      var front, last := cs[..n], cs[n];
      PeakIsHighest(cfg, d, front, hits[..n], before);
      PeakStep(cfg, before, front, last, hits[n]);
      assert cs == front + [last];
    }
  }

  /** The candle after those. */
  lemma {:induction false} TrailingNext(
    cfg: Config, e: Deal, cs: seq<Candle>, c: Candle, groupHit: bool, peak: real)
    requires cfg.Valid() && Plain(cfg, e) && c.Priced() && cfg.stop.kind.Trailing?
    requires PeakOf(e.trackers.peak, cs) && IsHighest(peak, cs + [c])
    requires !PriceTakes(cfg, e, c) && !GroupTakes(cfg, groupHit)
    ensures var v := CandleDeal(cfg, e, c, groupHit);
            && (v.Closes? <==> c.low * (1.0 + cfg.stop.pct / 100.0) <= peak)
            && (v.Closes? ==> v.reason == SL && v.fill * (1.0 + cfg.stop.pct / 100.0) == peak)
  {
    var m := e.trackers.peak;
    var from := if m == 0.0 then c.first else m;
    var top := if c.high > from then c.high else from;
    HighestSnoc(m, cs, c, top);
    HighestUnique(top, peak, cs + [c]);
    TrailingCandle(cfg, e, c, groupHit, peak);
  }

  /**
   Over a run of candles from the opening on, a trailing stop closes the deal on the next one
   exactly when its low is the configured percentage below the highest price, this candle's
   high included, and fills exactly there.
   */
  lemma {:induction false} TrailingStopIff(
    cfg: Config, d: Deal, cs: seq<Candle>, hits: seq<bool>, e: Deal, c: Candle, groupHit: bool, peak: real)
    requires cfg.Valid() && Plain(cfg, d) && AllPriced(cs) && |hits| == |cs| && c.Priced()
    requires cfg.stop.kind.Trailing? && d.trackers.peak == 0.0 && IsHighest(peak, cs + [c])
    requires Held(cfg, d, cs, hits) == Some(e)
    requires !PriceTakes(cfg, e, c) && !GroupTakes(cfg, groupHit)
    ensures var v := CandleDeal(cfg, e, c, groupHit);
            && (v.Closes? <==> c.low * (1.0 + cfg.stop.pct / 100.0) <= peak)
            && (v.Closes? ==> v.reason == SL && v.fill * (1.0 + cfg.stop.pct / 100.0) == peak)
  {
    PeakIsHighest(cfg, d, cs, hits, e);
    TrailingNext(cfg, e, cs, c, groupHit, peak);
  }

  lemma {:induction false} HighestUnique(a: real, b: real, cs: seq<Candle>)
    requires IsHighest(a, cs) && IsHighest(b, cs)
    ensures a == b
  {
  }

  // ---- The close ---------------------------------------------------------------------------------

  /** A deal that stays is averaged down exactly when it may be and the close is far enough, at the close as planned. */
  lemma {:induction false} CandleAveragesIff(
    cfg: Config, d: Deal, c: Candle, groupHit: bool, spacings: seq<real>, sizes: seq<real>)
    requires cfg.Valid() && Plain(cfg, d) && c.Priced() && Plan(cfg, spacings, sizes)
    requires DcaCount(d.orders) == |d.orders| - 1 && |d.orders| <= |spacings| && |d.orders| <= |sizes|
    requires CandleDeal(cfg, d, c, groupHit).Stays?
    ensures var v, n := CandleDeal(cfg, d, c, groupHit), |d.orders|;
            && (v.averaged <==>
                  cfg.dca.enabled && n < cfg.dca.maxOrders
                  && c.close <= d.orders[n - 1].price * (1.0 - spacings[n - 1] / 100.0))
            && (!v.averaged ==> v.deal.orders == d.orders)
            && (v.averaged ==>
                  v.deal.orders
                  == d.orders + [Order(n + 1, c.close, RoundTo(sizes[n - 1], EIGHT_DECIMALS), DcaOrder)])
  {
    var d1 := AfterCandleStop(cfg, d, c);
    CandleDcaIsTickDca(cfg, d1, c.close);
    DcaPlacedIff(cfg, d1, c.close, spacings, sizes);
  }

  /** What a candle's exit leaves in the books: the deal in history at its fill, with the profit of its orders there. */
  lemma {:induction false} CandleExitBooked(cfg: Config, b: Book, c: Candle, groupHit: bool)
    requires cfg.Valid() && PlainBook(cfg, b) && c.Priced() && b.open.Some?
    requires CandleDeal(cfg, b.open.value, c, groupHit).Closes?
    ensures var v, r := CandleDeal(cfg, b.open.value, c, groupHit), MonitorCandle(cfg, b, c, groupHit);
            && r.open.None? && r.everOpened == b.everOpened && |r.closed| == |b.closed| + 1
            && r.closed[..|b.closed|] == b.closed
            && var gone := r.closed[|b.closed|];
               && gone.id == b.open.value.id && gone.orders == b.open.value.orders && !gone.closing.isOpen
               && gone.closing.price == Some(v.fill) && gone.closing.reason == Some(v.reason)
               && Bookable(gone)
               && gone.closing.pnlBtc == CalculatePnl(gone.side, gone.leverage, gone.orders, v.fill).0
  {
    CandleKeepsPlain(cfg, b.open.value, c, groupHit);
    OrderlyIsBookable(CandleDeal(cfg, b.open.value, c, groupHit).deal);
  }

  /** A deal that stays is kept as the candle leaves it. */
  lemma {:induction false} CandleKeepsDeal(cfg: Config, b: Book, c: Candle, groupHit: bool)
    requires cfg.Valid() && PlainBook(cfg, b) && c.Priced()
    requires b.open.Some? && CandleDeal(cfg, b.open.value, c, groupHit).Stays?
    ensures var r := MonitorCandle(cfg, b, c, groupHit);
            && r.open == Some(CandleDeal(cfg, b.open.value, c, groupHit).deal)
            && r.closed == b.closed && r.everOpened == b.everOpened
  {
    CandleKeepsPlain(cfg, b.open.value, c, groupHit);
  }

  /** The candle leaves the books without an open deal before its entry check. */
  ghost predicate Empties(cfg: Config, b: Book, c: Candle, groupHit: bool)
    requires cfg.Valid() && PlainBook(cfg, b) && c.Priced()
  {
    b.open.None? || CandleDeal(cfg, b.open.value, c, groupHit).Closes?
  }

  /**
   A candle opens a deal exactly when none is open after its exits, there are candles to look
   at and the entry signal is given: a long base order of the configured size and leverage,
   at the close.
   */
  lemma {:induction false} CandleEntersIff(s: Setup, b: Book, c: Candle, w: Windows, id: DealId)
    requires s.cfg.Valid() && PlainBook(s.cfg, b) && c.Priced() && s.driving < |w|
    ensures var r := OnCandle(s, b, c, w, id);
            && (r.everOpened != b.everOpened
                <==> Empties(s.cfg, b, c, s.indicator.tpGroup(w)) && w[s.driving] != [] && s.indicator.entry(w))
            && (r.everOpened != b.everOpened ==>
                  && r.everOpened == b.everOpened + [id] && r.open.Some?
                  && var d := r.open.value;
                     && d.id == id && d.side.Long? && d.leverage == s.cfg.leverage
                     && d.orders == [Order(1, c.close, s.cfg.dca.baseSize, BaseOrder)]
                     && d.trackers == Trackers(0.0, c.close, c.close))
  {
  }

  /** The warm-up candles change nothing. */
  lemma {:induction false} WarmUpIdles(s: Setup, n: nat)
    requires s.Valid() && n <= |s.Drive()| && n <= 78
    ensures BookAt(s, n) == Start(s)
  {
    if n > 0 {
      WarmUpIdles(s, n - 1);
    }
  }

  /** A deal that is open when the data ends leaves at the last close, with the profit of its orders there. */
  lemma {:induction false} EndsAtLastClose(s: Setup, b: Book)
    requires s.Valid() && PlainBook(s.cfg, b) && s.Drive() != [] && b.open.Some?
    ensures var r, last := Finish(s, b), s.Drive()[|s.Drive()| - 1].close;
            && r.open.None? && |r.closed| == |b.closed| + 1 && r.closed[..|b.closed|] == b.closed
            && var gone := r.closed[|b.closed|];
               && gone.id == b.open.value.id && gone.orders == b.open.value.orders && Bookable(gone)
               && gone.closing.price == Some(last) && gone.closing.reason == Some(END_OF_DATA)
               && gone.closing.pnlBtc == CalculatePnl(gone.side, gone.leverage, gone.orders, last).0
  {
    OrderlyIsBookable(b.open.value);
  }
}
