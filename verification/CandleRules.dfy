/**
 What the candle-driven backtest decides about one open deal on one candle
 (backtest/backtest_engine.py, `_check_tp_sl_intracandle`, `_check_dca`, `_open_deal`, `_close_deal`).
 The rules are written a second time in the program and so are stated a second time here.
 */
module CandleRules {
  import opened Options
  import opened InversePerpMath
  import opened Deals
  import opened TickRules
  import opened PaperLedger

  /** One bar; `first` is its opening price. */
  datatype Candle = Candle(stamp: int, first: real, high: real, low: real, close: real)
  {
    predicate Priced() { first > 0.0 && high > 0.0 && low > 0.0 && close > 0.0 }
  }

  const TIMEOUT := "timeout"
  const END_OF_DATA := "end_of_data"

  /** The deals a backtest opens: always long, never edited. */
  predicate Plain(cfg: Config, d: Deal) {
    && SoundDeal(cfg, d)
    && d.side.Long?
    && d.overrides == Overrides(None, None, true)
  }

  lemma {:induction false} LongDivisors(cfg: Config)
    requires cfg.Valid()
    ensures TpDivisor(cfg.tp.pct, Long) > 0.0
    ensures SlDivisor(cfg.stop.pct, Long) > 0.0
  {
  }

  function TpLine(cfg: Config, d: Deal): real
    requires cfg.Valid() && Plain(cfg, d)
  {
    LongDivisors(cfg);
    TpTarget(Avg(d), cfg.tp.pct, d.side)
  }

  /** The price path fills at the target inside the candle, the indicator path at the close. */
  function CandleTp(cfg: Config, d: Deal, c: Candle, groupHit: bool): Exit
    requires cfg.Valid() && Plain(cfg, d)
  {
    if cfg.tp.enabled && cfg.tp.priceEnabled && c.high >= TpLine(cfg, d) then Leave(TpLine(cfg, d), TP, PRICE_TP)
    else if cfg.tp.enabled && cfg.tp.groups && groupHit then Leave(c.close, TP, INDICATOR_TP)
    else Stay
  }

  function CandlePeak(d: Deal, c: Candle): real {
    Max(if d.trackers.peak == 0.0 then c.first else d.trackers.peak, c.high)
  }

  function AfterCandleStop(cfg: Config, d: Deal, c: Candle): Deal {
    if cfg.stop.kind.Trailing? then d.(trackers := d.trackers.(peak := CandlePeak(d, c))) else d
  }

  function SlLine(cfg: Config, d: Deal, c: Candle): real
    requires cfg.Valid() && Plain(cfg, d)
  {
    LongDivisors(cfg);
    SlTarget(if cfg.stop.kind.Trailing? then CandlePeak(d, c) else Avg(d), cfg.stop.pct, d.side)
  }

  function CandleSl(cfg: Config, d: Deal, c: Candle): Exit
    requires cfg.Valid() && Plain(cfg, d)
  {
    if cfg.stop.kind.NoStop? then Stay
    else if c.low <= SlLine(cfg, d, c) then
      Leave(SlLine(cfg, d, c), SL, if cfg.stop.kind.Trailing? then TRAILING_SL else PRICE_SL)
    else Stay
  }

  function CandleDca(cfg: Config, d: Deal, price: real): Option<Order>
    requires |d.orders| > 0
  {
    if !cfg.dca.enabled || cfg.dca.maxOrders <= 1 || DcaCount(d.orders) >= cfg.dca.maxOrders - 1 then None
    else if price <= Below(d.orders[|d.orders| - 1].price, StepPct(cfg, DcaCount(d.orders))) then
      Some(Order(DcaCount(d.orders) + 2, price, DcaSize(cfg, DcaCount(d.orders)), DcaOrder))
    else None
  }

  /** Take-profit and stop inside the candle, then DCA at its close. */
  function CandleDeal(cfg: Config, d: Deal, c: Candle, groupHit: bool): Verdict
    requires cfg.Valid() && Plain(cfg, d)
  {
    var d1 := AfterCandleStop(cfg, d, c);
    Decide(d, d1, CandleTp(cfg, d, c, groupHit), CandleSl(cfg, d, c), CandleDca(cfg, d1, c.close))
  }

  lemma {:induction false} CandleDcaIsTickDca(cfg: Config, d: Deal, price: real)
    requires |d.orders| > 0 && d.side.Long? && d.overrides.dca
    ensures CandleDca(cfg, d, price) == CheckDca(cfg, d, price)
  {
  }

  lemma {:induction false} CandleKeepsPlain(cfg: Config, d: Deal, c: Candle, groupHit: bool)
    requires cfg.Valid() && Plain(cfg, d) && c.Priced()
    ensures Plain(cfg, CandleDeal(cfg, d, c, groupHit).deal)
    ensures CandleDeal(cfg, d, c, groupHit).deal.id == d.id
  {
    var d1 := AfterCandleStop(cfg, d, c);
    assert Plain(cfg, d1);
    CandleDcaIsTickDca(cfg, d1, c.close);
    var dca := CandleDca(cfg, d1, c.close);
    if dca.Some? {
      DcaOrderIsSound(cfg, d1, c.close);
    }
    DecideSound(cfg, d, d1, CandleTp(cfg, d, c, groupHit), CandleSl(cfg, d, c), dca);
  }

  lemma {:induction false} OpenedIsPlain(cfg: Config, id: DealId, price: real)
    requires cfg.Valid() && price > 0.0
    ensures Plain(cfg, OpenedDeal(cfg, id, Long, price))
  {
    OpenedIsSound(cfg, id, Long, price);
  }

  // ---- Books -----------------------------------------------------------------------------

  /** `opened` lists every deal id the backtest ever opened, in order. */
  datatype Book = Book(balance: real, feesPaid: real, open: Option<Deal>, closed: seq<Deal>, everOpened: seq<DealId>)

  /** The taker fee, rounded to ten decimals; a backtest never refuses one. */
  function CandleFee(cfg: Config, size: real): real {
    RoundTo(size * cfg.dca.takerFee, TEN_DECIMALS)
  }

  function Debit(b: Book, fee: real): Book {
    b.(balance := b.balance - fee, feesPaid := b.feesPaid + fee)
  }

  function ClosedOut(cfg: Config, b: Book, d: Deal, fill: real, reason: string): Book
    requires Bookable(d)
  {
    var c := ClosedDeal(d, fill, reason);
    Debit(b.(balance := b.balance + c.closing.pnlBtc, open := None, closed := b.closed + [c]),
          CandleFee(cfg, TotalSize(d.orders)))
  }

  predicate PlainBook(cfg: Config, b: Book) {
    b.open.Some? ==> Plain(cfg, b.open.value)
  }

  function MonitorCandle(cfg: Config, b: Book, c: Candle, groupHit: bool): Book
    requires cfg.Valid() && PlainBook(cfg, b) && c.Priced()
  {
    match b.open
    case None => b
    case Some(d) =>
      var v := CandleDeal(cfg, d, c, groupHit);
      CandleKeepsPlain(cfg, d, c, groupHit);
      OrderlyIsBookable(v.deal);
      if v.Closes? then ClosedOut(cfg, b, v.deal, v.fill, v.reason)
      else if v.averaged then
        Debit(b.(open := Some(v.deal)), CandleFee(cfg, v.deal.orders[|v.deal.orders| - 1].size))
      else b.(open := Some(v.deal))
  }

  function EnterCandle(cfg: Config, b: Book, price: real, signal: bool, id: DealId): Book {
    if b.open.None? && signal then
      Debit(b.(open := Some(OpenedDeal(cfg, id, Long, price)), everOpened := b.everOpened + [id]),
            CandleFee(cfg, cfg.dca.baseSize))
    else b
  }

  lemma {:induction false} MonitorKeepsPlain(cfg: Config, b: Book, c: Candle, groupHit: bool)
    requires cfg.Valid() && PlainBook(cfg, b) && c.Priced()
    ensures PlainBook(cfg, MonitorCandle(cfg, b, c, groupHit))
  {
    if b.open.Some? {
      CandleKeepsPlain(cfg, b.open.value, c, groupHit);
    }
  }

  lemma {:induction false} EnterKeepsPlain(cfg: Config, b: Book, price: real, signal: bool, id: DealId)
    requires cfg.Valid() && PlainBook(cfg, b) && price > 0.0
    ensures PlainBook(cfg, EnterCandle(cfg, b, price, signal, id))
  {
    OpenedIsPlain(cfg, id, price);
  }

  // ---- What one candle does to the money and to the list of deals --------------------------

  /** The fees of a deal's orders, each rounded on its own. */
  function OrderFees(cfg: Config, orders: seq<Order>): real {
    if orders == [] then 0.0
    else OrderFees(cfg, orders[..|orders| - 1]) + CandleFee(cfg, orders[|orders| - 1].size)
  }

  /** Entry fees order by order, one exit fee on the whole size. */
  function RoundTripFees(cfg: Config, closed: seq<Deal>): real {
    if closed == [] then 0.0
    else
      var d := closed[|closed| - 1];
      RoundTripFees(cfg, closed[..|closed| - 1]) + OrderFees(cfg, d.orders) + CandleFee(cfg, TotalSize(d.orders))
  }

  function OpenFees(cfg: Config, b: Book): real {
    if b.open.Some? then OrderFees(cfg, b.open.value.orders) else 0.0
  }

  /** No satoshi is lost and no deal is: money by source, fees by order, deals in the order they were opened. */
  predicate Balanced(cfg: Config, initial: real, b: Book) {
    && b.balance == initial + SumPnl(b.closed) - b.feesPaid
    && b.feesPaid == RoundTripFees(cfg, b.closed) + OpenFees(cfg, b)
    && b.everOpened == IdsOf(b.closed) + if b.open.Some? then [b.open.value.id] else []
  }

  lemma {:induction false} ClosedSnoc(cfg: Config, closed: seq<Deal>, d: Deal)
    ensures SumPnl(closed + [d]) == SumPnl(closed) + d.closing.pnlBtc
    ensures IdsOf(closed + [d]) == IdsOf(closed) + [d.id]
    ensures RoundTripFees(cfg, closed + [d])
         == RoundTripFees(cfg, closed) + OrderFees(cfg, d.orders) + CandleFee(cfg, TotalSize(d.orders))
  {
    assert (closed + [d])[..|closed|] == closed;
  }

  lemma {:induction false} FeesSnoc(cfg: Config, orders: seq<Order>, o: Order)
    ensures OrderFees(cfg, orders + [o]) == OrderFees(cfg, orders) + CandleFee(cfg, o.size)
  {
    assert (orders + [o])[..|orders|] == orders;
  }

  lemma {:induction false} ClosingBalances(cfg: Config, initial: real, b: Book, d: Deal, fill: real, reason: string)
    requires Balanced(cfg, initial, b) && b.open.Some? && Bookable(d)
    requires d.id == b.open.value.id && d.orders == b.open.value.orders
    ensures Balanced(cfg, initial, ClosedOut(cfg, b, d, fill, reason))
  {
    ClosedSnoc(cfg, b.closed, ClosedDeal(d, fill, reason));
  }

  lemma {:induction false} MonitorBalances(cfg: Config, initial: real, b: Book, c: Candle, groupHit: bool)
    requires cfg.Valid() && PlainBook(cfg, b) && c.Priced() && Balanced(cfg, initial, b)
    ensures Balanced(cfg, initial, MonitorCandle(cfg, b, c, groupHit))
  {
    if b.open.Some? {
      var d := b.open.value;
      var d1 := AfterCandleStop(cfg, d, c);
      var v := CandleDeal(cfg, d, c, groupHit);
      CandleKeepsPlain(cfg, d, c, groupHit);
      OrderlyIsBookable(v.deal);
      if v.Closes? {
        ClosingBalances(cfg, initial, b, v.deal, v.fill, v.reason);
      } else if v.averaged {
        FeesSnoc(cfg, d.orders, CandleDca(cfg, d1, c.close).value);
      }
    }
  }

  lemma {:induction false} EnterBalances(
    cfg: Config, initial: real, b: Book, price: real, signal: bool, id: DealId)
    requires Balanced(cfg, initial, b)
    ensures Balanced(cfg, initial, EnterCandle(cfg, b, price, signal, id))
  {
    if b.open.None? && signal {
      var o := Order(1, price, cfg.dca.baseSize, BaseOrder);
      assert [] + [o] == [o];
      FeesSnoc(cfg, [], o);
    }
  }
}
