/**
 The backtest as it runs (backtest/backtest_engine.py, class BacktestEngine): pointers, the
 ledger and the fee total updated in place, tied to the value functions of BacktestRuns.
 */
module BacktestEngine {
  import opened Options
  import opened InversePerpMath
  import opened Deals
  import opened TickRules
  import opened PaperLedger
  import opened CandleRules
  import opened BacktestRuns

  class Backtester {
    const setup: Setup
    const state: PaperState
    var pointers: seq<nat>
    var windows: Windows
    var feesPaid: real
    var processed: nat
    ghost var everOpened: seq<DealId>
    ghost var walked: seq<nat>

    ghost function View(): Book
      reads this, state
    {
      Book(state.balance, feesPaid, if state.openDeals == [] then None else Some(state.openDeals[0]),
           state.closedDeals, everOpened)
    }

    /** `walked` counts the pointer steps ever taken per feed. */
    ghost predicate Shape()
      reads this, state
    {
      && |state.openDeals| <= 1
      && |pointers| == |setup.feeds|
      && (forall k :: 0 <= k < |pointers| ==> pointers[k] <= |setup.feeds[k]|)
      && walked == pointers
    }

    ghost predicate Valid()
      reads this, state
    {
      setup.Valid() && Shape() && PlainBook(setup.cfg, View())
    }

    constructor (setup: Setup)
      requires setup.Valid()
      ensures Valid() && fresh(state) && this.setup == setup && View() == Start(setup)
      ensures At(0)
    {
      this.setup := setup;
      state := new PaperState(setup.initial);
      pointers := seq(|setup.feeds|, _ => 0);
      walked := seq(|setup.feeds|, _ => 0);
      windows, feesPaid, processed, everOpened := [], 0.0, 0, [];
    }

    /** Moves every pointer past the candles stamped before `now` and returns the cuts. */
    method OhlcUpTo(now: int) returns (w: Windows)
      requires Valid()
      modifies this`pointers, this`walked
      ensures Valid() && View() == old(View())
      ensures |w| == |setup.feeds|
      ensures forall k :: 0 <= k < |w| ==>
                pointers[k] == Advance(setup.feeds[k], old(pointers)[k], now) && w[k] == setup.feeds[k][..pointers[k]]
    {
      w := [];
      for k := 0 to |setup.feeds|
        invariant Valid() && |w| == k && |pointers| == |old(pointers)|
        invariant forall j :: 0 <= j < k ==>
                    pointers[j] == Advance(setup.feeds[j], old(pointers)[j], now)
                    && w[j] == setup.feeds[j][..pointers[j]]
        invariant forall j :: k <= j < |pointers| ==> pointers[j] == old(pointers)[j]
      {
        var candles, ptr := setup.feeds[k], pointers[k];
        ghost var steps: nat := 0;
        while ptr < |candles| && candles[ptr].stamp < now
          invariant ptr <= |candles| && ptr == pointers[k] + steps
          invariant Advance(candles, ptr, now) == Advance(candles, pointers[k], now)
        {
          ptr, steps := ptr + 1, steps + 1;
        }
        pointers, walked := pointers[k := ptr], walked[k := walked[k] + steps];
        w := w + [candles[..ptr]];
      }
    }

    method PayFee(fee: real)
      modifies this`feesPaid, state`balance
      ensures View() == Debit(old(View()), fee)
    {
      state.balance := state.balance - fee;
      feesPaid := feesPaid + fee;
    }

    method OpenDeal(price: real, id: DealId)
      requires Valid() && price > 0.0
      modifies this`feesPaid, this`everOpened, state`balance, state`openDeals
      ensures state.openDeals == Put(old(state.openDeals), OpenedDeal(setup.cfg, id, Long, price))
      ensures everOpened == old(everOpened) + [id]
      ensures var fee := CandleFee(setup.cfg, setup.cfg.dca.baseSize);
              state.balance == old(state.balance) - fee && feesPaid == old(feesPaid) + fee
      ensures old(state.openDeals) == [] ==>
                Valid() && View() == EnterCandle(setup.cfg, old(View()), price, true, id)
    {
      OpenedIsPlain(setup.cfg, id, price);
      state.OpenDeal(OpenedDeal(setup.cfg, id, Long, price));
      everOpened := everOpened + [id];
      PayFee(CandleFee(setup.cfg, setup.cfg.dca.baseSize));
    }

    /** Stamps the trigger, settles and charges the exit fee; an id that is not open is ignored. */
    method CloseDeal(id: DealId, price: real, reason: string, trigger: string)
      requires Valid()
      modifies this`feesPaid, state`balance, state`openDeals, state`closedDeals
      ensures Valid()
      ensures old(state.openDeals) == [] || old(state.openDeals)[0].id != id ==> View() == old(View())
      ensures old(state.openDeals) != [] && old(state.openDeals)[0].id == id ==>
                var was := old(state.openDeals)[0];
                var d := was.(closing := was.closing.(trigger := Some(trigger)));
                Bookable(d) && View() == ClosedOut(setup.cfg, old(View()), d, price, reason)
    {
      var found := IndexOf(state.openDeals, id);
      if found.None? {
        return;
      }
      var deal := state.openDeals[found.value];
      deal := deal.(closing := deal.closing.(trigger := Some(trigger)));
      OrderlyIsBookable(deal);
      state.openDeals := state.openDeals[found.value := deal];
      assert state.openDeals == [deal];
      var fee := CandleFee(setup.cfg, TotalSize(deal.orders));
      var closed := state.CloseDeal(id, price, reason);
      PayFee(fee);
    }

    /** A trailing stop takes the candle's high into its peak, seeded by the candle's open. */
    method MoveStop(deal: Deal, avg: real, c: Candle) returns (stopped: Deal, line: real)
      requires Valid() && state.openDeals == [deal] && c.Priced() && avg == Avg(deal)
      modifies state`openDeals
      ensures Valid() && state.openDeals == [stopped]
      ensures stopped == AfterCandleStop(setup.cfg, deal, c) && line == SlLine(setup.cfg, deal, c)
    {
      var cfg := setup.cfg;
      LongDivisors(cfg);
      stopped, line := deal, SlTarget(avg, cfg.stop.pct, deal.side);
      if cfg.stop.kind == Trailing {
        if stopped.trackers.peak == 0.0 {
          stopped := stopped.(trackers := stopped.trackers.(peak := c.first));
        }
        stopped := stopped.(trackers := stopped.trackers.(peak := Max(stopped.trackers.peak, c.high)));
        state.openDeals := Put(state.openDeals, stopped);
        line := SlTarget(stopped.trackers.peak, cfg.stop.pct, deal.side);
      }
    }

    method CheckTpSlIntracandle(deal: Deal, c: Candle) returns (closed: bool)
      requires Valid() && state.openDeals == [deal] && c.Priced()
      modifies this`feesPaid, state`balance, state`openDeals, state`closedDeals
      ensures Valid()
      ensures var tp := CandleTp(setup.cfg, deal, c, setup.indicator.tpGroup(windows));
              var sl := CandleSl(setup.cfg, deal, c);
              var kept := AfterCandleStop(setup.cfg, deal, c);
              var v := Decide(deal, kept, tp, sl, None);
              && closed == v.Closes?
              && (closed ==> Bookable(v.deal) && View() == ClosedOut(setup.cfg, old(View()), v.deal, v.fill, v.reason))
              && (!closed ==> state.openDeals == [kept] && View() == old(View()).(open := Some(kept)))
    {
      var cfg := setup.cfg;
      var avg := Avg(deal);
      LongDivisors(cfg);
      var tpPrice := TpTarget(avg, cfg.tp.pct, deal.side);
      var priceHit := cfg.tp.enabled && cfg.tp.priceEnabled && c.high >= tpPrice;
      var groupHit := cfg.tp.enabled && cfg.tp.groups && setup.indicator.tpGroup(windows);
      if priceHit || groupHit {
        CloseDeal(deal.id, if priceHit then tpPrice else c.close, TP, if priceHit then PRICE_TP else INDICATOR_TP);
        return true;
      }
      if cfg.stop.kind == NoStop {
        return false;
      }
      var stopped, line := MoveStop(deal, avg, c);
      if c.low <= line {
        CloseDeal(deal.id, line, SL, if cfg.stop.kind == Trailing then TRAILING_SL else PRICE_SL);
        return true;
      }
      return false;
    }

    method CheckDca(deal: Deal, price: real)
      requires Valid() && state.openDeals == [deal] && price > 0.0
      modifies this`feesPaid, state`balance, state`openDeals
      ensures Valid()
      ensures var dca := CandleDca(setup.cfg, deal, price);
              View() == if dca.None? then old(View())
                        else Debit(old(View()).(open := Some(deal.(orders := deal.orders + [dca.value]))),
                                   CandleFee(setup.cfg, dca.value.size))
    {
      var cfg := setup.cfg;
      if !cfg.dca.enabled {
        return;
      }
      if cfg.dca.maxOrders <= 1 {
        return;
      }
      var count := DcaCount(deal.orders);
      if count >= cfg.dca.maxOrders - 1 {
        return;
      }
      var lastPrice := deal.orders[|deal.orders| - 1].price;
      var nextDca := Below(lastPrice, StepPct(cfg, count));
      if price <= nextDca {
        var dcaSize := DcaSize(cfg, count);
        var order := Order(count + 2, price, dcaSize, DcaOrder);
        CandleDcaIsTickDca(cfg, deal, price);
        DcaOrderIsSound(cfg, deal, price);
        state.openDeals := Put(state.openDeals, deal.(orders := deal.orders + [order]));
        PayFee(CandleFee(cfg, dcaSize));
      }
    }

    method ProcessCandle(c: Candle, w: Windows, id: DealId)
      requires Valid() && c.Priced() && setup.driving < |w|
      modifies this`windows, this`feesPaid, this`everOpened, state`balance, state`openDeals, state`closedDeals
      ensures Valid() && View() == OnCandle(setup, old(View()), c, w, id)
    {
      windows := w;
      var snapshot := state.openDeals;
      ghost var before := View();
      ghost var groupHit := setup.indicator.tpGroup(w);
      for i := 0 to |snapshot|
        invariant Valid() && windows == w
        invariant i == 0 ==> View() == before && state.openDeals == snapshot
        invariant i > 0 ==> View() == MonitorCandle(setup.cfg, before, c, groupHit)
      {
        var closed := CheckTpSlIntracandle(snapshot[i], c);
        if !closed {
          var at := IndexOf(state.openDeals, snapshot[i].id);
          if at.Some? {
            CheckDca(state.openDeals[at.value], c.close);
          }
        }
      }
      if |state.openDeals| == 0 && w[setup.driving] != [] {
        if setup.indicator.entry(w) {
          OpenDeal(c.close, id);
        }
      }
    }

    ghost function Expected(n: nat): Book
      requires setup.Valid() && n <= |setup.Drive()|
    {
      BookAt(setup, n)
    }

    /** The state after the first n driving candles. */
    ghost predicate At(n: nat)
      requires setup.Valid() && n <= |setup.Drive()|
      reads this, state
    {
      && Shape()
      && View() == Expected(n)
      && (forall k :: 0 <= k < |pointers| ==> pointers[k] == Pointer(setup.feeds[k], setup.Drive(), n))
      && processed == if n <= WARMUP then 0 else n - WARMUP
    }

    /** One pass of the main loop; returns the next index. */
    method StepCandle(i: nat) returns (j: nat)
      requires setup.Valid() && i < |setup.Drive()| && At(i)
      modifies this, state
      ensures j == i + 1 && At(j)
    {
      j := i + 1;
      if i < WARMUP {
        return;
      }
      var candle := setup.Drive()[i];
      var w := OhlcUpTo(candle.stamp);
      assert w == WindowsAt(setup, i);
      ProcessCandle(candle, w, setup.ids(i));
      processed := processed + 1;
    }

    method WalkCandles()
      requires setup.Valid() && At(0)
      modifies this, state
      ensures At(|setup.Drive()|)
    {
      var i, n := 0, |setup.Drive()|;
      while i < n
        invariant i <= n && At(i)
      {
        i := StepCandle(i);
      }
    }

    /** Whatever is still open leaves at the close of the last candle. */
    method CloseRemaining()
      requires Valid()
      modifies this`feesPaid, state`balance, state`openDeals, state`closedDeals
      ensures Valid() && View() == Finish(setup, old(View()))
    {
      var candles := setup.Drive();
      if |candles| == 0 {
        return;
      }
      var last := candles[|candles| - 1].close;
      var ids := IdsOf(state.openDeals);
      ghost var before := View();
      for k := 0 to |ids|
        invariant Valid()
        invariant k == 0 ==> View() == before
        invariant k > 0 ==> View() == Finish(setup, before)
      {
        CloseDeal(ids[k], last, END_OF_DATA, TIMEOUT);
      }
    }

    /** The backtest from start to finish. */
    method Run()
      requires setup.Valid() && At(0)
      modifies this, state
      ensures Valid() && View() == Finish(setup, BookAt(setup, |setup.Drive()|))
      ensures state.openDeals == []
      ensures processed == if |setup.Drive()| <= WARMUP then 0 else |setup.Drive()| - WARMUP
      ensures forall k :: 0 <= k < |walked| ==> walked[k] <= |setup.feeds[k]|
    {
      WalkCandles();
      CloseRemaining();
      MoneyOfABacktest(setup);
    }
  }
}
