/**
 What a tick does, told by its effects: which percentages rule a deal before and after an edit,
 which check wins, what leaves the books and enters them, and how many orders a tick may place
 (core/trading_engine.py `_monitor_open_deals`, `_check_deal_sentinels`, `_check_entry`, `_open_deal`).
 */
module TickOutcomes {
  import opened Options
  import opened InversePerpMath
  import opened Deals
  import opened TickRules
  import opened Drawdown
  import opened PaperLedger
  import opened ExitGuarantees
  import opened DcaLevels
  import opened EngineRules

  // ---- The percentages in force ------------------------------------------------------------------

  /** Without an override the configured percentages rule. */
  lemma {:induction false} ConfiguredExits(cfg: Config, d: Deal, price: real, ind: Indicators)
    requires cfg.Valid() && SoundDeal(cfg, d) && price > 0.0 && d.overrides.tp.None? && d.overrides.sl.None?
    ensures cfg.stop.kind.Fixed? ==>
              (CheckSl(cfg, d, price).Leave? <==> PctAt(d, price) <= Goal(d.leverage, -cfg.stop.pct))
    ensures cfg.stop.kind.NoStop? ==> CheckSl(cfg, d, price).Stay?
    ensures !cfg.tp.enabled ==> CheckTp(cfg, d, price, ind).Stay?
    ensures cfg.tp.enabled && !cfg.wickSim && !cfg.tp.groups ==>
              (CheckTp(cfg, d, price, ind).Leave?
               <==> PctAt(d, price) >= Goal(d.leverage, cfg.tp.pct) && Cleared(cfg, d, price, ind))
  {
    if cfg.stop.kind.Fixed? { StopsOutIff(cfg, d, price); }
    TakesProfitIff(cfg, d, price, ind);
  }

  /** The percentage an edit names, or the configured one if it names none. */
  function Named(pct: Option<real>, configured: real): real { if pct.Some? then pct.value else configured }

  /** An edited stop fires at the edited percentage, of the edited kind; an edit can switch it off. */
  lemma {:induction false} EditedStop(cfg: Config, d: Deal, s: Sentinel, ov: SlOverride, price: real)
    requires s.EditDeal? && s.sl == Some(Some(ov)) && SoundDeal(cfg, Edited(d, s)) && price > 0.0
    ensures var e := Edited(d, s);
            && (ov.enabled == Some(false) ==> CheckSl(cfg, e, price).Stay?)
            && (ov.enabled != Some(false) && ov.kind.GetOr(cfg.stop.kind).Trailing? ==>
                  StopOf(cfg, e) == StopAt(Trailing, Named(ov.pct, cfg.stop.pct)))
            && (ov.enabled != Some(false) && !ov.kind.GetOr(cfg.stop.kind).Trailing? ==>
                  (CheckSl(cfg, e, price).Leave?
                   <==> PctAt(e, price) <= Goal(e.leverage, -Named(ov.pct, cfg.stop.pct))))
  {
    var e := Edited(d, s);
    if StopOf(cfg, e).StopAt? && !StopOf(cfg, e).kind.Trailing? {
      StopsOutIff(cfg, e, price);
    }
  }

  /** An edited target likewise. */
  lemma {:induction false} EditedTarget(
    cfg: Config, d: Deal, s: Sentinel, ov: TpOverride, price: real, ind: Indicators)
    requires s.EditDeal? && s.tp == Some(Some(ov)) && SoundDeal(cfg, Edited(d, s)) && price > 0.0
    requires !cfg.wickSim && !cfg.tp.groups
    ensures var e := Edited(d, s);
            && (ov.enabled == Some(false) ==> CheckTp(cfg, e, price, ind).Stay?)
            && (ov.enabled != Some(false) ==>
                  (CheckTp(cfg, e, price, ind).Leave?
                   <==> PctAt(e, price) >= Goal(e.leverage, Named(ov.targetPct, cfg.tp.pct))
                        && Cleared(cfg, e, price, ind)))
  {
    TakesProfitIff(cfg, Edited(d, s), price, ind);
  }

  /** An edit file changes the settings it names in the deal it names and nothing else; a null lifts an override. */
  lemma {:induction false} EditChanges(cfg: Config, b: Books, s: Sentinel, price: real, i: nat)
    requires s.EditDeal? && IndexOf(b.open, s.id) == Some(i)
    requires forall k :: 0 <= k < |b.open| ==> Bookable(b.open[k])
    ensures var r, d := Obeyed(cfg, b, s, price), b.open[i];
            && r.money == b.money && |r.open| == |b.open|
            && (forall k :: 0 <= k < |b.open| && k != i ==> r.open[k] == b.open[k])
            && var e := r.open[i];
               && e == d.(overrides := e.overrides)
               && e.overrides.tp == (match s.tp case Some(v) => v case None => d.overrides.tp)
               && e.overrides.sl == (match s.sl case Some(v) => v case None => d.overrides.sl)
               && e.overrides.dca == (match s.dca case Some(v) => v case None => d.overrides.dca)
  {
  }

  // ---- One deal, one tick -------------------------------------------------------------------------

  /** The tick takes profit: the best price is worth the goal and the exit is cleared, or a group fires short of it. */
  predicate TakesNow(cfg: Config, d: Deal, tick: Tick)
    requires Orderly(d)
  {
    && TpOf(cfg, d).TpAt?
    && if PctAt(d, BestPrice(cfg, d, tick.price)) >= Goal(d.leverage, TpOf(cfg, d).pct)
       then Cleared(cfg, d, tick.price, tick.ind)
       else cfg.tp.groups && tick.ind.tpGroupHit
  }

  predicate StopsNow(cfg: Config, d: Deal, tick: Tick)
    requires Orderly(d)
  {
    StopOf(cfg, d).StopAt? && PctAt(d, tick.price) <= Goal(d.leverage, -StopOf(cfg, d).pct)
  }

  /**
   A deal without a trailing stop: take-profit wins over the stop and the stop over averaging;
   a stop fills at the market; what stays is averaged exactly when the plan asks for it.
   */
  lemma {:induction false} TickOutcome(cfg: Config, d: Deal, tick: Tick, spacings: seq<real>, sizes: seq<real>)
    requires cfg.Valid() && SoundDeal(cfg, d) && tick.price > 0.0
    requires StopOf(cfg, d).StopAt? ==> !StopOf(cfg, d).kind.Trailing?
    requires Plan(cfg, spacings, sizes) && DcaCount(d.orders) == |d.orders| - 1
    requires |d.orders| <= |spacings| && |d.orders| <= |sizes|
    ensures var v, e, n := TickDeal(cfg, d, tick), FoldTrackers(d, tick.price), |d.orders|;
            && (TakesNow(cfg, e, tick) ==> v.Closes? && v.reason == TP)
            && (!TakesNow(cfg, e, tick) && StopsNow(cfg, e, tick) ==>
                  v.Closes? && v.reason == SL && v.fill == tick.price)
            && (!TakesNow(cfg, e, tick) && !StopsNow(cfg, e, tick) ==>
                  && v.Stays?
                  && (v.averaged <==>
                        cfg.dca.enabled && d.overrides.dca && n < cfg.dca.maxOrders
                        && FarEnough(d.side, d.orders[n - 1].price, tick.price, spacings[n - 1]))
                  && (!v.averaged ==> v.deal == e)
                  && (v.averaged ==>
                        var o := Order(n + 1, tick.price, RoundTo(sizes[n - 1], EIGHT_DECIMALS), DcaOrder);
                        v.deal == e.(orders := d.orders + [o])))
  {
    var e := FoldTrackers(d, tick.price);
    TakesProfitIff(cfg, e, tick.price, tick.ind);
    if StopOf(cfg, e).StopAt? { StopsOutIff(cfg, e, tick.price); }
    DcaPlacedIff(cfg, e, tick.price, spacings, sizes);
  }

  // ---- The books after monitoring one deal ----------------------------------------------------------

  /** What one deal's exit leaves: the deal in history at its fill, with its orders, reason and trigger. */
  predicate GoneAt(before: seq<Deal>, now: seq<Deal>, d: Deal, fill: real, reason: string, trigger: Option<string>) {
    && |now| == |before| + 1 && now[..|before|] == before
    && var gone := now[|before|];
       && gone.id == d.id && gone.orders == d.orders && !gone.closing.isOpen
       && gone.closing.price == Some(fill) && gone.closing.reason == Some(reason) && gone.closing.trigger == trigger
  }

  /** The sweep of one deal, by what its checks decide; the cash is FeeLaw's. */
  lemma {:induction false} OneDealSwept(cfg: Config, m: Money, d: Deal, tick: Tick, a: Attempt)
    requires cfg.Valid() && Orderly(d) && tick.price > 0.0 && a == TryDeal(cfg, d, tick, true)
    ensures var s := SweepDeals(cfg, m, [d], tick, 1);
            && (a.Raised? ==> s == Sweep(m, [a.deal], true))
            && (a.Decided? && a.verdict.Stays? ==> s.kept == [a.verdict.deal] && s.money.closed == m.closed)
            && (a.Decided? && a.verdict.Stays? && !a.verdict.averaged ==> s.money == m)
            && (a.Decided? && a.verdict.Closes? ==>
                  && s.kept == []
                  && GoneAt(m.closed, s.money.closed, d, a.verdict.fill, a.verdict.reason,
                            a.verdict.deal.closing.trigger))
  {
    var todo := [d];
    assert todo[0] == d && todo[1..] == [];
    TryDealOrderly(cfg, d, tick, true);
    OrderlyIsBookable(DealAfter(a));
    match a {
      case Raised(e) =>
        assert [e] + [] == [e];
      case Decided(v) =>
        if v.Closes? {
          assert SweepDeals(cfg, m, todo, tick, 1) == Sweep(SettleAndCharge(cfg, m, v), [], false);
        } else {
          assert [v.deal] + [] == [v.deal];
        }
    }
  }

  /** Monitoring a single deal. */
  lemma {:induction false} OneDealMonitored(cfg: Config, b: Books, d: Deal, tick: Tick, a: Attempt)
    requires cfg.Valid() && b.open == [d] && Orderly(d) && tick.price > 0.0
    requires a == TryDeal(cfg, FoldTrackers(d, tick.price), tick, true)
    ensures var r := Monitored(cfg, b, tick);
            && (a.Raised? ==> r.open == [a.deal] && r.money == b.money)
            && (a.Decided? && a.verdict.Stays? ==> r.open == [a.verdict.deal] && r.money.closed == b.money.closed)
            && (a.Decided? && a.verdict.Closes? ==>
                  && r.open == []
                  && GoneAt(b.money.closed, r.money.closed, d, a.verdict.fill, a.verdict.reason,
                            a.verdict.deal.closing.trigger))
  {
    assert TrackAll(b.open, tick.price) == [FoldTrackers(d, tick.price)];
    OneDealSwept(cfg, b.money, FoldTrackers(d, tick.price), tick, a);
  }

  // ---- One DCA per tick ------------------------------------------------------------------------------

  /** The deals whose checks ask for a DCA. */
  function DueCount(cfg: Config, todo: seq<Deal>, tick: Tick): nat
    requires AllOrderly(todo)
  {
    if todo == [] then 0
    else
      var a := TryDeal(cfg, todo[0], tick, true);
      (if a.Decided? && a.verdict.Stays? && a.verdict.averaged then 1 else 0) + DueCount(cfg, todo[1..], tick)
  }

  function OrderCount(deals: seq<Deal>): nat {
    if deals == [] then 0 else |deals[0].orders| + OrderCount(deals[1..])
  }

  function Least(a: nat, b: nat): nat { if a <= b then a else b }

  /** Whether averaging is allowed changes nothing but the average. */
  lemma {:induction false} BudgetDecides(cfg: Config, d: Deal, tick: Tick)
    requires Orderly(d)
    ensures var a, b := TryDeal(cfg, d, tick, true), TryDeal(cfg, d, tick, false);
            && (a.Raised? ==> b == a)
            && (a.Decided? && a.verdict.Closes? ==> b == a && a.verdict.deal.orders == d.orders)
            && (a.Decided? && a.verdict.Stays? ==>
                  && b.Decided? && b.verdict.Stays? && !b.verdict.averaged && b.verdict.deal.orders == d.orders
                  && |a.verdict.deal.orders| == |d.orders| + if a.verdict.averaged then 1 else 0)
    ensures TryDeal(cfg, d, tick, true).Raised? ==> TryDeal(cfg, d, tick, true).deal.orders == d.orders
  {
  }

  /** The orders of all deals after a sweep, kept or gone: one more for each deal that is due, up to the budget. */
  lemma {:induction false} SweepPlaces(cfg: Config, m: Money, todo: seq<Deal>, tick: Tick, budget: nat, before: nat)
    requires cfg.Valid() && AllOrderly(todo) && tick.price > 0.0 && before == ClosedOrders(m.closed)
    ensures var s := SweepDeals(cfg, m, todo, tick, budget);
            && OrderCount(s.kept) + ClosedOrders(s.money.closed) <= before + OrderCount(todo) + budget
            && (!s.raised ==>
                  OrderCount(s.kept) + ClosedOrders(s.money.closed)
                  == before + OrderCount(todo) + Least(budget, DueCount(cfg, todo, tick)))
    decreases |todo|
  {
    if todo != [] {
      var d, rest, a := todo[0], todo[1..], TryDeal(cfg, todo[0], tick, budget > 0);
      BudgetDecides(cfg, d, tick);
      TryDealOrderly(cfg, d, tick, budget > 0);
      OrderlyIsBookable(DealAfter(a));
      match a {
        case Raised(e) =>
          HeadCount(e, rest);
        case Decided(v) =>
          if v.Closes? {
            var m' := SettleAndCharge(cfg, m, v);
            SettledOrders(cfg, m, v);
            SweepPlaces(cfg, m', rest, tick, budget, before + |d.orders|);
          } else {
            var m' := if v.averaged then Charge(m, Fee(cfg, LastSize(v.deal))) else m;
            var left := if v.averaged then budget - 1 else budget;
            SweepPlaces(cfg, m', rest, tick, left, before);
            var kept := SweepDeals(cfg, m', rest, tick, left).kept;
            HeadCount(v.deal, kept);
          }
      }
    }
  }

  function ClosedOrders(closed: seq<Deal>): nat {
    if closed == [] then 0 else ClosedOrders(closed[..|closed| - 1]) + |closed[|closed| - 1].orders|
  }

  lemma {:induction false} ClosedOrdersSnoc(closed: seq<Deal>, c: Deal)
    ensures ClosedOrders(closed + [c]) == ClosedOrders(closed) + |c.orders|
  {
    assert (closed + [c])[..|closed|] == closed;
  }

  lemma {:induction false} HeadCount(d: Deal, rest: seq<Deal>)
    ensures OrderCount([d] + rest) == |d.orders| + OrderCount(rest)
  {
    assert ([d] + rest)[1..] == rest;
  }

  lemma {:induction false} SettledOrders(cfg: Config, m: Money, v: Verdict)
    requires v.Closes? && Bookable(v.deal)
    ensures ClosedOrders(SettleAndCharge(cfg, m, v).closed) == ClosedOrders(m.closed) + |v.deal.orders|
  {
    ClosedOrdersSnoc(m.closed, ClosedDeal(v.deal, v.fill, v.reason));
  }

  /** However many deals are due, a tick places at most one DCA, and one if any is due and no check raises. */
  lemma {:induction false} OneDcaPerTick(cfg: Config, b: Books, tick: Tick)
    requires cfg.Valid() && AllOrderly(b.open) && tick.price > 0.0
    ensures var tracked, r := TrackAll(b.open, tick.price), Monitored(cfg, b, tick);
            var added := OrderCount(r.open) + ClosedOrders(r.money.closed)
                         - OrderCount(tracked) - ClosedOrders(b.money.closed);
            && added <= 1
            && (!MonitorRaises(cfg, b, tick) ==> (added == 1 <==> DueCount(cfg, tracked, tick) > 0) && added >= 0)
  {
    SweepPlaces(cfg, b.money, TrackAll(b.open, tick.price), tick, 1, ClosedOrders(b.money.closed));
  }

  // ---- What enters the books ----------------------------------------------------------------------------

  /** A deal is opened as configured: its direction, leverage and base size, at the price of the tick, unedited. */
  lemma {:induction false} OpensAsConfigured(cfg: Config, b: Books, price: real, id: DealId)
    requires IndexOf(b.open, id).None?
    ensures var r := Opened(cfg, b, price, Some(id));
            && r.open == b.open + [r.open[|b.open|]] && r.everOpened == b.everOpened + [id]
            && r.money.closed == b.money.closed
            && var d := r.open[|b.open|];
               && d.id == id && d.side == cfg.direction && d.leverage == cfg.leverage
               && d.orders == [Order(1, price, cfg.dca.baseSize, BaseOrder)]
               && d.trackers == Trackers(0.0, price, price) && d.overrides == Overrides(None, None, true)
               && d.closing.isOpen && d.closing.reason.None?
    ensures Opened(cfg, b, price, None) == b
  {
  }

  /**
   A tick of an engine without deals that completes its entry stage holds one afterwards
   exactly when the ledger accepted a manual trigger that was safe, or the window is open,
   nothing pauses the engine, there are candles, the signal is given and the ledger accepted.
   */
  lemma {:induction false} TickOpensIff(cfg: Config, gcfg: GuardConfig, s: EngineState, input: TickInput)
    requires cfg.Valid() && s.books.open == [] && input.Valid() && input.requests == [] && input.stages >= 5
    ensures var r := TickEngine(cfg, gcfg, s, input);
            r.books.open != []
            <==> (input.manual && input.manualSafe && input.manualId.Some?)
                 || (input.windowOpen && input.clockOk && !r.gate.paused && input.tick.ind.haveCloses
                     && input.signal && input.entryId.Some?)
    ensures var r := TickEngine(cfg, gcfg, s, input).books;
            var byHand := input.manual && input.manualSafe && input.manualId.Some?;
            r.open != [] ==>
              && |r.open| == 1 && Some(r.open[0].id) == (if byHand then input.manualId else input.entryId)
              && r.open[0].orders == [Order(1, input.tick.price, cfg.dca.baseSize, BaseOrder)]
  {
    var t := Begun(s, input);
    var n := StagesRun(cfg, s, input);
    EmptyMonitor(cfg, s.books, input.tick);
    var u1, u2, u3 := Upto(cfg, gcfg, t, input, 1), Upto(cfg, gcfg, t, input, 2), Upto(cfg, gcfg, t, input, 3);
    assert Upto(cfg, gcfg, t, input, 0) == t;
    assert u1.books == s.books && u2.books == s.books;
    var u4, u5 := Upto(cfg, gcfg, t, input, 4), Upto(cfg, gcfg, t, input, 5);
    assert u4.books == u3.books && u4.gate == u5.gate == u2.gate;
    assert u2.gate.skewed == !input.clockOk;
  }

  /** A close or cancel file is obeyed at the tick's price, after monitoring and a manual trigger. */
  lemma {:induction false} ClosesAtTick(
    cfg: Config, gcfg: GuardConfig, s: EngineState, input: TickInput, r: Request, d: Deal)
    requires cfg.Valid() && AllOrderly(s.books.open) && input.Valid() && input.requests == [r]
    requires !r.what.EditDeal? && r.what.id == d.id && Upto(cfg, gcfg, s, input, 3).books.open == [d]
    ensures var b, b' := Upto(cfg, gcfg, s, input, 3).books, Upto(cfg, gcfg, s, input, 4).books;
            && b'.open == []
            && var why := if r.what.CancelDeal? then "cancelled" else "manual";
               GoneAt(b.money.closed, b'.money.closed, d, input.tick.price, why, Some(why))
  {
    var b := Upto(cfg, gcfg, s, input, 3).books;
    AllBookable(b.open);
    ObeyedOrderly(cfg, b, r.what, input.tick.price);
    assert IndexOf(b.open, d.id) == Some(0) && Without(b.open, 0) == [];
    assert input.requests[1..] == [];
    var b' := Obeyed(cfg, b, r.what, input.tick.price);
    assert ObeyedAll(cfg, b', [], input.tick.price) == b';
  }

  lemma {:induction false} EmptyMonitor(cfg: Config, b: Books, tick: Tick)
    requires cfg.Valid() && b.open == [] && tick.price > 0.0
    ensures Monitored(cfg, b, tick) == b && !MonitorRaises(cfg, b, tick)
  {
    assert TrackAll(b.open, tick.price) == [];
  }
}
