/**
 How much a run pays in fees: the taker rate on every order once and on every exit that is not
 a cancel (core/trading_engine.py `_calc_fee` and its callers, paper/close_handler.py,
 backtest/backtest_engine.py).
 */
module FeeLaw {
  import opened Options
  import opened InversePerpMath
  import opened Deals
  import opened TickRules
  import opened Drawdown
  import opened PaperLedger
  import opened EngineRules
  import opened EngineRuns
  import opened CandleRules
  import opened BacktestRuns

  /** The sizes of all orders of these deals. */
  function Bought(deals: seq<Deal>): real {
    if deals == [] then 0.0 else Bought(deals[..|deals| - 1]) + TotalSize(deals[|deals| - 1].orders)
  }

  /** The sizes sold again: those of the closed deals that were not cancelled. */
  function Sold(closed: seq<Deal>): real {
    if closed == [] then 0.0
    else
      var d := closed[|closed| - 1];
      Sold(closed[..|closed| - 1]) + if d.closing.reason == Some("cancelled") then 0.0 else TotalSize(d.orders)
  }

  /** Everything a fee is due on. */
  function Traded(m: Money, open: seq<Deal>): real { Bought(open) + Bought(m.closed) + Sold(m.closed) }

  /** From one state of cash and open deals to the next the fee total has grown by the rate on what was traded. */
  ghost predicate Charged(cfg: Config, m: Money, open: seq<Deal>, m': Money, open': seq<Deal>) {
    m'.feesPaid - m.feesPaid == Due(cfg.dca.takerFee, Traded(m', open') - Traded(m, open))
  }

  function Due(rate: real, traded: real): real { rate * traded }

  lemma {:induction false} Distributes(t: real, a: real, b: real, c: real)
    ensures Due(t, b - a) + Due(t, c - b) == Due(t, c - a) && Due(t, 0.0) == 0.0
  {
  }

  lemma {:induction false} ChargedChain(
    cfg: Config, m: Money, o: seq<Deal>, m1: Money, o1: seq<Deal>, m2: Money, o2: seq<Deal>)
    requires Charged(cfg, m, o, m1, o1) && Charged(cfg, m1, o1, m2, o2)
    ensures Charged(cfg, m, o, m2, o2)
  {
    Distributes(cfg.dca.takerFee, Traded(m, o), Traded(m1, o1), Traded(m2, o2));
  }

  lemma {:induction false} BoughtConcat(a: seq<Deal>, b: seq<Deal>)
    ensures Bought(a + b) == Bought(a) + Bought(b)
    decreases |b|
  {
    if b == [] {
      assert a + b == a;
    } else {
      assert (a + b)[..|a + b| - 1] == a + b[..|b| - 1];
      BoughtConcat(a, b[..|b| - 1]);
    }
  }

  lemma {:induction false} BoughtOne(d: Deal)
    ensures Bought([d]) == TotalSize(d.orders)
  {
    assert [d][..0] == [];
  }

  lemma {:induction false} BoughtHead(d: Deal, rest: seq<Deal>)
    ensures Bought([d] + rest) == TotalSize(d.orders) + Bought(rest)
  {
    BoughtConcat([d], rest);
    BoughtOne(d);
  }

  lemma {:induction false} SoldSnoc(closed: seq<Deal>, c: Deal)
    ensures Bought(closed + [c]) == Bought(closed) + TotalSize(c.orders)
    ensures Sold(closed + [c])
         == Sold(closed) + if c.closing.reason == Some("cancelled") then 0.0 else TotalSize(c.orders)
  {
    assert (closed + [c])[..|closed|] == closed;
  }

  // ---- Steps of the tick engine --------------------------------------------------------------------

  /** What leaves the open deals and what is charged for it. */
  lemma {:induction false} SettleTrades(
    m: Money, d: Deal, price: real, reason: string, before: seq<Deal>, rest: seq<Deal>)
    requires Bookable(d) && Bought(before) == TotalSize(d.orders) + Bought(rest)
    ensures var s := Settle(m, d, price, reason);
            && s.feesPaid == m.feesPaid
            && Traded(s, rest) - Traded(m, before) == if reason == "cancelled" then 0.0 else TotalSize(d.orders)
  {
    SoldSnoc(m.closed, ClosedDeal(d, price, reason));
  }

  lemma {:induction false} PaidFor(cfg: Config, m: Money, o: seq<Deal>, m': Money, o': seq<Deal>, size: real)
    requires Traded(m', o') - Traded(m, o) == size && m'.feesPaid == m.feesPaid + Fee(cfg, size)
    ensures Charged(cfg, m, o, m', o')
  {
    FeeIsDue(cfg, size);
  }

  lemma {:induction false} FeeIsDue(cfg: Config, size: real)
    ensures Fee(cfg, size) == Due(cfg.dca.takerFee, size)
  {
  }

  lemma {:induction false} NothingTraded(cfg: Config, m: Money, o: seq<Deal>, m': Money, o': seq<Deal>)
    requires Traded(m', o') == Traded(m, o) && m'.feesPaid == m.feesPaid
    ensures Charged(cfg, m, o, m', o')
  {
    Distributes(cfg.dca.takerFee, 0.0, 0.0, 0.0);
  }

  /** A deal ahead of both lists with the same orders makes no difference. */
  lemma {:induction false} SameAhead(
    cfg: Config, m: Money, m': Money, d: Deal, d': Deal, rest: seq<Deal>, kept: seq<Deal>)
    requires Charged(cfg, m, rest, m', kept) && d.orders == d'.orders
    ensures Charged(cfg, m, [d] + rest, m', [d'] + kept)
  {
    BoughtHead(d, rest);
    BoughtHead(d', kept);
    assert Traded(m', [d'] + kept) - Traded(m, [d] + rest) == Traded(m', kept) - Traded(m, rest);
  }

  lemma {:induction false} ReasonsDiffer()
    ensures TP != "cancelled" && SL != "cancelled" && MANUAL != "cancelled" && CANCELLED == "cancelled"
  {
    assert TP[0] != "cancelled"[0] && SL[0] != "cancelled"[0] && MANUAL[0] != "cancelled"[0];
  }

  /** What a verdict says of the deal's orders. */
  lemma {:induction false} VerdictOrders(cfg: Config, d: Deal, tick: Tick, may: bool)
    requires Orderly(d) && TryDeal(cfg, d, tick, may).Decided?
    ensures var v := TryDeal(cfg, d, tick, may).verdict;
            && (v.Closes? ==> v.deal.orders == d.orders && v.reason in [TP, SL])
            && (v.Stays? && !v.averaged ==> v.deal.orders == d.orders)
            && (v.Stays? && v.averaged ==>
                  v.deal.orders != [] && v.deal.orders == d.orders + [v.deal.orders[|v.deal.orders| - 1]])
  {
  }

  lemma {:induction false} CloseCharged(cfg: Config, m: Money, v: Verdict, d: Deal, rest: seq<Deal>)
    requires v.Closes? && Bookable(v.deal) && v.deal.orders == d.orders && v.reason != "cancelled"
    ensures Charged(cfg, m, [d] + rest, SettleAndCharge(cfg, m, v), rest)
  {
    BoughtHead(d, rest);
    SettleTrades(m, v.deal, v.fill, v.reason, [d] + rest, rest);
    PaidFor(cfg, m, [d] + rest, SettleAndCharge(cfg, m, v), rest, TotalSize(v.deal.orders));
  }

  lemma {:induction false} OrderCharged(cfg: Config, m: Money, d: Deal, e: Deal, o: Order, rest: seq<Deal>)
    requires e.orders == d.orders + [o]
    ensures Charged(cfg, m, [d] + rest, Charge(m, Fee(cfg, o.size)), [e] + rest)
  {
    BoughtHead(d, rest);
    BoughtHead(e, rest);
    Snoc(d.orders, o);
    PaidFor(cfg, m, [d] + rest, Charge(m, Fee(cfg, o.size)), [e] + rest, o.size);
  }

  lemma {:induction false} SweepCharged(cfg: Config, m: Money, todo: seq<Deal>, tick: Tick, budget: nat)
    requires cfg.Valid() && AllOrderly(todo) && tick.price > 0.0
    ensures var s := SweepDeals(cfg, m, todo, tick, budget); Charged(cfg, m, todo, s.money, s.kept)
    decreases |todo|, 0
  {
    if todo == [] {
      NothingTraded(cfg, m, todo, m, []);
    } else {
      var d, rest, a := todo[0], todo[1..], TryDeal(cfg, todo[0], tick, budget > 0);
      assert todo == [d] + rest;
      TryDealOrderly(cfg, d, tick, budget > 0);
      OrderlyIsBookable(DealAfter(a));
      match a {
        case Raised(e) =>
          NothingTraded(cfg, m, rest, m, rest);
          SameAhead(cfg, m, m, d, e, rest, rest);
        case Decided(v) => DecidedCharged(cfg, m, d, rest, tick, budget, v);
      }
    }
  }

  lemma {:induction false} DecidedCharged(
    cfg: Config, m: Money, d: Deal, rest: seq<Deal>, tick: Tick, budget: nat, v: Verdict)
    requires cfg.Valid() && AllOrderly([d] + rest) && AllOrderly(rest) && tick.price > 0.0 && Orderly(d)
    requires TryDeal(cfg, d, tick, budget > 0) == Decided(v) && Bookable(v.deal)
    ensures var s := SweepDeals(cfg, m, [d] + rest, tick, budget); Charged(cfg, m, [d] + rest, s.money, s.kept)
    decreases |rest|, 1
  {
    var todo := [d] + rest;
    assert todo[0] == d && todo[1..] == rest;
    VerdictOrders(cfg, d, tick, budget > 0);
    ReasonsDiffer();
    var s := SweepDeals(cfg, m, todo, tick, budget);
    if v.Closes? {
      var m1 := SettleAndCharge(cfg, m, v);
      CloseCharged(cfg, m, v, d, rest);
      SweepCharged(cfg, m1, rest, tick, budget);
      ChargedChain(cfg, m, todo, m1, rest, s.money, s.kept);
    } else {
      var m1 := if v.averaged then Charge(m, Fee(cfg, LastSize(v.deal))) else m;
      var left := if v.averaged then budget - 1 else budget;
      var t := SweepDeals(cfg, m1, rest, tick, left);
      SweepCharged(cfg, m1, rest, tick, left);
      SameAhead(cfg, m1, t.money, v.deal, v.deal, rest, t.kept);
      if v.averaged {
        OrderCharged(cfg, m, d, v.deal, v.deal.orders[|v.deal.orders| - 1], rest);
      } else {
        BoughtHead(d, rest);
        BoughtHead(v.deal, rest);
        NothingTraded(cfg, m, todo, m, [v.deal] + rest);
      }
      ChargedChain(cfg, m, todo, m1, [v.deal] + rest, s.money, s.kept);
    }
  }

  lemma {:induction false} SameOrders(a: seq<Deal>, b: seq<Deal>)
    requires |a| == |b| && forall i :: 0 <= i < |a| ==> a[i].orders == b[i].orders
    ensures Bought(a) == Bought(b)
    decreases |a|
  {
    if a != [] {
      SameOrders(a[..|a| - 1], b[..|b| - 1]);
    }
  }

  lemma {:induction false} MonitoredCharged(cfg: Config, b: Books, tick: Tick)
    requires cfg.Valid() && AllOrderly(b.open) && tick.price > 0.0
    ensures var r := Monitored(cfg, b, tick); Charged(cfg, b.money, b.open, r.money, r.open)
  {
    var tracked := TrackAll(b.open, tick.price);
    var s := SweepDeals(cfg, b.money, tracked, tick, MAX_DCA_PER_TICK);
    SameOrders(b.open, tracked);
    SweepCharged(cfg, b.money, tracked, tick, MAX_DCA_PER_TICK);
    SameStart(cfg, b.money, tracked, b.open, s.money, s.kept);
  }

  lemma {:induction false} SameStart(cfg: Config, m: Money, o: seq<Deal>, o1: seq<Deal>, m': Money, o': seq<Deal>)
    requires Charged(cfg, m, o, m', o') && Bought(o) == Bought(o1)
    ensures Charged(cfg, m, o1, m', o')
  {
  }

  lemma {:induction false} OpenedCharged(cfg: Config, b: Books, price: real, id: Option<DealId>)
    requires b.open == []
    ensures var r := Opened(cfg, b, price, id); Charged(cfg, b.money, b.open, r.money, r.open)
  {
    match id
    case None => NothingTraded(cfg, b.money, b.open, b.money, b.open);
    case Some(newId) =>
      var d, r := OpenedDeal(cfg, newId, cfg.direction, price), Opened(cfg, b, price, id);
      assert r.open == [d];
      BoughtOne(d);
      SingleOrder(d.orders[0]);
      PaidFor(cfg, b.money, b.open, r.money, r.open, cfg.dca.baseSize);
  }

  lemma {:induction false} BoughtWithout(open: seq<Deal>, i: nat)
    requires i < |open|
    ensures Bought(open) == TotalSize(open[i].orders) + Bought(Without(open, i))
  {
    assert open == open[..i] + ([open[i]] + open[i + 1..]);
    BoughtConcat(open[..i], [open[i]] + open[i + 1..]);
    BoughtHead(open[i], open[i + 1..]);
    BoughtConcat(open[..i], open[i + 1..]);
  }

  lemma {:induction false} ObeyedCharged(cfg: Config, b: Books, s: Sentinel, price: real)
    requires forall i :: 0 <= i < |b.open| ==> Bookable(b.open[i])
    ensures var r := Obeyed(cfg, b, s, price); Charged(cfg, b.money, b.open, r.money, r.open)
  {
    var r, found := Obeyed(cfg, b, s, price), IndexOf(b.open, s.id);
    ReasonsDiffer();
    if found.None? {
      NothingTraded(cfg, b.money, b.open, r.money, r.open);
    } else if s.EditDeal? {
      SameOrders(b.open, r.open);
      NothingTraded(cfg, b.money, b.open, r.money, r.open);
    } else {
      var i := found.value;
      var d, rest, trigger := b.open[i], Without(b.open, i), if s.CancelDeal? then CANCELLED else MANUAL;
      assert Bookable(d);
      var dead := d.(closing := d.closing.(trigger := Some(trigger)));
      BoughtWithout(b.open, i);
      SettleTrades(b.money, dead, price, trigger, b.open, rest);
      if s.CancelDeal? {
        NothingTraded(cfg, b.money, b.open, r.money, r.open);
      } else {
        PaidFor(cfg, b.money, b.open, r.money, r.open, TotalSize(d.orders));
      }
    }
  }

  lemma {:induction false} ObeyedAllCharged(cfg: Config, b: Books, rs: seq<Request>, price: real)
    requires AllOrderly(b.open)
    ensures var r := ObeyedAll(cfg, b, rs, price); Charged(cfg, b.money, b.open, r.money, r.open)
    decreases |rs|
  {
    if rs == [] {
      NothingTraded(cfg, b.money, b.open, b.money, b.open);
    } else {
      AllBookable(b.open);
      ObeyedOrderly(cfg, b, rs[0].what, price);
      ObeyedCharged(cfg, b, rs[0].what, price);
      var b1 := Obeyed(cfg, b, rs[0].what, price);
      ObeyedAllCharged(cfg, b1, rs[1..], price);
      var r := ObeyedAll(cfg, b1, rs[1..], price);
      ChargedChain(cfg, b.money, b.open, b1.money, b1.open, r.money, r.open);
    }
  }

  lemma {:induction false} StageCharged(cfg: Config, gcfg: GuardConfig, s: EngineState, input: TickInput, k: nat)
    requires cfg.Valid() && AllOrderly(s.books.open) && input.Valid()
    ensures var b, r := s.books, Stage(cfg, gcfg, s, input, k).books;
            Charged(cfg, b.money, b.open, r.money, r.open)
  {
    var b, price := s.books, input.tick.price;
    NothingTraded(cfg, b.money, b.open, b.money, b.open);
    match k
    case 1 => MonitoredCharged(cfg, b, input.tick);
    case 3 => if b.open == [] { OpenedCharged(cfg, b, price, input.manualId); }
    case 4 => ObeyedAllCharged(cfg, b, input.requests, price);
    case 5 => if b.open == [] { OpenedCharged(cfg, b, price, input.entryId); }
    case _ =>
  }

  lemma {:induction false} UptoCharged(cfg: Config, gcfg: GuardConfig, s: EngineState, input: TickInput, k: nat)
    requires cfg.Valid() && AllOrderly(s.books.open) && input.Valid()
    ensures var b, r := s.books, Upto(cfg, gcfg, s, input, k).books;
            Charged(cfg, b.money, b.open, r.money, r.open)
  {
    var b := s.books;
    if k == 0 {
      NothingTraded(cfg, b.money, b.open, b.money, b.open);
    } else {
      var x := Upto(cfg, gcfg, s, input, k - 1);
      UptoCharged(cfg, gcfg, s, input, k - 1);
      StageCharged(cfg, gcfg, x, input, k);
      var r := Stage(cfg, gcfg, x, input, k).books;
      ChargedChain(cfg, b.money, b.open, x.books.money, x.books.open, r.money, r.open);
    }
  }

  lemma {:induction false} RunCharged(cfg: Config, gcfg: GuardConfig, s: EngineState, inputs: seq<TickInput>)
    requires cfg.Valid() && AllOrderly(s.books.open)
    requires forall i :: 0 <= i < |inputs| ==> inputs[i].Valid()
    ensures var b, r := s.books, RunTicks(cfg, gcfg, s, inputs).books;
            Charged(cfg, b.money, b.open, r.money, r.open)
    decreases |inputs|
  {
    var b := s.books;
    if inputs == [] {
      NothingTraded(cfg, b.money, b.open, b.money, b.open);
    } else {
      TickKeeps(cfg, gcfg, s, inputs[0]);
      var s' := TickEngine(cfg, gcfg, s, inputs[0]);
      UptoCharged(cfg, gcfg, Begun(s, inputs[0]), inputs[0], StagesRun(cfg, s, inputs[0]));
      RunCharged(cfg, gcfg, s', inputs[1..]);
      var r := RunTicks(cfg, gcfg, s', inputs[1..]).books;
      ChargedChain(cfg, b.money, b.open, s'.books.money, s'.books.open, r.money, r.open);
    }
  }

  /** The fee total in full: the rate on every order, and on every exit that is not a cancel. */
  ghost predicate ExactFees(cfg: Config, m: Money, open: seq<Deal>) {
    m.feesPaid == cfg.dca.takerFee * (Bought(open) + Bought(m.closed) + Sold(m.closed))
  }

  lemma {:induction false} ChargedFromNothing(cfg: Config, m: Money, m': Money, open': seq<Deal>)
    requires Charged(cfg, m, [], m', open') && m.feesPaid == 0.0 && m.closed == []
    ensures ExactFees(cfg, m', open')
  {
  }

  lemma {:induction false} CashFromNothing(m: Money, m': Money)
    requires Conserves(m, m') && m == Money(m.balance, [], 0.0, 0.0, [])
    ensures m'.feesPaid == m'.accepted + SumFees(m'.refused)
    ensures m'.balance == m.balance + SumPnl(m'.closed) - m'.accepted
    ensures AllStamped(m'.closed)
  {
  }

  /**
   On every run of an engine that began without deals, the fee total is the taker rate on the
   size of every order of every deal, open or closed, and once more on the whole size of every
   closed deal that was not cancelled. What was debited and what was refused make it up, and
   the balance is the capital, plus each closed deal's profit at the price it closed at, less
   what was debited.
   */
  lemma {:induction false} FeesOnEveryRun(
    cfg: Config, gcfg: GuardConfig, initial: real, gate: Gate, disk: Option<Saved>, inputs: seq<TickInput>)
    requires cfg.Valid() && forall i :: 0 <= i < |inputs| ==> inputs[i].Valid()
    ensures var r := RunTicks(cfg, gcfg, EngineState(FreshBooks(initial), gate, disk), inputs).books;
            && ExactFees(cfg, r.money, r.open)
            && r.money.feesPaid == r.money.accepted + SumFees(r.money.refused)
            && r.money.balance == initial + SumPnl(r.money.closed) - r.money.accepted
            && AllStamped(r.money.closed)
  {
    var s := EngineState(FreshBooks(initial), gate, disk);
    RunCharged(cfg, gcfg, s, inputs);
    RunKeeps(cfg, gcfg, s, inputs);
    var m, r := s.books.money, RunTicks(cfg, gcfg, s, inputs).books;
    ChargedFromNothing(cfg, m, r.money, r.open);
    CashFromNothing(m, r.money);
  }

  /** A fee is refused exactly when the balance is smaller, and then it is only counted. */
  lemma {:induction false} FeeRefusedIff(m: Money, fee: real)
    ensures var r := Charge(m, fee);
            && (r.refused != m.refused <==> m.balance < fee)
            && r.feesPaid == m.feesPaid + fee && r.closed == m.closed
            && r.balance == (if m.balance < fee then m.balance else m.balance - fee)
            && r.accepted == (if m.balance < fee then m.accepted else m.accepted + fee)
            && (m.balance < fee ==> r.refused == m.refused + [fee])
  {
    assert |m.refused + [fee]| == |m.refused| + 1;
  }

  /** An operator's close charges the rate on the whole size whatever the balance, a cancel nothing; both book. */
  lemma {:induction false} HandlerCash(cfg: Config, b: Books, s: Sentinel, price: real, i: nat)
    requires forall k :: 0 <= k < |b.open| ==> Bookable(b.open[k])
    requires !s.EditDeal? && IndexOf(b.open, s.id) == Some(i)
    ensures var d, m := b.open[i], Obeyed(cfg, b, s, price).money;
            var pnl := CalculatePnl(d.side, d.leverage, d.orders, price).0;
            && Bookable(d) && |m.closed| == |b.money.closed| + 1
            && m.closed[|b.money.closed|].closing.price == Some(price)
            && (s.CancelDeal? ==> m.balance == b.money.balance + pnl && m.feesPaid == b.money.feesPaid)
            && (s.CloseNow? ==>
                  && m.balance == b.money.balance + pnl - cfg.dca.takerFee * TotalSize(d.orders)
                  && m.feesPaid == b.money.feesPaid + cfg.dca.takerFee * TotalSize(d.orders))
  {
    assert Bookable(b.open[i]);
  }

  // ---- The backtest --------------------------------------------------------------------------------

  const HALF_UNIT := 0.00000000005

  function Halves(n: nat): real { n as real * HALF_UNIT }

  predicate Near(x: real, y: real, n: nat) { y - Halves(n) <= x <= y + Halves(n) }

  lemma {:induction false} NearAdds(x: real, y: real, n: nat, x': real, y': real, n': nat)
    requires Near(x, y, n) && Near(x', y', n')
    ensures Near(x + x', y + y', n + n')
  {
    assert Halves(n + n') == Halves(n) + Halves(n');
  }

  lemma {:induction false} CandleFeeNear(cfg: Config, size: real)
    ensures Near(CandleFee(cfg, size), Due(cfg.dca.takerFee, size), 1)
  {
    assert 0.5 / TEN_DECIMALS == HALF_UNIT && Halves(1) == HALF_UNIT;
  }

  lemma {:induction false} OrderFeesNear(cfg: Config, orders: seq<Order>)
    ensures Near(OrderFees(cfg, orders), Due(cfg.dca.takerFee, TotalSize(orders)), |orders|)
  {
    if orders != [] {
      var front, last := orders[..|orders| - 1], orders[|orders| - 1];
      OrderFeesNear(cfg, front);
      CandleFeeNear(cfg, last.size);
      NearAdds(OrderFees(cfg, front), Due(cfg.dca.takerFee, TotalSize(front)), |front|,
               CandleFee(cfg, last.size), Due(cfg.dca.takerFee, last.size), 1);
      Distributes(cfg.dca.takerFee, 0.0, TotalSize(front), TotalSize(orders));
    }
  }

  /** How many fees these deals paid: one per order and one per exit. */
  function Charges(closed: seq<Deal>): nat {
    if closed == [] then 0 else Charges(closed[..|closed| - 1]) + |closed[|closed| - 1].orders| + 1
  }

  lemma {:induction false} RoundTripNear(cfg: Config, closed: seq<Deal>)
    ensures Near(RoundTripFees(cfg, closed), Due(cfg.dca.takerFee, 2.0 * Bought(closed)), Charges(closed))
  {
    if closed != [] {
      var front, d, rate := closed[..|closed| - 1], closed[|closed| - 1], cfg.dca.takerFee;
      var size := TotalSize(d.orders);
      RoundTripNear(cfg, front);
      OrderFeesNear(cfg, d.orders);
      CandleFeeNear(cfg, size);
      NearAdds(OrderFees(cfg, d.orders), Due(rate, size), |d.orders|, CandleFee(cfg, size), Due(rate, size), 1);
      NearAdds(RoundTripFees(cfg, front), Due(rate, 2.0 * Bought(front)), Charges(front),
               OrderFees(cfg, d.orders) + CandleFee(cfg, size), Due(rate, size) + Due(rate, size), |d.orders| + 1);
      Distributes(rate, 0.0, size, 2.0 * size);
      Distributes(rate, 0.0, 2.0 * Bought(front), 2.0 * Bought(closed));
    }
  }

  /**
   A finished backtest has paid the taker rate on the size of every order and once more on the
   whole size of every deal, up to half a unit of the tenth decimal per fee.
   */
  lemma {:induction false} FeesOfABacktest(s: Setup)
    requires s.Valid()
    ensures var b := Finish(s, BookAt(s, |s.Drive()|)); FeesNear(s.cfg, b.feesPaid, b.closed)
  {
    MoneyOfABacktest(s);
    RoundTripsNear(s.cfg, Finish(s, BookAt(s, |s.Drive()|)).closed);
  }

  /** The rate on what was traded, up to half a unit of the tenth decimal for each of `n` fees. */
  predicate Within(fees: real, rate: real, traded: real, n: nat) {
    rate * traded - n as real * 0.00000000005 <= fees <= rate * traded + n as real * 0.00000000005
  }

  predicate FeesNear(cfg: Config, fees: real, closed: seq<Deal>) {
    Within(fees, cfg.dca.takerFee, 2.0 * Bought(closed), Charges(closed))
  }

  lemma {:induction false} RoundTripsNear(cfg: Config, closed: seq<Deal>)
    ensures FeesNear(cfg, RoundTripFees(cfg, closed), closed)
  {
    RoundTripNear(cfg, closed);
    NearIs(RoundTripFees(cfg, closed), cfg.dca.takerFee, 2.0 * Bought(closed), Charges(closed));
  }

  lemma {:induction false} NearIs(x: real, rate: real, traded: real, n: nat)
    ensures Near(x, Due(rate, traded), n) <==> Within(x, rate, traded, n)
  {
  }
}
