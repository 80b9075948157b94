/**
 What the drawdown guard is fed, and so when a running engine trips: the balance, or the
 balance with the open deals' profit, on every tick that reaches the guard
 (core/trading_engine.py `_update_drawdown_guard`, `_current_equity_btc`).
 */
module GuardReadings {
  import opened Options
  import opened Deals
  import opened TickRules
  import opened Drawdown
  import opened PaperLedger
  import opened EngineRules
  import opened EngineRuns

  /** The books the guard sees on a tick: those after monitoring. */
  ghost function Watched(cfg: Config, s: EngineState, input: TickInput): (b: Books)
    requires cfg.Valid() && AllOrderly(s.books.open) && input.Valid()
    ensures AllOrderly(b.open)
  {
    MonitoredOrderly(cfg, s.books, input.tick);
    Monitored(cfg, s.books, input.tick)
  }

  ghost predicate ReachesGuard(cfg: Config, s: EngineState, input: TickInput)
    requires cfg.Valid() && AllOrderly(s.books.open) && input.Valid()
  {
    input.stages >= 2 && !MonitorRaises(cfg, s.books, input.tick)
  }

  ghost predicate Ready(cfg: Config, s: EngineState, inputs: seq<TickInput>) {
    cfg.Valid() && AllOrderly(s.books.open) && forall i :: 0 <= i < |inputs| ==> inputs[i].Valid()
  }

  /** What the open deals would make if they were closed at this price. */
  function OpenProfit(open: seq<Deal>, price: real): real
    requires AllOrderly(open)
  {
    if open == [] then 0.0
    else
      var d := open[|open| - 1];
      SoundSums(d.orders);
      OpenProfit(open[..|open| - 1], price) + CalculatePnl(d.side, d.leverage, d.orders, price).0
  }

  /** What the guard finds on a tick: the balance after monitoring, and the open deals' profit at its price. */
  datatype Sight = Sight(balance: real, profit: real)

  /** Nothing on a tick that does not reach the guard. */
  ghost function SightOf(cfg: Config, s: EngineState, input: TickInput): seq<Sight>
    requires cfg.Valid() && AllOrderly(s.books.open) && input.Valid()
  {
    var b := Watched(cfg, s, input);
    if ReachesGuard(cfg, s, input) then [Sight(b.money.balance, OpenProfit(b.open, input.tick.price))] else []
  }

  ghost function Sights(cfg: Config, gcfg: GuardConfig, s: EngineState, inputs: seq<TickInput>): seq<Sight>
    requires Ready(cfg, s, inputs)
    decreases |inputs|
  {
    if inputs == [] then []
    else
      TickKeeps(cfg, gcfg, s, inputs[0]);
      SightOf(cfg, s, inputs[0]) + Sights(cfg, gcfg, TickEngine(cfg, gcfg, s, inputs[0]), inputs[1..])
  }

  function Balances(sights: seq<Sight>): (r: seq<real>)
    ensures |r| == |sights| && forall i :: 0 <= i < |sights| ==> r[i] == sights[i].balance
  {
    seq(|sights|, i requires 0 <= i < |sights| => sights[i].balance)
  }

  function Equities(sights: seq<Sight>): (r: seq<real>)
    ensures |r| == |sights| && forall i :: 0 <= i < |sights| ==> r[i] == sights[i].balance + sights[i].profit
  {
    seq(|sights|, i requires 0 <= i < |sights| => sights[i].balance + sights[i].profit)
  }

  lemma {:induction false} OpenProfitIsSum(open: seq<Deal>, price: real)
    requires AllOrderly(open)
    ensures forall i :: 0 <= i < |open| ==> Bookable(open[i])
    ensures OpenProfit(open, price) == SumPnlAt(open, price)
    decreases |open|
  {
    AllBookable(open);
    if open != [] {
      OpenProfitIsSum(open[..|open| - 1], price);
    }
  }

  /** The guard after one tick: fed the reading if the tick reached it, untouched otherwise. */
  lemma {:induction false} TickFeeds(cfg: Config, gcfg: GuardConfig, s: EngineState, input: TickInput, n: nat)
    requires cfg.Valid() && AllOrderly(s.books.open) && input.Valid()
    ensures forall i :: 0 <= i < |Watched(cfg, s, input).open| ==> Bookable(Watched(cfg, s, input).open[i])
    ensures Upto(cfg, gcfg, Begun(s, input), input, n).gate.guard
         == if n >= 2 && gcfg.enabled
            then Updated(gcfg, s.gate.guard, Reading(gcfg, Watched(cfg, s, input), input.tick.price))
            else s.gate.guard
  {
    var t := Begun(s, input);
    AllBookable(Watched(cfg, s, input).open);
    if n > 0 {
      TickFeeds(cfg, gcfg, s, input, n - 1);
      if n == 2 {
        assert Upto(cfg, gcfg, t, input, 0) == t;
        assert Upto(cfg, gcfg, t, input, 1).books == Watched(cfg, s, input);
      }
    }
  }

  /** The guard has been fed the one value there is, or none. */
  ghost predicate FedOnce(gcfg: GuardConfig, g: Guard, first: seq<Sight>, mid: Guard) {
    if first == [] then mid == g
    else
      && |first| == 1
      && mid == match gcfg.metric
                case Balance => Updated(gcfg, g, first[0].balance)
                case Equity => Updated(gcfg, g, first[0].balance + first[0].profit)
  }

  lemma {:induction false} TickGuard(cfg: Config, gcfg: GuardConfig, s: EngineState, input: TickInput)
    requires cfg.Valid() && AllOrderly(s.books.open) && input.Valid() && gcfg.enabled
    ensures FedOnce(gcfg, s.gate.guard, SightOf(cfg, s, input), TickEngine(cfg, gcfg, s, input).gate.guard)
  {
    TickFeeds(cfg, gcfg, s, input, StagesRun(cfg, s, input));
    OpenProfitIsSum(Watched(cfg, s, input).open, input.tick.price);
  }

  lemma {:induction false} FeedHead(gcfg: GuardConfig, g: Guard, x: real, rest: seq<real>)
    ensures Feed(gcfg, g, [x] + rest) == Feed(gcfg, Updated(gcfg, g, x), rest)
    decreases |rest|
  {
    var all := [x] + rest;
    if rest == [] {
      assert all[..|all| - 1] == [];
    } else {
      assert all[..|all| - 1] == [x] + rest[..|rest| - 1];
      FeedHead(gcfg, g, x, rest[..|rest| - 1]);
    }
  }

  /** The guard has been fed these values, by its metric. */
  ghost predicate FedBy(gcfg: GuardConfig, g: Guard, sights: seq<Sight>, g': Guard) {
    g' == match gcfg.metric
          case Balance => Feed(gcfg, g, Balances(sights))
          case Equity => Feed(gcfg, g, Equities(sights))
  }

  lemma {:induction false} FedOneMore(gcfg: GuardConfig, g: Guard, x: Sight, rest: seq<Sight>, mid: Guard, g': Guard)
    requires FedBy(gcfg, mid, rest, g')
    requires mid == match gcfg.metric
                    case Balance => Updated(gcfg, g, x.balance)
                    case Equity => Updated(gcfg, g, x.balance + x.profit)
    ensures FedBy(gcfg, g, [x] + rest, g')
  {
    var all := [x] + rest;
    assert Balances(all) == [x.balance] + Balances(rest);
    assert Equities(all) == [x.balance + x.profit] + Equities(rest);
    FeedHead(gcfg, g, x.balance, Balances(rest));
    FeedHead(gcfg, g, x.balance + x.profit, Equities(rest));
  }

  lemma {:induction false} FedFirst(
    gcfg: GuardConfig, g: Guard, first: seq<Sight>, later: seq<Sight>, mid: Guard, g': Guard)
    requires FedOnce(gcfg, g, first, mid) && FedBy(gcfg, mid, later, g')
    ensures FedBy(gcfg, g, first + later, g')
  {
    if first == [] {
      assert first + later == later;
    } else {
      assert first == [first[0]];
      FedOneMore(gcfg, g, first[0], later, mid, g');
    }
  }

  /** The first tick of a run, what the guard finds on it, and what is left. */
  lemma {:induction false} FirstTick(cfg: Config, gcfg: GuardConfig, s: EngineState, inputs: seq<TickInput>)
    returns (first: seq<Sight>, s': EngineState, rest: seq<TickInput>)
    requires Ready(cfg, s, inputs) && inputs != [] && gcfg.enabled
    ensures Ready(cfg, s', rest) && |rest| < |inputs|
    ensures FedOnce(gcfg, s.gate.guard, first, s'.gate.guard)
    ensures Sights(cfg, gcfg, s, inputs) == first + Sights(cfg, gcfg, s', rest)
    ensures RunTicks(cfg, gcfg, s, inputs) == RunTicks(cfg, gcfg, s', rest)
  {
    TickKeeps(cfg, gcfg, s, inputs[0]);
    TickGuard(cfg, gcfg, s, inputs[0]);
    first, s', rest := SightOf(cfg, s, inputs[0]), TickEngine(cfg, gcfg, s, inputs[0]), inputs[1..];
  }

  lemma {:induction false} RunFeeds(cfg: Config, gcfg: GuardConfig, s: EngineState, inputs: seq<TickInput>)
    requires Ready(cfg, s, inputs) && gcfg.enabled
    ensures FedBy(gcfg, s.gate.guard, Sights(cfg, gcfg, s, inputs), RunTicks(cfg, gcfg, s, inputs).gate.guard)
    decreases |inputs|
  {
    if inputs != [] {
      var first, s', rest := FirstTick(cfg, gcfg, s, inputs);
      RunFeeds(cfg, gcfg, s', rest);
      FedFirst(gcfg, s.gate.guard, first, Sights(cfg, gcfg, s', rest), s'.gate.guard,
               RunTicks(cfg, gcfg, s', rest).gate.guard);
    }
  }

  /**
   An engine with a fresh guard on the balance is tripped after a run exactly when, among the
   balances after monitoring on the ticks that reached the guard, a positive one is followed by
   one that lies the configured percentage below it.
   */
  lemma {:induction false} BalanceTripsIff(cfg: Config, gcfg: GuardConfig, s: EngineState, inputs: seq<TickInput>)
    requires Ready(cfg, s, inputs) && gcfg.enabled && gcfg.Valid() && gcfg.metric.Balance? && s.gate.guard == FRESH
    ensures RunTicks(cfg, gcfg, s, inputs).gate.guard.triggered
            <==> SomeDrop(gcfg.maxPct, Balances(Sights(cfg, gcfg, s, inputs)))
  {
    RunFeeds(cfg, gcfg, s, inputs);
    TriggeredIffPairwise(gcfg, Balances(Sights(cfg, gcfg, s, inputs)));
  }

  /** On the equity likewise, with the open deals' profit in every value. */
  lemma {:induction false} EquityTripsIff(cfg: Config, gcfg: GuardConfig, s: EngineState, inputs: seq<TickInput>)
    requires Ready(cfg, s, inputs) && gcfg.enabled && gcfg.Valid() && gcfg.metric.Equity? && s.gate.guard == FRESH
    ensures RunTicks(cfg, gcfg, s, inputs).gate.guard.triggered
            <==> SomeDrop(gcfg.maxPct, Equities(Sights(cfg, gcfg, s, inputs)))
  {
    RunFeeds(cfg, gcfg, s, inputs);
    TriggeredIffPairwise(gcfg, Equities(Sights(cfg, gcfg, s, inputs)));
  }
}
