/**
 What every run of the tick engine keeps: the money, the deals, and the drawdown latch
 across clock-skewed ticks, failing ticks, restarts and portal resets.
 */
module EngineRuns {
  import opened Options
  import opened InversePerpMath
  import opened Deals
  import opened TickRules
  import opened Drawdown
  import opened PaperLedger
  import opened Multisets
  import opened EngineRules

  // ---- Money -------------------------------------------------------------------------------

  function SumFees(fees: seq<real>): real {
    if fees == [] then 0.0 else SumFees(fees[..|fees| - 1]) + fees[|fees| - 1]
  }

  /** The capital the books account for: what must be left once profit is taken out and debited fees put back. */
  function Capital(m: Money): real {
    m.balance - SumPnl(m.closed) + m.accepted
  }

  /** Fees counted but neither debited nor refused; nothing may ever appear here. */
  function Unexplained(m: Money): real {
    m.feesPaid - m.accepted - SumFees(m.refused)
  }

  ghost predicate NonNegative(fees: seq<real>) {
    forall i :: 0 <= i < |fees| ==> fees[i] >= 0.0
  }

  /** The history holds closed deals only. */
  ghost predicate AllSettled(closed: seq<Deal>) {
    forall i :: 0 <= i < |closed| ==> !closed[i].closing.isOpen
  }

  /** `m'` accounts for the same money as `m`. */
  ghost predicate Conserves(m: Money, m': Money) {
    && Capital(m') == Capital(m)
    && Unexplained(m') == Unexplained(m)
    && (NonNegative(m.refused) ==> NonNegative(m'.refused))
    && (AllSettled(m.closed) ==> AllSettled(m'.closed))
    && (AllStamped(m.closed) ==> AllStamped(m'.closed))
  }

  lemma {:induction false} ChargeConserves(m: Money, fee: real)
    requires fee >= 0.0
    ensures Conserves(m, Charge(m, fee)) && Conserves(m, ChargeAnyway(m, fee))
  {
    var r := m.refused + [fee];
    assert r[..|r| - 1] == m.refused;
  }

  lemma {:induction false} SettleConserves(m: Money, d: Deal, price: real, reason: string)
    requires Bookable(d)
    ensures Conserves(m, Settle(m, d, price, reason))
  {
    var c := Settle(m, d, price, reason).closed;
    assert c[..|c| - 1] == m.closed;
    ClosingStamps(d, price, reason);
    if AllStamped(m.closed) {
      StampedSnoc(m.closed, ClosedDeal(d, price, reason));
    }
  }

  lemma {:induction false} FeeNonNegative(cfg: Config, size: real)
    requires cfg.Valid() && size >= 0.0
    ensures Fee(cfg, size) >= 0.0
  {
  }

  lemma {:induction false} SettleAndChargeConserves(cfg: Config, m: Money, v: Verdict)
    requires cfg.Valid() && v.Closes? && Orderly(v.deal) && Bookable(v.deal)
    ensures Conserves(m, SettleAndCharge(cfg, m, v))
  {
    SoundSums(v.deal.orders);
    FeeNonNegative(cfg, TotalSize(v.deal.orders));
    SettleConserves(m, v.deal, v.fill, v.reason);
    ChargeConserves(Settle(m, v.deal, v.fill, v.reason), Fee(cfg, TotalSize(v.deal.orders)));
  }

  lemma {:induction false} SweepConserves(cfg: Config, m: Money, todo: seq<Deal>, tick: Tick, budget: nat)
    requires cfg.Valid() && AllOrderly(todo) && tick.price > 0.0
    ensures Conserves(m, SweepDeals(cfg, m, todo, tick, budget).money)
    decreases |todo|
  {
    if todo != [] {
      var a := TryDeal(cfg, todo[0], tick, budget > 0);
      TryDealOrderly(cfg, todo[0], tick, budget > 0);
      OrderlyIsBookable(DealAfter(a));
      match a {
        case Raised(_) =>
        case Decided(v) =>
          if v.Closes? {
            SettleAndChargeConserves(cfg, m, v);
            SweepConserves(cfg, SettleAndCharge(cfg, m, v), todo[1..], tick, budget);
          } else if v.averaged {
            FeeNonNegative(cfg, LastSize(v.deal));
            ChargeConserves(m, Fee(cfg, LastSize(v.deal)));
            SweepConserves(cfg, Charge(m, Fee(cfg, LastSize(v.deal))), todo[1..], tick, budget - 1);
          } else {
            SweepConserves(cfg, m, todo[1..], tick, budget);
          }
      }
    }
  }

  lemma {:induction false} OpenedConserves(cfg: Config, b: Books, price: real, id: Option<DealId>)
    requires cfg.Valid()
    ensures Conserves(b.money, Opened(cfg, b, price, id).money)
  {
    FeeNonNegative(cfg, cfg.dca.baseSize);
    ChargeConserves(b.money, Fee(cfg, cfg.dca.baseSize));
  }

  lemma {:induction false} ObeyedConserves(cfg: Config, b: Books, s: Sentinel, price: real)
    requires cfg.Valid() && AllOrderly(b.open)
    requires forall i :: 0 <= i < |b.open| ==> Bookable(b.open[i])
    ensures Conserves(b.money, Obeyed(cfg, b, s, price).money)
  {
    var i := IndexOf(b.open, s.id);
    if i.Some? && !s.EditDeal? {
      var d := b.open[i.value];
      SoundSums(d.orders);
      FeeNonNegative(cfg, TotalSize(d.orders));
      var trigger := if s.CancelDeal? then CANCELLED else MANUAL;
      var dead := d.(closing := d.closing.(trigger := Some(trigger)));
      SettleConserves(b.money, dead, price, trigger);
      ChargeConserves(Settle(b.money, dead, price, trigger), Fee(cfg, TotalSize(d.orders)));
    }
  }

  lemma {:induction false} ObeyedAllConserves(cfg: Config, b: Books, rs: seq<Request>, price: real)
    requires cfg.Valid() && AllOrderly(b.open) && price > 0.0
    ensures Conserves(b.money, ObeyedAll(cfg, b, rs, price).money)
    decreases |rs|
  {
    if rs != [] {
      AllBookable(b.open);
      ObeyedOrderly(cfg, b, rs[0].what, price);
      ObeyedConserves(cfg, b, rs[0].what, price);
      ObeyedAllConserves(cfg, Obeyed(cfg, b, rs[0].what, price), rs[1..], price);
    }
  }

  /**
   The balance decides nothing: whatever the cash, the same deals close and the same DCA
   orders are placed. A refused DCA fee does not stop the order it was charged for.
   */
  lemma {:induction false} BalanceNeverDecides(
    cfg: Config, m: Money, poor: Money, todo: seq<Deal>, tick: Tick, budget: nat)
    requires cfg.Valid() && AllOrderly(todo) && tick.price > 0.0
    ensures var (s, p) := (SweepDeals(cfg, m, todo, tick, budget), SweepDeals(cfg, poor, todo, tick, budget));
            s.kept == p.kept && s.raised == p.raised
    decreases |todo|
  {
    if todo != [] {
      var a, rest := TryDeal(cfg, todo[0], tick, budget > 0), todo[1..];
      TryDealOrderly(cfg, todo[0], tick, budget > 0);
      OrderlyIsBookable(DealAfter(a));
      match a {
        case Raised(_) =>
        case Decided(v) =>
          if v.Closes? {
            BalanceNeverDecides(cfg, SettleAndCharge(cfg, m, v), SettleAndCharge(cfg, poor, v), rest, tick, budget);
          } else if v.averaged {
            var fee := Fee(cfg, LastSize(v.deal));
            BalanceNeverDecides(cfg, Charge(m, fee), Charge(poor, fee), rest, tick, budget - 1);
          } else {
            BalanceNeverDecides(cfg, m, poor, rest, tick, budget);
          }
      }
    }
  }

  /** A due DCA whose fee the balance cannot pay is placed all the same: the fee is counted and the cash untouched. */
  lemma {:induction false} UnpaidDcaIsPlaced(cfg: Config, m: Money, d: Deal, tick: Tick)
    requires cfg.Valid() && Orderly(d) && tick.price > 0.0
    requires var a := TryDeal(cfg, d, tick, true);
             a.Decided? && a.verdict.Stays? && a.verdict.averaged && m.balance < Fee(cfg, LastSize(a.verdict.deal))
    ensures var s := SweepDeals(cfg, m, [d], tick, 1);
            && |s.kept| == 1 && |s.kept[0].orders| == |d.orders| + 1
            && s.money.balance == m.balance && s.money.accepted == m.accepted
            && |s.money.refused| == |m.refused| + 1 && s.money.feesPaid > m.feesPaid + m.balance
  {
    TryDealOrderly(cfg, d, tick, true);
    var v := TryDeal(cfg, d, tick, true).verdict;
    OrderlyIsBookable(v.deal);
    assert [d][0] == d && [d][1..] == [];
    var left := SweepDeals(cfg, Charge(m, Fee(cfg, LastSize(v.deal))), [], tick, 0);
    assert SweepDeals(cfg, m, [d], tick, 1) == Ahead(v.deal, left);
  }

  /** Books in which this happens: a deal bought at 100 with an empty balance, and the price at 90. */
  lemma {:induction false} UnpaidDcaExample() returns (cfg: Config, d: Deal)
    ensures cfg.Valid() && Orderly(d) && |d.orders| == 1
    ensures var s := SweepDeals(cfg, Money(0.0, [], 0.0, 0.0, []), [d], Tick(90.0, NO_SIGNALS), 1);
            |s.kept| == 1 && |s.kept[0].orders| == 2 && s.money.balance == 0.0 && |s.money.refused| == 1
  {
    cfg := Config(Long, 1, DcaConfig(true, 1.0, 3, 5.0, 1.0, 1.0, 0.001), TpConfig(false, true, 3.0, None, false),
                      StopConfig(NoStop, 0.0), false);
    d := OpenedDeal(cfg, "1", Long, 100.0);
    var m, tick := Money(0.0, [], 0.0, 0.0, []), Tick(90.0, NO_SIGNALS);
    OpenedIsSound(cfg, "1", Long, 100.0);
    assert DcaCount(d.orders) == 0;
    assert StepPct(cfg, 0) == 5.0 && DcaLevel(cfg, d) == 95.0;
    assert UnroundedDcaSize(cfg, 0) == 1.0;
    assert RoundTo(1.0, EIGHT_DECIMALS) == 1.0;
    assert CheckDca(cfg, d, 90.0) == Some(Order(2, 90.0, 1.0, DcaOrder));
    var down := d.(orders := d.orders + [Order(2, 90.0, 1.0, DcaOrder)]);
    assert TryDeal(cfg, d, tick, true) == Decided(Stays(down, true));
    UnpaidDcaIsPlaced(cfg, m, d, tick);
    assert d.orders == [Order(1, 100.0, 1.0, BaseOrder)];
  }

  const NO_SIGNALS := Indicators(false, false, false)

  // ---- Deals -------------------------------------------------------------------------------

  function Ids(deals: seq<Deal>): multiset<DealId> {
    if deals == [] then multiset{} else Ids(deals[..|deals| - 1]) + multiset{deals[|deals| - 1].id}
  }

  lemma {:induction false} IdsConcat(a: seq<Deal>, b: seq<Deal>)
    ensures Ids(a + b) == Ids(a) + Ids(b)
    decreases |b|
  {
    if b == [] {
      assert a + b == a;
    } else {
      var front := b[..|b| - 1];
      assert (a + b)[..|a + b| - 1] == a + front;
      IdsConcat(a, front);
    }
  }

  lemma {:induction false} IdsSingle(d: Deal)
    ensures Ids([d]) == multiset{d.id}
  {
    assert [d][..0] == [];
  }

  lemma {:induction false} IdsWithout(deals: seq<Deal>, i: nat)
    requires i < |deals|
    ensures Ids(deals) == Ids(Without(deals, i)) + multiset{deals[i].id}
  {
    assert deals == deals[..i] + [deals[i]] + deals[i + 1..];
    IdsSingle(deals[i]);
    IdsConcat(deals[..i], [deals[i]]);
    IdsConcat(deals[..i] + [deals[i]], deals[i + 1..]);
    IdsConcat(deals[..i], deals[i + 1..]);
  }

  lemma {:induction false} SameIds(a: seq<Deal>, b: seq<Deal>)
    requires |a| == |b| && forall i :: 0 <= i < |a| ==> a[i].id == b[i].id
    ensures Ids(a) == Ids(b)
    decreases |a|
  {
    if a != [] {
      SameIds(a[..|a| - 1], b[..|b| - 1]);
    }
  }

  /** All deals the books hold, open and closed. */
  function AllIds(money: Money, open: seq<Deal>): multiset<DealId> {
    Ids(open) + Ids(money.closed)
  }

  /** Every deal ever opened is in exactly one of the two places. */
  ghost predicate Accounted(b: Books) {
    AllIds(b.money, b.open) == multiset(b.everOpened)
  }

  lemma {:induction false} SettleIds(m: Money, d: Deal, price: real, reason: string)
    requires Bookable(d)
    ensures Ids(Settle(m, d, price, reason).closed) == Ids(m.closed) + multiset{d.id}
  {
    var c := ClosedDeal(d, price, reason);
    IdsSingle(c);
    IdsConcat(m.closed, [c]);
  }

  lemma {:induction false} HeadIds(d: Deal, rest: seq<Deal>)
    ensures Ids([d] + rest) == multiset{d.id} + Ids(rest)
  {
    IdsSingle(d);
    IdsConcat([d], rest);
  }

  lemma {:induction false} CloseMoves(cfg: Config, m: Money, v: Verdict, d: Deal, rest: seq<Deal>)
    requires v.Closes? && Bookable(v.deal) && v.deal.id == d.id
    ensures AllIds(SettleAndCharge(cfg, m, v), rest) == AllIds(m, [d] + rest)
  {
    HeadIds(d, rest);
    SettleIds(m, v.deal, v.fill, v.reason);
    assert SettleAndCharge(cfg, m, v).closed == Settle(m, v.deal, v.fill, v.reason).closed;
    Shuffle(Ids(rest), Ids(m.closed), multiset{d.id});
  }

  lemma {:induction false} KeepMoves(m: Money, m': Money, d: Deal, d': Deal, rest: seq<Deal>, kept: seq<Deal>)
    requires AllIds(m', kept) == AllIds(m, rest) && d.id == d'.id
    ensures AllIds(m', [d'] + kept) == AllIds(m, [d] + rest)
  {
    HeadIds(d, rest);
    HeadIds(d', kept);
    Shuffle(Ids(rest), Ids(m.closed), multiset{d.id});
    Shuffle(Ids(kept), Ids(m'.closed), multiset{d.id});
  }

  lemma {:induction false} SweepKeepsDeals(cfg: Config, m: Money, todo: seq<Deal>, tick: Tick, budget: nat)
    requires cfg.Valid() && AllOrderly(todo) && tick.price > 0.0
    ensures var s := SweepDeals(cfg, m, todo, tick, budget);
            AllIds(s.money, s.kept) == AllIds(m, todo) && |s.kept| <= |todo|
    decreases |todo|
  {
    if todo != [] {
      var a, rest := TryDeal(cfg, todo[0], tick, budget > 0), todo[1..];
      TryDealOrderly(cfg, todo[0], tick, budget > 0);
      OrderlyIsBookable(DealAfter(a));
      assert todo == [todo[0]] + rest;
      match a {
        case Raised(d) =>
          KeepMoves(m, m, todo[0], d, rest, rest);
        case Decided(v) =>
          if v.Closes? {
            SweepKeepsDeals(cfg, SettleAndCharge(cfg, m, v), rest, tick, budget);
            CloseMoves(cfg, m, v, todo[0], rest);
          } else {
            var m' := if v.averaged then Charge(m, Fee(cfg, LastSize(v.deal))) else m;
            var left := if v.averaged then budget - 1 else budget;
            SweepKeepsDeals(cfg, m', rest, tick, left);
            var s := SweepDeals(cfg, m', rest, tick, left);
            assert AllIds(m', rest) == AllIds(m, rest);
            KeepMoves(m, s.money, todo[0], v.deal, rest, s.kept);
          }
      }
    }
  }

  lemma {:induction false} OpenedIds(open: seq<Deal>, closed: seq<Deal>, ever: seq<DealId>, d: Deal)
    requires Ids(open) + Ids(closed) == multiset(ever)
    ensures Ids(open + [d]) + Ids(closed) == multiset(ever + [d.id])
  {
    IdsSingle(d);
    IdsConcat(open, [d]);
    Shuffle(Ids(open), Ids(closed), multiset{d.id});
    MultisetSnoc(ever, d.id);
  }

  lemma {:induction false} OpenedAccounted(cfg: Config, b: Books, price: real, id: Option<DealId>)
    requires Accounted(b) && (id.Some? ==> IndexOf(b.open, id.value).None?)
    ensures Accounted(Opened(cfg, b, price, id))
  {
    if id.Some? {
      OpenedIds(b.open, b.money.closed, b.everOpened, OpenedDeal(cfg, id.value, cfg.direction, price));
    }
  }

  lemma {:induction false} ObeyedAccounted(cfg: Config, b: Books, s: Sentinel, price: real)
    requires Accounted(b) && forall i :: 0 <= i < |b.open| ==> Bookable(b.open[i])
    ensures Accounted(Obeyed(cfg, b, s, price))
    ensures |Obeyed(cfg, b, s, price).open| <= |b.open|
  {
    var i := IndexOf(b.open, s.id);
    if i.Some? {
      var d := b.open[i.value];
      if s.EditDeal? {
        SameIds(b.open, b.open[i.value := Edited(d, s)]);
      } else {
        IdsWithout(b.open, i.value);
        var trigger := if s.CancelDeal? then CANCELLED else MANUAL;
        SettleIds(b.money, d.(closing := d.closing.(trigger := Some(trigger))), price, trigger);
      }
    }
  }

  lemma {:induction false} ObeyedAllAccounted(cfg: Config, b: Books, rs: seq<Request>, price: real)
    requires cfg.Valid() && AllOrderly(b.open) && price > 0.0 && Accounted(b)
    ensures Accounted(ObeyedAll(cfg, b, rs, price))
    ensures |ObeyedAll(cfg, b, rs, price).open| <= |b.open|
    decreases |rs|
  {
    if rs != [] {
      AllBookable(b.open);
      ObeyedOrderly(cfg, b, rs[0].what, price);
      ObeyedAccounted(cfg, b, rs[0].what, price);
      ObeyedAllAccounted(cfg, Obeyed(cfg, b, rs[0].what, price), rs[1..], price);
    }
  }

  // ---- One tick, then every run --------------------------------------------------------------

  /** What a step of the books keeps. */
  ghost predicate Keeps(cfg: Config, b: Books, b': Books) {
    && b'.initial == b.initial
    && Conserves(b.money, b'.money)
    && (AllOrderly(b.open) ==> AllOrderly(b'.open))
    && (Accounted(b) ==> Accounted(b'))
    && (|b.open| <= 1 ==> |b'.open| <= 1)
  }

  lemma {:induction false} MonitoredKeeps(cfg: Config, b: Books, tick: Tick)
    requires cfg.Valid() && AllOrderly(b.open) && tick.price > 0.0
    ensures Keeps(cfg, b, Monitored(cfg, b, tick))
  {
    var tracked := TrackAll(b.open, tick.price);
    MonitoredOrderly(cfg, b, tick);
    SweepConserves(cfg, b.money, tracked, tick, MAX_DCA_PER_TICK);
    SweepKeepsDeals(cfg, b.money, tracked, tick, MAX_DCA_PER_TICK);
    SameIds(b.open, tracked);
  }

  lemma {:induction false} OpenedKeeps(cfg: Config, b: Books, price: real, id: Option<DealId>)
    requires cfg.Valid() && AllOrderly(b.open) && price > 0.0 && b.open == []
    ensures Keeps(cfg, b, Opened(cfg, b, price, id))
  {
    OpenedOrderly(cfg, b, price, id);
    OpenedConserves(cfg, b, price, id);
    if Accounted(b) {
      OpenedAccounted(cfg, b, price, id);
    }
  }

  lemma {:induction false} ObeyedAllKeeps(cfg: Config, b: Books, rs: seq<Request>, price: real)
    requires cfg.Valid() && AllOrderly(b.open) && price > 0.0
    ensures Keeps(cfg, b, ObeyedAll(cfg, b, rs, price))
  {
    ObeyedAllOrderly(cfg, b, rs, price);
    ObeyedAllConserves(cfg, b, rs, price);
    ObeyedAllShrinks(cfg, b, rs, price);
    if Accounted(b) {
      ObeyedAllAccounted(cfg, b, rs, price);
    }
  }

  lemma {:induction false} ObeyedAllShrinks(cfg: Config, b: Books, rs: seq<Request>, price: real)
    requires cfg.Valid() && AllOrderly(b.open) && price > 0.0
    ensures |ObeyedAll(cfg, b, rs, price).open| <= |b.open|
    ensures ObeyedAll(cfg, b, rs, price).initial == b.initial
    decreases |rs|
  {
    if rs != [] {
      AllBookable(b.open);
      ObeyedOrderly(cfg, b, rs[0].what, price);
      ObeyedAllShrinks(cfg, Obeyed(cfg, b, rs[0].what, price), rs[1..], price);
    }
  }

  lemma {:induction false} KeepsChain(cfg: Config, a: Books, b: Books, c: Books)
    requires Keeps(cfg, a, b) && Keeps(cfg, b, c)
    ensures Keeps(cfg, a, c)
  {
  }

  lemma {:induction false} StageKeeps(cfg: Config, gcfg: GuardConfig, s: EngineState, input: TickInput, k: nat)
    requires cfg.Valid() && AllOrderly(s.books.open) && input.Valid()
    ensures Keeps(cfg, s.books, Stage(cfg, gcfg, s, input, k).books)
  {
    var b, price := s.books, input.tick.price;
    match k
    case 1 => MonitoredKeeps(cfg, b, input.tick);
    case 3 => if b.open == [] { OpenedKeeps(cfg, b, price, input.manualId); }
    case 4 => ObeyedAllKeeps(cfg, b, input.requests, price);
    case 5 => if b.open == [] { OpenedKeeps(cfg, b, price, input.entryId); }
    case _ =>
  }

  lemma {:induction false} UptoKeeps(cfg: Config, gcfg: GuardConfig, s: EngineState, input: TickInput, k: nat)
    requires cfg.Valid() && AllOrderly(s.books.open) && input.Valid()
    ensures Keeps(cfg, s.books, Upto(cfg, gcfg, s, input, k).books)
  {
    if k > 0 {
      var r := Upto(cfg, gcfg, s, input, k - 1);
      UptoKeeps(cfg, gcfg, s, input, k - 1);
      StageKeeps(cfg, gcfg, r, input, k);
      KeepsChain(cfg, s.books, r.books, Stage(cfg, gcfg, r, input, k).books);
    }
  }

  /** A tick, wherever it stops, keeps the money and the deals accounted for. */
  lemma {:induction false} TickKeeps(cfg: Config, gcfg: GuardConfig, s: EngineState, input: TickInput)
    requires cfg.Valid() && AllOrderly(s.books.open) && input.Valid()
    ensures Keeps(cfg, s.books, TickEngine(cfg, gcfg, s, input).books)
  {
    UptoKeeps(cfg, gcfg, Begun(s, input), input, StagesRun(cfg, s, input));
  }

  ghost function RunTicks(cfg: Config, gcfg: GuardConfig, s: EngineState, inputs: seq<TickInput>): EngineState
    requires cfg.Valid() && AllOrderly(s.books.open)
    requires forall i :: 0 <= i < |inputs| ==> inputs[i].Valid()
    decreases |inputs|
  {
    if inputs == [] then s
    else
      TickKeeps(cfg, gcfg, s, inputs[0]);
      RunTicks(cfg, gcfg, TickEngine(cfg, gcfg, s, inputs[0]), inputs[1..])
  }

  lemma {:induction false} RunKeeps(cfg: Config, gcfg: GuardConfig, s: EngineState, inputs: seq<TickInput>)
    requires cfg.Valid() && AllOrderly(s.books.open)
    requires forall i :: 0 <= i < |inputs| ==> inputs[i].Valid()
    ensures Keeps(cfg, s.books, RunTicks(cfg, gcfg, s, inputs).books)
    decreases |inputs|
  {
    if inputs != [] {
      TickKeeps(cfg, gcfg, s, inputs[0]);
      var s' := TickEngine(cfg, gcfg, s, inputs[0]);
      RunKeeps(cfg, gcfg, s', inputs[1..]);
      KeepsChain(cfg, s.books, s'.books, RunTicks(cfg, gcfg, s', inputs[1..]).books);
    }
  }

  lemma {:induction false} SumOfNonNegative(fees: seq<real>)
    requires NonNegative(fees)
    ensures SumFees(fees) >= 0.0
    ensures SumFees(fees) == 0.0 <==> forall i :: 0 <= i < |fees| ==> fees[i] == 0.0
    decreases |fees|
  {
    if fees != [] {
      var front := fees[..|fees| - 1];
      SumOfNonNegative(front);
      assert forall i :: 0 <= i < |front| ==> front[i] == fees[i];
      if SumFees(fees) == 0.0 {
        forall i | 0 <= i < |fees|
          ensures fees[i] == 0.0
        {
          if i < |front| { assert front[i] == 0.0; }
        }
      }
    }
  }

  /**
   On every run, whatever engine it starts from (fresh, or over a state file): every deal
   opened is open or closed and not both, the balance is the starting capital plus closed
   profit less the accepted fees, and it is never below what the counted fees predict, with
   equality exactly when no positive fee was refused. At most one deal is open if at most
   one was.
   */
  lemma {:induction false} MoneyOnEveryRun(cfg: Config, gcfg: GuardConfig, s: EngineState, inputs: seq<TickInput>)
    requires cfg.Valid() && AllOrderly(s.books.open) && Accounted(s.books) && NonNegative(s.books.money.refused)
    requires forall i :: 0 <= i < |inputs| ==> inputs[i].Valid()
    ensures var (m, b) := (s.books.money, RunTicks(cfg, gcfg, s, inputs).books);
            && b.initial == s.books.initial
            && (|s.books.open| <= 1 ==> |b.open| <= 1)
            && Accounted(b) && (AllSettled(m.closed) ==> AllSettled(b.money.closed))
            && (AllStamped(m.closed) ==> AllStamped(b.money.closed))
            && b.money.balance == Capital(m) + SumPnl(b.money.closed) - b.money.accepted
            && b.money.balance >= Capital(m) + SumPnl(b.money.closed) - (b.money.feesPaid - Unexplained(m))
            && (b.money.balance == Capital(m) + SumPnl(b.money.closed) - (b.money.feesPaid - Unexplained(m))
                <==> forall i :: 0 <= i < |b.money.refused| ==> b.money.refused[i] == 0.0)
  {
    RunKeeps(cfg, gcfg, s, inputs);
    SumOfNonNegative(RunTicks(cfg, gcfg, s, inputs).books.money.refused);
  }
}
