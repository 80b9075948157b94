/**
 The tick-driven engine as it runs: a ledger object, a guard object and the engine's own
 fields, updated in place. Every method is tied to the value functions of EngineRules
 (paper/paper_state.py, core/trading_engine.py, paper/paper_engine.py, paper/close_handler.py,
 live/live_engine.py).
 */
module TradingEngine {
  import opened Options
  import opened InversePerpMath
  import opened Deals
  import opened TickRules
  import opened PaperLedger
  import opened Drawdown
  import opened EngineRules

  class Engine {
    const cfg: Config
    const gcfg: GuardConfig
    const state: PaperState
    const guard: DrawdownGuard
    var feesPaid: real
    var paused: bool
    var running: bool
    var skewed: bool
    var stashed: bool
    var disk: Option<Saved>
    ghost var accepted: real
    ghost var refused: seq<real>
    ghost var everOpened: seq<DealId>

    ghost function Cash(): Money
      reads this, state
    {
      Money(state.balance, state.closedDeals, feesPaid, accepted, refused)
    }

    ghost function BooksView(): Books
      reads this, state
    {
      Books(state.initial, Cash(), state.openDeals, everOpened)
    }

    ghost function GateView(): Gate
      reads this, guard
    {
      Gate(guard.View(), paused, running, skewed, stashed)
    }

    ghost function View(): EngineState
      reads this, state, guard
    {
      EngineState(BooksView(), GateView(), disk)
    }

    ghost predicate Valid()
      reads this, state, guard
    {
      && cfg.Valid()
      && guard.config == gcfg
      && AllOrderly(state.openDeals)
      && UniqueIds(state.openDeals)
    }

    /** `disk` is the state file found at start-up. */
    constructor (cfg: Config, gcfg: GuardConfig, initial: real, disk: Option<Saved>)
      requires cfg.Valid() && OrderlyDisk(disk)
      ensures this.cfg == cfg && this.gcfg == gcfg
      ensures Valid() && fresh(state) && fresh(guard)
      ensures View() == Loaded(disk, initial)
    {
      this.cfg, this.gcfg := cfg, gcfg;
      state := new PaperState(initial);
      guard := new DrawdownGuard(gcfg);
      feesPaid, paused, running, skewed, stashed := 0.0, false, false, false, false;
      this.disk := disk;
      accepted, refused, everOpened := 0.0, [], [];
      new;
      if disk.Some? {
        LoadState(disk.value);
      }
    }

    /** Takes the saved values over; a missing key leaves the field as constructed. */
    method LoadState(saved: Saved)
      requires Valid() && AllOrderly(saved.open) && disk == Some(saved)
      requires state.openDeals == state.closedDeals == [] && BooksView() == FreshBooks(state.initial)
      requires GateView() == Gate(FRESH, false, false, false, false)
      modifies this`feesPaid, this`paused, this`everOpened, state, guard
      ensures Valid() && forall capital :: View() == Loaded(Some(saved), capital)
    {
      state.balance, state.initial := saved.balance, saved.initial;
      if saved.feesPaid.Some? {
        feesPaid := saved.feesPaid.value;
      }
      if saved.guard.Some? {
        guard.FromDict(saved.guard.value);
      }
      if saved.paused == Some(true) {
        paused := true;
      }
      LoadDeals(saved);
      everOpened := IdsOf(state.openDeals) + IdsOf(state.closedDeals);
    }

    /** The two lists of deals; an open deal goes into the dictionary under its id. */
    method LoadDeals(saved: Saved)
      requires state.openDeals == state.closedDeals == []
      requires AllOrderly(saved.open)
      modifies state`openDeals, state`closedDeals
      ensures state.openDeals == PutAll(saved.open) && state.closedDeals == saved.closed
      ensures AllOrderly(state.openDeals) && UniqueIds(state.openDeals)
    {
      for i := 0 to |saved.closed|
        invariant state.closedDeals == saved.closed[..i] && state.openDeals == []
      {
        state.closedDeals := state.closedDeals + [saved.closed[i]];
      }
      for i := 0 to |saved.open|
        invariant state.closedDeals == saved.closed && state.openDeals == PutAll(saved.open[..i])
      {
        assert saved.open[..i + 1][..i] == saved.open[..i];
        state.OpenDeal(saved.open[i]);
      }
      assert saved.open[..|saved.open|] == saved.open;
      PutAllKeeps(saved.open);
    }

    /** The paper engine's balance check. The caller counts the fee whatever the answer. */
    method DeductBalance(amount: real) returns (ok: bool)
      modifies this`accepted, this`refused, state`balance
      ensures ok <==> old(state.balance) >= amount
      ensures ok ==> state.balance == old(state.balance) - amount && accepted == old(accepted) + amount
                     && refused == old(refused)
      ensures !ok ==> state.balance == old(state.balance) && accepted == old(accepted)
                      && refused == old(refused) + [amount]
    {
      if state.balance < amount {
        refused := refused + [amount];
        return false;
      }
      state.balance := state.balance - amount;
      accepted := accepted + amount;
      return true;
    }

    method PayFee(fee: real)
      modifies this`accepted, this`refused, this`feesPaid, state`balance
      ensures Cash() == Charge(old(Cash()), fee)
    {
      var _ := DeductBalance(fee);
      feesPaid := feesPaid + fee;
    }

    /** `id` is what the ledger accepted, None when it refused; see DealLedger for the retry. */
    method OpenDeal(price: real, id: Option<DealId>)
      requires Valid() && price > 0.0
      modifies this`accepted, this`refused, this`feesPaid, this`everOpened, state`balance, state`openDeals
      ensures Valid() && BooksView() == Opened(cfg, old(BooksView()), price, id)
    {
      if id.None? {
        return;
      }
      var deal := OpenedDeal(cfg, id.value, cfg.direction, price);
      OpenedIsSound(cfg, id.value, cfg.direction, price);
      PutKeeps(state.openDeals, deal);
      state.OpenDeal(deal);
      everOpened := everOpened + [id.value];
      PayFee(Fee(cfg, cfg.dca.baseSize));
    }

    method UpdateWickTrackers(price: real)
      requires Valid() && price > 0.0
      modifies state`openDeals
      ensures Valid() && state.openDeals == TrackAll(old(state.openDeals), price)
    {
      ghost var start := state.openDeals;
      for i := 0 to |state.openDeals|
        invariant |state.openDeals| == |start|
        invariant forall k :: 0 <= k < i ==> state.openDeals[k] == FoldTrackers(start[k], price)
        invariant forall k :: i <= k < |start| ==> state.openDeals[k] == start[k]
      {
        state.openDeals := state.openDeals[i := FoldTrackers(state.openDeals[i], price)];
      }
      assert state.openDeals == TrackAll(start, price);
    }

    /** The ledger's part of an exit. */
    method SettleDeal(ghost done: seq<Deal>, deal: Deal, ghost rest: seq<Deal>, fill: real, reason: string)
      requires Valid() && state.openDeals == done + [deal] + rest
      modifies state`balance, state`openDeals, state`closedDeals
      ensures Valid() && state.openDeals == done + rest && Bookable(deal)
      ensures Cash() == Settle(old(Cash()), deal, fill, reason)
    {
      AllBookable(state.openDeals);
      FoundAt(done, deal, rest);
      RemovedAt(done, deal, rest);
      RemainOrderly(done, deal, rest);
      HeadOrderly(done, deal, rest);
      OrderlyIsBookable(deal);
      assert (done + [deal] + rest)[|done|] == deal;
      var closed := state.CloseDeal(deal.id, fill, reason);
      assert closed == Some(ClosedDeal(deal, fill, reason));
    }

    /** The common tail of `_check_tp` and `_check_sl`: settle the deal, then charge the exit fee. */
    method CloseOut(ghost done: seq<Deal>, deal: Deal, ghost rest: seq<Deal>, fill: real, reason: string)
      requires Valid() && state.openDeals == done + [deal] + rest
      modifies this`accepted, this`refused, this`feesPaid
      modifies state`balance, state`openDeals, state`closedDeals
      ensures Valid() && state.openDeals == done + rest && Bookable(deal)
      ensures Cash() == SettleAndCharge(cfg, old(Cash()), Closes(deal, fill, reason))
    {
      var exitSize := TotalSize(deal.orders);
      SettleDeal(done, deal, rest, fill, reason);
      PayFee(Fee(cfg, exitSize));
    }

    /** Writes back fields of a deal the loop holds. */
    method Store(ghost done: seq<Deal>, ghost deal: Deal, ghost rest: seq<Deal>, deal': Deal)
      requires Valid() && state.openDeals == done + [deal] + rest && deal'.id == deal.id && Orderly(deal')
      modifies state`openDeals
      ensures Valid() && state.openDeals == done + [deal'] + rest
    {
      ReplacedAt(done, deal, rest, deal');
      ReplacedOrderly(done, deal, rest, deal');
      state.openDeals := Put(state.openDeals, deal');
    }

    /** An exit that has fired: stamp the deal, settle it and charge the fee. */
    method Exit(ghost done: seq<Deal>, deal: Deal, ghost rest: seq<Deal>, exit: Exit)
      requires Valid() && state.openDeals == done + [deal] + rest && Orderly(deal) && exit.Leave?
      modifies this`accepted, this`refused, this`feesPaid
      modifies state`balance, state`openDeals, state`closedDeals
      ensures Valid() && state.openDeals == done + rest && Bookable(Leaving(deal, exit))
      ensures Cash() == SettleAndCharge(cfg, old(Cash()), Closes(Leaving(deal, exit), exit.fill, exit.reason))
    {
      var leaving := Leaving(deal, exit);
      Store(done, deal, rest, leaving);
      CloseOut(done, leaving, rest, exit.fill, exit.reason);
    }

    method CheckDcaOf(ghost done: seq<Deal>, deal: Deal, ghost rest: seq<Deal>, price: real) returns (averaged: bool)
      requires Valid() && state.openDeals == done + [deal] + rest && Orderly(deal) && price > 0.0
      modifies this`accepted, this`refused, this`feesPaid, state`balance, state`openDeals
      ensures Valid()
      ensures var dca := CheckDca(cfg, deal, price);
              && averaged == dca.Some?
              && (dca.None? ==> Cash() == old(Cash()) && state.openDeals == done + [deal] + rest)
              && (dca.Some? ==>
                    && Cash() == Charge(old(Cash()), Fee(cfg, dca.value.size))
                    && state.openDeals == done + [deal.(orders := deal.orders + [dca.value])] + rest)
    {
      var dca := CheckDca(cfg, deal, price);
      averaged := dca.Some?;
      if averaged {
        var order := dca.value;
        DcaOrderIsSound(cfg, deal, price);
        Store(done, deal, rest, deal.(orders := deal.orders + [order]));
        PayFee(Fee(cfg, order.size));
        assert Cash() == Charge(old(Cash()), Fee(cfg, order.size));
      }
    }

    /**
     One pass of the monitor loop: take-profit, then stop, then DCA; a closed deal is skipped by
     the later checks. `raised` means a target price divided by zero, which ends the tick's body.
     */
    method MonitorDeal(ghost done: seq<Deal>, deal: Deal, ghost rest: seq<Deal>, tick: Tick, mayAverage: bool)
      returns (averaged: bool, raised: bool)
      requires Valid() && state.openDeals == done + [deal] + rest && Orderly(deal) && tick.price > 0.0
      modifies this`accepted, this`refused, this`feesPaid
      modifies state`balance, state`openDeals, state`closedDeals
      ensures Valid()
      ensures var a := TryDeal(cfg, deal, tick, mayAverage);
              && raised == a.Raised?
              && (a.Raised? ==>
                    !averaged && Cash() == old(Cash()) && state.openDeals == done + [a.deal] + rest)
              && (a.Decided? ==> CashAfter(cfg, old(Cash()), a.verdict, Cash()))
              && (a.Decided? && a.verdict.Closes? ==> !averaged && state.openDeals == done + rest)
              && (a.Decided? && a.verdict.Stays? ==>
                    averaged == a.verdict.averaged && state.openDeals == done + [a.verdict.deal] + rest)
    {
      averaged, raised := false, false;
      if TpRaises(cfg, deal) {
        raised := true;
        return;
      }
      var tp := CheckTp(cfg, deal, tick.price, tick.ind);
      if tp.Leave? {
        Exit(done, deal, rest, tp);
        return;
      }
      var kept := AfterStopCheck(cfg, deal, tick.price);
      AfterStopOrderly(cfg, deal, tick.price);
      Store(done, deal, rest, kept);
      if SlRaises(cfg, deal) {
        raised := true;
        return;
      }
      var sl := CheckSl(cfg, deal, tick.price);
      if sl.Leave? {
        Exit(done, kept, rest, sl);
        return;
      }
      if mayAverage {
        averaged := CheckDcaOf(done, kept, rest, tick.price);
      }
    }

    /** After the first i deals of the snapshot: `done` are those that stayed, `goal` is where the sweep ends. */
    ghost predicate Midway(
      done: seq<Deal>, snapshot: seq<Deal>, i: nat, tick: Tick, dcaCount: int, goal: Sweep)
      requires i <= |snapshot| && dcaCount <= MAX_DCA_PER_TICK
      reads this, state
    {
      && state.openDeals == done + snapshot[i..]
      && Pending(cfg, done, Cash(), snapshot[i..], tick, MAX_DCA_PER_TICK - dcaCount, goal)
    }

    method MonitorNext(ghost done: seq<Deal>, snapshot: seq<Deal>, i: nat, tick: Tick, dcaCount: nat, ghost goal: Sweep)
      returns (ghost done': seq<Deal>, j: nat, dcaCount': nat, raised: bool)
      requires Valid() && i < |snapshot| && dcaCount <= MAX_DCA_PER_TICK && tick.price > 0.0
      requires Midway(done, snapshot, i, tick, dcaCount, goal)
      modifies this`accepted, this`refused, this`feesPaid
      modifies state`balance, state`openDeals, state`closedDeals
      ensures Valid() && j == i + 1 && dcaCount' <= MAX_DCA_PER_TICK
      ensures raised ==> goal == Sweep(Cash(), state.openDeals, true)
      ensures !raised ==> Midway(done', snapshot, j, tick, dcaCount', goal)
    {
      ghost var deal, rest, budget, money := snapshot[i], snapshot[i + 1..], MAX_DCA_PER_TICK - dcaCount, Cash();
      SplitAt(done, snapshot, i);
      HeadOrderly(done, deal, rest);
      var averaged;
      averaged, raised := MonitorDeal(done, snapshot[i], rest, tick, dcaCount < MAX_DCA_PER_TICK);
      ghost var a := TryDeal(cfg, deal, tick, budget > 0);
      PendingStep(cfg, done, money, deal, rest, tick, budget, goal, Cash());
      dcaCount' := if averaged then dcaCount + 1 else dcaCount;
      done' := if a.Decided? && a.verdict.Stays? then done + [a.verdict.deal] else done;
      j := i + 1;
    }

    /** The monitor loop over the snapshot it took. */
    method SweepSnapshot(snapshot: seq<Deal>, tick: Tick, ghost goal: Sweep) returns (raised: bool)
      requires Valid() && tick.price > 0.0 && Midway([], snapshot, 0, tick, 0, goal)
      modifies this`accepted, this`refused, this`feesPaid
      modifies state`balance, state`openDeals, state`closedDeals
      ensures Valid() && goal == Sweep(Cash(), state.openDeals, raised)
    {
      var i: nat, dcaCount: nat := 0, 0;
      ghost var done: seq<Deal> := [];
      raised := false;
      while i < |snapshot|
        invariant Valid() && i <= |snapshot| && dcaCount <= MAX_DCA_PER_TICK && !raised
        invariant Midway(done, snapshot, i, tick, dcaCount, goal)
      {
        done, i, dcaCount, raised := MonitorNext(done, snapshot, i, tick, dcaCount, goal);
        if raised {
          return;
        }
      }
      assert snapshot[i..] == [];
      assert done + [] == done;
    }

    method MonitorOpenDeals(tick: Tick) returns (raised: bool)
      requires Valid() && tick.price > 0.0
      modifies this`accepted, this`refused, this`feesPaid
      modifies state`balance, state`openDeals, state`closedDeals
      ensures Valid() && BooksView() == Monitored(cfg, old(BooksView()), tick)
      ensures raised == MonitorRaises(cfg, old(BooksView()), tick)
    {
      UpdateWickTrackers(tick.price);
      var snapshot := state.openDeals;
      ghost var goal := SweepDeals(cfg, Cash(), snapshot, tick, MAX_DCA_PER_TICK);
      WholeSweep(snapshot, goal);
      raised := SweepSnapshot(snapshot, tick, goal);
    }

    method CurrentEquity(price: real) returns (equity: real)
      requires Valid()
      ensures forall i :: 0 <= i < |state.openDeals| ==> Bookable(state.openDeals[i])
      ensures equity == state.balance + SumPnlAt(state.openDeals, price)
    {
      AllBookable(state.openDeals);
      var unrealised := 0.0;
      for i := 0 to |state.openDeals|
        invariant unrealised == SumPnlAt(state.openDeals[..i], price)
      {
        var deal := state.openDeals[i];
        assert state.openDeals[..i + 1][..i] == state.openDeals[..i];
        assert Bookable(deal);
        unrealised := unrealised + CalculatePnl(deal.side, deal.leverage, deal.orders, price).0;
      }
      assert state.openDeals[..|state.openDeals|] == state.openDeals;
      equity := state.balance + unrealised;
    }

    method UpdateDrawdownGuard(price: real)
      requires Valid()
      modifies guard, this`paused, this`running
      ensures Valid()
      ensures forall i :: 0 <= i < |state.openDeals| ==> Bookable(state.openDeals[i])
      ensures GateView() == GuardTick(gcfg, old(GateView()), Reading(gcfg, old(BooksView()), price))
    {
      AllBookable(state.openDeals);
      if !gcfg.enabled {
        return;
      }
      var value := state.balance;
      if gcfg.metric == Equity {
        value := CurrentEquity(price);
      }
      var triggered := guard.Update(value);
      if !triggered || paused {
        return;
      }
      if gcfg.action == StopEngine {
        running := false;
      }
      paused := true;
    }

    method CheckManualTrigger(input: TickInput)
      requires Valid() && input.Valid()
      modifies this`accepted, this`refused, this`feesPaid, this`everOpened, state`balance, state`openDeals
      ensures Valid() && BooksView() == WithManual(cfg, old(BooksView()), input)
    {
      if !input.manual || |state.openDeals| > 0 || !input.manualSafe {
        return;
      }
      OpenDeal(input.tick.price, input.manualId);
    }

    /** An edit, cancel or close file; a deal that is no longer open is only logged. */
    method ObeySentinel(r: Request, price: real)
      requires Valid() && price > 0.0
      modifies this`accepted, this`feesPaid, this`disk, state`balance, state`openDeals, state`closedDeals
      ensures Valid()
      ensures (forall i :: 0 <= i < |old(state.openDeals)| ==> Bookable(old(state.openDeals)[i]))
      ensures BooksView() == Obeyed(cfg, old(BooksView()), r.what, price)
      ensures disk == DiskAfter(cfg, old(BooksView()), old(disk), r, price)
    {
      AllBookable(state.openDeals);
      ghost var books := BooksView();
      ObeyedOrderly(cfg, books, r.what, price);
      ObeyedUnique(cfg, books, r.what, price);
      var found := IndexOf(state.openDeals, r.what.id);
      if found.None? {
        return;
      }
      var i, deal := found.value, state.openDeals[found.value];
      assert Bookable(deal);
      match r.what {
        case EditDeal(_, _, _, _) =>
          state.openDeals := state.openDeals[i := Edited(deal, r.what)];
        case CancelDeal(_) =>
          HandlerClose(i, CANCELLED, price);
          PersistState(r.writeOk);
        case CloseNow(_) =>
          HandlerClose(i, MANUAL, price);
          var fee := Fee(cfg, TotalSize(deal.orders));
          state.balance := state.balance - fee;
          accepted := accepted + fee;
          PersistState(r.writeOk);
          feesPaid := feesPaid + fee;
      }
    }

    /** The close handler's own write: read what the file holds, replace its keys, write back. */
    method PersistState(writeOk: bool)
      modifies this`disk
      ensures disk == if writeOk then Some(Merged(old(disk), BooksView())) else old(disk)
    {
      var held := disk.GetOr(Saved(0.0, 0.0, [], [], None, None, None));
      var snapshot := held.(initial := state.initial, balance := state.balance, open := SavedAll(state.openDeals, 0.0),
                            closed := SavedAll(state.closedDeals, 0.0));
      if writeOk {
        disk := Some(snapshot);
      }
    }

    /** The part `_close` and `_cancel` share: stamp the trigger and settle through the ledger. */
    method HandlerClose(i: nat, trigger: string, price: real)
      requires Valid() && i < |state.openDeals| && IndexOf(state.openDeals, state.openDeals[i].id) == Some(i)
      requires forall k :: 0 <= k < |state.openDeals| ==> Bookable(state.openDeals[k])
      modifies state`balance, state`openDeals, state`closedDeals
      ensures state.openDeals == Without(old(state.openDeals), i)
      ensures Bookable(old(state.openDeals)[i])
      ensures var d := old(state.openDeals)[i];
              Cash() == Settle(old(Cash()), d.(closing := d.closing.(trigger := Some(trigger))), price, trigger)
    {
      var deal := state.openDeals[i];
      assert Bookable(deal);
      var leaving := deal.(closing := deal.closing.(trigger := Some(trigger)));
      StampedAt(state.openDeals, i, leaving);
      state.openDeals := state.openDeals[i := leaving];
      var _ := state.CloseDeal(deal.id, price, trigger);
    }

    method CheckDealSentinels(rs: seq<Request>, price: real)
      requires Valid() && price > 0.0
      modifies this`accepted, this`feesPaid, this`disk, state`balance, state`openDeals, state`closedDeals
      ensures Valid() && BooksView() == ObeyedAll(cfg, old(BooksView()), rs, price)
      ensures disk == DiskAfterAll(cfg, old(BooksView()), old(disk), rs, price)
    {
      assert rs[0..] == rs;
      for i := 0 to |rs|
        invariant Valid()
        invariant ObeyedAll(cfg, BooksView(), rs[i..], price) == ObeyedAll(cfg, old(BooksView()), rs, price)
        invariant DiskAfterAll(cfg, BooksView(), disk, rs[i..], price)
               == DiskAfterAll(cfg, old(BooksView()), old(disk), rs, price)
      {
        assert rs[i..][0] == rs[i] && rs[i..][1..] == rs[i + 1..];
        ObeySentinel(rs[i], price);
      }
      assert rs[|rs|..] == [];
    }

    method CheckEntry(input: TickInput)
      requires Valid() && input.Valid()
      modifies this`accepted, this`refused, this`feesPaid, this`everOpened, state`balance, state`openDeals
      ensures Valid()
      ensures BooksView() == if |old(state.openDeals)| == 0 && input.tick.ind.haveCloses && input.signal
                             then Opened(cfg, old(BooksView()), input.tick.price, input.entryId)
                             else old(BooksView())
    {
      if |state.openDeals| > 0 {
        return;
      }
      if !input.tick.ind.haveCloses {
        return;
      }
      if input.signal {
        OpenDeal(input.tick.price, input.entryId);
      }
    }

    /** The snapshot a tick ends with; a failed write is only logged. */
    method WriteState(price: real, writeOk: bool)
      requires Valid()
      modifies this`disk
      ensures forall i :: 0 <= i < |state.openDeals| ==> Bookable(state.openDeals[i])
      ensures disk == if writeOk then Some(Snapshot(BooksView(), GateView(), price)) else old(disk)
    {
      AllBookable(state.openDeals);
      var entry := guard.ToDict();
      var open, closed := SavedAll(state.openDeals, price), SavedAll(Recent(state.closedDeals), 0.0);
      var snapshot := Saved(state.initial, RoundTo(state.balance, EIGHT_DECIMALS), open, closed,
                            Some(RoundTo(feesPaid, TEN_DECIMALS)), Some(entry), Some(paused));
      if writeOk {
        disk := Some(snapshot);
      }
    }

    method PreTickHook(clockOk: bool)
      modifies this`paused, this`skewed, this`stashed
      ensures GateView() == PreTick(old(GateView()), clockOk)
    {
      if !clockOk {
        skewed := true;
        stashed := paused;
        paused := true;
        return;
      }
      skewed := false;
    }

    method PostTickHook()
      modifies this`paused
      ensures GateView() == PostTick(old(GateView()))
    {
      if skewed {
        paused := stashed;
      }
    }

    method EnterUnlessPaused(input: TickInput)
      requires Valid() && input.Valid()
      modifies this`accepted, this`refused, this`feesPaid, this`everOpened, state`balance, state`openDeals
      ensures Valid() && BooksView() == WithEntry(cfg, old(BooksView()), GateView(), input)
    {
      if input.windowOpen && !paused {
        CheckEntry(input);
      }
    }

    /** The first two stages: open deals and guard. */
    method WatchStages(input: TickInput) returns (all: bool, ghost k: nat)
      requires Valid() && input.Valid()
      modifies this, state, guard
      ensures Valid() && View() == Upto(cfg, gcfg, old(View()), input, k)
      ensures all == (StagesRun(cfg, old(View()), input) >= 2)
      ensures k == if all then 2 else StagesRun(cfg, old(View()), input)
    {
      ghost var s := View();
      ghost var at := s;
      all, k := false, 0;
      if input.stages < 1 { return; }
      var raised := MonitorOpenDeals(input.tick);
      at, k := StageDone(cfg, gcfg, s, input, k, at, View());
      if raised || input.stages < 2 { return; }
      UpdateDrawdownGuard(input.tick.price);
      at, k := StageDone(cfg, gcfg, s, input, k, at, View());
      all := true;
    }

    /** The next two: manual trigger and operator files. */
    method ServeStages(input: TickInput, ghost s: EngineState) returns (all: bool, ghost k: nat)
      requires Valid() && input.Valid() && AllOrderly(s.books.open) && input.stages >= 2
      requires View() == Upto(cfg, gcfg, s, input, 2)
      modifies this, state, guard
      ensures Valid() && View() == Upto(cfg, gcfg, s, input, k)
      ensures all == (input.stages >= 4) && k == if all then 4 else input.stages
    {
      ghost var at := View();
      all, k := false, 2;
      if input.stages < 3 { return; }
      CheckManualTrigger(input);
      at, k := StageDone(cfg, gcfg, s, input, k, at, View());
      if input.stages < 4 { return; }
      CheckDealSentinels(input.requests, input.tick.price);
      at, k := StageDone(cfg, gcfg, s, input, k, at, View());
      all := true;
    }

    /** The first four stages: open deals, guard, manual trigger, operator files. */
    method ManageStages(input: TickInput) returns (all: bool, ghost k: nat)
      requires Valid() && input.Valid()
      modifies this, state, guard
      ensures Valid() && View() == Upto(cfg, gcfg, old(View()), input, k)
      ensures all == (StagesRun(cfg, old(View()), input) >= 4)
      ensures k == if all then 4 else StagesRun(cfg, old(View()), input)
    {
      ghost var s := View();
      all, k := WatchStages(input);
      if all {
        all, k := ServeStages(input, s);
      }
    }

    /** The body of a tick; an exception, from a check or from outside, abandons the rest. */
    method TickBody(input: TickInput)
      requires Valid() && input.Valid()
      modifies this, state, guard
      ensures Valid() && View() == Upto(cfg, gcfg, old(View()), input, StagesRun(cfg, old(View()), input))
    {
      ghost var s := View();
      var all;
      ghost var k;
      all, k := ManageStages(input);
      ghost var at := View();
      if !all || input.stages < 5 { return; }
      EnterUnlessPaused(input);
      at, k := StageDone(cfg, gcfg, s, input, k, at, View());
      if input.stages < 6 { return; }
      WriteState(input.tick.price, input.writeOk);
      at, k := StageDone(cfg, gcfg, s, input, k, at, View());
    }

    /** One tick: the hooks run around the body even when it fails. */
    method Tick(input: TickInput)
      requires Valid() && input.Valid()
      modifies this, state, guard
      ensures Valid() && View() == TickEngine(cfg, gcfg, old(View()), input)
    {
      PreTickHook(input.clockOk);
      TickBody(input);
      PostTickHook();
    }
  }

  /** One more stage has run. */
  lemma {:induction false} StageDone(
    cfg: Config, gcfg: GuardConfig, s: EngineState, input: TickInput, k: nat, before: EngineState, now: EngineState)
    returns (at: EngineState, j: nat)
    requires cfg.Valid() && AllOrderly(s.books.open) && input.Valid()
    requires before == Upto(cfg, gcfg, s, input, k)
    requires AllOrderly(before.books.open) && now == Stage(cfg, gcfg, before, input, k + 1)
    ensures at == now && j == k + 1 && now == Upto(cfg, gcfg, s, input, j)
  {
    at, j := now, k + 1;
  }

  lemma {:induction false} ObeyedUnique(cfg: Config, b: Books, s: Sentinel, price: real)
    requires UniqueIds(b.open) && forall i :: 0 <= i < |b.open| ==> Bookable(b.open[i])
    ensures UniqueIds(Obeyed(cfg, b, s, price).open)
  {
    var found := IndexOf(b.open, s.id);
    if found.Some? {
      var i := found.value;
      if s.EditDeal? {
        var e := b.open[i := Edited(b.open[i], s)];
        assert forall k :: 0 <= k < |e| ==> e[k].id == b.open[k].id;
      } else {
        assert b.open[..i] + [b.open[i]] + b.open[i + 1..] == b.open;
        RemovedAt(b.open[..i], b.open[i], b.open[i + 1..]);
      }
    }
  }

  /** The cash a deal's verdict leaves. */
  ghost predicate CashAfter(cfg: Config, m: Money, v: Verdict, m': Money) {
    if v.Closes? then Bookable(v.deal) && m' == SettleAndCharge(cfg, m, v)
    else if v.averaged then v.deal.orders != [] && m' == Charge(m, Fee(cfg, LastSize(v.deal)))
    else m' == m
  }

  /** The deals `done` and the sweep of what is left together make `goal`. */
  ghost predicate Pending(
    cfg: Config, done: seq<Deal>, m: Money, rest: seq<Deal>, tick: Tick, budget: nat, goal: Sweep)
  {
    && cfg.Valid() && tick.price > 0.0 && AllOrderly(rest)
    && var s := SweepDeals(cfg, m, rest, tick, budget);
       goal == Sweep(s.money, done + s.kept, s.raised)
  }

  lemma {:induction false} WholeSweep(snapshot: seq<Deal>, goal: Sweep)
    ensures snapshot[0..] == snapshot && [] + snapshot == snapshot && [] + goal.kept == goal.kept
  {
  }

  lemma {:induction false} SplitAt(done: seq<Deal>, s: seq<Deal>, i: nat)
    requires i < |s|
    ensures s[i..] == [s[i]] + s[i + 1..]
    ensures done + s[i..] == done + [s[i]] + s[i + 1..]
  {
  }

  lemma {:induction false} HeadOrderly(done: seq<Deal>, d: Deal, rest: seq<Deal>)
    requires AllOrderly(done + [d] + rest)
    ensures Orderly(d)
  {
    assert (done + [d] + rest)[|done|] == d;
  }

  lemma {:induction false} TailOrderly(d: Deal, rest: seq<Deal>)
    requires AllOrderly([d] + rest)
    ensures AllOrderly(rest)
  {
    forall i | 0 <= i < |rest|
      ensures Orderly(rest[i])
    {
      assert rest[i] == ([d] + rest)[i + 1];
    }
  }

  lemma {:induction false} Regroup(done: seq<Deal>, d: Deal, kept: seq<Deal>)
    ensures done + ([d] + kept) == (done + [d]) + kept
  {
  }

  /** Carrying out the verdict on the next deal brings the sweep one step on, or to its end. */
  lemma {:induction false} PendingStep(
    cfg: Config, done: seq<Deal>, m: Money, d: Deal, rest: seq<Deal>, tick: Tick, budget: nat, goal: Sweep, m': Money)
    requires Pending(cfg, done, m, [d] + rest, tick, budget, goal) && Orderly(d)
    requires var a := TryDeal(cfg, d, tick, budget > 0);
             if a.Raised? then m' == m else CashAfter(cfg, m, a.verdict, m')
    ensures var a := TryDeal(cfg, d, tick, budget > 0);
            && (a.Raised? ==> goal == Sweep(m', done + [a.deal] + rest, true))
            && (a.Decided? && a.verdict.Closes? ==> Pending(cfg, done, m', rest, tick, budget, goal))
            && (a.Decided? && a.verdict.Stays? ==>
                  var v := a.verdict;
                  && (!v.averaged ==> Pending(cfg, done + [v.deal], m', rest, tick, budget, goal))
                  && (v.averaged ==>
                        budget > 0 && Pending(cfg, done + [v.deal], m', rest, tick, budget - 1, goal)))
  {
    var todo := [d] + rest;
    assert todo[0] == d && todo[1..] == rest;
    TailOrderly(d, rest);
    var a := TryDeal(cfg, d, tick, budget > 0);
    match a {
      case Raised(d') => Regroup(done, d', rest);
      case Decided(v) =>
        if v.Stays? {
          var budget' := if v.averaged then budget - 1 else budget;
          Regroup(done, v.deal, SweepDeals(cfg, m', rest, tick, budget').kept);
        }
    }
  }
}
