/**
 The DCA ladder in the tick engine: every long deal it holds, has closed, or finds in its state
 file is a ladder, through ticks that share one DCA order, edits, closes, restarts and closes
 made in the file (core/trading_engine.py `_monitor_open_deals`, `_check_dca`, `_load_state`).
 */
module EngineLadders {
  import opened Options
  import opened InversePerpMath
  import opened Deals
  import opened TickRules
  import opened Drawdown
  import opened PaperLedger
  import opened DcaLadder
  import opened DcaLevels
  import opened EngineRules
  import opened DrawdownLatch

  ghost predicate LongLadder(cfg: Config, d: Deal) {
    d.side.Long? ==> Ladder(cfg, d.orders)
  }

  ghost predicate AllLadders(cfg: Config, deals: seq<Deal>) {
    forall i :: 0 <= i < |deals| ==> LongLadder(cfg, deals[i])
  }

  ghost predicate BooksLadders(cfg: Config, b: Books) {
    AllLadders(cfg, b.open) && AllLadders(cfg, b.money.closed)
  }

  ghost predicate DiskLadders(cfg: Config, disk: Option<Saved>) {
    disk.Some? ==> AllLadders(cfg, disk.value.open) && AllLadders(cfg, disk.value.closed)
  }

  ghost predicate StateLadders(cfg: Config, s: EngineState) {
    BooksLadders(cfg, s.books) && DiskLadders(cfg, s.disk)
  }

  // ---- One tick ----------------------------------------------------------------------------------

  /** A check of one deal, with or without the tick's DCA left, decided or raised. */
  lemma {:induction false} AttemptKeepsLadder(cfg: Config, d: Deal, tick: Tick, mayAverage: bool)
    requires cfg.Valid() && Orderly(d) && LongLadder(cfg, d) && tick.price > 0.0
    ensures LongLadder(cfg, DealAfter(TryDeal(cfg, d, tick, mayAverage)))
  {
    var d1 := AfterStopCheck(cfg, d, tick.price);
    AfterStopOrderly(cfg, d, tick.price);
    if d.side.Long? && CheckDca(cfg, d1, tick.price).Some? {
      LadderExtends(cfg, d1, tick.price);
    }
  }

  lemma {:induction false} ConsLadders(cfg: Config, d: Deal, rest: seq<Deal>)
    ensures AllLadders(cfg, [d] + rest) <==> LongLadder(cfg, d) && AllLadders(cfg, rest)
  {
    var all := [d] + rest;
    assert all[0] == d && forall i :: 0 <= i < |rest| ==> all[i + 1] == rest[i];
  }

  lemma {:induction false} SettleKeepsLadders(cfg: Config, m: Money, d: Deal, price: real, reason: string)
    requires Bookable(d) && LongLadder(cfg, d) && AllLadders(cfg, m.closed)
    ensures AllLadders(cfg, Settle(m, d, price, reason).closed)
  {
    assert ClosedDeal(d, price, reason).side == d.side;
  }

  lemma {:induction false} SweepKeepsLadders(cfg: Config, m: Money, todo: seq<Deal>, tick: Tick, budget: nat)
    requires cfg.Valid() && AllOrderly(todo) && tick.price > 0.0
    requires AllLadders(cfg, todo) && AllLadders(cfg, m.closed)
    ensures var s := SweepDeals(cfg, m, todo, tick, budget);
            AllLadders(cfg, s.kept) && AllLadders(cfg, s.money.closed)
    decreases |todo|
  {
    if todo != [] {
      var a, rest := TryDeal(cfg, todo[0], tick, budget > 0), todo[1..];
      TryDealOrderly(cfg, todo[0], tick, budget > 0);
      OrderlyIsBookable(DealAfter(a));
      AttemptKeepsLadder(cfg, todo[0], tick, budget > 0);
      match a {
        case Raised(d) => ConsLadders(cfg, d, rest);
        case Decided(v) =>
          if v.Closes? {
            SettleKeepsLadders(cfg, m, v.deal, v.fill, v.reason);
            SweepKeepsLadders(cfg, SettleAndCharge(cfg, m, v), rest, tick, budget);
          } else {
            var m' := if v.averaged then Charge(m, Fee(cfg, LastSize(v.deal))) else m;
            var left := if v.averaged then budget - 1 else budget;
            SweepKeepsLadders(cfg, m', rest, tick, left);
            ConsLadders(cfg, v.deal, SweepDeals(cfg, m', rest, tick, left).kept);
          }
      }
    }
  }

  lemma {:induction false} OpenedKeepsLadders(cfg: Config, b: Books, price: real, id: Option<DealId>)
    requires cfg.Valid() && price > 0.0 && BooksLadders(cfg, b)
    ensures BooksLadders(cfg, Opened(cfg, b, price, id))
  {
    if id.Some? {
      OpenedLadder(cfg, id.value, price);
      PutLadders(cfg, b.open, OpenedDeal(cfg, id.value, cfg.direction, price));
    }
  }

  lemma {:induction false} ObeyedKeepsLadders(cfg: Config, b: Books, s: Sentinel, price: real)
    requires BooksLadders(cfg, b) && forall i :: 0 <= i < |b.open| ==> Bookable(b.open[i])
    ensures BooksLadders(cfg, Obeyed(cfg, b, s, price))
  {
    var i := IndexOf(b.open, s.id);
    if i.Some? && !s.EditDeal? {
      var trigger := if s.CancelDeal? then CANCELLED else MANUAL;
      var d := b.open[i.value];
      var dead := d.(closing := d.closing.(trigger := Some(trigger)));
      assert LongLadder(cfg, d);
      SettleKeepsLadders(cfg, b.money, dead, price, trigger);
    }
  }

  lemma {:induction false} DiskAfterKeepsLadders(
    cfg: Config, b: Books, disk: Option<Saved>, r: Request, price: real)
    requires BooksLadders(cfg, b) && DiskLadders(cfg, disk)
    requires forall i :: 0 <= i < |b.open| ==> Bookable(b.open[i])
    ensures DiskLadders(cfg, DiskAfter(cfg, b, disk, r, price))
  {
    ObeyedKeepsLadders(cfg, b, r.what, price);
  }

  lemma {:induction false} ObeyedAllKeepsLadders(
    cfg: Config, b: Books, disk: Option<Saved>, rs: seq<Request>, price: real)
    requires AllOrderly(b.open) && BooksLadders(cfg, b) && DiskLadders(cfg, disk)
    ensures BooksLadders(cfg, ObeyedAll(cfg, b, rs, price))
    ensures DiskLadders(cfg, DiskAfterAll(cfg, b, disk, rs, price))
    decreases |rs|
  {
    if rs != [] {
      AllBookable(b.open);
      ObeyedOrderly(cfg, b, rs[0].what, price);
      ObeyedKeepsLadders(cfg, b, rs[0].what, price);
      DiskAfterKeepsLadders(cfg, b, disk, rs[0], price);
      ObeyedAllKeepsLadders(
        cfg, Obeyed(cfg, b, rs[0].what, price), DiskAfter(cfg, b, disk, rs[0], price), rs[1..], price);
    }
  }

  lemma {:induction false} ReversedLadders(cfg: Config, deals: seq<Deal>)
    requires AllLadders(cfg, deals)
    ensures AllLadders(cfg, Reversed(deals)) && AllLadders(cfg, Recent(deals))
    decreases |deals|
  {
    if deals != [] {
      ReversedLadders(cfg, deals[..|deals| - 1]);
      ConsLadders(cfg, deals[|deals| - 1], Reversed(deals[..|deals| - 1]));
    }
  }

  lemma {:induction false} StageKeepsLadders(cfg: Config, gcfg: GuardConfig, s: EngineState, input: TickInput, k: nat)
    requires cfg.Valid() && AllOrderly(s.books.open) && input.Valid() && StateLadders(cfg, s)
    ensures StateLadders(cfg, Stage(cfg, gcfg, s, input, k))
  {
    var b, price := s.books, input.tick.price;
    match k
    case 1 => SweepKeepsLadders(cfg, b.money, TrackAll(b.open, price), input.tick, MAX_DCA_PER_TICK);
    case 3 => OpenedKeepsLadders(cfg, b, price, input.manualId);
    case 4 => ObeyedAllKeepsLadders(cfg, b, s.disk, input.requests, price);
    case 5 => OpenedKeepsLadders(cfg, b, price, input.entryId);
    case 6 => ReversedLadders(cfg, b.money.closed);
    case _ =>
  }

  lemma {:induction false} UptoKeepsLadders(cfg: Config, gcfg: GuardConfig, s: EngineState, input: TickInput, k: nat)
    requires cfg.Valid() && AllOrderly(s.books.open) && input.Valid() && StateLadders(cfg, s)
    ensures StateLadders(cfg, Upto(cfg, gcfg, s, input, k))
  {
    if k > 0 {
      UptoKeepsLadders(cfg, gcfg, s, input, k - 1);
      StageKeepsLadders(cfg, gcfg, Upto(cfg, gcfg, s, input, k - 1), input, k);
    }
  }

  // ---- Every run -----------------------------------------------------------------------------------

  lemma {:induction false} PutLadders(cfg: Config, deals: seq<Deal>, d: Deal)
    requires AllLadders(cfg, deals) && LongLadder(cfg, d)
    ensures AllLadders(cfg, Put(deals, d))
  {
    var all := Put(deals, d);
    forall i | 0 <= i < |all|
      ensures LongLadder(cfg, all[i])
    {
      if i < |deals| && all[i] == deals[i] { assert LongLadder(cfg, deals[i]); }
    }
  }

  lemma {:induction false} PutAllLadders(cfg: Config, deals: seq<Deal>)
    requires AllLadders(cfg, deals)
    ensures AllLadders(cfg, PutAll(deals))
    decreases |deals|
  {
    if deals != [] {
      var front, last := deals[..|deals| - 1], deals[|deals| - 1];
      assert LongLadder(cfg, last);
      assert forall i :: 0 <= i < |front| ==> front[i] == deals[i];
      PutAllLadders(cfg, front);
      PutLadders(cfg, PutAll(front), last);
    }
  }

  lemma {:induction false} OfflineKeepsLadders(cfg: Config, disk: Option<Saved>, offline: seq<Offline>)
    requires OrderlyDisk(disk) && DiskLadders(cfg, disk)
    ensures DiskLadders(cfg, OfflineAll(cfg, disk, offline))
    decreases |offline|
  {
    if offline != [] {
      var o, b := offline[0], Loaded(disk, 0.0).books;
      LoadedOrderly(disk, 0.0);
      AllBookable(b.open);
      if disk.Some? { PutAllLadders(cfg, disk.value.open); }
      DiskAfterKeepsLadders(cfg, b, disk, o.request, o.price);
      OfflineOrderly(cfg, disk, o);
      OfflineKeepsLadders(cfg, OfflineOne(cfg, disk, o), offline[1..]);
    }
  }

  lemma {:induction false} StepKeepsLadders(cfg: Config, gcfg: GuardConfig, s: EngineState, e: EngineEvent)
    requires cfg.Valid() && OrderlyState(s) && (e.TickEvent? ==> e.input.Valid()) && StateLadders(cfg, s)
    ensures StateLadders(cfg, Step(cfg, gcfg, s, e))
  {
    match e {
      case TickEvent(input) =>
        UptoKeepsLadders(cfg, gcfg, Begun(s, input), input, StagesRun(cfg, s, input));
      case RestartEvent(_, offline) =>
        OfflineKeepsLadders(cfg, s.disk, offline);
        var disk := OfflineAll(cfg, s.disk, offline);
        if disk.Some? { PutAllLadders(cfg, disk.value.open); }
      case PortalReset =>
    }
  }

  /**
   On every run of ticks, restarts and resets from a state whose long deals are ladders (an
   engine without deals, to begin with), every long deal open, closed or on file is one.
   */
  lemma {:induction false} LaddersOnEveryRun(
    cfg: Config, gcfg: GuardConfig, s: EngineState, events: seq<EngineEvent>)
    requires cfg.Valid() && OrderlyState(s) && ValidEvents(events) && StateLadders(cfg, s)
    ensures StateLadders(cfg, DrawdownLatch.Run(cfg, gcfg, s, events))
    decreases |events|
  {
    if events != [] {
      StepOrderly(cfg, gcfg, s, events[0]);
      StepKeepsLadders(cfg, gcfg, s, events[0]);
      LaddersOnEveryRun(cfg, gcfg, Step(cfg, gcfg, s, events[0]), events[1..]);
    }
  }

  ghost predicate LongsFollowPlan(cfg: Config, deals: seq<Deal>, spacings: seq<real>, sizes: seq<real>) {
    forall i :: 0 <= i < |deals| && deals[i].side.Long? ==> FollowsPlan(cfg, deals[i].orders, spacings, sizes)
  }

  lemma {:induction false} LaddersFollowPlan(cfg: Config, deals: seq<Deal>, spacings: seq<real>, sizes: seq<real>)
    requires AllLadders(cfg, deals) && Enough(cfg, spacings, sizes)
    ensures LongsFollowPlan(cfg, deals, spacings, sizes)
  {
    forall i | 0 <= i < |deals| && deals[i].side.Long?
      ensures FollowsPlan(cfg, deals[i].orders, spacings, sizes)
    {
      assert LongLadder(cfg, deals[i]);
      LadderFollowsPlan(cfg, deals[i].orders, spacings, sizes);
    }
  }

  /** The same in plain arithmetic, of an engine that begins without deals. */
  lemma {:induction false} FillsOnEveryRun(
    cfg: Config, gcfg: GuardConfig, s: EngineState, events: seq<EngineEvent>, spacings: seq<real>, sizes: seq<real>)
    requires cfg.Valid() && ValidEvents(events) && Enough(cfg, spacings, sizes)
    requires s.books.open == [] && s.books.money.closed == [] && s.disk.None?
    ensures OrderlyState(s)
    ensures var b := DrawdownLatch.Run(cfg, gcfg, s, events).books;
            LongsFollowPlan(cfg, b.open, spacings, sizes) && LongsFollowPlan(cfg, b.money.closed, spacings, sizes)
  {
    LaddersOnEveryRun(cfg, gcfg, s, events);
    var b := DrawdownLatch.Run(cfg, gcfg, s, events).books;
    LaddersFollowPlan(cfg, b.open, spacings, sizes);
    LaddersFollowPlan(cfg, b.money.closed, spacings, sizes);
  }
}
