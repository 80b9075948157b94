/**
 What a restart does to the books: from the snapshot a tick ends with, and from the file a
 close handler leaves in mid-tick (core/trading_engine.py `_write_state`, `_load_state`,
 paper/close_handler.py `_persist_state`).
 */
module Restarts {
  import opened Options
  import opened Deals
  import opened TickRules
  import opened Drawdown
  import opened PaperLedger
  import StateIO
  import opened Multisets
  import opened EngineRules
  import opened EngineRuns
  import opened DrawdownLatch

  /** Balance less what the initial capital, the profits in memory and the counted fees predict. */
  function Gap(b: Books): real {
    b.money.balance - (b.initial + SumPnl(b.money.closed) - b.money.feesPaid)
  }

  lemma {:induction false} SumPnlConcat(a: seq<Deal>, b: seq<Deal>)
    ensures SumPnl(a + b) == SumPnl(a) + SumPnl(b)
    decreases |b|
  {
    if b == [] {
      assert a + b == a;
    } else {
      assert (a + b)[..|a + b| - 1] == a + b[..|b| - 1];
      SumPnlConcat(a, b[..|b| - 1]);
    }
  }

  lemma {:induction false} SumPnlReversed(deals: seq<Deal>)
    ensures SumPnl(Reversed(deals)) == SumPnl(deals)
    decreases |deals|
  {
    if deals != [] {
      var front, last := deals[..|deals| - 1], deals[|deals| - 1];
      SumPnlReversed(front);
      SumPnlConcat([last], Reversed(front));
      assert [last][..0] == [];
    }
  }

  lemma {:induction false} ReversedTail(deals: seq<Deal>, n: nat)
    requires n <= |deals|
    ensures Reversed(deals)[..n] == Reversed(deals[|deals| - n..])
    decreases |deals|
  {
    if n > 0 {
      var front, last := deals[..|deals| - 1], deals[|deals| - 1];
      var older, tail := front[|front| - (n - 1)..], deals[|deals| - n..];
      ReversedTail(front, n - 1);
      assert tail[..n - 1] == older && tail[n - 1] == last;
      assert Reversed(tail) == [last] + Reversed(older);
      assert ([last] + Reversed(front))[..n] == [last] + Reversed(front)[..n - 1];
    }
  }

  /** The deals a snapshot leaves out: all but the newest fifty. */
  function Forgotten(closed: seq<Deal>): seq<Deal> {
    if |closed| <= 50 then [] else closed[..|closed| - 50]
  }

  /** What is forgotten and what is kept make up the history. */
  lemma {:induction false} RecentPnl(closed: seq<Deal>)
    ensures SumPnl(closed) == SumPnl(Forgotten(closed)) + SumPnl(Recent(closed))
  {
    var n := |closed| - |Forgotten(closed)|;
    var tail := closed[|closed| - n..];
    ReversedTail(closed, n);
    assert Reversed(closed)[..n] == Recent(closed);
    SumPnlReversed(tail);
    assert closed == Forgotten(closed) + tail;
    SumPnlConcat(Forgotten(closed), tail);
  }

  /** An engine over any file whose deals are orderly is a proper start for EngineRuns.MoneyOnEveryRun. */
  lemma {:induction false} LoadedIsAStart(disk: Option<Saved>, capital: real)
    requires OrderlyDisk(disk)
    ensures var b := Restarted(disk, capital).books;
            && AllOrderly(b.open) && Accounted(b) && b.money.refused == [] && UniqueIds(b.open)
            && Unexplained(b.money) == b.money.feesPaid
            && Capital(b.money) == b.initial + Gap(b) - b.money.feesPaid
  {
    if disk.Some? {
      PutAllKeeps(disk.value.open);
      var b := Restarted(disk, capital).books;
      IdsOfIds(b.open);
      IdsOfIds(b.money.closed);
    }
  }

  lemma {:induction false} IdsOfIds(deals: seq<Deal>)
    ensures multiset(IdsOf(deals)) == Ids(deals)
    decreases |deals|
  {
    if deals != [] {
      IdsOfIds(deals[..|deals| - 1]);
      MultisetSnoc(IdsOf(deals[..|deals| - 1]), deals[|deals| - 1].id);
    }
  }

  const HALF_SATOSHI := 0.000000005

  const HALF_FEE_UNIT := 0.00000000005

  // ---- What rounding the profits costs -------------------------------------------------------

  /** What writing a number with so many decimals adds to it. */
  function Error(x: real, scale: real): (e: real)
    requires scale > 0.0
    ensures -0.5 / scale <= e <= 0.5 / scale
  {
    RoundTo(x, scale) - x
  }

  function PnlErrors(closed: seq<Deal>): real {
    if closed == [] then 0.0
    else PnlErrors(closed[..|closed| - 1]) + Error(closed[|closed| - 1].closing.pnlBtc, EIGHT_DECIMALS)
  }

  /** Every booked profit is a whole number of satoshis. */
  ghost predicate WholeProfits(closed: seq<Deal>) {
    forall i :: 0 <= i < |closed| ==> Error(closed[i].closing.pnlBtc, EIGHT_DECIMALS) == 0.0
  }

  function Units(n: int, scale: real): real
    requires scale > 0.0
  {
    n as real / scale
  }

  /** A number is written as it is exactly when it is a whole number of units. */
  lemma {:induction false} WholeIff(x: real, scale: real)
    requires scale > 0.0
    ensures Error(x, scale) == 0.0 <==> exists n: int :: Units(n, scale) == x
  {
    var f := (x * scale).Floor;
    var n := if RoundTo(x, scale) == Units(f, scale) then f else f + 1;
    assert RoundTo(x, scale) == Units(n, scale);
    if m: int :| Units(m, scale) == x {
      assert x * scale == m as real;
      assert f == m;
    }
  }

  function Halves(n: nat): real { n as real * HALF_SATOSHI }

  lemma {:induction false} PnlErrorsBounded(closed: seq<Deal>)
    ensures -Halves(|closed|) <= PnlErrors(closed) <= Halves(|closed|)
    ensures WholeProfits(closed) ==> PnlErrors(closed) == 0.0
    decreases |closed|
  {
    if closed != [] {
      var front := closed[..|closed| - 1];
      PnlErrorsBounded(front);
      assert 0.5 / EIGHT_DECIMALS == HALF_SATOSHI;
      assert Halves(|closed|) == Halves(|front|) + HALF_SATOSHI;
      if WholeProfits(closed) {
        assert forall i :: 0 <= i < |front| ==> front[i] == closed[i];
      }
    }
  }

  /** The history read back books the same profits up to those errors. */
  lemma {:induction false} SumPnlSaved(closed: seq<Deal>)
    requires AllSettled(closed)
    ensures SumPnl(SavedAll(closed, 0.0)) == SumPnl(closed) + PnlErrors(closed)
    decreases |closed|
  {
    if closed != [] {
      var front := closed[..|closed| - 1];
      assert forall i :: 0 <= i < |front| ==> front[i] == closed[i];
      SumPnlSaved(front);
      var saved := SavedAll(closed, 0.0);
      assert saved[..|saved| - 1] == SavedAll(front, 0.0);
    }
  }

  lemma {:induction false} RecentSettled(closed: seq<Deal>)
    requires AllSettled(closed)
    ensures AllSettled(Recent(closed)) && (WholeProfits(closed) ==> WholeProfits(Recent(closed)))
  {
    ReversedMembers(closed);
  }

  lemma {:induction false} ReversedMembers(deals: seq<Deal>)
    ensures forall i :: 0 <= i < |deals| ==> Reversed(deals)[i] == deals[|deals| - 1 - i]
    decreases |deals|
  {
    if deals != [] {
      ReversedMembers(deals[..|deals| - 1]);
    }
  }

  /** Distinct open deals come back in their order, each as its saved form describes it. */
  lemma {:induction false} OpenComeBack(open: seq<Deal>, price: real)
    requires UniqueIds(open) && forall i :: 0 <= i < |open| ==> StateIO.Markable(open[i], price)
    ensures PutAll(SavedAll(open, price)) == SavedAll(open, price)
    ensures forall i :: 0 <= i < |open| ==> StateIO.SameTrading(open[i], SavedAll(open, price)[i])
  {
    PutAllUnique(SavedAll(open, price));
  }

  /**
   A restart from a tick's snapshot keeps every open deal in everything a tick reads, and of
   the closed ones the newest fifty. The gap grows by the profit of the forgotten deals and by
   the roundings of balance, fee total and the kept profits; the balance and the fee total
   move by half a unit of their last decimal at most, each profit by half a satoshi.
   */
  lemma {:induction false} RestartFromSnapshot(b: Books, g: Gate, price: real, capital: real)
    requires UniqueIds(b.open) && AllSettled(b.money.closed)
    requires forall i :: 0 <= i < |b.open| ==> Bookable(b.open[i])
    ensures var r := Restarted(Some(Snapshot(b, g, price)), capital).books;
            && r.initial == b.initial
            && |r.open| == |b.open| && (forall i :: 0 <= i < |b.open| ==> StateIO.SameTrading(b.open[i], r.open[i]))
            && r.money.balance == b.money.balance + Error(b.money.balance, EIGHT_DECIMALS)
            && r.money.feesPaid == b.money.feesPaid + Error(b.money.feesPaid, TEN_DECIMALS)
            && r.money.closed == SavedAll(Recent(b.money.closed), 0.0)
            && Gap(r) == Gap(b) + SumPnl(Forgotten(b.money.closed))
                         + Error(b.money.balance, EIGHT_DECIMALS) + Error(b.money.feesPaid, TEN_DECIMALS)
                         - PnlErrors(Recent(b.money.closed))
  {
    assert forall i :: 0 <= i < |b.open| ==> Bookable(b.open[i]) && StateIO.Markable(b.open[i], price);
    OpenComeBack(b.open, price);
    RecentPnl(b.money.closed);
    RecentSettled(b.money.closed);
    SumPnlSaved(Recent(b.money.closed));
  }

  ghost predicate WholeBooks(m: Money) {
    && WholeProfits(m.closed)
    && Error(m.balance, EIGHT_DECIMALS) == 0.0
    && Error(m.feesPaid, TEN_DECIMALS) == 0.0
  }

  /** How far that moves the gap beyond the forgotten deals: not at all if all is whole, and never further than this. */
  lemma {:induction false} SnapshotDrift(b: Books, g: Gate, price: real, capital: real)
    requires UniqueIds(b.open) && AllSettled(b.money.closed)
    requires forall i :: 0 <= i < |b.open| ==> Bookable(b.open[i])
    ensures var r, recent := Restarted(Some(Snapshot(b, g, price)), capital).books, Recent(b.money.closed);
            var drift := Gap(r) - Gap(b) - SumPnl(Forgotten(b.money.closed));
            && -Halves(1 + |recent|) - HALF_FEE_UNIT <= drift <= Halves(1 + |recent|) + HALF_FEE_UNIT
            && (WholeBooks(b.money) ==> drift == 0.0)
  {
    RestartFromSnapshot(b, g, price, capital);
    RecentSettled(b.money.closed);
    PnlErrorsBounded(Recent(b.money.closed));
    assert 0.5 / EIGHT_DECIMALS == HALF_SATOSHI && 0.5 / TEN_DECIMALS == HALF_FEE_UNIT;
  }

  /** The file holds the cash and the history of these books. */
  ghost predicate InSync(b: Books, disk: Option<Saved>) {
    && disk.Some?
    && disk.value.initial == b.initial
    && disk.value.balance == b.money.balance
    && disk.value.closed == SavedAll(b.money.closed, 0.0)
  }

  /** What the close handler's file holds: the exact cash, and every deal but for the figures of its profit. */
  lemma {:induction false} MergedHolds(disk: Option<Saved>, b: Books)
    ensures var f := Merged(disk, b);
            && f.initial == b.initial && f.balance == b.money.balance
            && |f.open| == |b.open| && (forall i :: 0 <= i < |b.open| ==> StateIO.SameTrading(b.open[i], f.open[i]))
            && |f.closed| == |b.money.closed|
            && (forall i :: 0 <= i < |f.closed| ==> StateIO.SameTrading(b.money.closed[i], f.closed[i]))
            && f.guard == (if disk.Some? then disk.value.guard else None)
            && f.paused == (if disk.Some? then disk.value.paused else None)
            && f.feesPaid == (if disk.Some? then disk.value.feesPaid else None)
  {
  }

  /** Once a close or cancel has been obeyed and written, the file follows the cash. */
  lemma {:induction false} WrittenIsInSync(
    cfg: Config, b: Books, disk: Option<Saved>, rs: seq<Request>, price: real)
    requires AllOrderly(b.open) && forall i :: 0 <= i < |rs| ==> rs[i].writeOk
    ensures var b' := ObeyedAll(cfg, b, rs, price);
            && |b'.money.closed| >= |b.money.closed|
            && (InSync(b, disk) || |b'.money.closed| > |b.money.closed| ==>
                  InSync(b', DiskAfterAll(cfg, b, disk, rs, price)))
    decreases |rs|
  {
    if rs != [] {
      AllBookable(b.open);
      ObeyedOrderly(cfg, b, rs[0].what, price);
      WrittenIsInSync(
        cfg, Obeyed(cfg, b, rs[0].what, price), DiskAfter(cfg, b, disk, rs[0], price), rs[1..], price);
    }
  }

  /**
   A tick that obeyed a close or cancel and then failed, or could not write its snapshot,
   leaves a file with the new balance, the whole history and the old fee total. A restart from
   it forgets the fees counted since the last snapshot; the gap shrinks by them, and by the
   roundings of the profits, of which there is one for every deal ever closed.
   */
  lemma {:induction false} RestartFromMerge(
    cfg: Config, gcfg: GuardConfig, s: EngineState, input: TickInput, capital: real)
    requires cfg.Valid() && OrderlyState(s) && input.Valid() && AllSettled(s.books.money.closed)
    requires StagesRun(cfg, s, input) >= 4 && !Saves(cfg, s, input) && !Entered(cfg, gcfg, s, input)
    requires forall i :: 0 <= i < |input.requests| ==> input.requests[i].writeOk
    requires |TickEngine(cfg, gcfg, s, input).books.money.closed|
           > |Upto(cfg, gcfg, Begun(s, input), input, 3).books.money.closed|
    ensures var (r, stale) := (TickEngine(cfg, gcfg, s, input).books, Restarted(s.disk, capital).books.money.feesPaid);
            var b := Restarted(TickEngine(cfg, gcfg, s, input).disk, capital).books;
            && b.money.balance == r.money.balance
            && b.money.closed == SavedAll(r.money.closed, 0.0)
            && b.money.feesPaid == stale
            && Gap(b) == Gap(r) - (r.money.feesPaid - stale) - PnlErrors(r.money.closed)
            && -Halves(|r.money.closed|) <= PnlErrors(r.money.closed) <= Halves(|r.money.closed|)
            && (WholeProfits(r.money.closed) ==> PnlErrors(r.money.closed) == 0.0)
  {
    TickKeeps(cfg, gcfg, s, input);
    SumPnlSaved(TickEngine(cfg, gcfg, s, input).books.money.closed);
    PnlErrorsBounded(TickEngine(cfg, gcfg, s, input).books.money.closed);
    var t, n := Begun(s, input), StagesRun(cfg, s, input);
    var x := Upto(cfg, gcfg, t, input, 3);
    WrittenIsInSync(cfg, x.books, s.disk, input.requests, input.tick.price);
    DiskUpto(cfg, gcfg, t, input, if n < 6 then n else 5);
    DiskUpto(cfg, gcfg, t, input, 3);
    LaterStagesKeep(cfg, gcfg, s, input, n);
    TickDisk(cfg, gcfg, s, input);
  }

  lemma {:induction false} LaterStagesKeep(
    cfg: Config, gcfg: GuardConfig, s: EngineState, input: TickInput, n: nat)
    requires cfg.Valid() && AllOrderly(s.books.open) && input.Valid() && !Entered(cfg, gcfg, s, input)
    requires 4 <= n <= StagesRun(cfg, s, input)
    ensures var t := Begun(s, input);
            Upto(cfg, gcfg, t, input, n).books == Upto(cfg, gcfg, t, input, 4).books
  {
    if n > 4 {
      LaterStagesKeep(cfg, gcfg, s, input, n - 1);
    }
  }

  // ---- The bounds are reached ------------------------------------------------------------------

  function Copies(d: Deal, n: nat): (r: seq<Deal>)
    ensures |r| == n && forall i :: 0 <= i < n ==> r[i] == d
  {
    seq(n, _ => d)
  }

  /** Half a satoshi is lost with every deal, so a merged file can be off by any amount. */
  lemma {:induction false} ErrorsAddUp(d: Deal, n: nat)
    requires d.closing.pnlBtc == HALF_SATOSHI
    ensures PnlErrors(Copies(d, n)) == -Halves(n)
  {
    if n > 0 {
      ErrorsAddUp(d, n - 1);
      assert Copies(d, n)[..n - 1] == Copies(d, n - 1);
      assert HALF_SATOSHI * EIGHT_DECIMALS == 0.5 && (0.5).Floor == 0;
      assert RoundTo(HALF_SATOSHI, EIGHT_DECIMALS) == 0.0;
      assert Halves(n) == Halves(n - 1) + HALF_SATOSHI;
    }
  }

  // ---- The guard -------------------------------------------------------------------------------------

  /** Peak, latch and reason come back from a tick's snapshot as they were, and so does the pause written with them. */
  lemma {:induction false} GuardSurvivesRestart(b: Books, g: Gate, price: real, capital: real)
    requires forall i :: 0 <= i < |b.open| ==> Bookable(b.open[i])
    ensures var r := Restarted(Some(Snapshot(b, g, price)), capital).gate;
            && r.guard.peak == g.guard.peak && r.guard.reason == g.guard.reason
            && r.guard.triggered == g.guard.triggered
            && r.paused == g.paused && r.running
  {
  }

  // ---- A close in the file of a stopped bot ------------------------------------------------------------

  /** The portal closes the one open deal of the file at its own price, with the profit of its orders there. */
  lemma {:induction false} OfflineClosesAt(cfg: Config, f: Saved, o: Offline, d: Deal)
    requires f.open == [d] && Orderly(d) && o.price > 0.0 && o.request.writeOk
    requires o.request.what.id == d.id && !o.request.what.EditDeal?
    ensures OrderlyDisk(Some(f)) && Bookable(d)
    ensures var r := OfflineOne(cfg, Some(f), o);
            && r.Some? && r.value.open == [] && |r.value.closed| == |f.closed| + 1
            && var c := r.value.closed[|f.closed|];
               && c.id == d.id && c.orders == d.orders && c.closing.price == Some(o.price)
               && c.closing.reason == Some(if o.request.what.CancelDeal? then "cancelled" else "manual")
               && c.closing.pnlBtc
                  == RoundTo(CalculatePnl(d.side, d.leverage, d.orders, o.price).0, EIGHT_DECIMALS)
  {
    PutAllUnique(f.open);
    LoadedOrderly(Some(f), 0.0);
    var b := Loaded(Some(f), 0.0).books;
    AllBookable(b.open);
    OrderlyIsBookable(d);
    assert IndexOf(b.open, d.id) == Some(0) && Without(b.open, 0) == [];
  }
}
