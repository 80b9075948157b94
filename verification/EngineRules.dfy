/**
 The books, the pause gate and the state file of the tick-driven engine as values, and one
 tick as a function (core/trading_engine.py, live/live_engine.py, paper/close_handler.py).
 */
module EngineRules {
  import opened Options
  import opened InversePerpMath
  import opened Deals
  import opened TickRules
  import opened PaperLedger
  import opened Drawdown
  import StateIO

  // ---- Books -----------------------------------------------------------------------------

  /**
   The cash side. `accepted` and `refused` record what became of each fee; the program
   itself only keeps `feesPaid`, which counts both.
   */
  datatype Money = Money(balance: real, closed: seq<Deal>, feesPaid: real, accepted: real, refused: seq<real>)

  /** `everOpened` lists the id of every deal the engine ever opened or started with. */
  datatype Books = Books(initial: real, money: Money, open: seq<Deal>, everOpened: seq<DealId>)

  /** The paper engine's debit: refused when the balance is short, yet always counted in the fee total. */
  function Charge(m: Money, fee: real): Money {
    if m.balance < fee
    then m.(feesPaid := m.feesPaid + fee, refused := m.refused + [fee])
    else m.(feesPaid := m.feesPaid + fee, balance := m.balance - fee, accepted := m.accepted + fee)
  }

  /** The close handler's debit: the balance may go negative. */
  function ChargeAnyway(m: Money, fee: real): Money {
    m.(feesPaid := m.feesPaid + fee, balance := m.balance - fee, accepted := m.accepted + fee)
  }

  function Fee(cfg: Config, size: real): real { size * cfg.dca.takerFee }

  /** PaperState.close_deal on the cash side: the profit is booked and the deal moves to history. */
  function Settle(m: Money, d: Deal, price: real, reason: string): Money
    requires Bookable(d)
  {
    var c := ClosedDeal(d, price, reason);
    m.(balance := m.balance + c.closing.pnlBtc, closed := m.closed + [c])
  }

  function SettleAndCharge(cfg: Config, m: Money, v: Verdict): Money
    requires v.Closes? && Bookable(v.deal)
  {
    Charge(Settle(m, v.deal, v.fill, v.reason), Fee(cfg, TotalSize(v.deal.orders)))
  }

  function TrackAll(deals: seq<Deal>, price: real): (r: seq<Deal>)
    ensures |r| == |deals| && forall i :: 0 <= i < |r| ==> r[i] == FoldTrackers(deals[i], price)
  {
    seq(|deals|, i requires 0 <= i < |deals| => FoldTrackers(deals[i], price))
  }

  /** Where the monitor loop ends: at the last deal, or at the first one whose check raises. */
  datatype Sweep = Sweep(money: Money, kept: seq<Deal>, raised: bool)

  const MAX_DCA_PER_TICK := 1

  function Ahead(d: Deal, rest: Sweep): Sweep {
    rest.(kept := [d] + rest.kept)
  }

  /** The monitor loop: each open deal in turn, with a budget of DCA orders for the whole tick. */
  ghost function SweepDeals(cfg: Config, m: Money, todo: seq<Deal>, tick: Tick, budget: nat): Sweep
    requires cfg.Valid() && AllOrderly(todo) && tick.price > 0.0
    decreases |todo|
  {
    if todo == [] then Sweep(m, [], false)
    else
      TryDealOrderly(cfg, todo[0], tick, budget > 0);
      OrderlyIsBookable(DealAfter(TryDeal(cfg, todo[0], tick, budget > 0)));
      match TryDeal(cfg, todo[0], tick, budget > 0)
      case Raised(d) => Sweep(m, [d] + todo[1..], true)
      case Decided(v) =>
        if v.Closes? then
          SweepDeals(cfg, SettleAndCharge(cfg, m, v), todo[1..], tick, budget)
        else if v.averaged then
          Ahead(v.deal, SweepDeals(cfg, Charge(m, Fee(cfg, LastSize(v.deal))), todo[1..], tick, budget - 1))
        else
          Ahead(v.deal, SweepDeals(cfg, m, todo[1..], tick, budget))
  }

  function LastSize(d: Deal): real
    requires d.orders != []
  {
    d.orders[|d.orders| - 1].size
  }

  ghost function SweepAll(cfg: Config, b: Books, tick: Tick): Sweep
    requires cfg.Valid() && AllOrderly(b.open) && tick.price > 0.0
  {
    SweepDeals(cfg, b.money, TrackAll(b.open, tick.price), tick, MAX_DCA_PER_TICK)
  }

  ghost function Monitored(cfg: Config, b: Books, tick: Tick): Books
    requires cfg.Valid() && AllOrderly(b.open) && tick.price > 0.0
  {
    var s := SweepAll(cfg, b, tick);
    b.(money := s.money, open := s.kept)
  }

  /** The exception leaves the tick's body, and nothing after monitoring runs. */
  ghost predicate MonitorRaises(cfg: Config, b: Books, tick: Tick)
    requires cfg.Valid() && AllOrderly(b.open) && tick.price > 0.0
  {
    SweepAll(cfg, b, tick).raised
  }

  // ---- Opening deals -----------------------------------------------------------------------

  /** `_open_deal`: `id` is the id the ledger row was created under, None when the ledger refused. */
  function Opened(cfg: Config, b: Books, price: real, id: Option<DealId>): Books {
    match id
    case None => b
    case Some(newId) =>
      b.(open := Put(b.open, OpenedDeal(cfg, newId, cfg.direction, price)),
         everOpened := b.everOpened + [newId],
         money := Charge(b.money, Fee(cfg, cfg.dca.baseSize)))
  }

  // ---- Operator files: edit, cancel, close ---------------------------------------------------

  datatype Sentinel =
    | EditDeal(id: DealId, tp: Option<Option<TpOverride>>, sl: Option<Option<SlOverride>>, dca: Option<bool>)
    | CancelDeal(id: DealId)
    | CloseNow(id: DealId)

  function Edited(d: Deal, s: Sentinel): Deal
    requires s.EditDeal?
  {
    d.(overrides := Overrides(s.tp.GetOr(d.overrides.tp), s.sl.GetOr(d.overrides.sl), s.dca.GetOr(d.overrides.dca)))
  }

  const MANUAL := "manual"
  const CANCELLED := "cancelled"

  /** Cancelling settles the deal's profit into the balance too: `_cancel` calls the same `close_deal`. */
  function Obeyed(cfg: Config, b: Books, s: Sentinel, price: real): Books
    requires forall i :: 0 <= i < |b.open| ==> Bookable(b.open[i])
  {
    match IndexOf(b.open, s.id)
    case None => b
    case Some(i) =>
      var d := b.open[i];
      assert Bookable(d);
      match s
      case EditDeal(_, _, _, _) => b.(open := b.open[i := Edited(d, s)])
      case CancelDeal(_) =>
        var dead := d.(closing := d.closing.(trigger := Some(CANCELLED)));
        b.(open := Without(b.open, i), money := Settle(b.money, dead, price, CANCELLED))
      case CloseNow(_) =>
        var dead := d.(closing := d.closing.(trigger := Some(MANUAL)));
        b.(open := Without(b.open, i),
           money := ChargeAnyway(Settle(b.money, dead, price, MANUAL), Fee(cfg, TotalSize(d.orders))))
  }

  /** A file the operator left; `writeOk` tells whether the state file could be written after obeying it. */
  datatype Request = Request(what: Sentinel, writeOk: bool)

  ghost function ObeyedAll(cfg: Config, b: Books, rs: seq<Request>, price: real): Books
    requires AllOrderly(b.open)
    decreases |rs|
  {
    if rs == [] then b
    else
      AllBookable(b.open);
      ObeyedOrderly(cfg, b, rs[0].what, price);
      ObeyedAll(cfg, Obeyed(cfg, b, rs[0].what, price), rs[1..], price)
  }

  lemma {:induction false} ObeyedOrderly(cfg: Config, b: Books, s: Sentinel, price: real)
    requires AllOrderly(b.open)
    requires forall i :: 0 <= i < |b.open| ==> Bookable(b.open[i])
    ensures AllOrderly(Obeyed(cfg, b, s, price).open)
  {
  }

  // ---- The pause gate ----------------------------------------------------------------------

  /** `stashed` holds the pause flag while a clock-skewed tick forces it on. */
  datatype Gate = Gate(guard: Guard, paused: bool, running: bool, skewed: bool, stashed: bool)

  function PreTick(g: Gate, clockOk: bool): Gate {
    if clockOk then g.(skewed := false) else g.(skewed := true, stashed := g.paused, paused := true)
  }

  function PostTick(g: Gate): Gate {
    if g.skewed then g.(paused := g.stashed) else g
  }

  /** `_update_drawdown_guard`: the action is applied only while the engine is not already paused. */
  function GuardTick(gcfg: GuardConfig, g: Gate, reading: real): Gate {
    if !gcfg.enabled then g
    else
      var guard := Updated(gcfg, g.guard, reading);
      if !guard.triggered || g.paused then g.(guard := guard)
      else g.(guard := guard, paused := true, running := g.running && gcfg.action.Pause?)
  }

  function SumPnlAt(deals: seq<Deal>, price: real): real
    requires forall i :: 0 <= i < |deals| ==> Bookable(deals[i])
  {
    if deals == [] then 0.0
    else
      var last := deals[|deals| - 1];
      assert Bookable(last);
      SumPnlAt(deals[..|deals| - 1], price) + CalculatePnl(last.side, last.leverage, last.orders, price).0
  }

  function Reading(gcfg: GuardConfig, b: Books, price: real): real
    requires forall i :: 0 <= i < |b.open| ==> Bookable(b.open[i])
  {
    match gcfg.metric
    case Balance => b.money.balance
    case Equity => b.money.balance + SumPnlAt(b.open, price)
  }

  // ---- The state file --------------------------------------------------------------------------

  /** The part of state.json a restart reads; the last three keys may be missing. */
  datatype Saved = Saved(
    initial: real,
    balance: real,
    open: seq<Deal>,
    closed: seq<Deal>,
    feesPaid: Option<real>,
    guard: Option<GuardEntry>,
    paused: Option<bool>)

  const CLOSED_DEALS_UI_CAP := 50

  function Reversed(deals: seq<Deal>): (r: seq<Deal>)
    ensures |r| == |deals|
  {
    if deals == [] then [] else [deals[|deals| - 1]] + Reversed(deals[..|deals| - 1])
  }

  /** The closed history as a tick writes it: newest first, at most fifty. */
  function Recent(closed: seq<Deal>): seq<Deal> {
    if |closed| <= CLOSED_DEALS_UI_CAP then Reversed(closed) else Reversed(closed)[..CLOSED_DEALS_UI_CAP]
  }

  /** A list of deals as written and read back: profits rounded, those of open deals marked to `price`. */
  function SavedAll(deals: seq<Deal>, price: real): (r: seq<Deal>)
    requires forall i :: 0 <= i < |deals| ==> StateIO.Markable(deals[i], price)
    ensures |r| == |deals| && forall i :: 0 <= i < |deals| ==> r[i] == StateIO.AsSaved(deals[i], price)
  {
    seq(|deals|, i requires 0 <= i < |deals| => StateIO.AsSaved(deals[i], price))
  }

  function Snapshot(b: Books, g: Gate, price: real): Saved
    requires forall i :: 0 <= i < |b.open| ==> Bookable(b.open[i])
  {
    assert forall i :: 0 <= i < |b.open| ==> Bookable(b.open[i]) && StateIO.Markable(b.open[i], price);
    Saved(b.initial, RoundTo(b.money.balance, EIGHT_DECIMALS), SavedAll(b.open, price),
          SavedAll(Recent(b.money.closed), 0.0),
          Some(RoundTo(b.money.feesPaid, TEN_DECIMALS)), Some(ToEntry(g.guard)), Some(g.paused))
  }

  /**
   What the close handler writes in mid-tick: its own keys over whatever the file held. The
   fee total, the guard and the pause stay those of the last completed write.
   */
  function Merged(disk: Option<Saved>, b: Books): Saved {
    var open, closed := SavedAll(b.open, 0.0), SavedAll(b.money.closed, 0.0);
    match disk
    case None => Saved(b.initial, b.money.balance, open, closed, None, None, None)
    case Some(f) => f.(initial := b.initial, balance := b.money.balance, open := open, closed := closed)
  }

  /** The state file after one request, obeyed on `b`. */
  function DiskAfter(cfg: Config, b: Books, disk: Option<Saved>, r: Request, price: real): Option<Saved>
    requires forall i :: 0 <= i < |b.open| ==> Bookable(b.open[i])
  {
    if IndexOf(b.open, r.what.id).Some? && !r.what.EditDeal? && r.writeOk
    then Some(Merged(disk, Obeyed(cfg, b, r.what, price)))
    else disk
  }

  ghost function DiskAfterAll(
    cfg: Config, b: Books, disk: Option<Saved>, rs: seq<Request>, price: real): Option<Saved>
    requires AllOrderly(b.open)
    decreases |rs|
  {
    if rs == [] then disk
    else
      AllBookable(b.open);
      ObeyedOrderly(cfg, b, rs[0].what, price);
      DiskAfterAll(cfg, Obeyed(cfg, b, rs[0].what, price), DiskAfter(cfg, b, disk, rs[0], price), rs[1..], price)
  }

  function LoadedGuard(f: Saved): Guard {
    match f.guard
    case None => FRESH
    case Some(entry) => FromEntry(entry)
  }

  /**
   An engine constructed over the state file, or over none with the configured capital. The
   clock-skew fields are not restored; that a saved deal reads back as StateIO.AsSaved says is
   StateIO.DealRoundTrip.
   */
  function Loaded(disk: Option<Saved>, initial: real): EngineState {
    match disk
    case None => EngineState(FreshBooks(initial), Gate(FRESH, false, false, false, false), disk)
    case Some(f) =>
      var open := PutAll(f.open);
      EngineState(
        Books(f.initial, Money(f.balance, f.closed, f.feesPaid.GetOr(0.0), 0.0, []), open,
              IdsOf(open) + IdsOf(f.closed)),
        Gate(LoadedGuard(f), f.paused == Some(true), false, false, false),
        disk)
  }

  /** Books of an engine that has not traded. */
  function FreshBooks(initial: real): Books {
    Books(initial, Money(initial, [], 0.0, 0.0, []), [], [])
  }

  datatype EngineState = EngineState(books: Books, gate: Gate, disk: Option<Saved>)

  // ---- One tick ------------------------------------------------------------------------------

  /**
   Everything a tick takes from outside. `stages` of the six stages run before an exception
   from outside ends the tick's body; six or more complete it. `manualId` and `entryId` are
   the ids the ledger accepted for a deal opened on this tick, and `writeOk` tells whether
   the state file can be written at its end.
   */
  datatype TickInput = TickInput(
    clockOk: bool,
    stages: nat,
    tick: Tick,
    windowOpen: bool,
    manual: bool,
    manualSafe: bool,
    manualId: Option<DealId>,
    requests: seq<Request>,
    signal: bool,
    entryId: Option<DealId>,
    writeOk: bool)
  {
    predicate Valid() { tick.price > 0.0 }
  }

  function WithManual(cfg: Config, b: Books, input: TickInput): Books {
    if input.manual && b.open == [] && input.manualSafe then Opened(cfg, b, input.tick.price, input.manualId) else b
  }

  predicate Enters(b: Books, g: Gate, input: TickInput) {
    input.windowOpen && !g.paused && b.open == [] && input.tick.ind.haveCloses && input.signal
  }

  function WithEntry(cfg: Config, b: Books, g: Gate, input: TickInput): Books {
    if Enters(b, g, input) then Opened(cfg, b, input.tick.price, input.entryId) else b
  }

  const STAGES := 6

  /** One stage of a tick: monitor, guard, manual trigger, operator files, entry, state file. */
  ghost function Stage(cfg: Config, gcfg: GuardConfig, s: EngineState, input: TickInput, k: nat): EngineState
    requires cfg.Valid() && AllOrderly(s.books.open) && input.Valid()
  {
    match k
    case 1 => s.(books := Monitored(cfg, s.books, input.tick))
    case 2 =>
      AllBookable(s.books.open);
      s.(gate := GuardTick(gcfg, s.gate, Reading(gcfg, s.books, input.tick.price)))
    case 3 => s.(books := WithManual(cfg, s.books, input))
    case 4 =>
      var price := input.tick.price;
      s.(books := ObeyedAll(cfg, s.books, input.requests, price),
         disk := DiskAfterAll(cfg, s.books, s.disk, input.requests, price))
    case 5 => s.(books := WithEntry(cfg, s.books, s.gate, input))
    case 6 =>
      AllBookable(s.books.open);
      if input.writeOk then s.(disk := Some(Snapshot(s.books, s.gate, input.tick.price))) else s
    case _ => s
  }

  /** The state after the first k stages. */
  ghost function Upto(cfg: Config, gcfg: GuardConfig, s: EngineState, input: TickInput, k: nat): (r: EngineState)
    requires cfg.Valid() && AllOrderly(s.books.open) && input.Valid()
    ensures AllOrderly(r.books.open)
  {
    if k == 0 then s
    else
      StageOrderly(cfg, gcfg, Upto(cfg, gcfg, s, input, k - 1), input, k);
      Stage(cfg, gcfg, Upto(cfg, gcfg, s, input, k - 1), input, k)
  }

  /** How far the tick's body gets: a raising check ends it in the first stage. */
  ghost function StagesRun(cfg: Config, s: EngineState, input: TickInput): (n: nat)
    requires cfg.Valid() && AllOrderly(s.books.open) && input.Valid()
    ensures n <= STAGES
  {
    if input.stages == 0 then 0
    else if MonitorRaises(cfg, s.books, input.tick) then 1
    else if input.stages < STAGES then input.stages
    else STAGES
  }

  ghost function Begun(s: EngineState, input: TickInput): EngineState {
    s.(gate := PreTick(s.gate, input.clockOk))
  }

  /** A whole tick: pre-hook, as many stages as run, post-hook. */
  ghost function TickEngine(cfg: Config, gcfg: GuardConfig, s: EngineState, input: TickInput): EngineState
    requires cfg.Valid() && AllOrderly(s.books.open) && input.Valid()
  {
    var r := Upto(cfg, gcfg, Begun(s, input), input, StagesRun(cfg, s, input));
    r.(gate := PostTick(r.gate))
  }

  /** The tick opened a deal on an indicator signal. */
  ghost predicate Entered(cfg: Config, gcfg: GuardConfig, s: EngineState, input: TickInput)
    requires cfg.Valid() && AllOrderly(s.books.open) && input.Valid()
  {
    var r := Upto(cfg, gcfg, Begun(s, input), input, 4);
    StagesRun(cfg, s, input) >= 5 && Enters(r.books, r.gate, input) && input.entryId.Some?
  }

  lemma {:induction false} StageOrderly(cfg: Config, gcfg: GuardConfig, s: EngineState, input: TickInput, k: nat)
    requires cfg.Valid() && AllOrderly(s.books.open) && input.Valid()
    ensures AllOrderly(Stage(cfg, gcfg, s, input, k).books.open)
  {
    match k
    case 1 => MonitoredOrderly(cfg, s.books, input.tick);
    case 3 => OpenedOrderly(cfg, s.books, input.tick.price, input.manualId);
    case 4 => ObeyedAllOrderly(cfg, s.books, input.requests, input.tick.price);
    case 5 => OpenedOrderly(cfg, s.books, input.tick.price, input.entryId);
    case _ =>
  }

  lemma {:induction false} AheadOrderly(d: Deal, rest: seq<Deal>)
    requires Orderly(d) && AllOrderly(rest)
    ensures AllOrderly([d] + rest)
  {
  }

  lemma {:induction false} SweepOrderly(cfg: Config, m: Money, todo: seq<Deal>, tick: Tick, budget: nat)
    requires cfg.Valid() && AllOrderly(todo) && tick.price > 0.0
    ensures AllOrderly(SweepDeals(cfg, m, todo, tick, budget).kept)
    decreases |todo|
  {
    if todo != [] {
      var a := TryDeal(cfg, todo[0], tick, budget > 0);
      TryDealOrderly(cfg, todo[0], tick, budget > 0);
      OrderlyIsBookable(DealAfter(a));
      match a {
        case Raised(d) => AheadOrderly(d, todo[1..]);
        case Decided(v) =>
          if v.Closes? {
            SweepOrderly(cfg, SettleAndCharge(cfg, m, v), todo[1..], tick, budget);
          } else {
            var pays := v.averaged;
            var m' := if pays then Charge(m, Fee(cfg, LastSize(v.deal))) else m;
            var left := if pays then budget - 1 else budget;
            SweepOrderly(cfg, m', todo[1..], tick, left);
            AheadOrderly(v.deal, SweepDeals(cfg, m', todo[1..], tick, left).kept);
          }
      }
    }
  }

  lemma {:induction false} MonitoredOrderly(cfg: Config, b: Books, tick: Tick)
    requires cfg.Valid() && AllOrderly(b.open) && tick.price > 0.0
    ensures AllOrderly(Monitored(cfg, b, tick).open)
  {
    SweepOrderly(cfg, b.money, TrackAll(b.open, tick.price), tick, MAX_DCA_PER_TICK);
  }

  lemma {:induction false} OpenedOrderly(cfg: Config, b: Books, price: real, id: Option<DealId>)
    requires cfg.Valid() && AllOrderly(b.open) && price > 0.0
    ensures AllOrderly(Opened(cfg, b, price, id).open)
  {
    if id.Some? {
      OpenedIsSound(cfg, id.value, cfg.direction, price);
      PutKeeps(b.open, OpenedDeal(cfg, id.value, cfg.direction, price));
    }
  }

  lemma {:induction false} ObeyedAllOrderly(cfg: Config, b: Books, rs: seq<Request>, price: real)
    requires AllOrderly(b.open)
    ensures AllOrderly(ObeyedAll(cfg, b, rs, price).open)
    decreases |rs|
  {
    if rs != [] {
      AllBookable(b.open);
      ObeyedOrderly(cfg, b, rs[0].what, price);
      ObeyedAllOrderly(cfg, Obeyed(cfg, b, rs[0].what, price), rs[1..], price);
    }
  }

  /** The deals in the state file are as orderly as the engine's. */
  ghost predicate OrderlyDisk(disk: Option<Saved>) {
    disk.Some? ==> AllOrderly(disk.value.open)
  }

  lemma {:induction false} DiskAfterAllOrderly(
    cfg: Config, b: Books, disk: Option<Saved>, rs: seq<Request>, price: real)
    requires AllOrderly(b.open) && OrderlyDisk(disk)
    ensures OrderlyDisk(DiskAfterAll(cfg, b, disk, rs, price))
    decreases |rs|
  {
    if rs != [] {
      AllBookable(b.open);
      ObeyedOrderly(cfg, b, rs[0].what, price);
      DiskAfterAllOrderly(
        cfg, Obeyed(cfg, b, rs[0].what, price), DiskAfter(cfg, b, disk, rs[0], price), rs[1..], price);
    }
  }
}
