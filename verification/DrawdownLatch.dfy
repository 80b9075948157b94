/**
 The drawdown latch over whole runs: ticks that may be clock-skewed, fail part-way or fail to
 save, files written in mid-tick by the close handler, restarts from the state file, and
 portal resets of that file (core/trading_engine.py `_update_drawdown_guard`, `_write_state`,
 `_load_state`, paper/close_handler.py `_persist_state`, live/live_engine.py hooks,
 web/routes/drawdown.py).
 */
module DrawdownLatch {
  import opened Options
  import opened Deals
  import opened TickRules
  import opened Drawdown
  import opened PaperLedger
  import opened EngineRules

  /** A process constructed over the state file and started; `capital` is the configured one. */
  function Restarted(disk: Option<Saved>, capital: real): EngineState {
    var s := Loaded(disk, capital);
    s.(gate := s.gate.(running := true))
  }

  /** A close or cancel the portal makes in the state file while the bot is stopped. */
  datatype Offline = Offline(request: Request, price: real)

  /** The portal loads the file, runs the close handler on it and writes back; a price must be positive. */
  ghost function OfflineOne(cfg: Config, disk: Option<Saved>, o: Offline): Option<Saved>
    requires OrderlyDisk(disk)
  {
    LoadedOrderly(disk, 0.0);
    AllBookable(Loaded(disk, 0.0).books.open);
    if o.price <= 0.0 then disk else DiskAfter(cfg, Loaded(disk, 0.0).books, disk, o.request, o.price)
  }

  ghost function OfflineAll(cfg: Config, disk: Option<Saved>, offline: seq<Offline>): Option<Saved>
    requires OrderlyDisk(disk)
    decreases |offline|
  {
    if offline == [] then disk
    else
      OfflineOrderly(cfg, disk, offline[0]);
      OfflineAll(cfg, OfflineOne(cfg, disk, offline[0]), offline[1..])
  }

  lemma {:induction false} LoadedOrderly(disk: Option<Saved>, capital: real)
    requires OrderlyDisk(disk)
    ensures AllOrderly(Loaded(disk, capital).books.open)
  {
    if disk.Some? { PutAllKeeps(disk.value.open); }
  }

  lemma {:induction false} OfflineOrderly(cfg: Config, disk: Option<Saved>, o: Offline)
    requires OrderlyDisk(disk)
    ensures OrderlyDisk(OfflineOne(cfg, disk, o))
  {
    var b := Loaded(disk, 0.0).books;
    LoadedOrderly(disk, 0.0);
    AllBookable(b.open);
    ObeyedOrderly(cfg, b, o.request.what, o.price);
  }

  /** The handler's file leaves guard, pause and fee total as they were, and so does any number of them. */
  lemma {:induction false} OfflineKeepsOthers(cfg: Config, disk: Option<Saved>, offline: seq<Offline>)
    requires OrderlyDisk(disk)
    ensures var disk' := OfflineAll(cfg, disk, offline);
            && OrderlyDisk(disk')
            && (disk'.Some? <==> disk.Some?)
            && (FileTripped(disk') <==> FileTripped(disk)) && (FilePaused(disk') <==> FilePaused(disk))
            && (disk.Some? ==> disk'.value.guard == disk.value.guard && disk'.value.feesPaid == disk.value.feesPaid)
    decreases |offline|
  {
    if offline != [] {
      OfflineOrderly(cfg, disk, offline[0]);
      OfflineKeepsOthers(cfg, OfflineOne(cfg, disk, offline[0]), offline[1..]);
    }
  }

  /** A restart may find closes made in the file while the process was down. */
  datatype EngineEvent =
    | TickEvent(input: TickInput)
    | RestartEvent(capital: real, offline: seq<Offline>)
    | PortalReset

  /** The portal rewrites the guard fields of the state file; a running process does not read it back. */
  function ResetOnDisk(s: EngineState): EngineState {
    match s.disk
    case None => s
    case Some(f) => s.(disk := Some(f.(guard := Some(ToEntry(FRESH)), paused := Some(false))))
  }

  /** The state file's open deals are as orderly as the engine's. */
  ghost predicate OrderlyState(s: EngineState) {
    AllOrderly(s.books.open) && OrderlyDisk(s.disk)
  }

  ghost predicate ValidEvents(events: seq<EngineEvent>) {
    forall i :: 0 <= i < |events| && events[i].TickEvent? ==> events[i].input.Valid()
  }

  ghost function Step(cfg: Config, gcfg: GuardConfig, s: EngineState, e: EngineEvent): EngineState
    requires cfg.Valid() && OrderlyState(s) && (e.TickEvent? ==> e.input.Valid())
  {
    match e
    case TickEvent(input) => TickEngine(cfg, gcfg, s, input)
    case RestartEvent(capital, offline) => Restarted(OfflineAll(cfg, s.disk, offline), capital)
    case PortalReset => ResetOnDisk(s)
  }

  ghost predicate Tripped(s: EngineState) { s.gate.guard.triggered }

  ghost predicate FileTripped(disk: Option<Saved>) {
    disk.Some? && LoadedGuard(disk.value).triggered
  }

  ghost predicate FilePaused(disk: Option<Saved>) {
    disk.Some? && disk.value.paused == Some(true)
  }

  /** The file a tick writes from a state it has reached. */
  ghost function SnapshotOf(s: EngineState, price: real): Saved
    requires AllOrderly(s.books.open)
  {
    AllBookable(s.books.open);
    Snapshot(s.books, s.gate, price)
  }

  /** The tick runs to its end and its state file is written. */
  ghost predicate Saves(cfg: Config, s: EngineState, input: TickInput)
    requires cfg.Valid() && AllOrderly(s.books.open) && input.Valid()
  {
    StagesRun(cfg, s, input) == STAGES && input.writeOk
  }

  // ---- One stage, one tick -------------------------------------------------------------------

  /** A close handler's file leaves every key it does not own as it was. */
  lemma {:induction false} MergeKeepsOthers(
    cfg: Config, b: Books, disk: Option<Saved>, rs: seq<Request>, price: real)
    requires AllOrderly(b.open)
    ensures var disk' := DiskAfterAll(cfg, b, disk, rs, price);
            && (FileTripped(disk') <==> FileTripped(disk))
            && (FilePaused(disk') <==> FilePaused(disk))
            && (disk.Some? ==> disk'.Some?)
            && forall capital ::
                 && Loaded(disk', capital).gate == Loaded(disk, capital).gate
                 && Loaded(disk', capital).books.money.feesPaid == Loaded(disk, capital).books.money.feesPaid
    decreases |rs|
  {
    if rs != [] {
      AllBookable(b.open);
      ObeyedOrderly(cfg, b, rs[0].what, price);
      MergeKeepsOthers(
        cfg, Obeyed(cfg, b, rs[0].what, price), DiskAfter(cfg, b, disk, rs[0], price), rs[1..], price);
    }
  }

  /** The gate after k stages: only the second stage moves it. */
  lemma {:induction false} GateUpto(cfg: Config, gcfg: GuardConfig, s: EngineState, input: TickInput, k: nat)
    requires cfg.Valid() && AllOrderly(s.books.open) && input.Valid()
    ensures k < 2 ==> Upto(cfg, gcfg, s, input, k).gate == s.gate
    ensures k >= 2 ==> exists reading: real :: Upto(cfg, gcfg, s, input, k).gate == GuardTick(gcfg, s.gate, reading)
  {
    if k > 0 {
      GateUpto(cfg, gcfg, s, input, k - 1);
      if k == 2 {
        var r := Upto(cfg, gcfg, s, input, 1);
        AllBookable(r.books.open);
        assert Upto(cfg, gcfg, s, input, k).gate
            == GuardTick(gcfg, s.gate, Reading(gcfg, r.books, input.tick.price));
      }
    }
  }

  /** The file after k stages: the fourth may merge into it, the sixth replaces it. */
  lemma {:induction false} DiskUpto(cfg: Config, gcfg: GuardConfig, s: EngineState, input: TickInput, k: nat)
    requires cfg.Valid() && AllOrderly(s.books.open) && input.Valid()
    ensures var disk := Upto(cfg, gcfg, s, input, k).disk;
            && (k < 4 ==> disk == s.disk)
            && (4 <= k < 6 ==>
                  disk == DiskAfterAll(cfg, Upto(cfg, gcfg, s, input, 3).books, s.disk, input.requests,
                                       input.tick.price))
  {
    if 0 < k < 6 {
      DiskUpto(cfg, gcfg, s, input, k - 1);
    }
  }

  /** The file a tick leaves: its snapshot if it saves, and otherwise one with the guard, pause and fees of before. */
  lemma {:induction false} TickDisk(cfg: Config, gcfg: GuardConfig, s: EngineState, input: TickInput)
    requires cfg.Valid() && OrderlyState(s) && input.Valid()
    ensures var (r, u) := (TickEngine(cfg, gcfg, s, input), Upto(cfg, gcfg, Begun(s, input), input, 5));
            && OrderlyDisk(r.disk)
            && (Saves(cfg, s, input) ==> 
                  && AllOrderly(u.books.open) && r.books == u.books
                  && r.disk == Some(SnapshotOf(u, input.tick.price)))
            && (!Saves(cfg, s, input) ==>
                  && (FileTripped(r.disk) <==> FileTripped(s.disk))
                  && (FilePaused(r.disk) <==> FilePaused(s.disk))
                  && (s.disk.Some? ==> r.disk.Some?)
                  && forall capital ::
                       && Loaded(r.disk, capital).gate == Loaded(s.disk, capital).gate
                       && Loaded(r.disk, capital).books.money.feesPaid
                          == Loaded(s.disk, capital).books.money.feesPaid)
  {
    var b, n := Begun(s, input), StagesRun(cfg, s, input);
    var x := Upto(cfg, gcfg, b, input, 3);
    DiskUpto(cfg, gcfg, b, input, if n < 6 then n else 5);
    MergeKeepsOthers(cfg, x.books, s.disk, input.requests, input.tick.price);
    DiskAfterAllOrderly(cfg, x.books, s.disk, input.requests, input.tick.price);
  }

  lemma {:induction false} GuardTickLatches(gcfg: GuardConfig, g: Gate, reading: real)
    requires gcfg.enabled
    ensures g.guard.triggered ==> GuardTick(gcfg, g, reading).guard == g.guard
    ensures GuardTick(gcfg, g, reading).guard.triggered ==> GuardTick(gcfg, g, reading).paused
    ensures GuardTick(gcfg, g, reading).skewed == g.skewed && GuardTick(gcfg, g, reading).stashed == g.stashed
    ensures g.paused ==> GuardTick(gcfg, g, reading).paused && GuardTick(gcfg, g, reading).running == g.running
  {
  }

  /** The gate a tick of a tripped engine shows the entry stage. */
  lemma {:induction false} TrippedUpto(
    cfg: Config, gcfg: GuardConfig, s: EngineState, input: TickInput, k: nat)
    requires cfg.Valid() && AllOrderly(s.books.open) && input.Valid() && gcfg.enabled && Tripped(s)
    ensures Upto(cfg, gcfg, Begun(s, input), input, k).gate.guard == s.gate.guard
    ensures k >= 2 ==> Upto(cfg, gcfg, Begun(s, input), input, k).gate.paused
  {
    var b := Begun(s, input);
    GateUpto(cfg, gcfg, b, input, k);
    if k >= 2 {
      var r: real :| Upto(cfg, gcfg, b, input, k).gate == GuardTick(gcfg, b.gate, r);
      GuardTickLatches(gcfg, b.gate, r);
    }
  }

  /**
   A tick of a tripped engine opens no deal on a signal and stays tripped. Its state file is
   tripped afterwards exactly when it was before or the tick saved; one it saved is paused too.
   */
  lemma {:induction false} TrippedTick(cfg: Config, gcfg: GuardConfig, s: EngineState, input: TickInput)
    requires cfg.Valid() && OrderlyState(s) && input.Valid() && gcfg.enabled && Tripped(s)
    ensures !Entered(cfg, gcfg, s, input)
    ensures Tripped(TickEngine(cfg, gcfg, s, input))
    ensures FileTripped(TickEngine(cfg, gcfg, s, input).disk) <==> FileTripped(s.disk) || Saves(cfg, s, input)
    ensures Saves(cfg, s, input) ==> FilePaused(TickEngine(cfg, gcfg, s, input).disk)
  {
    TrippedUpto(cfg, gcfg, s, input, 4);
    TrippedUpto(cfg, gcfg, s, input, 5);
    TrippedUpto(cfg, gcfg, s, input, StagesRun(cfg, s, input));
    TickDisk(cfg, gcfg, s, input);
  }

  lemma {:induction false} StepOrderly(cfg: Config, gcfg: GuardConfig, s: EngineState, e: EngineEvent)
    requires cfg.Valid() && OrderlyState(s) && (e.TickEvent? ==> e.input.Valid())
    ensures OrderlyState(Step(cfg, gcfg, s, e))
  {
    match e {
      case TickEvent(input) => TickDisk(cfg, gcfg, s, input);
      case RestartEvent(capital, offline) =>
        OfflineKeepsOthers(cfg, s.disk, offline);
        LoadedOrderly(OfflineAll(cfg, s.disk, offline), capital);
      case PortalReset =>
    }
  }

  // ---- Every run -----------------------------------------------------------------------------

  ghost function Run(cfg: Config, gcfg: GuardConfig, s: EngineState, events: seq<EngineEvent>): (r: EngineState)
    requires cfg.Valid() && OrderlyState(s) && ValidEvents(events)
    ensures OrderlyState(r)
    decreases |events|
  {
    if events == [] then s
    else
      StepOrderly(cfg, gcfg, s, events[0]);
      Run(cfg, gcfg, Step(cfg, gcfg, s, events[0]), events[1..])
  }

  /** Some tick of the run opened a deal on an indicator signal. */
  ghost predicate SomeEntry(cfg: Config, gcfg: GuardConfig, s: EngineState, events: seq<EngineEvent>)
    requires cfg.Valid() && OrderlyState(s) && ValidEvents(events)
    decreases |events|
  {
    events != [] &&
    (StepOrderly(cfg, gcfg, s, events[0]);
     || (events[0].TickEvent? && Entered(cfg, gcfg, s, events[0].input))
     || SomeEntry(cfg, gcfg, Step(cfg, gcfg, s, events[0]), events[1..]))
  }

  /** The engine is tripped after every event of the run. */
  ghost predicate StaysTripped(cfg: Config, gcfg: GuardConfig, s: EngineState, events: seq<EngineEvent>)
    requires cfg.Valid() && OrderlyState(s) && ValidEvents(events)
    decreases |events|
  {
    events == [] ||
    (StepOrderly(cfg, gcfg, s, events[0]);
     && Tripped(Step(cfg, gcfg, s, events[0]))
     && StaysTripped(cfg, gcfg, Step(cfg, gcfg, s, events[0]), events[1..]))
  }

  /** Every restart of the run finds a tripped state file. */
  ghost predicate RestartsFindTrip(cfg: Config, gcfg: GuardConfig, s: EngineState, events: seq<EngineEvent>)
    requires cfg.Valid() && OrderlyState(s) && ValidEvents(events)
    decreases |events|
  {
    events == [] ||
    (StepOrderly(cfg, gcfg, s, events[0]);
     && (events[0].RestartEvent? ==> FileTripped(s.disk))
     && RestartsFindTrip(cfg, gcfg, Step(cfg, gcfg, s, events[0]), events[1..]))
  }

  /**
   A tripped engine stays tripped through a run of ticks, restarts and portal resets exactly
   when every restart finds a tripped file, and while it does no tick, skewed or not, complete
   or not, opens a deal on an indicator signal.
   */
  lemma {:induction false} TrippedUntilIff(cfg: Config, gcfg: GuardConfig, s: EngineState, events: seq<EngineEvent>)
    requires cfg.Valid() && OrderlyState(s) && ValidEvents(events) && gcfg.enabled && Tripped(s)
    ensures StaysTripped(cfg, gcfg, s, events) <==> RestartsFindTrip(cfg, gcfg, s, events)
    ensures RestartsFindTrip(cfg, gcfg, s, events) ==> !SomeEntry(cfg, gcfg, s, events)
    decreases |events|
  {
    if events != [] {
      var e := events[0];
      var s' := Step(cfg, gcfg, s, e);
      StepOrderly(cfg, gcfg, s, e);
      if e.TickEvent? {
        TrippedTick(cfg, gcfg, s, e.input);
      } else if e.RestartEvent? {
        OfflineKeepsOthers(cfg, s.disk, e.offline);
      }
      assert Tripped(s') <==> (e.RestartEvent? ==> FileTripped(s.disk));
      if Tripped(s') {
        TrippedUntilIff(cfg, gcfg, s', events[1..]);
      }
    }
  }

  /**
   Once a tick has saved the trip, no run without a portal reset loses it: whatever fails and
   however often the process restarts, the engine and its file stay tripped and no signal is
   entered.
   */
  lemma {:induction false} SavedTripIsFinal(cfg: Config, gcfg: GuardConfig, s: EngineState, events: seq<EngineEvent>)
    requires cfg.Valid() && OrderlyState(s) && ValidEvents(events) && gcfg.enabled
    requires Tripped(s) && FileTripped(s.disk)
    requires forall i :: 0 <= i < |events| ==> !events[i].PortalReset?
    ensures Tripped(Run(cfg, gcfg, s, events)) && FileTripped(Run(cfg, gcfg, s, events).disk)
    ensures !SomeEntry(cfg, gcfg, s, events)
    decreases |events|
  {
    if events != [] {
      StepOrderly(cfg, gcfg, s, events[0]);
      if events[0].TickEvent? {
        TrippedTick(cfg, gcfg, s, events[0].input);
      } else {
        OfflineKeepsOthers(cfg, s.disk, events[0].offline);
      }
      SavedTripIsFinal(cfg, gcfg, Step(cfg, gcfg, s, events[0]), events[1..]);
    }
  }

  /**
   A trip that no file holds yet survives a restart after the next tick exactly when that tick
   saved: no portal reset is needed to forget it.
   */
  lemma {:induction false} UnsavedTripIsLost(
    cfg: Config, gcfg: GuardConfig, s: EngineState, input: TickInput, capital: real)
    requires cfg.Valid() && OrderlyState(s) && input.Valid() && gcfg.enabled && Tripped(s) && !FileTripped(s.disk)
    ensures Tripped(Restarted(TickEngine(cfg, gcfg, s, input).disk, capital)) <==> Saves(cfg, s, input)
  {
    TrippedTick(cfg, gcfg, s, input);
  }

  /** A portal reset of a running, tripped engine is gone after its next tick that saves. */
  lemma {:induction false} ResetIsOverwritten(cfg: Config, gcfg: GuardConfig, s: EngineState, input: TickInput)
    requires cfg.Valid() && OrderlyState(s) && gcfg.enabled && Tripped(s) && s.disk.Some?
    requires input.Valid() && Saves(cfg, s, input)
    ensures !FileTripped(ResetOnDisk(s).disk) && OrderlyState(ResetOnDisk(s))
    ensures var r := TickEngine(cfg, gcfg, ResetOnDisk(s), input);
            FileTripped(r.disk) && FilePaused(r.disk)
  {
    TrippedTick(cfg, gcfg, ResetOnDisk(s), input);
  }

  /** A reset followed at once by a restart does clear the trip, and with it the pause. */
  lemma {:induction false} ResetThenRestartClears(s: EngineState, capital: real)
    requires s.disk.Some?
    ensures Restarted(ResetOnDisk(s).disk, capital).gate == Gate(FRESH, false, true, false, false)
  {
  }

  // ---- Clock-skewed ticks ----------------------------------------------------------------------

  /** A skewed tick leaves the pause and the running flag as they were, and never unlatches. */
  lemma {:induction false} SkewedTick(cfg: Config, gcfg: GuardConfig, s: EngineState, input: TickInput)
    requires cfg.Valid() && OrderlyState(s) && input.Valid() && gcfg.enabled && !input.clockOk
    ensures var g := TickEngine(cfg, gcfg, s, input).gate;
            && g.paused == s.gate.paused && g.running == s.gate.running
            && (Tripped(s) ==> g.guard == s.gate.guard)
  {
    var b, n := Begun(s, input), StagesRun(cfg, s, input);
    GateUpto(cfg, gcfg, b, input, n);
    if n >= 2 {
      var r: real :| Upto(cfg, gcfg, b, input, n).gate == GuardTick(gcfg, b.gate, r);
      GuardTickLatches(gcfg, b.gate, r);
    }
  }

  ghost predicate AllSkewed(events: seq<EngineEvent>) {
    forall i :: 0 <= i < |events| ==> events[i].TickEvent? && !events[i].input.clockOk
  }

  lemma {:induction false} SkewedRun(cfg: Config, gcfg: GuardConfig, s: EngineState, events: seq<EngineEvent>)
    requires cfg.Valid() && OrderlyState(s) && ValidEvents(events) && gcfg.enabled && AllSkewed(events)
    ensures var g := Run(cfg, gcfg, s, events).gate;
            && g.paused == s.gate.paused && g.running == s.gate.running
            && (Tripped(s) ==> g.guard == s.gate.guard)
    decreases |events|
  {
    if events != [] {
      SkewedTick(cfg, gcfg, s, events[0].input);
      StepOrderly(cfg, gcfg, s, events[0]);
      SkewedRun(cfg, gcfg, Step(cfg, gcfg, s, events[0]), events[1..]);
    }
  }

  /**
   A guard that trips on a clock-skewed tick neither pauses nor stops the engine then. After
   any number of further skewed ticks the trip is still held, and the first tick with a good
   clock that reaches the guard pauses the engine, and stops it if so configured.
   */
  lemma {:induction false} SkewedTripTakesEffect(
    cfg: Config, gcfg: GuardConfig, s: EngineState, first: TickInput, later: seq<EngineEvent>, good: TickInput)
    requires cfg.Valid() && OrderlyState(s) && gcfg.enabled && !s.gate.paused && s.gate.running
    requires first.Valid() && !first.clockOk && Tripped(TickEngine(cfg, gcfg, s, first))
    requires ValidEvents(later) && AllSkewed(later)
    ensures OrderlyState(TickEngine(cfg, gcfg, s, first))
    ensures var r := Run(cfg, gcfg, TickEngine(cfg, gcfg, s, first), later);
            && Tripped(r) && !r.gate.paused && r.gate.running
            && (good.Valid() && good.clockOk && StagesRun(cfg, r, good) >= 2 ==>
                  var g := TickEngine(cfg, gcfg, r, good).gate;
                  g.guard.triggered && g.paused && (g.running <==> gcfg.action.Pause?))
  {
    SkewedTick(cfg, gcfg, s, first);
    var s' := TickEngine(cfg, gcfg, s, first);
    StepOrderly(cfg, gcfg, s, TickEvent(first));
    assert s' == Step(cfg, gcfg, s, TickEvent(first));
    SkewedRun(cfg, gcfg, s', later);
    var r := Run(cfg, gcfg, s', later);
    if good.Valid() && good.clockOk && StagesRun(cfg, r, good) >= 2 {
      SoundTickActs(cfg, gcfg, r, good);
    }
  }

  lemma {:induction false} SoundTickActs(cfg: Config, gcfg: GuardConfig, s: EngineState, input: TickInput)
    requires cfg.Valid() && OrderlyState(s) && gcfg.enabled && Tripped(s) && !s.gate.paused && s.gate.running
    requires input.Valid() && input.clockOk && StagesRun(cfg, s, input) >= 2
    ensures var g := TickEngine(cfg, gcfg, s, input).gate;
            g.guard.triggered && g.paused && (g.running <==> gcfg.action.Pause?)
  {
    var b, n := Begun(s, input), StagesRun(cfg, s, input);
    GateUpto(cfg, gcfg, b, input, n);
    var r: real :| Upto(cfg, gcfg, b, input, n).gate == GuardTick(gcfg, b.gate, r);
    GuardTickLatches(gcfg, b.gate, r);
  }

  /**
   The state file written on a clock-skewed tick carries the forced pause: an engine that is
   neither tripped nor paused comes back paused exactly when that tick was skewed.
   */
  lemma {:induction false} SkewPauseSurvivesRestart(
    cfg: Config, gcfg: GuardConfig, s: EngineState, input: TickInput, capital: real)
    requires cfg.Valid() && OrderlyState(s) && input.Valid() && !s.gate.paused && Saves(cfg, s, input)
    requires !Tripped(TickEngine(cfg, gcfg, s, input))
    ensures var s' := TickEngine(cfg, gcfg, s, input);
            && !s'.gate.paused
            && (Restarted(s'.disk, capital).gate.paused <==> !input.clockOk)
            && !Tripped(Restarted(s'.disk, capital))
  {
    TickDisk(cfg, gcfg, s, input);
    var b := Begun(s, input);
    GateUpto(cfg, gcfg, b, input, 5);
    var r: real :| Upto(cfg, gcfg, b, input, 5).gate == GuardTick(gcfg, b.gate, r);
  }

  /** Nothing but a reset lifts a pause: a paused engine stays paused, and enters no deal, on every run of ticks. */
  lemma {:induction false} PauseIsForever(cfg: Config, gcfg: GuardConfig, s: EngineState, events: seq<EngineEvent>)
    requires cfg.Valid() && OrderlyState(s) && s.gate.paused && ValidEvents(events)
    requires forall i :: 0 <= i < |events| ==> events[i].TickEvent?
    ensures Run(cfg, gcfg, s, events).gate.paused && !SomeEntry(cfg, gcfg, s, events)
    decreases |events|
  {
    if events != [] {
      PausedTick(cfg, gcfg, s, events[0].input);
      StepOrderly(cfg, gcfg, s, events[0]);
      PauseIsForever(cfg, gcfg, Step(cfg, gcfg, s, events[0]), events[1..]);
    }
  }

  lemma {:induction false} PausedTick(cfg: Config, gcfg: GuardConfig, s: EngineState, input: TickInput)
    requires cfg.Valid() && AllOrderly(s.books.open) && input.Valid() && s.gate.paused
    ensures TickEngine(cfg, gcfg, s, input).gate.paused
    ensures !Entered(cfg, gcfg, s, input)
  {
    var b, n := Begun(s, input), StagesRun(cfg, s, input);
    GateUpto(cfg, gcfg, b, input, 4);
    var reading: real :| Upto(cfg, gcfg, b, input, 4).gate == GuardTick(gcfg, b.gate, reading);
    GateUpto(cfg, gcfg, b, input, n);
    if n >= 2 {
      var r: real :| Upto(cfg, gcfg, b, input, n).gate == GuardTick(gcfg, b.gate, r);
    }
  }
}
