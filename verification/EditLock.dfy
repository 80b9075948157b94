/**
 Which edits make monitoring raise, and what becomes of an engine whose monitoring does
 (core/trading_engine.py `_monitor_open_deals`, `_check_deal_sentinels`, core/inverse_perp_math.py).
 The portal and the engine accept any percentage.
 */
module EditLock {
  import opened Options
  import opened InversePerpMath
  import opened Deals
  import opened TickRules
  import opened Drawdown
  import opened PaperLedger
  import opened EngineRules
  import opened DrawdownLatch

  /** The percentage at which a side's take-profit target divides by zero; a stop's is the opposite. */
  function Pole(side: Side): real { if side.Long? then 100.0 else -100.0 }

  /** A check raises exactly at a pole: the take-profit's always, the stop's when take-profit lets the deal stay. */
  lemma {:induction false} AttemptRaisesIff(cfg: Config, d: Deal, tick: Tick, mayAverage: bool)
    requires Orderly(d)
    ensures TpRaises(cfg, d) <==> TpOf(cfg, d).TpAt? && TpOf(cfg, d).pct == Pole(d.side)
    ensures TryDeal(cfg, d, tick, mayAverage).Raised? <==>
            || TpRaises(cfg, d)
            || (&& CheckTp(cfg, d, tick.price, tick.ind).Stay?
                && StopOf(cfg, d).StopAt? && StopOf(cfg, d).pct == -Pole(d.side))
  {
    if TpOf(cfg, d).TpAt? { RaisesAtHundred(TpOf(cfg, d).pct, d.side); }
    if StopOf(cfg, d).StopAt? { RaisesAtHundred(StopOf(cfg, d).pct, d.side); }
  }

  /** The monitor loop raises exactly when the check of some deal it starts with does, whatever cash and DCA budget. */
  lemma {:induction false} SweepRaisesIff(cfg: Config, m: Money, todo: seq<Deal>, tick: Tick, budget: nat)
    requires cfg.Valid() && AllOrderly(todo) && tick.price > 0.0
    ensures SweepDeals(cfg, m, todo, tick, budget).raised <==>
            exists i :: 0 <= i < |todo| && TryDeal(cfg, todo[i], tick, true).Raised?
    decreases |todo|
  {
    if todo != [] {
      var a, rest := TryDeal(cfg, todo[0], tick, budget > 0), todo[1..];
      TryDealOrderly(cfg, todo[0], tick, budget > 0);
      OrderlyIsBookable(DealAfter(a));
      match a {
        case Raised(_) =>
          assert TryDeal(cfg, todo[0], tick, true).Raised?;
        case Decided(v) =>
          assert !TryDeal(cfg, todo[0], tick, true).Raised?;
          var m' := if v.Closes? then SettleAndCharge(cfg, m, v)
                    else if v.averaged then Charge(m, Fee(cfg, LastSize(v.deal))) else m;
          var left := if v.Stays? && v.averaged then budget - 1 else budget;
          SweepRaisesIff(cfg, m', rest, tick, left);
          assert SweepDeals(cfg, m, todo, tick, budget).raised == SweepDeals(cfg, m', rest, tick, left).raised;
          assert forall i :: 0 <= i < |rest| ==> rest[i] == todo[i + 1];
          assert forall i :: 0 < i < |todo| ==> todo[i] == rest[i - 1];
      }
    }
  }

  /** Monitoring is total exactly when no open deal's check raises; in range none does. */
  lemma {:induction false} MonitoringTotalIff(cfg: Config, b: Books, tick: Tick)
    requires cfg.Valid() && AllOrderly(b.open) && tick.price > 0.0
    ensures !MonitorRaises(cfg, b, tick) <==>
            forall i :: 0 <= i < |b.open| ==> !TryDeal(cfg, FoldTrackers(b.open[i], tick.price), tick, true).Raised?
    ensures (forall i :: 0 <= i < |b.open| ==> SoundDeal(cfg, b.open[i])) ==> !MonitorRaises(cfg, b, tick)
  {
    var tracked := TrackAll(b.open, tick.price);
    SweepRaisesIff(cfg, b.money, tracked, tick, MAX_DCA_PER_TICK);
    assert forall i :: 0 <= i < |b.open| ==> tracked[i] == FoldTrackers(b.open[i], tick.price);
    if forall i :: 0 <= i < |b.open| ==> SoundDeal(cfg, b.open[i]) {
      forall i | 0 <= i < |b.open|
        ensures !TryDeal(cfg, tracked[i], tick, true).Raised?
      {
        assert SoundDeal(cfg, tracked[i]);
      }
    }
  }

  /** The engine holds one deal, edited to its pole, and so does its state file. */
  ghost predicate Locked(cfg: Config, s: EngineState, id: DealId) {
    && OrderlyState(s)
    && |s.books.open| == 1 && s.books.open[0].id == id && TpRaises(cfg, s.books.open[0])
    && s.disk.Some? && LockedFile(cfg, s.disk.value, id)
  }

  ghost predicate LockedFile(cfg: Config, f: Saved, id: DealId) {
    |f.open| == 1 && f.open[0].id == id && TpRaises(cfg, f.open[0])
  }

  /** A tick of an engine whose one deal is at its pole moves the deal's price trackers and nothing else. */
  lemma {:induction false} LockedTick(cfg: Config, gcfg: GuardConfig, s: EngineState, input: TickInput)
    requires cfg.Valid() && AllOrderly(s.books.open) && input.Valid()
    requires |s.books.open| == 1 && TpRaises(cfg, s.books.open[0])
    ensures var (r, d) := (TickEngine(cfg, gcfg, s, input), s.books.open[0]);
            && r.books.money == s.books.money && r.disk == s.disk
            && r.gate.guard == s.gate.guard && r.gate.paused == s.gate.paused && r.gate.running == s.gate.running
            && r.books.open == [if input.stages == 0 then d else FoldTrackers(d, input.tick.price)]
  {
    var d, tick := s.books.open[0], input.tick;
    var tracked := TrackAll(s.books.open, tick.price);
    assert s.books.open == [d] && tracked == [FoldTrackers(d, tick.price)];
    assert TryDeal(cfg, tracked[0], tick, true) == Raised(tracked[0]);
    assert SweepAll(cfg, s.books, tick) == Sweep(s.books.money, tracked, true);
    var b := Begun(s, input);
    assert Upto(cfg, gcfg, b, input, 0) == b;
    assert Upto(cfg, gcfg, b, input, 1) == Stage(cfg, gcfg, b, input, 1);
  }

  /** A close or cancel of the deal in the file of a stopped bot; nothing else frees it. */
  predicate Frees(o: Offline, id: DealId) {
    o.request.what.id == id && !o.request.what.EditDeal? && o.request.writeOk && o.price > 0.0
  }

  predicate FreesAt(offline: seq<Offline>, id: DealId) {
    exists i :: 0 <= i < |offline| && Frees(offline[i], id)
  }

  predicate FreedBy(e: EngineEvent, id: DealId) { e.RestartEvent? && FreesAt(e.offline, id) }

  ghost predicate NeverFreed(events: seq<EngineEvent>, id: DealId) {
    forall i :: 0 <= i < |events| ==> !FreedBy(events[i], id)
  }

  lemma {:induction false} NeverFreedUnrolls(events: seq<EngineEvent>, id: DealId)
    requires events != []
    ensures NeverFreed(events, id) <==> !FreedBy(events[0], id) && NeverFreed(events[1..], id)
  {
    assert forall i :: 0 < i < |events| ==> events[i] == events[1..][i - 1];
  }

  lemma {:induction false} FileLoads(disk: Option<Saved>, capital: real)
    requires disk.Some? && |disk.value.open| == 1
    ensures Loaded(disk, capital).books.open == disk.value.open
  {
    PutAllUnique(disk.value.open);
  }

  lemma {:induction false} OfflineOnLocked(cfg: Config, disk: Option<Saved>, id: DealId, o: Offline)
    requires OrderlyDisk(disk) && disk.Some? && LockedFile(cfg, disk.value, id)
    ensures !Frees(o, id) ==> OfflineOne(cfg, disk, o) == disk
    ensures Frees(o, id) ==> OfflineOne(cfg, disk, o).Some? && OfflineOne(cfg, disk, o).value.open == []
  {
    FileLoads(disk, 0.0);
    var b := Loaded(disk, 0.0).books;
    AllBookable(b.open);
    var found := IndexOf(b.open, o.request.what.id);
    if found.Some? {
      assert b.open[0].id == o.request.what.id == id && found.value == 0;
      assert Without(b.open, 0) == [];
    } else {
      assert b.open[0].id == id;
    }
  }

  /** A file without open deals stays without. */
  lemma {:induction false} OfflineOnEmpty(cfg: Config, disk: Option<Saved>, offline: seq<Offline>)
    requires disk.Some? && disk.value.open == []
    ensures OfflineAll(cfg, disk, offline) == disk
    decreases |offline|
  {
    if offline != [] {
      assert Loaded(disk, 0.0).books.open == [];
      OfflineOrderly(cfg, disk, offline[0]);
      OfflineOnEmpty(cfg, OfflineOne(cfg, disk, offline[0]), offline[1..]);
    }
  }

  lemma {:induction false} OfflineAllOnLocked(cfg: Config, disk: Option<Saved>, id: DealId, offline: seq<Offline>)
    requires OrderlyDisk(disk) && disk.Some? && LockedFile(cfg, disk.value, id)
    ensures !FreesAt(offline, id) ==> OfflineAll(cfg, disk, offline) == disk
    ensures FreesAt(offline, id) ==>
              OfflineAll(cfg, disk, offline).Some? && OfflineAll(cfg, disk, offline).value.open == []
    decreases |offline|
  {
    if offline != [] {
      var rest := offline[1..];
      OfflineOnLocked(cfg, disk, id, offline[0]);
      OfflineOrderly(cfg, disk, offline[0]);
      assert FreesAt(offline, id) <==> Frees(offline[0], id) || FreesAt(rest, id) by {
        assert forall i :: 0 < i < |offline| ==> offline[i] == rest[i - 1];
        assert forall i :: 0 <= i < |rest| ==> rest[i] == offline[i + 1];
      }
      if Frees(offline[0], id) {
        OfflineOnEmpty(cfg, OfflineOne(cfg, disk, offline[0]), rest);
      } else {
        OfflineAllOnLocked(cfg, disk, id, rest);
      }
    }
  }

  /** What the file says of cash and deals; guard and pause aside. */
  function CashOnFile(f: Saved): Saved { f.(guard := None, paused := None) }

  lemma {:induction false} LockedStep(cfg: Config, gcfg: GuardConfig, s: EngineState, id: DealId, e: EngineEvent)
    requires cfg.Valid() && Locked(cfg, s, id) && (e.TickEvent? ==> e.input.Valid())
    ensures var r := Step(cfg, gcfg, s, e);
            && (Locked(cfg, r, id) <==> !FreedBy(e, id))
            && (FreedBy(e, id) ==> r.books.open == [])
            && (!FreedBy(e, id) ==> CashOnFile(r.disk.value) == CashOnFile(s.disk.value))
            && (!e.RestartEvent? ==> r.books.money == s.books.money)
    ensures e.TickEvent? ==> !Entered(cfg, gcfg, s, e.input)
  {
    StepOrderly(cfg, gcfg, s, e);
    match e {
      case TickEvent(input) =>
        LockedTick(cfg, gcfg, s, input);
        LockedNeverPastMonitoring(cfg, s, input);
      case RestartEvent(capital, offline) =>
        OfflineAllOnLocked(cfg, s.disk, id, offline);
        var disk := OfflineAll(cfg, s.disk, offline);
        if FreesAt(offline, id) {
          assert Loaded(disk, capital).books.open == [];
        } else {
          FileLoads(disk, capital);
        }
      case PortalReset =>
    }
  }

  lemma {:induction false} LockedNeverPastMonitoring(cfg: Config, s: EngineState, input: TickInput)
    requires cfg.Valid() && AllOrderly(s.books.open) && input.Valid()
    requires |s.books.open| == 1 && TpRaises(cfg, s.books.open[0])
    ensures StagesRun(cfg, s, input) <= 1
  {
    MonitoringTotalIff(cfg, s.books, input.tick);
    assert TryDeal(cfg, FoldTrackers(s.books.open[0], input.tick.price), input.tick, true).Raised?;
  }

  /** The engine is locked now and after every event of the run. */
  ghost predicate LockedAlong(
    cfg: Config, gcfg: GuardConfig, s: EngineState, id: DealId, events: seq<EngineEvent>)
    requires cfg.Valid() && OrderlyState(s) && ValidEvents(events)
    decreases |events|
  {
    && Locked(cfg, s, id)
    && (events == [] ||
        (StepOrderly(cfg, gcfg, s, events[0]);
         LockedAlong(cfg, gcfg, Step(cfg, gcfg, s, events[0]), id, events[1..])))
  }

  /**
   Such an engine stays locked through a run of ticks, restarts and portal resets exactly when
   the deal is never closed in the file of the stopped bot. Until then no file the operator
   leaves is obeyed (not even one that edits the percentage back), nothing is entered, and
   cash and deals in the file stay as they are.
   */
  lemma {:induction false} LockedUntilIff(
    cfg: Config, gcfg: GuardConfig, s: EngineState, id: DealId, events: seq<EngineEvent>)
    requires cfg.Valid() && Locked(cfg, s, id) && ValidEvents(events)
    ensures LockedAlong(cfg, gcfg, s, id, events) <==> NeverFreed(events, id)
    ensures NeverFreed(events, id) ==>
              var r := DrawdownLatch.Run(cfg, gcfg, s, events);
              && Locked(cfg, r, id) && !SomeEntry(cfg, gcfg, s, events)
              && CashOnFile(r.disk.value) == CashOnFile(s.disk.value)
              && ((forall i :: 0 <= i < |events| ==> !events[i].RestartEvent?) ==> r.books.money == s.books.money)
    decreases |events|
  {
    if events != [] {
      var e, rest := events[0], events[1..];
      LockedStep(cfg, gcfg, s, id, e);
      StepOrderly(cfg, gcfg, s, e);
      NeverFreedUnrolls(events, id);
      if !FreedBy(e, id) {
        LockedUntilIff(cfg, gcfg, Step(cfg, gcfg, s, e), id, rest);
      }
    }
  }

  /** An edit of the target to the pole, obeyed on a tick that saves, is enough. */
  lemma {:induction false} OneEditLocks(
    cfg: Config, gcfg: GuardConfig, s: EngineState, input: TickInput, edit: Request, ov: TpOverride)
    requires cfg.Valid() && OrderlyState(s) && input.Valid() && Saves(cfg, s, input)
    requires ov.enabled.GetOr(true) && edit.what.EditDeal? && edit.what.tp == Some(Some(ov))
    requires input.requests == [edit]
    requires var b := Upto(cfg, gcfg, Begun(s, input), input, 3).books;
             |b.open| == 1 && b.open[0].id == edit.what.id && ov.targetPct == Some(Pole(b.open[0].side))
    ensures Locked(cfg, TickEngine(cfg, gcfg, s, input), edit.what.id)
  {
    var t := Begun(s, input);
    var b := Upto(cfg, gcfg, t, input, 3).books;
    AllBookable(b.open);
    var b' := Obeyed(cfg, b, edit.what, input.tick.price);
    ObeyedOrderly(cfg, b, edit.what, input.tick.price);
    assert input.requests[1..] == [];
    assert ObeyedAll(cfg, b', [], input.tick.price) == b';
    assert Upto(cfg, gcfg, t, input, 4).books == b';
    RaisesAtHundred(Pole(b.open[0].side), b.open[0].side);
    assert b'.open == [Edited(b.open[0], edit.what)];
    TickDisk(cfg, gcfg, s, input);
    StepOrderly(cfg, gcfg, s, TickEvent(input));
    assert Upto(cfg, gcfg, t, input, 5).books == b';
  }
}
