/**
 Take-profits under wick simulation (core/trading_engine.py, `_check_tp`): the check looks at
 the best price since the deal opened, so it can fill at a target the market has left.
 When that happens, and when wick simulation makes no difference.
 */
module WickFills {
  import opened Options
  import opened InversePerpMath
  import opened Deals
  import opened TickRules
  import opened ExitGuarantees
  import opened TrailingStop
  import EngineRules

  /** The best price for the position among the ticks before this one. */
  function Extreme(d: Deal): real { if d.side.Long? then d.trackers.high else d.trackers.low }

  /** The take-profit check computes; the stop check need not. */
  predicate TpComputes(cfg: Config, d: Deal) { Orderly(d) && !TpRaises(cfg, d) }

  /** The deal has seen the target that is now in force. */
  predicate Seen(cfg: Config, d: Deal)
    requires TpComputes(cfg, d)
  {
    TpOf(cfg, d).TpAt? && Reached(d.side, Extreme(d), Target(cfg, d))
  }

  /** The take-profit of this tick, made on trackers that already hold it. */
  function TpOn(cfg: Config, d: Deal, tick: Tick): Exit
    requires TpComputes(cfg, d) && tick.price > 0.0
  {
    CheckTp(cfg, FoldTrackers(d, tick.price), tick.price, tick.ind)
  }

  /** A take-profit filled at a price that is not the market's. */
  predicate AwayFill(cfg: Config, d: Deal, tick: Tick)
    requires TpComputes(cfg, d) && tick.price > 0.0
  {
    TpOn(cfg, d, tick).Leave? && TpOn(cfg, d, tick).fill != tick.price
  }

  /** The take-profit as a function of the whole price history. */
  lemma {:induction false} WickTpIsHistory(cfg: Config, d: Deal, seen: seq<real>, tick: Tick)
    requires TpComputes(cfg, d) && Tracks(d, seen) && tick.price > 0.0 && cfg.wickSim && TpOf(cfg, d).TpAt?
    ensures var target := Target(cfg, d);
            var atMarket := Reached(d.side, tick.price, target);
            TpOn(cfg, d, tick)
            == if Reached(d.side, Best(d.side, seen + [tick.price]), target) then
                 if !Cleared(cfg, d, tick.price, tick.ind) then Stay
                 else Leave(if atMarket then tick.price else target, TP, PRICE_TP)
               else if cfg.tp.groups && tick.ind.tpGroupHit then Leave(tick.price, TP, INDICATOR_TP)
               else Stay
  {
    FoldIsGrow(d, seen, tick.price);
    Grow(seen, tick.price);
    SoundSums(d.orders);
  }

  lemma {:induction false} AwayFillIff(cfg: Config, d: Deal, tick: Tick)
    requires TpComputes(cfg, d) && tick.price > 0.0
    ensures AwayFill(cfg, d, tick)
            <==> cfg.wickSim && Seen(cfg, d) && !Reached(d.side, tick.price, Target(cfg, d))
                 && Cleared(cfg, d, tick.price, tick.ind)
  {
    SoundSums(d.orders);
    var d0 := FoldTrackers(d, tick.price);
    if TpOf(cfg, d).TpAt? {
      assert Target(cfg, d0) == Target(cfg, d);
      assert PctAt(d0, tick.price) == PctAt(d, tick.price);
    }
  }

  // ---- The life of one deal ------------------------------------------------------------------

  /** `mayAverage` is false on a tick whose one DCA another deal has used. */
  datatype Happening = Ticked(tick: Tick, mayAverage: bool) | EditedBy(edit: EngineRules.Sentinel)

  /** The deal and the price a tick finds. */
  predicate Fit(a: Deal, h: Happening) { h.Ticked? ==> Orderly(a) && h.tick.price > 0.0 }

  /** What a tick does to the deal; after an edit a check may raise. */
  function OnTick(cfg: Config, a: Deal, h: Happening): Attempt
    requires h.Ticked? && Fit(a, h)
  {
    TryDeal(cfg, FoldTrackers(a, h.tick.price), h.tick, h.mayAverage)
  }

  /** A tick the deal survives, because its checks let it stay or because one raises, or an operator's edit. */
  predicate Leads(cfg: Config, a: Deal, h: Happening, b: Deal) {
    match h
    case Ticked(_, _) =>
      && Fit(a, h)
      && (OnTick(cfg, a, h).Decided? ==> OnTick(cfg, a, h).verdict.Stays?)
      && b == DealAfter(OnTick(cfg, a, h))
    case EditedBy(s) => s.EditDeal? && b == EngineRules.Edited(a, s)
  }

  /** A deal from its opening through ticks it survives and edits of any kind. */
  ghost predicate Life(cfg: Config, states: seq<Deal>, hs: seq<Happening>) {
    && |states| == |hs| + 1
    && forall k :: 0 <= k < |hs| ==> Leads(cfg, states[k], hs[k], states[k + 1])
  }

  /** A DCA or an edit. */
  predicate Moves(cfg: Config, a: Deal, h: Happening)
    requires Fit(a, h)
  {
    if h.EditedBy? then true
    else match OnTick(cfg, a, h) case Decided(v) => v.Stays? && v.averaged case Raised(_) => false
  }

  lemma {:induction false} LeadsKeeps(cfg: Config, a: Deal, h: Happening, b: Deal)
    requires Leads(cfg, a, h, b)
    ensures b.side == a.side
    ensures Fit(a, h)
    ensures !Moves(cfg, a, h) ==> b.orders == a.orders && TpOf(cfg, b) == TpOf(cfg, a)
    ensures Extreme(b) == if h.EditedBy? then Extreme(a)
                          else if a.side.Long? then Max(h.tick.price, Extreme(a)) else Min(h.tick.price, Extreme(a))
  {
  }

  /** The deal's extreme is the best of what it started with and every tick since. */
  lemma {:induction false} ExtremeReached(cfg: Config, states: seq<Deal>, hs: seq<Happening>, target: real)
    requires Life(cfg, states, hs)
    ensures states[|hs|].side == states[0].side
    ensures Reached(states[0].side, Extreme(states[|hs|]), target)
            <==> Reached(states[0].side, Extreme(states[0]), target) || SomeHit(states[0].side, hs, target)
    decreases |hs|
  {
    if hs != [] {
      var n, side := |hs| - 1, states[0].side;
      var front, last := hs[..n], hs[n];
      assert forall k :: 0 <= k < n ==> front[k] == hs[k];
      assert Life(cfg, states[..n + 1], front);
      ExtremeReached(cfg, states[..n + 1], front, target);
      ExtremeStep(cfg, states[n], last, states[n + 1], target);
      HitSnoc(side, front, last, target);
      assert hs == front + [last];
    }
  }

  lemma {:induction false} ExtremeStep(cfg: Config, a: Deal, h: Happening, b: Deal, target: real)
    requires Leads(cfg, a, h, b)
    ensures b.side == a.side
    ensures Reached(a.side, Extreme(b), target) <==> Reached(a.side, Extreme(a), target) || HitBy(a.side, h, target)
  {
    LeadsKeeps(cfg, a, h, b);
  }

  ghost predicate SomeHit(side: Side, hs: seq<Happening>, target: real) {
    exists k :: 0 <= k < |hs| && HitBy(side, hs[k], target)
  }

  lemma {:induction false} HitSnoc(side: Side, hs: seq<Happening>, h: Happening, target: real)
    ensures SomeHit(side, hs + [h], target) <==> SomeHit(side, hs, target) || HitBy(side, h, target)
  {
    if SomeHit(side, hs, target) {
      var k :| 0 <= k < |hs| && HitBy(side, hs[k], target);
      assert (hs + [h])[k] == hs[k];
    }
    assert (hs + [h])[|hs|] == h;
  }

  /** A tick whose price reached this target. */
  predicate HitBy(side: Side, h: Happening, target: real) { h.Ticked? && Reached(side, h.tick.price, target) }

  /** While nothing moves it, the take-profit stays where it is. */
  lemma {:induction false} Unmoved(cfg: Config, states: seq<Deal>, hs: seq<Happening>, k: nat)
    requires Life(cfg, states, hs) && k <= |hs|
    requires forall j :: k <= j < |hs| ==>
               Fit(states[j], hs[j]) && !Moves(cfg, states[j], hs[j])
    ensures states[|hs|].orders == states[k].orders && TpOf(cfg, states[|hs|]) == TpOf(cfg, states[k])
    ensures states[|hs|].side == states[k].side
    decreases |hs| - k
  {
    if k < |hs| {
      LeadsKeeps(cfg, states[k], hs[k], states[k + 1]);
      Unmoved(cfg, states, hs, k + 1);
    }
  }

  ghost predicate MovedFrom(cfg: Config, states: seq<Deal>, hs: seq<Happening>, k: nat)
    requires Life(cfg, states, hs)
  {
    exists j :: k <= j < |hs| && MovesAt(cfg, states, hs, j)
  }

  ghost predicate MovesAt(cfg: Config, states: seq<Deal>, hs: seq<Happening>, j: nat)
    requires Life(cfg, states, hs) && j < |hs|
  {
    assert Leads(cfg, states[j], hs[j], states[j + 1]);
    Moves(cfg, states[j], hs[j])
  }

  /** Tick k stood at the target then in force too, and was held back by the minimum or the confirmation. */
  ghost predicate HeldBack(cfg: Config, states: seq<Deal>, hs: seq<Happening>, k: nat)
    requires Life(cfg, states, hs) && k < |hs| && hs[k].Ticked?
  {
    assert Leads(cfg, states[k], hs[k], states[k + 1]);
    var (d, t) := (states[k], hs[k].tick);
    && TpComputes(cfg, d) && TpOf(cfg, d).TpAt?
    && Reached(d.side, t.price, Target(cfg, d))
    && !Cleared(cfg, d, t.price, t.ind)
  }

  /** A surviving tick at the final target was held back, or the target came to it later. */
  lemma {:induction false} WhyHit(cfg: Config, states: seq<Deal>, hs: seq<Happening>, k: nat)
    requires Life(cfg, states, hs) && k < |hs| && TpComputes(cfg, states[|hs|]) && TpOf(cfg, states[|hs|]).TpAt?
    requires HitBy(states[k].side, hs[k], Target(cfg, states[|hs|]))
    ensures HeldBack(cfg, states, hs, k) || MovedFrom(cfg, states, hs, k)
  {
    var d, t := states[k], hs[k].tick;
    assert Leads(cfg, d, hs[k], states[k + 1]);
    if !MovedFrom(cfg, states, hs, k) {
      forall j | k <= j < |hs|
        ensures Fit(states[j], hs[j])
        ensures !Moves(cfg, states[j], hs[j])
      {
        assert Leads(cfg, states[j], hs[j], states[j + 1]);
        assert !MovesAt(cfg, states, hs, j);
      }
      Unmoved(cfg, states, hs, k);
      HeldBackOrGone(cfg, d, hs[k], states[k + 1]);
    }
  }

  /** At its target a deal that passes the minimum and the confirmation is gone, whatever its stop check does. */
  lemma {:induction false} HeldBackOrGone(cfg: Config, d: Deal, h: Happening, e: Deal)
    requires h.Ticked? && Leads(cfg, d, h, e) && TpComputes(cfg, d) && TpOf(cfg, d).TpAt?
    requires Reached(d.side, h.tick.price, Target(cfg, d))
    ensures !Cleared(cfg, d, h.tick.price, h.tick.ind)
  {
    var t := h.tick;
    var d0 := FoldTrackers(d, t.price);
    assert Target(cfg, d0) == Target(cfg, d);
    SoundSums(d.orders);
    assert PctAt(d0, t.price) == PctAt(d, t.price);
    assert CheckTp(cfg, d0, t.price, t.ind).Stay?;
  }

  /** The last target is one an earlier price had reached, for one of the three reasons there are. */
  ghost predicate SeenBefore(cfg: Config, states: seq<Deal>, hs: seq<Happening>, target: real)
    requires Life(cfg, states, hs)
  {
    || (Reached(states[0].side, Extreme(states[0]), target) && MovedFrom(cfg, states, hs, 0))
    || (exists k :: 0 <= k < |hs| && HitBy(states[0].side, hs[k], target) && HeldBack(cfg, states, hs, k))
    || (exists k :: 0 <= k < |hs| && HitBy(states[0].side, hs[k], target) && MovedFrom(cfg, states, hs, k))
  }

  lemma {:induction false} SidesSame(cfg: Config, states: seq<Deal>, hs: seq<Happening>, k: nat)
    requires Life(cfg, states, hs) && k <= |hs|
    ensures states[k].side == states[0].side
    decreases k
  {
    if k > 0 {
      SidesSame(cfg, states, hs, k - 1);
      LeadsKeeps(cfg, states[k - 1], hs[k - 1], states[k]);
    }
  }

  /** The entry price reaches a later target only if the target has moved. */
  lemma {:induction false} EntryUnseen(
    cfg: Config, id: DealId, side: Side, entry: real, states: seq<Deal>, hs: seq<Happening>)
    requires cfg.Valid() && entry > 0.0 && Life(cfg, states, hs) && states[0] == OpenedDeal(cfg, id, side, entry)
    requires TpComputes(cfg, states[|hs|]) && TpOf(cfg, states[|hs|]).TpAt?
    ensures MovedFrom(cfg, states, hs, 0) || !Reached(side, entry, Target(cfg, states[|hs|]))
  {
    OpenedTargetUnseen(cfg, id, side, entry);
    if !MovedFrom(cfg, states, hs, 0) {
      forall j | 0 <= j < |hs|
        ensures Fit(states[j], hs[j])
        ensures !Moves(cfg, states[j], hs[j])
      {
        assert Leads(cfg, states[j], hs[j], states[j + 1]);
        assert !MovesAt(cfg, states, hs, j);
      }
      Unmoved(cfg, states, hs, 0);
    }
  }

  /**
   Over the whole life of a deal, whatever is configured and edited: a tick fills away from
   the market exactly when it is cleared, it is short of the target, and an earlier price had
   reached that target: because that tick was held back, or because a DCA or an edit moved
   the target onto it afterwards.
   */
  lemma {:induction false} WickOnlyFillIff(
    cfg: Config, id: DealId, side: Side, entry: real, states: seq<Deal>, hs: seq<Happening>, p: Tick)
    requires cfg.Valid() && cfg.wickSim && entry > 0.0 && Life(cfg, states, hs)
    requires states[0] == OpenedDeal(cfg, id, side, entry)
    requires TpComputes(cfg, states[|hs|]) && TpOf(cfg, states[|hs|]).TpAt? && p.price > 0.0
    ensures var d := states[|hs|];
            AwayFill(cfg, d, p)
            <==> Cleared(cfg, d, p.price, p.ind)
                 && !Reached(side, p.price, Target(cfg, d))
                 && SeenBefore(cfg, states, hs, Target(cfg, d))
  {
    var d := states[|hs|];
    var target := Target(cfg, d);
    ExtremeReached(cfg, states, hs, target);
    AwayFillIff(cfg, d, p);
    OpenedTargetUnseen(cfg, id, side, entry);
    EntryUnseen(cfg, id, side, entry, states, hs);
    forall k | 0 <= k < |hs| && HitBy(side, hs[k], target)
      ensures HeldBack(cfg, states, hs, k) || MovedFrom(cfg, states, hs, k)
    {
      SidesSame(cfg, states, hs, k);
      WhyHit(cfg, states, hs, k);
    }
  }

  // ---- When wick simulation makes no difference -------------------------------------------------

  predicate NeverAverages(cfg: Config, d: Deal) {
    !cfg.dca.enabled || !d.overrides.dca || cfg.dca.maxOrders <= 1
  }

  /** Tracker-free view of a deal: what wick simulation does not touch when the stop does not trail. */
  predicate SamePosition(d: Deal, e: Deal) {
    && d.orders == e.orders && d.side == e.side && d.leverage == e.leverage
    && d.overrides == e.overrides
  }

  predicate SameVerdict(v: Verdict, w: Verdict) {
    && SamePosition(v.deal, w.deal)
    && (v.Closes? <==> w.Closes?)
    && (v.Closes? ==> v.fill == w.fill && v.reason == w.reason)
  }

  lemma {:induction false} OpenedTargetUnseen(cfg: Config, id: DealId, side: Side, price: real)
    requires cfg.Valid() && price > 0.0
    ensures SoundDeal(cfg, OpenedDeal(cfg, id, side, price))
    ensures !Seen(cfg, OpenedDeal(cfg, id, side, price))
  {
    OpenedIsSound(cfg, id, side, price);
    if cfg.tp.enabled {
      var x := TpDivisor(cfg.tp.pct, side);
      DivLe(price, price, x);
      if side.Long? { assert price * x < price; } else { assert price * x > price; }
    }
  }

  function Off(cfg: Config): Config { cfg.(wickSim := false) }

  /** Wick simulation changes this tick's outcome: it fills away from the market, or holds an indicator exit back. */
  predicate Matters(cfg: Config, d: Deal, tick: Tick)
    requires Computes(cfg, d) && tick.price > 0.0
  {
    && Seen(cfg, d) && !Reached(d.side, tick.price, Target(cfg, d))
    && (Cleared(cfg, d, tick.price, tick.ind) || (cfg.tp.groups && tick.ind.tpGroupHit))
  }

  lemma {:induction false} SameStops(cfg: Config, d: Deal, e: Deal, price: real)
    requires Computes(cfg, d) && Computes(Off(cfg), e) && SamePosition(d, e)
    requires StopOf(cfg, d).StopAt? ==> !StopOf(cfg, d).kind.Trailing?
    ensures CheckSl(cfg, d, price) == CheckSl(Off(cfg), e, price)
    ensures AfterStopCheck(cfg, d, price) == d && AfterStopCheck(Off(cfg), e, price) == e
    ensures CheckDca(cfg, d, price) == CheckDca(Off(cfg), e, price)
  {
    var n := DcaCount(d.orders);
    assert StepPct(Off(cfg), n) == StepPct(cfg, n);
    assert UnroundedDcaSize(Off(cfg), n) == UnroundedDcaSize(cfg, n);
  }

  lemma {:induction false} SameTargets(cfg: Config, d: Deal, e: Deal, tick: Tick)
    requires cfg.wickSim && Computes(cfg, d) && Computes(Off(cfg), e) && SamePosition(d, e) && tick.price > 0.0
    ensures !Matters(cfg, d, tick) ==> TpOn(cfg, d, tick) == TpOn(Off(cfg), e, tick)
    ensures Matters(cfg, d, tick) ==> TpOn(cfg, d, tick) != TpOn(Off(cfg), e, tick)
    ensures Matters(cfg, d, tick) && TpOn(cfg, d, tick).Leave? ==>
              TpOn(cfg, d, tick).fill != tick.price && TpOn(cfg, d, tick).reason == TP
    ensures Matters(cfg, d, tick) && TpOn(cfg, d, tick).Stay? ==> TpOn(Off(cfg), e, tick).Leave?
    ensures TpOn(Off(cfg), e, tick).Leave? ==> TpOn(Off(cfg), e, tick).fill == tick.price
  {
    SoundSums(d.orders);
    var d0, e0 := FoldTrackers(d, tick.price), FoldTrackers(e, tick.price);
    if TpOf(cfg, d).TpAt? {
      assert Target(cfg, d0) == Target(cfg, d) == Target(Off(cfg), e0);
      assert PctAt(d0, tick.price) == PctAt(d, tick.price) == PctAt(e0, tick.price);
    }
  }

  lemma {:induction false} NotTpFill(cfg: Config, e: Deal, price: real)
    requires Orderly(e) && !SlRaises(cfg, e)
    ensures CheckSl(cfg, e, price).Leave? ==> CheckSl(cfg, e, price).reason == SL && SL != TP
  {
    assert SL[0] != TP[0];
  }

  /** Without a trailing stop the two settings decide a tick alike exactly when wick simulation does not matter. */
  lemma {:induction false} WickStepIff(cfg: Config, d: Deal, e: Deal, tick: Tick)
    requires cfg.wickSim && Computes(cfg, d) && Computes(Off(cfg), e) && SamePosition(d, e) && tick.price > 0.0
    requires StopOf(cfg, d).StopAt? ==> !StopOf(cfg, d).kind.Trailing?
    ensures SameVerdict(TickDeal(cfg, d, tick), TickDeal(Off(cfg), e, tick)) <==> !Matters(cfg, d, tick)
  {
    var d0, e0 := FoldTrackers(d, tick.price), FoldTrackers(e, tick.price);
    SameStops(cfg, d0, e0, tick.price);
    SameTargets(cfg, d, e, tick);
    NotTpFill(Off(cfg), e0, tick.price);
    var tp, tpOff, sl := TpOn(cfg, d, tick), TpOn(Off(cfg), e, tick), CheckSl(cfg, d0, tick.price);
    var dca := CheckDca(cfg, d0, tick.price);
    assert TickDeal(cfg, d, tick) == Decide(d0, d0, tp, sl, dca);
    assert TickDeal(Off(cfg), e, tick) == Decide(e0, e0, tpOff, sl, dca);
  }

  ghost predicate SameAlong(cfg: Config, d: Deal, e: Deal, ticks: seq<Tick>)
    requires cfg.Valid() && SoundDeal(cfg, d) && SoundDeal(Off(cfg), e)
    requires forall i :: 0 <= i < |ticks| ==> ticks[i].price > 0.0
    decreases |ticks|
  {
    if ticks == [] then true
    else
      TickSound(cfg, d, ticks[0]);
      TickSound(Off(cfg), e, ticks[0]);
      var v, w := TickDeal(cfg, d, ticks[0]), TickDeal(Off(cfg), e, ticks[0]);
      SameVerdict(v, w) && (v.Closes? || SameAlong(cfg, v.deal, w.deal, ticks[1..]))
  }

  /** On no tick of the run, up to the one that closes the deal, does wick simulation matter. */
  ghost predicate NeverMatters(cfg: Config, d: Deal, ticks: seq<Tick>)
    requires cfg.Valid() && SoundDeal(cfg, d)
    requires forall i :: 0 <= i < |ticks| ==> ticks[i].price > 0.0
    decreases |ticks|
  {
    if ticks == [] then true
    else
      TickSound(cfg, d, ticks[0]);
      var v := TickDeal(cfg, d, ticks[0]);
      !Matters(cfg, d, ticks[0]) && (v.Closes? || NeverMatters(cfg, v.deal, ticks[1..]))
  }

  /** So over a whole run without a trailing stop. */
  lemma {:induction false} WickInertIff(cfg: Config, d: Deal, e: Deal, ticks: seq<Tick>)
    requires cfg.Valid() && cfg.wickSim && SoundDeal(cfg, d) && SoundDeal(Off(cfg), e) && SamePosition(d, e)
    requires StopOf(cfg, d).StopAt? ==> !StopOf(cfg, d).kind.Trailing?
    requires forall i :: 0 <= i < |ticks| ==> ticks[i].price > 0.0
    ensures SameAlong(cfg, d, e, ticks) <==> NeverMatters(cfg, d, ticks)
    decreases |ticks|
  {
    if ticks != [] {
      WickStepIff(cfg, d, e, ticks[0]);
      TickSound(cfg, d, ticks[0]);
      TickSound(Off(cfg), e, ticks[0]);
      var v, w := TickDeal(cfg, d, ticks[0]), TickDeal(Off(cfg), e, ticks[0]);
      if SameVerdict(v, w) && v.Stays? {
        StopStays(cfg, d, ticks[0]);
        WickInertIff(cfg, v.deal, w.deal, ticks[1..]);
      }
    }
  }

  lemma {:induction false} StopStays(cfg: Config, d: Deal, tick: Tick)
    requires Computes(cfg, d) && tick.price > 0.0
    ensures StopOf(cfg, TickDeal(cfg, d, tick).deal) == StopOf(cfg, d)
    ensures TpOf(cfg, TickDeal(cfg, d, tick).deal) == TpOf(cfg, d)
    ensures TickDeal(cfg, d, tick).deal.overrides == d.overrides && TickDeal(cfg, d, tick).deal.side == d.side
  {
  }

  // ---- A fill the market never offered -------------------------------------------------

  /** The repository's default ladder, target and stop, with wick simulation on. */
  const DEFAULTS := Config(Long, 1, DcaConfig(true, 1.0, 5, 2.5, 1.0, 1.0, 0.0006),
                           TpConfig(true, true, 3.0, None, false), StopConfig(Fixed, 5.0), true)

  const QUIET := Indicators(true, true, false)

  /** Entry 100, a tick at 102, a DCA at 97.5, and the deal closes in profit while the market stays at 97.5. */
  lemma {:induction false} PhantomTakeProfit()
    ensures DEFAULTS.Valid()
    ensures var d := OpenedDeal(DEFAULTS, "d", Long, 100.0);
            var after := d.(orders := d.orders + [Order(2, 97.5, 1.0, DcaOrder)],
                            trackers := Trackers(0.0, 102.0, 97.5));
            && SoundDeal(DEFAULTS, d)
            && TickDeal(DEFAULTS, d, Tick(102.0, QUIET)) == Stays(d.(trackers := Trackers(0.0, 102.0, 100.0)), false)
            && SoundDeal(DEFAULTS, d.(trackers := Trackers(0.0, 102.0, 100.0)))
            && TickDeal(DEFAULTS, d.(trackers := Trackers(0.0, 102.0, 100.0)), Tick(97.5, QUIET)) == Stays(after, true)
            && SoundDeal(DEFAULTS, after)
            && 101.8 < Target(DEFAULTS, after) < 102.0
            && TickDeal(DEFAULTS, after, Tick(97.5, QUIET)).Closes?
            && TickDeal(DEFAULTS, after, Tick(97.5, QUIET)).fill == Target(DEFAULTS, after)
  {
    var d := OpenedDeal(DEFAULTS, "d", Long, 100.0);
    OpenedIsSound(DEFAULTS, "d", Long, 100.0);
    assert Pow(1.0, 0) == 1.0;
    assert DcaCount(d.orders) == 0 by { assert d.orders[..0] == []; }
    assert StepPct(DEFAULTS, 0) == 2.5;
    assert (1.0 * EIGHT_DECIMALS).Floor == 100000000;
    assert DcaSize(DEFAULTS, 0) == 1.0;
    var o := Order(2, 97.5, 1.0, DcaOrder);
    SingleOrder(d.orders[0]);
    Snoc(d.orders, o);
    assert AvgEntry(d.orders + [o]) == 98.75;
  }

  const WAITING := Indicators(true, false, false)

  /** No DCA at all: a tick at 104 is held back unconfirmed, the next fills at the target, far above its 99. */
  lemma {:induction false} HeldBackTakeProfit()
    ensures var cfg := DEFAULTS.(dca := DEFAULTS.dca.(enabled := false));
            var d := OpenedDeal(cfg, "d", Long, 100.0);
            var after := d.(trackers := Trackers(0.0, 104.0, 100.0));
            && cfg.Valid() && SoundDeal(cfg, d) && SoundDeal(cfg, after)
            && TickDeal(cfg, d, Tick(104.0, WAITING)) == Stays(after, false)
            && AwayFill(cfg, after, Tick(99.0, QUIET))
  {
    var cfg := DEFAULTS.(dca := DEFAULTS.dca.(enabled := false));
    OpenedIsSound(cfg, "d", Long, 100.0);
    SoundSums(OpenedDeal(cfg, "d", Long, 100.0).orders);
  }
}
