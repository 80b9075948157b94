/**
 What the tick-driven engine decides about one open deal on one tick
 (core/trading_engine.py, `_update_deal_wick_trackers`, `_check_tp`, `_check_sl`, `_check_dca`),
 as functions of the configuration, the deal and the price.
 */
module TickRules {
  import opened Options
  import opened InversePerpMath
  import opened Deals

  datatype DcaConfig = DcaConfig(
    enabled: bool,
    baseSize: real,
    maxOrders: nat,
    spacingPct: real,
    multiplier: real,
    stepScale: real,
    takerFee: real)

  datatype TpConfig = TpConfig(enabled: bool, priceEnabled: bool, pct: real, minPct: Option<real>, groups: bool)

  datatype StopConfig = StopConfig(kind: StopType, pct: real)

  datatype Config = Config(
    direction: Side,
    leverage: nat,
    dca: DcaConfig,
    tp: TpConfig,
    stop: StopConfig,
    wickSim: bool)
  {
    /** The ranges the configuration model enforces, less the divisions by zero at 100 percent. */
    predicate Valid() {
      && leverage >= 1
      && dca.baseSize > 0.0
      && 0.0 < dca.spacingPct <= 50.0
      && 0.0 < dca.multiplier <= 10.0
      && 0.0 < dca.stepScale <= 5.0
      && 0.0 <= dca.takerFee <= 0.01
      && 0.0 < tp.pct < 100.0
      && 0.0 <= stop.pct < 100.0
    }
  }

  /** The answers of the indicator engine on one tick; it is not modelled further. */
  datatype Indicators = Indicators(haveCloses: bool, confirmed: bool, tpGroupHit: bool)

  datatype Tick = Tick(price: real, ind: Indicators)

  datatype Exit = Stay | Leave(fill: real, reason: string, trigger: string)

  const TP := "tp"
  const SL := "sl"
  const PRICE_TP := "price_tp"
  const INDICATOR_TP := "indicator_tp"
  const PRICE_SL := "price_sl"
  const TRAILING_SL := "trailing_sl"

  datatype TpRule = TpOff | TpAt(pct: real)

  datatype StopRule = StopOff | StopAt(kind: StopType, pct: real)

  /** The take-profit in force for this deal. */
  function TpOf(cfg: Config, d: Deal): TpRule {
    match d.overrides.tp
    case Some(ov) => if ov.enabled.GetOr(true) then TpAt(ov.targetPct.GetOr(cfg.tp.pct)) else TpOff
    case None => if cfg.tp.enabled then TpAt(cfg.tp.pct) else TpOff
  }

  /** The stop in force. An override that leaves the type at "none" acts as a fixed stop, as in the source. */
  function StopOf(cfg: Config, d: Deal): StopRule {
    match d.overrides.sl
    case Some(ov) =>
      if ov.enabled.GetOr(true) then StopAt(ov.kind.GetOr(cfg.stop.kind), ov.pct.GetOr(cfg.stop.pct)) else StopOff
    case None => if cfg.stop.kind.NoStop? then StopOff else StopAt(cfg.stop.kind, cfg.stop.pct)
  }

  /** What every deal of a running engine looks like, whatever an operator has edited. */
  predicate Orderly(d: Deal) {
    && SoundOrders(d.orders)
    && d.leverage > 0
    && d.trackers.peak >= 0.0
    && d.trackers.low > 0.0
  }

  /** The take-profit check would divide by zero. */
  predicate TpRaises(cfg: Config, d: Deal) {
    TpOf(cfg, d).TpAt? && TpDivisor(TpOf(cfg, d).pct, d.side) == 0.0
  }

  /** So would the stop check. */
  predicate SlRaises(cfg: Config, d: Deal) {
    StopOf(cfg, d).StopAt? && SlDivisor(StopOf(cfg, d).pct, d.side) == 0.0
  }

  /** Every check of the deal computes. */
  predicate Computes(cfg: Config, d: Deal) {
    Orderly(d) && !TpRaises(cfg, d) && !SlRaises(cfg, d)
  }

  /** The percentages in force are in the configuration's ranges. */
  predicate SoundDeal(cfg: Config, d: Deal) {
    && Orderly(d)
    && (TpOf(cfg, d).TpAt? ==> TpOf(cfg, d).pct > 0.0 && TpDivisor(TpOf(cfg, d).pct, d.side) > 0.0)
    && (StopOf(cfg, d).StopAt? ==> StopOf(cfg, d).pct >= 0.0 && SlDivisor(StopOf(cfg, d).pct, d.side) > 0.0)
  }

  function Avg(d: Deal): real
    requires Orderly(d)
  {
    SoundAvg(d.orders);
    AvgEntry(d.orders)
  }

  function FoldTrackers(d: Deal, price: real): Deal {
    d.(trackers := Trackers(
         d.trackers.peak,
         if price > d.trackers.high then price else d.trackers.high,
         if price < d.trackers.low then price else d.trackers.low))
  }

  predicate Reached(side: Side, price: real, target: real) {
    if side.Long? then price >= target else price <= target
  }

  /** The best price for the position since the deal opened, this tick included. */
  function WickBest(d: Deal, price: real): real {
    if d.side.Long? then Max(d.trackers.high, price) else Min(d.trackers.low, price)
  }

  function Target(cfg: Config, d: Deal): real
    requires Orderly(d) && !TpRaises(cfg, d) && TpOf(cfg, d).TpAt?
  {
    TpTarget(Avg(d), TpOf(cfg, d).pct, d.side)
  }

  function CheckTp(cfg: Config, d: Deal, price: real, ind: Indicators): Exit
    requires Orderly(d) && !TpRaises(cfg, d)
  {
    if TpOf(cfg, d).TpOff? then Stay
    else
      var target := Target(cfg, d);
      var tickHit := Reached(d.side, price, target);
      var wickHit := cfg.wickSim && Reached(d.side, WickBest(d, price), target);
      if wickHit || tickHit then
        SoundSums(d.orders);
        if cfg.tp.minPct.Some? && CalculatePnl(d.side, d.leverage, d.orders, price).1 < cfg.tp.minPct.value then Stay
        else if ind.haveCloses && !ind.confirmed then Stay
        else Leave(if wickHit && !tickHit then target else price, TP, PRICE_TP)
      else if cfg.tp.groups && ind.tpGroupHit then Leave(price, TP, INDICATOR_TP)
      else Stay
  }

  /** The trailing extreme after this tick: highest price for a long, lowest for a short. */
  function NewPeak(cfg: Config, d: Deal, price: real): real {
    var seeded := if d.trackers.peak == 0.0 then price else d.trackers.peak;
    var best := if cfg.wickSim then WickBest(d, price) else price;
    if d.side.Long? then Max(seeded, best) else Min(seeded, best)
  }

  /** The stop check moves the trailing peak whether or not the stop fires. */
  function AfterStopCheck(cfg: Config, d: Deal, price: real): Deal {
    if StopOf(cfg, d).StopAt? && StopOf(cfg, d).kind.Trailing? then
      d.(trackers := d.trackers.(peak := NewPeak(cfg, d, price)))
    else d
  }

  function CheckSl(cfg: Config, d: Deal, price: real): Exit
    requires Orderly(d) && !SlRaises(cfg, d)
  {
    match StopOf(cfg, d)
    case StopOff => Stay
    case StopAt(kind, pct) =>
      var from := if kind.Trailing? then NewPeak(cfg, d, price) else Avg(d);
      var line := SlTarget(from, pct, d.side);
      var hit := if d.side.Long? then price <= line else price >= line;
      if hit then Leave(price, SL, if kind.Trailing? then TRAILING_SL else PRICE_SL) else Stay
  }

  /** A price `pct` percent below (or, for a negative percentage, above) another. */
  function Below(price: real, pct: real): real {
    price * (1.0 - pct / 100.0)
  }

  /** Spacing and unrounded size of the DCA that follows `count` earlier ones. */
  function StepPct(cfg: Config, count: nat): real {
    cfg.dca.spacingPct * Pow(cfg.dca.stepScale, count)
  }

  function UnroundedDcaSize(cfg: Config, count: nat): real {
    cfg.dca.baseSize * Pow(cfg.dca.multiplier, count)
  }

  function DcaSize(cfg: Config, count: nat): real {
    RoundTo(UnroundedDcaSize(cfg, count), EIGHT_DECIMALS)
  }

  lemma {:induction false} DcaTerms(cfg: Config, count: nat)
    requires cfg.Valid()
    ensures StepPct(cfg, count) > 0.0
    ensures UnroundedDcaSize(cfg, count) > 0.0
    ensures DcaSize(cfg, count) >= 0.0
  {
    PowPositive(cfg.dca.stepScale, count);
    PowPositive(cfg.dca.multiplier, count);
  }

  function DcaLevel(cfg: Config, d: Deal): real
    requires |d.orders| > 0
  {
    var step := StepPct(cfg, DcaCount(d.orders));
    var last := d.orders[|d.orders| - 1].price;
    if d.side.Long? then Below(last, step) else Below(last, -step)
  }

  function CheckDca(cfg: Config, d: Deal, price: real): Option<Order>
    requires |d.orders| > 0
  {
    if !cfg.dca.enabled || !d.overrides.dca || cfg.dca.maxOrders <= 1 then None
    else if DcaCount(d.orders) >= cfg.dca.maxOrders - 1 then None
    else
      var triggered := if d.side.Long? then price <= DcaLevel(cfg, d) else price >= DcaLevel(cfg, d);
      if triggered then
        Some(Order(DcaCount(d.orders) + 2, price, DcaSize(cfg, DcaCount(d.orders)), DcaOrder))
      else None
  }

  /** What a tick does to a deal: it stays open (perhaps averaged down) or closes at `fill`. */
  datatype Verdict =
    | Stays(deal: Deal, averaged: bool)
    | Closes(deal: Deal, fill: real, reason: string)

  /** The deal as it goes out: the exit's trigger is stamped on it. */
  function Leaving(d: Deal, e: Exit): Deal
    requires e.Leave?
  {
    d.(closing := d.closing.(trigger := Some(e.trigger)))
  }

  /** The first check that fires wins; `d1` is the deal after the stop check moved its peak. */
  function Decide(d: Deal, d1: Deal, tp: Exit, sl: Exit, dca: Option<Order>): Verdict {
    if tp.Leave? then Closes(Leaving(d, tp), tp.fill, tp.reason)
    else if sl.Leave? then Closes(Leaving(d1, sl), sl.fill, sl.reason)
    else if dca.Some? then Stays(d1.(orders := d1.orders + [dca.value]), true)
    else Stays(d1, false)
  }

  /** The tick checks of one deal in the order take-profit, stop, DCA; the trackers already hold this tick. */
  function CheckDeal(cfg: Config, d: Deal, tick: Tick, mayAverage: bool): Verdict
    requires Computes(cfg, d)
  {
    var d1 := AfterStopCheck(cfg, d, tick.price);
    Decide(d, d1, CheckTp(cfg, d, tick.price, tick.ind), CheckSl(cfg, d, tick.price),
           if mayAverage then CheckDca(cfg, d1, tick.price) else None)
  }

  function TickDeal(cfg: Config, d: Deal, tick: Tick): Verdict
    requires Computes(cfg, d) && tick.price > 0.0
  {
    CheckDeal(cfg, FoldTrackers(d, tick.price), tick, true)
  }

  /** A check of one deal either decides or raises, leaving the deal as far as it had come. */
  datatype Attempt = Decided(verdict: Verdict) | Raised(deal: Deal)

  /** The same checks on a deal whose percentages may be anything: the first division by zero ends them. */
  function TryDeal(cfg: Config, d: Deal, tick: Tick, mayAverage: bool): Attempt
    requires Orderly(d)
  {
    if TpRaises(cfg, d) then Raised(d)
    else
      var tp := CheckTp(cfg, d, tick.price, tick.ind);
      if tp.Leave? then Decided(Closes(Leaving(d, tp), tp.fill, tp.reason))
      else if SlRaises(cfg, d) then Raised(AfterStopCheck(cfg, d, tick.price))
      else Decided(CheckDeal(cfg, d, tick, mayAverage))
  }

  /** The deal an attempt leaves. */
  function DealAfter(a: Attempt): Deal {
    match a
    case Decided(v) => v.deal
    case Raised(d) => d
  }

  /** The fields a closed deal carries (PaperState.close_deal). */
  function ClosedDeal(d: Deal, price: real, reason: string): (c: Deal)
    requires d.orders != [] ==> TotalSize(d.orders) != 0.0
    requires d.leverage > 0
    ensures c.orders == d.orders && c.id == d.id && !c.closing.isOpen
  {
    var pnl := CalculatePnl(d.side, d.leverage, d.orders, price);
    d.(closing := Closing(false, Some(price), Some(reason), d.closing.trigger, pnl.0, pnl.1))
  }

  /** A deal as it is opened: one base order, both trackers at its price, no peak yet. */
  function OpenedDeal(cfg: Config, id: DealId, side: Side, price: real): Deal {
    Deal(id, side, cfg.leverage, [Order(1, price, cfg.dca.baseSize, BaseOrder)], Trackers(0.0, price, price),
         Overrides(None, None, true), Closing(true, None, None, None, 0.0, 0.0))
  }

  lemma {:induction false} OpenedIsSound(cfg: Config, id: DealId, side: Side, price: real)
    requires cfg.Valid() && price > 0.0
    ensures SoundDeal(cfg, OpenedDeal(cfg, id, side, price))
    ensures Avg(OpenedDeal(cfg, id, side, price)) == price
  {
    var o := Order(1, price, cfg.dca.baseSize, BaseOrder);
    SingleOrder(o);
    SoundAvg([o]);
    DivLe(price * cfg.dca.baseSize, price, cfg.dca.baseSize);
  }

  lemma {:induction false} DcaOrderIsSound(cfg: Config, d: Deal, price: real)
    requires cfg.Valid() && Orderly(d) && price > 0.0 && CheckDca(cfg, d, price).Some?
    ensures SoundOrders(d.orders + [CheckDca(cfg, d, price).value])
    ensures var o := CheckDca(cfg, d, price).value;
            o.price == price && o.kind.DcaOrder? && o.size >= 0.0
  {
    DcaTerms(cfg, DcaCount(d.orders));
  }

  lemma {:induction false} AfterStopOrderly(cfg: Config, d: Deal, price: real)
    requires Orderly(d) && price > 0.0
    ensures Orderly(AfterStopCheck(cfg, d, price))
    ensures TpOf(cfg, AfterStopCheck(cfg, d, price)) == TpOf(cfg, d)
    ensures StopOf(cfg, AfterStopCheck(cfg, d, price)) == StopOf(cfg, d)
  {
  }

  lemma {:induction false} TryDealOrderly(cfg: Config, d: Deal, tick: Tick, mayAverage: bool)
    requires cfg.Valid() && Orderly(d) && tick.price > 0.0
    ensures Orderly(DealAfter(TryDeal(cfg, d, tick, mayAverage)))
    ensures DealAfter(TryDeal(cfg, d, tick, mayAverage)).id == d.id
  {
    AfterStopOrderly(cfg, d, tick.price);
    var d1 := AfterStopCheck(cfg, d, tick.price);
    if CheckDca(cfg, d1, tick.price).Some? {
      DcaOrderIsSound(cfg, d1, tick.price);
    }
  }

  /** Which percentage makes a check divide by zero. */
  lemma {:induction false} RaisesAtHundred(pct: real, side: Side)
    ensures TpDivisor(pct, side) == 0.0 <==> pct == if side.Long? then 100.0 else -100.0
    ensures SlDivisor(pct, side) == 0.0 <==> pct == if side.Long? then -100.0 else 100.0
  {
  }

  /** A tick at a positive price leaves a sound deal sound, open or closed. */
  lemma {:induction false} CheckDealSound(cfg: Config, d: Deal, tick: Tick, mayAverage: bool)
    requires cfg.Valid() && SoundDeal(cfg, d) && tick.price > 0.0
    ensures SoundDeal(cfg, CheckDeal(cfg, d, tick, mayAverage).deal)
  {
    AfterStopSound(cfg, d, tick.price);
    var d1 := AfterStopCheck(cfg, d, tick.price);
    var dca := if mayAverage then CheckDca(cfg, d1, tick.price) else None;
    if dca.Some? {
      DcaOrderIsSound(cfg, d1, tick.price);
    }
    DecideSound(cfg, d, d1, CheckTp(cfg, d, tick.price, tick.ind), CheckSl(cfg, d, tick.price), dca);
  }

  lemma {:induction false} DecideSound(cfg: Config, d: Deal, d1: Deal, tp: Exit, sl: Exit, dca: Option<Order>)
    requires SoundDeal(cfg, d) && SoundDeal(cfg, d1)
    requires dca.Some? ==> SoundOrders(d1.orders + [dca.value])
    ensures SoundDeal(cfg, Decide(d, d1, tp, sl, dca).deal)
  {
  }

  lemma {:induction false} AfterStopSound(cfg: Config, d: Deal, price: real)
    requires SoundDeal(cfg, d) && price > 0.0
    ensures SoundDeal(cfg, AfterStopCheck(cfg, d, price))
  {
  }

  lemma {:induction false} TickSound(cfg: Config, d: Deal, tick: Tick)
    requires cfg.Valid() && SoundDeal(cfg, d) && tick.price > 0.0
    ensures SoundDeal(cfg, TickDeal(cfg, d, tick).deal)
  {
    CheckDealSound(cfg, FoldTrackers(d, tick.price), tick, true);
  }

  datatype Run = Run(verdict: Verdict, used: nat)

  /** A run of ticks on one deal, up to and including the tick that closes it: the verdict and the ticks used. */
  function RunDeal(cfg: Config, d: Deal, ticks: seq<Tick>): Run
    requires cfg.Valid() && SoundDeal(cfg, d)
    requires forall i :: 0 <= i < |ticks| ==> ticks[i].price > 0.0
    decreases |ticks|
  {
    if ticks == [] then Run(Stays(d, false), 0)
    else
      var v := TickDeal(cfg, d, ticks[0]);
      TickSound(cfg, d, ticks[0]);
      if v.Closes? then Run(v, 1)
      else
        var rest := RunDeal(cfg, v.deal, ticks[1..]);
        rest.(used := rest.used + 1)
  }
}
