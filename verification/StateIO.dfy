/**
 Saving and restoring deals (paper/state_io.py, `deal_to_dict` and `dict_to_deal`).

 A state file is a value tree. Object keys are an enumeration of the names the two
 functions use. `None` as the outcome of a conversion stands for a raised exception.
 */
module StateIO {
  import opened Options
  import opened InversePerpMath
  import opened Deals
  import opened TickRules

  datatype Key =
    | KId | KSide | KLeverage | KOrders | KIsOpen | KClosePrice | KCloseReason | KPnlBtc | KPnlPct
    | KPeak | KTpOverride | KSlOverride | KDcaEnabled | KWickHigh | KWickLow | KExitTrigger
    | KOrderNumber | KPrice | KSize | KOrderType
    | KEnabled | KTargetPct | KType | KPct

  datatype Json =
    | JNull
    | JBool(b: bool)
    | JNum(x: real)
    | JStr(s: string)
    | JList(items: seq<Json>)
    | JObj(fields: map<Key, Json>)

  /** dict.get with a default for an absent key; a stored null is not absent. */
  function Get(fields: map<Key, Json>, k: Key, default: Json): Json {
    if k in fields then fields[k] else default
  }

  /** float(): numbers and booleans convert, the rest raises. */
  function AsReal(j: Json): Option<real> {
    match j
    case JNum(x) => Some(x)
    case JBool(b) => Some(if b then 1.0 else 0.0)
    case _ => None
  }

  /** int() of a number that is not negative: the fraction is cut off. */
  function AsNat(j: Json): Option<nat> {
    match AsReal(j)
    case Some(x) => if x >= 0.0 then Some(x.Floor) else None
    case None => None
  }

  /** bool(): Python truth of a value. */
  function Truthy(j: Json): bool {
    match j
    case JNull => false
    case JBool(b) => b
    case JNum(x) => x != 0.0
    case JStr(s) => s != ""
    case JList(items) => items != []
    case JObj(fields) => fields != map[]
  }

  const LONG := "long"
  const SHORT := "short"
  const BASE := "base"
  const DCA := "dca"

  function SideToJson(side: Side): Json { JStr(if side.Long? then LONG else SHORT) }

  function SideOf(j: Json): Option<Side> {
    if j == JStr(LONG) then Some(Long) else if j == JStr(SHORT) then Some(Short) else None
  }

  function OptReal(v: Option<real>): Json {
    match v case Some(x) => JNum(x) case None => JNull
  }

  function RealOf(j: Json): Option<Option<real>> {
    match j case JNull => Some(None) case JNum(x) => Some(Some(x)) case _ => None
  }

  function OptStr(v: Option<string>): Json {
    match v case Some(s) => JStr(s) case None => JNull
  }

  function StrOf(j: Json): Option<Option<string>> {
    match j case JNull => Some(None) case JStr(s) => Some(Some(s)) case _ => None
  }

  /** An optional entry of an override dictionary: absent when there is no value. */
  function Entry(k: Key, v: Option<Json>): map<Key, Json> {
    match v case Some(j) => map[k := j] case None => map[]
  }

  function BoolEntry(v: Option<bool>): Option<Json> {
    match v case Some(b) => Some(JBool(b)) case None => None
  }

  function RealEntry(v: Option<real>): Option<Json> {
    match v case Some(x) => Some(JNum(x)) case None => None
  }

  function StopToJson(kind: StopType): Json {
    JStr(match kind case NoStop => "none" case Fixed => "fixed" case Trailing => "trailing")
  }

  function StopEntry(v: Option<StopType>): Option<Json> {
    match v case Some(kind) => Some(StopToJson(kind)) case None => None
  }

  function StopTypeOf(j: Json): Option<StopType> {
    if j == JStr("none") then Some(NoStop)
    else if j == JStr("fixed") then Some(Fixed)
    else if j == JStr("trailing") then Some(Trailing)
    else None
  }

  function TpOverrideToJson(v: Option<TpOverride>): Json {
    match v
    case None => JNull
    case Some(ov) => JObj(Entry(KEnabled, BoolEntry(ov.enabled)) + Entry(KTargetPct, RealEntry(ov.targetPct)))
  }

  function SlOverrideToJson(v: Option<SlOverride>): Json {
    match v
    case None => JNull
    case Some(ov) =>
      JObj(Entry(KEnabled, BoolEntry(ov.enabled)) + Entry(KType, StopEntry(ov.kind)) + Entry(KPct, RealEntry(ov.pct)))
  }

  function BoolAt(fields: map<Key, Json>, k: Key): Option<Option<bool>> {
    if k !in fields then Some(None)
    else match fields[k] case JBool(b) => Some(Some(b)) case _ => None
  }

  function RealAt(fields: map<Key, Json>, k: Key): Option<Option<real>> {
    if k !in fields then Some(None)
    else match fields[k] case JNum(x) => Some(Some(x)) case _ => None
  }

  function StopAtKey(fields: map<Key, Json>, k: Key): Option<Option<StopType>> {
    if k !in fields then Some(None)
    else match StopTypeOf(fields[k]) case Some(kind) => Some(Some(kind)) case None => None
  }

  function TpOverrideOf(j: Json): Option<Option<TpOverride>> {
    match j
    case JNull => Some(None)
    case JObj(fields) =>
      var enabled :- BoolAt(fields, KEnabled);
      var pct :- RealAt(fields, KTargetPct);
      Some(Some(TpOverride(enabled, pct)))
    case _ => None
  }

  function SlOverrideOf(j: Json): Option<Option<SlOverride>> {
    match j
    case JNull => Some(None)
    case JObj(fields) =>
      var enabled :- BoolAt(fields, KEnabled);
      var kind :- StopAtKey(fields, KType);
      var pct :- RealAt(fields, KPct);
      Some(Some(SlOverride(enabled, kind, pct)))
    case _ => None
  }

  function OrderToJson(o: Order): Json {
    JObj(map[KOrderNumber := JNum(o.number as real), KPrice := JNum(o.price), KSize := JNum(o.size),
             KOrderType := JStr(if o.kind.DcaOrder? then DCA else BASE)])
  }

  function OrderOf(j: Json): Option<Order> {
    match j
    case JObj(f) =>
      var n :- AsNat(Get(f, KOrderNumber, JNum(1.0)));
      var price :- AsReal(Get(f, KPrice, JNum(0.0)));
      var size :- AsReal(Get(f, KSize, JNum(0.0)));
      Some(Order(n, price, size, if Get(f, KOrderType, JStr(BASE)) == JStr(DCA) then DcaOrder else BaseOrder))
    case _ => None
  }

  function OrdersToJson(orders: seq<Order>): (items: seq<Json>)
    ensures |items| == |orders|
  {
    if orders == [] then [] else OrdersToJson(orders[..|orders| - 1]) + [OrderToJson(orders[|orders| - 1])]
  }

  function OrdersOf(items: seq<Json>): Option<seq<Order>> {
    if items == [] then Some([])
    else
      var front :- OrdersOf(items[..|items| - 1]);
      var last :- OrderOf(items[|items| - 1]);
      Some(front + [last])
  }

  function TriggerToJson(v: Option<string>): Json {
    match v case Some(s) => JObj(map[KType := JStr(s)]) case None => JNull
  }

  /** Anything but a trigger dictionary is dropped. */
  function TriggerOf(j: Json): Option<string> {
    match j
    case JObj(f) => (match Get(f, KType, JNull) case JStr(s) => Some(s) case _ => None)
    case _ => None
  }

  /** The profit of an open deal can be computed, or need not be. */
  predicate Markable(d: Deal, price: real) {
    d.closing.isOpen && price != 0.0 ==> d.leverage > 0 && (d.orders != [] ==> TotalSize(d.orders) != 0.0)
  }

  /** The profit figures a saved deal carries: stamped for a closed deal, marked to `price` for an open one. */
  function SavedPnl(d: Deal, price: real): (real, real)
    requires Markable(d, price)
  {
    var raw := if !d.closing.isOpen then (d.closing.pnlBtc, d.closing.pnlPct)
               else if price != 0.0 then CalculatePnl(d.side, d.leverage, d.orders, price)
               else (0.0, 0.0);
    (RoundTo(raw.0, EIGHT_DECIMALS), RoundTo(raw.1, 10000.0))
  }

  function DealToDict(d: Deal, price: real): map<Key, Json>
    requires Markable(d, price)
  {
    map[
      KId := JStr(d.id),
      KSide := SideToJson(d.side),
      KLeverage := JNum(d.leverage as real),
      KPnlBtc := JNum(SavedPnl(d, price).0),
      KPnlPct := JNum(SavedPnl(d, price).1),
      KClosePrice := OptReal(d.closing.price),
      KCloseReason := OptStr(d.closing.reason),
      KIsOpen := JBool(d.closing.isOpen),
      KPeak := JNum(d.trackers.peak),
      KTpOverride := TpOverrideToJson(d.overrides.tp),
      KSlOverride := SlOverrideToJson(d.overrides.sl),
      KDcaEnabled := JBool(d.overrides.dca),
      KWickHigh := JNum(d.trackers.high),
      KWickLow := JNum(d.trackers.low),
      KExitTrigger := TriggerToJson(d.closing.trigger),
      KOrders := JList(OrdersToJson(d.orders))]
  }

  function ItemsOf(j: Json): Option<seq<Order>> {
    match j case JList(items) => OrdersOf(items) case _ => None
  }

  /** State files written before the trackers existed fall back to the average entry. */
  function TrackersOf(f: map<Key, Json>, orders: seq<Order>): Option<Trackers> {
    var fallback := JNum(if TotalSize(orders) != 0.0 then AvgEntry(orders) else 0.0);
    var peak :- AsReal(Get(f, KPeak, JNum(0.0)));
    var high :- AsReal(Get(f, KWickHigh, fallback));
    var low :- AsReal(Get(f, KWickLow, fallback));
    Some(Trackers(peak, high, low))
  }

  function OverridesOf(f: map<Key, Json>): Option<Overrides> {
    var tp :- TpOverrideOf(Get(f, KTpOverride, JNull));
    var sl :- SlOverrideOf(Get(f, KSlOverride, JNull));
    Some(Overrides(tp, sl, Truthy(Get(f, KDcaEnabled, JBool(true)))))
  }

  function ClosingOf(f: map<Key, Json>): Option<Closing> {
    var price :- RealOf(Get(f, KClosePrice, JNull));
    var reason :- StrOf(Get(f, KCloseReason, JNull));
    var btc :- AsReal(Get(f, KPnlBtc, JNum(0.0)));
    var pct :- AsReal(Get(f, KPnlPct, JNum(0.0)));
    var isOpen := Truthy(Get(f, KIsOpen, JBool(true)));
    Some(Closing(isOpen, price, reason, TriggerOf(Get(f, KExitTrigger, JNull)), btc, pct))
  }

  function DictToDeal(f: map<Key, Json>): Option<Deal> {
    if KId !in f || !f[KId].JStr? then None
    else
      var side :- SideOf(Get(f, KSide, JStr(LONG)));
      var leverage :- AsNat(Get(f, KLeverage, JNum(1.0)));
      var orders :- ItemsOf(Get(f, KOrders, JList([])));
      var trackers :- TrackersOf(f, orders);
      var overrides :- OverridesOf(f);
      var closing :- ClosingOf(f);
      Some(Deal(f[KId].s, side, leverage, orders, trackers, overrides, closing))
  }

  // ---- Round trip ----------------------------------------------------------------------

  lemma {:induction false} OrderRoundTrip(o: Order)
    ensures OrderOf(OrderToJson(o)) == Some(o)
  {
    assert (o.number as real).Floor == o.number;
    assert DCA != BASE by { assert |DCA| == 3 && |BASE| == 4; }
  }

  lemma {:induction false} OrdersOfSnoc(items: seq<Json>, j: Json, front: seq<Order>, o: Order)
    requires OrdersOf(items) == Some(front) && OrderOf(j) == Some(o)
    ensures OrdersOf(items + [j]) == Some(front + [o])
  {
    assert (items + [j])[..|items|] == items;
  }

  lemma {:induction false} OrdersRoundTrip(orders: seq<Order>)
    ensures OrdersOf(OrdersToJson(orders)) == Some(orders)
  {
    if orders != [] {
      var front, last := orders[..|orders| - 1], orders[|orders| - 1];
      OrdersRoundTrip(front);
      OrderRoundTrip(last);
      OrdersOfSnoc(OrdersToJson(front), OrderToJson(last), front, last);
      assert front + [last] == orders;
    }
  }

  lemma {:induction false} TpOverrideRoundTrip(v: Option<TpOverride>)
    ensures TpOverrideOf(TpOverrideToJson(v)) == Some(v)
  {
  }

  lemma {:induction false} StopTypeRoundTrip(kind: StopType)
    ensures StopTypeOf(StopToJson(kind)) == Some(kind)
  {
    assert |"none"| == 4 && |"fixed"| == 5 && |"trailing"| == 8;
  }

  lemma {:induction false} SlOverrideRoundTrip(v: Option<SlOverride>)
    ensures SlOverrideOf(SlOverrideToJson(v)) == Some(v)
  {
    if v.Some? && v.value.kind.Some? {
      StopTypeRoundTrip(v.value.kind.value);
    }
  }

  ghost predicate CarriesOverrides(f: map<Key, Json>, o: Overrides) {
    && KTpOverride in f && f[KTpOverride] == TpOverrideToJson(o.tp)
    && KSlOverride in f && f[KSlOverride] == SlOverrideToJson(o.sl)
    && KDcaEnabled in f && f[KDcaEnabled] == JBool(o.dca)
  }

  lemma {:induction false} OverridesRoundTrip(f: map<Key, Json>, o: Overrides)
    requires CarriesOverrides(f, o)
    ensures OverridesOf(f) == Some(o)
  {
    TpOverrideRoundTrip(o.tp);
    SlOverrideRoundTrip(o.sl);
  }

  ghost predicate CarriesClosing(f: map<Key, Json>, c: Closing) {
    && KClosePrice in f && f[KClosePrice] == OptReal(c.price)
    && KCloseReason in f && f[KCloseReason] == OptStr(c.reason)
    && KIsOpen in f && f[KIsOpen] == JBool(c.isOpen)
    && KExitTrigger in f && f[KExitTrigger] == TriggerToJson(c.trigger)
    && KPnlBtc in f && f[KPnlBtc] == JNum(c.pnlBtc)
    && KPnlPct in f && f[KPnlPct] == JNum(c.pnlPct)
  }

  lemma {:induction false} ClosingRoundTrip(f: map<Key, Json>, c: Closing)
    requires CarriesClosing(f, c)
    ensures ClosingOf(f) == Some(c)
  {
  }

  ghost predicate CarriesTrackers(f: map<Key, Json>, k: Trackers) {
    && KPeak in f && f[KPeak] == JNum(k.peak)
    && KWickHigh in f && f[KWickHigh] == JNum(k.high)
    && KWickLow in f && f[KWickLow] == JNum(k.low)
  }

  lemma {:induction false} TrackersRoundTrip(f: map<Key, Json>, k: Trackers, orders: seq<Order>)
    requires CarriesTrackers(f, k)
    ensures TrackersOf(f, orders) == Some(k)
  {
  }

  ghost predicate CarriesHead(f: map<Key, Json>, d: Deal) {
    && KId in f && f[KId] == JStr(d.id)
    && KSide in f && f[KSide] == SideToJson(d.side)
    && KLeverage in f && f[KLeverage] == JNum(d.leverage as real)
    && KOrders in f && f[KOrders] == JList(OrdersToJson(d.orders))
  }

  lemma {:induction false} HeadRoundTrip(f: map<Key, Json>, d: Deal)
    requires CarriesHead(f, d)
    ensures SideOf(Get(f, KSide, JStr(LONG))) == Some(d.side)
    ensures AsNat(Get(f, KLeverage, JNum(1.0))) == Some(d.leverage)
    ensures ItemsOf(Get(f, KOrders, JList([]))) == Some(d.orders)
  {
    OrdersRoundTrip(d.orders);
    SideRoundTrip(d.side);
    assert (d.leverage as real).Floor == d.leverage;
  }

  lemma {:induction false} SideRoundTrip(side: Side)
    ensures SideOf(SideToJson(side)) == Some(side)
  {
    assert |LONG| == 4 && |SHORT| == 5;
  }

  /** What the dictionary carries is what is read from it. */
  lemma {:induction false} CarriedIsRead(f: map<Key, Json>, d: Deal)
    requires CarriesHead(f, d) && CarriesTrackers(f, d.trackers)
    requires CarriesOverrides(f, d.overrides) && CarriesClosing(f, d.closing)
    ensures DictToDeal(f) == Some(d)
  {
    HeadRoundTrip(f, d);
    TrackersRoundTrip(f, d.trackers, d.orders);
    OverridesRoundTrip(f, d.overrides);
    ClosingRoundTrip(f, d.closing);
  }

  /** A deal as its saved form describes it: the same but for its profit figures. */
  function AsSaved(d: Deal, price: real): Deal
    requires Markable(d, price)
  {
    var pnl := SavedPnl(d, price);
    d.(closing := d.closing.(pnlBtc := pnl.0, pnlPct := pnl.1))
  }

  lemma {:induction false} DictCarriesTrading(d: Deal, price: real)
    requires Markable(d, price)
    ensures var f := DealToDict(d, price);
            CarriesHead(f, d) && CarriesTrackers(f, d.trackers) && CarriesOverrides(f, d.overrides)
  {
  }

  lemma {:induction false} DictCarriesClosing(d: Deal, price: real)
    requires Markable(d, price)
    ensures CarriesClosing(DealToDict(d, price), AsSaved(d, price).closing)
  {
  }

  /** A deal read back is the deal that was saved, but for its profit figures. */
  lemma {:induction false} DealRoundTrip(d: Deal, price: real)
    requires Markable(d, price)
    ensures DictToDeal(DealToDict(d, price)) == Some(AsSaved(d, price))
  {
    DictCarriesTrading(d, price);
    DictCarriesClosing(d, price);
    CarriedIsRead(DealToDict(d, price), AsSaved(d, price));
  }

  /** A saved closed deal shows its booked profit to eight decimals and its percentage to four. */
  lemma {:induction false} SavedFigures(d: Deal, price: real)
    requires !d.closing.isOpen
    ensures var c := AsSaved(d, price).closing;
            && d.closing.pnlBtc - 0.000000005 <= c.pnlBtc <= d.closing.pnlBtc + 0.000000005
            && d.closing.pnlPct - 0.00005 <= c.pnlPct <= d.closing.pnlPct + 0.00005
            && (exists n: int :: c.pnlBtc == Parts(n, 100000000.0)) && (exists n: int :: c.pnlPct == Parts(n, 10000.0))
            && c.price == d.closing.price && c.reason == d.closing.reason && !c.isOpen
  {
    RoundedIsWhole(d.closing.pnlBtc, 100000000.0);
    RoundedIsWhole(d.closing.pnlPct, 10000.0);
  }

  function Parts(n: int, scale: real): real
    requires scale > 0.0
  {
    n as real / scale
  }

  lemma {:induction false} RoundedIsWhole(x: real, scale: real)
    requires scale > 0.0
    ensures exists n: int :: RoundTo(x, scale) == Parts(n, scale)
  {
    var f := (x * scale).Floor;
    assert RoundTo(x, scale) == Parts(f, scale) || RoundTo(x, scale) == Parts(f + 1, scale);
  }

  // ---- A restart does not change what happens next ---------------------------------------

  /** Equal in everything a tick reads. */
  predicate SameTrading(d: Deal, e: Deal) {
    d == e.(closing := e.closing.(pnlBtc := d.closing.pnlBtc, pnlPct := d.closing.pnlPct))
  }

  predicate SameOutcome(v: Verdict, w: Verdict) {
    && SameTrading(v.deal, w.deal)
    && (v.Closes? <==> w.Closes?)
    && (v.Closes? ==> v.fill == w.fill && v.reason == w.reason)
    && (v.Stays? ==> v.averaged == w.averaged)
  }

  lemma {:induction false} SameTick(cfg: Config, d: Deal, e: Deal, tick: Tick)
    requires SoundDeal(cfg, d) && SoundDeal(cfg, e) && SameTrading(d, e) && tick.price > 0.0
    ensures SameOutcome(TickDeal(cfg, d, tick), TickDeal(cfg, e, tick))
  {
    var d0, e0 := FoldTrackers(d, tick.price), FoldTrackers(e, tick.price);
    var d1, e1 := AfterStopCheck(cfg, d0, tick.price), AfterStopCheck(cfg, e0, tick.price);
    SameChecks(cfg, d0, e0, tick);
    SameDecision(d0, e0, d1, e1, CheckTp(cfg, d0, tick.price, tick.ind), CheckSl(cfg, d0, tick.price),
                 CheckDca(cfg, d1, tick.price));
  }

  lemma {:induction false} SameChecks(cfg: Config, d: Deal, e: Deal, tick: Tick)
    requires SoundDeal(cfg, d) && SoundDeal(cfg, e) && SameTrading(d, e)
    ensures CheckTp(cfg, d, tick.price, tick.ind) == CheckTp(cfg, e, tick.price, tick.ind)
    ensures CheckSl(cfg, d, tick.price) == CheckSl(cfg, e, tick.price)
    ensures SameTrading(AfterStopCheck(cfg, d, tick.price), AfterStopCheck(cfg, e, tick.price))
    ensures CheckDca(cfg, AfterStopCheck(cfg, d, tick.price), tick.price)
         == CheckDca(cfg, AfterStopCheck(cfg, e, tick.price), tick.price)
  {
  }

  lemma {:induction false} SameDecision(d: Deal, e: Deal, d1: Deal, e1: Deal, tp: Exit, sl: Exit, dca: Option<Order>)
    requires SameTrading(d, e) && SameTrading(d1, e1)
    ensures SameOutcome(Decide(d, d1, tp, sl, dca), Decide(e, e1, tp, sl, dca))
  {
  }

  lemma {:induction false} SameRun(cfg: Config, d: Deal, e: Deal, ticks: seq<Tick>)
    requires cfg.Valid() && SoundDeal(cfg, d) && SoundDeal(cfg, e) && SameTrading(d, e)
    requires forall i :: 0 <= i < |ticks| ==> ticks[i].price > 0.0
    ensures SameOutcome(RunDeal(cfg, d, ticks).verdict, RunDeal(cfg, e, ticks).verdict)
    ensures RunDeal(cfg, d, ticks).used == RunDeal(cfg, e, ticks).used
    decreases |ticks|
  {
    if ticks != [] {
      SameTick(cfg, d, e, ticks[0]);
      TickSound(cfg, d, ticks[0]);
      TickSound(cfg, e, ticks[0]);
      if TickDeal(cfg, d, ticks[0]).Stays? {
        SameRun(cfg, TickDeal(cfg, d, ticks[0]).deal, TickDeal(cfg, e, ticks[0]).deal, ticks[1..]);
      }
    }
  }

  lemma {:induction false} RunKeepsSound(cfg: Config, d: Deal, ticks: seq<Tick>)
    requires cfg.Valid() && SoundDeal(cfg, d)
    requires forall i :: 0 <= i < |ticks| ==> ticks[i].price > 0.0
    ensures SoundDeal(cfg, RunDeal(cfg, d, ticks).verdict.deal)
    decreases |ticks|
  {
    if ticks != [] {
      TickSound(cfg, d, ticks[0]);
      if TickDeal(cfg, d, ticks[0]).Stays? {
        RunKeepsSound(cfg, TickDeal(cfg, d, ticks[0]).deal, ticks[1..]);
      }
    }
  }

  /** A run split in two. */
  lemma {:induction false} RunSplits(cfg: Config, d: Deal, a: seq<Tick>, b: seq<Tick>)
    requires cfg.Valid() && SoundDeal(cfg, d)
    requires forall i :: 0 <= i < |a| ==> a[i].price > 0.0
    requires forall i :: 0 <= i < |b| ==> b[i].price > 0.0
    ensures SoundDeal(cfg, RunDeal(cfg, d, a).verdict.deal)
    ensures b != [] && RunDeal(cfg, d, a).verdict.Stays? ==>
              && RunDeal(cfg, d, a + b).verdict == RunDeal(cfg, RunDeal(cfg, d, a).verdict.deal, b).verdict
              && RunDeal(cfg, d, a + b).used == |a| + RunDeal(cfg, RunDeal(cfg, d, a).verdict.deal, b).used
    decreases |a|
  {
    RunKeepsSound(cfg, d, a);
    if a == [] {
      assert a + b == b;
    } else {
      TickSound(cfg, d, a[0]);
      assert (a + b)[0] == a[0] && (a + b)[1..] == a[1..] + b;
      if TickDeal(cfg, d, a[0]).Stays? {
        RunSplits(cfg, TickDeal(cfg, d, a[0]).deal, a[1..], b);
      }
    }
  }

  /** The open deal a restarted engine holds after the state of `d` was written at `price`. */
  function Restarted(d: Deal, price: real): (e: Deal)
    requires Markable(d, price)
    ensures DictToDeal(DealToDict(d, price)) == Some(e)
    ensures SameTrading(d, e)
  {
    DealRoundTrip(d, price);
    DictToDeal(DealToDict(d, price)).value
  }

  /** Two outcomes that agree book the same closed deal. */
  lemma {:induction false} SameBooking(cfg: Config, v: Verdict, w: Verdict)
    requires SameOutcome(v, w) && v.Closes? && SoundDeal(cfg, v.deal)
    ensures TotalSize(v.deal.orders) > 0.0
    ensures ClosedDeal(v.deal, v.fill, v.reason) == ClosedDeal(w.deal, w.fill, w.reason)
  {
    SoundSums(v.deal.orders);
  }

  /**
   Saving and reloading after any prefix of a run leaves the rest of the run unchanged: same
   closing tick, fill and reason, same orders and trackers, and the same closed deal booked.
   */
  lemma {:induction false} RestartIsTransparent(cfg: Config, d: Deal, before: seq<Tick>, after: seq<Tick>, price: real)
    requires cfg.Valid() && SoundDeal(cfg, d) && after != []
    requires forall i :: 0 <= i < |before| ==> before[i].price > 0.0
    requires forall i :: 0 <= i < |after| ==> after[i].price > 0.0
    requires RunDeal(cfg, d, before).verdict.Stays?
    ensures var mid := RunDeal(cfg, d, before).verdict.deal;
            && SoundDeal(cfg, mid) && TotalSize(mid.orders) > 0.0
            && SoundDeal(cfg, Restarted(mid, price))
            && SameFuture(RunDeal(cfg, d, before + after), RunDeal(cfg, Restarted(mid, price), after), |before|)
            && SameBooks(RunDeal(cfg, d, before + after).verdict, RunDeal(cfg, Restarted(mid, price), after).verdict)
  {
    RunSplits(cfg, d, before, after);
    RestartHere(cfg, RunDeal(cfg, d, before).verdict.deal, after, price);
    var v := RunDeal(cfg, d, before + after).verdict;
    RunKeepsSound(cfg, d, before + after);
    if v.Closes? {
      SameBooking(cfg, v, RunDeal(cfg, Restarted(RunDeal(cfg, d, before).verdict.deal, price), after).verdict);
    }
  }

  /** What goes into the closed history is the same. */
  predicate SameBooks(v: Verdict, w: Verdict) {
    v.Closes? ==>
      && w.Closes? && v.deal.leverage > 0 && w.deal.leverage > 0
      && TotalSize(v.deal.orders) > 0.0 && TotalSize(w.deal.orders) > 0.0
      && ClosedDeal(v.deal, v.fill, v.reason) == ClosedDeal(w.deal, w.fill, w.reason)
  }

  /** The same outcome, reached `delay` ticks later when counted from the start. */
  predicate SameFuture(whole: Run, rest: Run, delay: nat) {
    whole.used == delay + rest.used && SameOutcome(whole.verdict, rest.verdict)
  }

  lemma {:induction false} RestartHere(cfg: Config, d: Deal, ticks: seq<Tick>, price: real)
    requires cfg.Valid() && SoundDeal(cfg, d)
    requires forall i :: 0 <= i < |ticks| ==> ticks[i].price > 0.0
    ensures TotalSize(d.orders) > 0.0
    ensures SoundDeal(cfg, Restarted(d, price))
    ensures SameFuture(RunDeal(cfg, d, ticks), RunDeal(cfg, Restarted(d, price), ticks), 0)
  {
    SoundSums(d.orders);
    var e := Restarted(d, price);
    SameSound(cfg, d, e);
    SameRun(cfg, d, e, ticks);
  }

  lemma {:induction false} SameSound(cfg: Config, d: Deal, e: Deal)
    requires SameTrading(d, e) && SoundDeal(cfg, d)
    ensures SoundDeal(cfg, e)
  {
  }
}
