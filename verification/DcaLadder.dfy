/**
 The averaging-down ladder of a long deal: its shape over every run of ticks, what each
 rung does to the average, and its size against the figure LiveEngine logs at start-up
 (core/trading_engine.py `_check_dca`, live/live_engine.py `__init__`).
 */
module DcaLadder {
  import opened Options
  import opened InversePerpMath
  import opened Deals
  import opened TickRules

  /** The highest price at which the k-th DCA of a long may fill, given the fill before it. */
  function RungLevel(cfg: Config, previous: real, k: nat): real
    requires k > 0
  {
    Below(previous, StepPct(cfg, k - 1))
  }

  predicate Rung(cfg: Config, orders: seq<Order>, k: nat)
    requires 0 < k < |orders|
  {
    && orders[k].number == k + 1
    && orders[k].kind.DcaOrder?
    && orders[k].size == DcaSize(cfg, k - 1)
    && 0.0 < orders[k].price <= RungLevel(cfg, orders[k - 1].price, k)
  }

  ghost predicate Ladder(cfg: Config, orders: seq<Order>) {
    && 1 <= |orders|
    && (|orders| <= cfg.dca.maxOrders || |orders| == 1)
    && orders[0] == Order(1, orders[0].price, cfg.dca.baseSize, BaseOrder)
    && orders[0].price > 0.0
    && forall k :: 0 < k < |orders| ==> Rung(cfg, orders, k)
  }

  lemma {:induction false} LadderDcaCount(cfg: Config, orders: seq<Order>)
    requires Ladder(cfg, orders)
    ensures DcaCount(orders) == |orders| - 1
  {
    var front := orders[..|orders| - 1];
    if |orders| == 1 {
      assert DcaCount(front) == 0;
    } else {
      assert forall k :: 0 < k < |front| ==> Rung(cfg, orders, k) ==> Rung(cfg, front, k);
      LadderDcaCount(cfg, front);
      assert Rung(cfg, orders, |orders| - 1);
    }
  }

  lemma {:induction false} RungBelow(cfg: Config, orders: seq<Order>, k: nat)
    requires cfg.Valid() && 0 < k < |orders| && Rung(cfg, orders, k) && orders[k - 1].price > 0.0
    ensures orders[k].price < orders[k - 1].price
  {
    DcaTerms(cfg, k - 1);
    BelowIsLower(orders[k - 1].price, StepPct(cfg, k - 1));
  }

  lemma {:induction false} BelowIsLower(price: real, pct: real)
    requires price > 0.0 && pct > 0.0
    ensures Below(price, pct) < price
  {
    ProductPositive(price, pct / 100.0);
    assert Below(price, pct) == price - price * (pct / 100.0);
  }

  lemma {:induction false} ProductPositive(a: real, b: real)
    requires a > 0.0 && b > 0.0
    ensures a * b > 0.0
  {
  }

  /** Later fills of a ladder lie strictly below earlier ones. */
  lemma {:induction false} LadderDescends(cfg: Config, orders: seq<Order>, i: nat, k: nat)
    requires cfg.Valid() && Ladder(cfg, orders) && i <= k < |orders|
    ensures orders[k].price <= orders[i].price
    ensures i < k ==> orders[k].price < orders[i].price
    decreases k
  {
    if i < k {
      assert Rung(cfg, orders, k);
      if k - 1 > 0 { assert Rung(cfg, orders, k - 1); }
      RungBelow(cfg, orders, k);
      LadderDescends(cfg, orders, i, k - 1);
    }
  }

  lemma {:induction false} LadderIsSound(cfg: Config, orders: seq<Order>)
    requires cfg.Valid() && Ladder(cfg, orders)
    ensures SoundOrders(orders)
  {
    forall i | 0 <= i < |orders|
      ensures orders[i].price > 0.0 && orders[i].size >= 0.0
    {
      if i > 0 {
        assert Rung(cfg, orders, i);
        DcaTerms(cfg, i - 1);
      }
    }
  }

  lemma {:induction false} LadderExtends(cfg: Config, d: Deal, price: real)
    requires cfg.Valid() && d.side.Long? && Ladder(cfg, d.orders) && price > 0.0
    requires CheckDca(cfg, d, price).Some?
    ensures Ladder(cfg, d.orders + [CheckDca(cfg, d, price).value])
  {
    LadderDcaCount(cfg, d.orders);
    var all, n := d.orders + [CheckDca(cfg, d, price).value], |d.orders|;
    assert all[n - 1] == d.orders[n - 1];
    assert Rung(cfg, all, n);
    forall k | 0 < k < |all|
      ensures Rung(cfg, all, k)
    {
      if k < n {
        assert Rung(cfg, d.orders, k);
        assert all[k] == d.orders[k] && all[k - 1] == d.orders[k - 1];
      }
    }
  }

  lemma {:induction false} TickKeepsLadder(cfg: Config, d: Deal, tick: Tick)
    requires cfg.Valid() && SoundDeal(cfg, d) && d.side.Long? && Ladder(cfg, d.orders) && tick.price > 0.0
    ensures var v := TickDeal(cfg, d, tick);
            && Ladder(cfg, v.deal.orders)
            && v.deal.side == d.side
            && (v.deal.orders == d.orders
                || (v.deal.orders == d.orders + [v.deal.orders[|d.orders|]]
                    && v.deal.orders[|d.orders|].price == tick.price))
  {
    var d0 := FoldTrackers(d, tick.price);
    var d1 := AfterStopCheck(cfg, d0, tick.price);
    if CheckDca(cfg, d1, tick.price).Some? {
      LadderExtends(cfg, d1, tick.price);
    }
  }

  /** Every long deal reached by any run of ticks from its opening holds a ladder that only ever grew. */
  lemma {:induction false} LadderOnEveryRun(cfg: Config, d: Deal, ticks: seq<Tick>)
    requires cfg.Valid() && SoundDeal(cfg, d) && d.side.Long? && Ladder(cfg, d.orders)
    requires forall i :: 0 <= i < |ticks| ==> ticks[i].price > 0.0
    ensures var final := RunDeal(cfg, d, ticks).verdict.deal;
            && Ladder(cfg, final.orders)
            && d.orders <= final.orders
            && |final.orders| <= (if cfg.dca.maxOrders >= 1 then cfg.dca.maxOrders else 1)
    decreases |ticks|
  {
    if ticks != [] {
      TickKeepsLadder(cfg, d, ticks[0]);
      var v := TickDeal(cfg, d, ticks[0]);
      TickSound(cfg, d, ticks[0]);
      if v.Stays? {
        LadderOnEveryRun(cfg, v.deal, ticks[1..]);
      }
    }
  }

  lemma {:induction false} OpenedLadder(cfg: Config, id: DealId, price: real)
    requires cfg.Valid() && price > 0.0
    ensures Ladder(cfg, OpenedDeal(cfg, id, Long, price).orders)
  {
  }

  // ---- What a rung does to the average -------------------------------------------------

  lemma {:induction false} ValueAboveFloor(orders: seq<Order>, floor: real)
    requires forall i :: 0 <= i < |orders| ==> orders[i].price >= floor && orders[i].size >= 0.0
    ensures TotalValue(orders) >= floor * TotalSize(orders)
  {
    if orders != [] {
      var front, last := orders[..|orders| - 1], orders[|orders| - 1];
      ValueAboveFloor(front, floor);
      assert (last.price - floor) * last.size >= 0.0;
      assert floor * (TotalSize(front) + last.size) == floor * TotalSize(front) + floor * last.size;
    }
  }

  lemma {:induction false} AvgAboveFloor(orders: seq<Order>, floor: real)
    requires SoundOrders(orders)
    requires forall i :: 0 <= i < |orders| ==> orders[i].price >= floor
    ensures TotalSize(orders) > 0.0
    ensures AvgEntry(orders) >= floor
  {
    SoundSums(orders);
    ValueAboveFloor(orders, floor);
    DivLe(TotalValue(orders), floor, TotalSize(orders));
  }

  /** `now` is at most `before`, and strictly less exactly when something was added. */
  predicate Lowered(now: real, before: real, added: real) {
    now <= before && (now < before <==> added > 0.0)
  }

  lemma {:induction false} WeightedMean(value: real, size: real, price: real, added: real, value': real, size': real)
    requires size > 0.0 && added >= 0.0 && price < Mean(value, size)
    requires value' == value + price * added && size' == size + added
    ensures Lowered(Mean(value', size'), Mean(value, size), added)
  {
    var m := Mean(value, size);
    assert value == m * size;
    assert m * (size + added) == m * size + m * added;
    ScaledGap(m, price, added);
    DivLe(value', m, size');
  }

  lemma {:induction false} ScaledGap(a: real, b: real, k: real)
    requires a > b && k >= 0.0
    ensures b * k <= a * k
    ensures b * k < a * k <==> k > 0.0
  {
    assert a * k - b * k == (a - b) * k;
  }

  /** Adding a fill below every earlier one. */
  lemma {:induction false} AverageDrops(orders: seq<Order>, o: Order, floor: real)
    requires SoundOrders(orders) && o.size >= 0.0 && 0.0 < o.price < floor
    requires forall i :: 0 <= i < |orders| ==> orders[i].price >= floor
    ensures TotalSize(orders) > 0.0 && TotalSize(orders + [o]) > 0.0
    ensures Lowered(AvgEntry(orders + [o]), AvgEntry(orders), o.size)
  {
    AvgAboveFloor(orders, floor);
    MeanDrops(orders, o);
  }

  lemma {:induction false} MeanDrops(orders: seq<Order>, o: Order)
    requires o.size >= 0.0 && TotalSize(orders) > 0.0
    requires o.price < Mean(TotalValue(orders), TotalSize(orders))
    ensures TotalSize(orders + [o]) > 0.0
    ensures Lowered(Mean(TotalValue(orders + [o]), TotalSize(orders + [o])),
                    Mean(TotalValue(orders), TotalSize(orders)), o.size)
  {
    Snoc(orders, o);
    WeightedMean(TotalValue(orders), TotalSize(orders), o.price, o.size,
                 TotalValue(orders + [o]), TotalSize(orders + [o]));
  }

  lemma {:induction false} RungIsBelow(cfg: Config, orders: seq<Order>, o: Order)
    requires cfg.Valid() && Ladder(cfg, orders + [o]) && |orders| > 0
    ensures SoundOrders(orders) && o.size >= 0.0 && 0.0 < o.price < orders[|orders| - 1].price
    ensures forall i :: 0 <= i < |orders| ==> orders[i].price >= orders[|orders| - 1].price
  {
    var all, n := orders + [o], |orders|;
    assert all[n] == o && forall i :: 0 <= i < n ==> all[i] == orders[i];
    LadderIsSound(cfg, all);
    LadderDescends(cfg, all, n - 1, n);
    forall i | 0 <= i < n
      ensures orders[i].price >= orders[n - 1].price
    {
      LadderDescends(cfg, all, i, n - 1);
    }
  }

  lemma {:induction false} LoweredTarget(now: real, before: real, added: real, pct: real)
    requires Lowered(now, before, added) && 0.0 < pct < 100.0
    ensures Lowered(TpTarget(now, pct, Long), TpTarget(before, pct, Long), added)
  {
    TargetsMonotone(now, before, TpDivisor(pct, Long));
  }

  /**
   A new rung never raises the average entry nor the take-profit target, and lowers both
   strictly exactly when its rounded size is not zero.
   */
  lemma {:induction false} RungLowersAverage(cfg: Config, orders: seq<Order>, o: Order, pct: real)
    requires cfg.Valid() && Ladder(cfg, orders + [o]) && |orders| > 0 && 0.0 < pct < 100.0
    ensures TotalSize(orders) > 0.0 && TotalSize(orders + [o]) > 0.0
    ensures Lowered(AvgEntry(orders + [o]), AvgEntry(orders), o.size)
    ensures Lowered(TpTarget(AvgEntry(orders + [o]), pct, Long), TpTarget(AvgEntry(orders), pct, Long), o.size)
  {
    RungIsBelow(cfg, orders, o);
    AverageDrops(orders, o, orders[|orders| - 1].price);
    LoweredTarget(AvgEntry(orders + [o]), AvgEntry(orders), o.size, pct);
  }

  // ---- The ladder's size against the logged cumulative figure --------------------------

  /** The first n unrounded sizes: base * multiplier^0 + ... + base * multiplier^(n - 1). */
  function SizeSum(cfg: Config, n: nat): real {
    if n == 0 then 0.0 else SizeSum(cfg, n - 1) + UnroundedDcaSize(cfg, n - 1)
  }

  /** The size of a ladder of n orders before its sizes are rounded: base, then base * multiplier^0, ^1, ... */
  function UnroundedSize(cfg: Config, n: nat): real
    requires n > 0
  {
    cfg.dca.baseSize + SizeSum(cfg, n - 1)
  }

  function LadderLength(cfg: Config): nat { if cfg.dca.maxOrders >= 1 then cfg.dca.maxOrders else 1 }

  /** The `cumulative` figure LiveEngine logs: base * multiplier^0 + ... over all orders. */
  function LoggedCumulative(cfg: Config): real {
    SizeSum(cfg, LadderLength(cfg))
  }

  lemma {:induction false} SizeSumMonotone(cfg: Config, m: nat, n: nat)
    requires cfg.Valid() && m <= n
    ensures SizeSum(cfg, m) <= SizeSum(cfg, n)
    decreases n
  {
    if m < n {
      DcaTerms(cfg, n - 1);
      SizeSumMonotone(cfg, m, n - 1);
    }
  }

  lemma {:induction false} PowAgainstOne(b: real, n: nat)
    requires b > 0.0
    ensures b >= 1.0 ==> Pow(b, n) >= 1.0
    ensures b < 1.0 && n > 0 ==> Pow(b, n) < 1.0
    ensures b < 1.0 ==> Pow(b, n) <= 1.0
  {
    if n > 0 {
      PowAgainstOne(b, n - 1);
      PowPositive(b, n - 1);
      var p := Pow(b, n - 1);
      if b >= 1.0 {
        assert b * p >= 1.0 * p;
      } else {
        assert b * p <= b * 1.0;
      }
    }
  }

  lemma {:induction false} SizeAgainstBase(cfg: Config, n: nat)
    requires cfg.Valid()
    ensures cfg.dca.multiplier >= 1.0 || n == 0 ==> UnroundedDcaSize(cfg, n) >= cfg.dca.baseSize
    ensures cfg.dca.multiplier < 1.0 && n > 0 ==> UnroundedDcaSize(cfg, n) < cfg.dca.baseSize
  {
    PowAgainstOne(cfg.dca.multiplier, n);
    ScaleLe(cfg.dca.baseSize, 1.0, Pow(cfg.dca.multiplier, n));
    ScaleLe(cfg.dca.baseSize, Pow(cfg.dca.multiplier, n), 1.0);
  }

  /** The full ladder and the logged figure differ by exactly one size against the base size. */
  lemma {:induction false} LoggedGap(cfg: Config)
    ensures LoggedCumulative(cfg) - UnroundedSize(cfg, LadderLength(cfg))
         == UnroundedDcaSize(cfg, LadderLength(cfg) - 1) - cfg.dca.baseSize
  {
  }

  /**
   The logged cumulative size bounds every ladder a deal can reach exactly when the
   multiplier is at least 1 or no DCA is allowed; below 1 the full ladder is larger
   than the figure the operator is shown.
   */
  lemma {:induction false} LoggedBoundsLadderIff(cfg: Config)
    requires cfg.Valid()
    ensures (forall n :: 1 <= n <= LadderLength(cfg) ==> UnroundedSize(cfg, n) <= LoggedCumulative(cfg))
            <==> (cfg.dca.multiplier >= 1.0 || cfg.dca.maxOrders <= 1)
  {
    var m := LadderLength(cfg);
    LoggedGap(cfg);
    SizeAgainstBase(cfg, m - 1);
    if cfg.dca.multiplier >= 1.0 || cfg.dca.maxOrders <= 1 {
      forall n | 1 <= n <= m
        ensures UnroundedSize(cfg, n) <= LoggedCumulative(cfg)
      {
        SizeSumMonotone(cfg, n - 1, m - 1);
      }
    } else {
      assert UnroundedSize(cfg, m) > LoggedCumulative(cfg);
    }
  }

  /** Rounding moves the size of an n-order ladder by at most (n - 1) half-units of the eighth decimal. */
  lemma {:induction false} LadderSizeRounded(cfg: Config, orders: seq<Order>)
    requires cfg.Valid() && Ladder(cfg, orders)
    ensures var drift := (|orders| - 1) as real * (0.5 / EIGHT_DECIMALS);
            UnroundedSize(cfg, |orders|) - drift <= TotalSize(orders) <= UnroundedSize(cfg, |orders|) + drift
  {
    var n := |orders|;
    var front, last := orders[..n - 1], orders[n - 1];
    if n == 1 {
      assert TotalSize(front) == 0.0;
    } else {
      assert forall k :: 0 < k < |front| ==> Rung(cfg, orders, k) ==> Rung(cfg, front, k);
      LadderSizeRounded(cfg, front);
      assert Rung(cfg, orders, n - 1);
      HalfUnits(n - 1);
      assert UnroundedSize(cfg, n) == UnroundedSize(cfg, n - 1) + UnroundedDcaSize(cfg, n - 2);
    }
  }

  lemma {:induction false} HalfUnits(n: nat)
    requires n > 0
    ensures n as real * (0.5 / EIGHT_DECIMALS) == (n - 1) as real * (0.5 / EIGHT_DECIMALS) + 0.5 / EIGHT_DECIMALS
  {
  }
}
