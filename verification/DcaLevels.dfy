/**
 The DCA rule in plain arithmetic: the spacings and sizes as sequences that grow by a constant
 factor, and the orders they ask for (core/trading_engine.py `_check_dca`,
 backtest/backtest_engine.py `_check_dca`).
 */
module DcaLevels {
  import opened Options
  import opened InversePerpMath
  import opened Deals
  import opened TickRules
  import opened DcaLadder

  /** The first number, and each next one `factor` times the one before. */
  predicate Grows(s: seq<real>, first: real, factor: real) {
    && (s != [] ==> s[0] == first)
    && forall k :: 0 < k < |s| ==> s[k] == s[k - 1] * factor
  }

  /** The spacings in percent and the sizes before rounding, as far as they are listed. */
  predicate Plan(cfg: Config, spacings: seq<real>, sizes: seq<real>) {
    && Grows(spacings, cfg.dca.spacingPct, cfg.dca.stepScale)
    && Grows(sizes, cfg.dca.baseSize, cfg.dca.multiplier)
  }

  lemma {:induction false} GrowsByPowers(s: seq<real>, first: real, factor: real, k: nat)
    requires Grows(s, first, factor) && k < |s|
    ensures s[k] == first * Pow(factor, k)
  {
    if k > 0 {
      GrowsByPowers(s, first, factor, k - 1);
      Reorder(first, Pow(factor, k - 1), factor);
    }
  }

  lemma {:induction false} Reorder(a: real, p: real, b: real)
    ensures a * p * b == a * (b * p)
  {
  }

  lemma {:induction false} PlanTerms(cfg: Config, spacings: seq<real>, sizes: seq<real>, k: nat)
    requires Plan(cfg, spacings, sizes) && k < |spacings| && k < |sizes|
    ensures StepPct(cfg, k) == spacings[k] && DcaSize(cfg, k) == RoundTo(sizes[k], EIGHT_DECIMALS)
  {
    GrowsByPowers(spacings, cfg.dca.spacingPct, cfg.dca.stepScale, k);
    GrowsByPowers(sizes, cfg.dca.baseSize, cfg.dca.multiplier, k);
    var unrounded := UnroundedDcaSize(cfg, k);
    assert unrounded == sizes[k];
  }

  /** The k-th DCA: its number, its rounded planned size, and a fill at least its spacing below the one before. */
  predicate PlannedFill(orders: seq<Order>, spacings: seq<real>, sizes: seq<real>, k: nat)
    requires 0 < k < |orders| && k <= |spacings| && k <= |sizes|
  {
    && orders[k].number == k + 1 && orders[k].kind.DcaOrder?
    && orders[k].size == RoundTo(sizes[k - 1], EIGHT_DECIMALS)
    && 0.0 < orders[k].price <= orders[k - 1].price * (1.0 - spacings[k - 1] / 100.0)
  }

  /** A base order of the configured size and then planned fills, within the limit. */
  ghost predicate FollowsPlan(cfg: Config, orders: seq<Order>, spacings: seq<real>, sizes: seq<real>) {
    && orders != [] && |orders| - 1 <= |spacings| && |orders| - 1 <= |sizes|
    && |orders| <= (if cfg.dca.maxOrders > 1 then cfg.dca.maxOrders else 1)
    && orders[0].number == 1 && orders[0].kind.BaseOrder? && orders[0].size == cfg.dca.baseSize
    && forall k :: 0 < k < |orders| ==> PlannedFill(orders, spacings, sizes, k)
  }

  /** The plan of a configuration is long enough for its ladders. */
  predicate Enough(cfg: Config, spacings: seq<real>, sizes: seq<real>) {
    Plan(cfg, spacings, sizes) && |spacings| >= cfg.dca.maxOrders && |sizes| >= cfg.dca.maxOrders
  }

  lemma {:induction false} LadderFollowsPlan(cfg: Config, orders: seq<Order>, spacings: seq<real>, sizes: seq<real>)
    requires Ladder(cfg, orders) && Enough(cfg, spacings, sizes)
    ensures FollowsPlan(cfg, orders, spacings, sizes)
  {
    forall k | 0 < k < |orders|
      ensures k <= |spacings| && k <= |sizes| && PlannedFill(orders, spacings, sizes, k)
    {
      assert Rung(cfg, orders, k);
      PlanTerms(cfg, spacings, sizes, k - 1);
    }
  }

  /** The price has come as far from the last fill as the next spacing asks. */
  predicate FarEnough(side: Side, last: real, price: real, spacing: real) {
    if side.Long? then price <= last * (1.0 - spacing / 100.0) else price >= last * (1.0 + spacing / 100.0)
  }

  lemma {:induction false} LevelReached(cfg: Config, d: Deal, price: real, spacing: real)
    requires d.orders != [] && StepPct(cfg, DcaCount(d.orders)) == spacing
    ensures FarEnough(d.side, d.orders[|d.orders| - 1].price, price, spacing)
            <==> if d.side.Long? then price <= DcaLevel(cfg, d) else price >= DcaLevel(cfg, d)
  {
    assert -spacing / 100.0 == -(spacing / 100.0);
  }

  /**
   An order is placed exactly when averaging is configured and not edited off, the deal has
   fewer orders than the limit, and the price is far enough; and it is the planned one.
   */
  lemma {:induction false} DcaPlacedIff(cfg: Config, d: Deal, price: real, spacings: seq<real>, sizes: seq<real>)
    requires Plan(cfg, spacings, sizes) && d.orders != [] && DcaCount(d.orders) == |d.orders| - 1
    requires |d.orders| <= |spacings| && |d.orders| <= |sizes|
    ensures var n := |d.orders|;
            && (CheckDca(cfg, d, price).Some?
                <==> cfg.dca.enabled && d.overrides.dca && n < cfg.dca.maxOrders
                     && FarEnough(d.side, d.orders[n - 1].price, price, spacings[n - 1]))
            && (CheckDca(cfg, d, price).Some? ==>
                  CheckDca(cfg, d, price).value
                  == Order(n + 1, price, RoundTo(sizes[n - 1], EIGHT_DECIMALS), DcaOrder))
  {
    var n := |d.orders|;
    PlanTerms(cfg, spacings, sizes, n - 1);
    LevelReached(cfg, d, price, spacings[n - 1]);
  }
}
