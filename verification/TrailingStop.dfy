/**
 The per-deal trackers against the history of prices they stand for
 (core/trading_engine.py `_update_deal_wick_trackers`, `_check_sl`, `_check_tp`).

 `seen` is the entry price followed by every tick since the deal opened.
 */
module TrailingStop {
  import opened Options
  import opened InversePerpMath
  import opened Deals
  import opened TickRules

  function Highest(s: seq<real>): real
    requires s != []
  {
    if |s| == 1 then s[0] else Max(Highest(s[..|s| - 1]), s[|s| - 1])
  }

  function Lowest(s: seq<real>): real
    requires s != []
  {
    if |s| == 1 then s[0] else Min(Lowest(s[..|s| - 1]), s[|s| - 1])
  }

  lemma {:induction false} HighestBounds(s: seq<real>)
    requires s != []
    ensures forall i :: 0 <= i < |s| ==> s[i] <= Highest(s)
    ensures Highest(s) in s
  {
    if |s| > 1 {
      var front := s[..|s| - 1];
      HighestBounds(front);
      assert forall i :: 0 <= i < |front| ==> s[i] == front[i];
    }
  }

  lemma {:induction false} LowestBounds(s: seq<real>)
    requires s != []
    ensures forall i :: 0 <= i < |s| ==> Lowest(s) <= s[i]
    ensures Lowest(s) in s
  {
    if |s| > 1 {
      var front := s[..|s| - 1];
      LowestBounds(front);
      assert forall i :: 0 <= i < |front| ==> s[i] == front[i];
    }
  }

  /** The best price for the position: the highest for a long, the lowest for a short. */
  function Best(side: Side, seen: seq<real>): real
    requires seen != []
  {
    if side.Long? then Highest(seen) else Lowest(seen)
  }

  lemma {:induction false} Grow(seen: seq<real>, price: real)
    requires seen != []
    ensures Highest(seen + [price]) == Max(Highest(seen), price)
    ensures Lowest(seen + [price]) == Min(Lowest(seen), price)
  {
    var s := seen + [price];
    assert s[..|s| - 1] == seen;
  }

  ghost predicate Tracks(d: Deal, seen: seq<real>) {
    && seen != []
    && d.trackers.high == Highest(seen)
    && d.trackers.low == Lowest(seen)
    && (forall i :: 0 <= i < |seen| ==> seen[i] > 0.0)
    && d.trackers.peak == if |seen| == 1 then 0.0 else Best(d.side, seen)
  }

  predicate Trails(cfg: Config, d: Deal, pct: real) {
    cfg.wickSim && StopOf(cfg, d) == StopAt(Trailing, pct)
  }

  /** The stop line a price history stands for. */
  function Line(side: Side, pct: real, seen: seq<real>): real
    requires seen != [] && SlDivisor(pct, side) > 0.0
  {
    SlTarget(Best(side, seen), pct, side)
  }

  predicate Safe(side: Side, price: real, line: real) {
    if side.Long? then price > line else price < line
  }

  lemma {:induction false} OpenedTracks(cfg: Config, id: DealId, side: Side, price: real)
    requires price > 0.0
    ensures Tracks(OpenedDeal(cfg, id, side, price), [price])
  {
  }

  lemma {:induction false} FoldIsGrow(d: Deal, seen: seq<real>, price: real)
    requires Tracks(d, seen)
    ensures FoldTrackers(d, price).trackers.high == Highest(seen + [price])
    ensures FoldTrackers(d, price).trackers.low == Lowest(seen + [price])
  {
    Grow(seen, price);
  }

  /** One stop check on folded trackers sets the peak to the history's extreme and decides by its line. */
  lemma {:induction false} StopCheckIsHistory(cfg: Config, d: Deal, seen: seq<real>, price: real, pct: real)
    requires SoundDeal(cfg, d) && Trails(cfg, d, pct) && Tracks(d, seen) && price > 0.0
    ensures var d0 := FoldTrackers(d, price);
            && AfterStopCheck(cfg, d0, price) == d0.(trackers := d0.trackers.(peak := Best(d.side, seen + [price])))
            && Tracks(AfterStopCheck(cfg, d0, price), seen + [price])
            && (CheckSl(cfg, d0, price).Stay? <==> Safe(d.side, price, Line(d.side, pct, seen + [price])))
  {
    Grow(seen, price);
    FoldIsGrow(d, seen, price);
    HighestBounds(seen);
    LowestBounds(seen);
  }

  lemma {:induction false} TickIsHistory(cfg: Config, d: Deal, seen: seq<real>, tick: Tick, pct: real)
    requires SoundDeal(cfg, d) && Trails(cfg, d, pct) && Tracks(d, seen) && tick.price > 0.0
    ensures var v := TickDeal(cfg, d, tick);
            var safe := Safe(d.side, tick.price, Line(d.side, pct, seen + [tick.price]));
            && (v.Stays? ==> safe && Tracks(v.deal, seen + [tick.price]))
            && (safe && v.Closes? ==> v.reason == TP)
            && v.deal.side == d.side && StopOf(cfg, v.deal) == StopOf(cfg, d) && TpOf(cfg, v.deal) == TpOf(cfg, d)
  {
    StopCheckIsHistory(cfg, d, seen, tick.price, pct);
  }

  function Prices(ticks: seq<Tick>): (s: seq<real>)
    ensures |s| == |ticks| && forall i :: 0 <= i < |s| ==> s[i] == ticks[i].price
  {
    seq(|ticks|, i requires 0 <= i < |ticks| => ticks[i].price)
  }

  /** Every one of the ticks stands on the safe side of the line its own history sets. */
  ghost predicate AllSafe(side: Side, pct: real, seen: seq<real>, prices: seq<real>)
    requires SlDivisor(pct, side) > 0.0
  {
    forall i :: 0 <= i < |prices| ==> Safe(side, prices[i], Line(side, pct, seen + prices[..i + 1]))
  }

  lemma {:induction false} AllSafeUnrolls(side: Side, pct: real, seen: seq<real>, prices: seq<real>)
    requires SlDivisor(pct, side) > 0.0 && prices != []
    ensures AllSafe(side, pct, seen, prices)
            <==> Safe(side, prices[0], Line(side, pct, seen + [prices[0]]))
                 && AllSafe(side, pct, seen + [prices[0]], prices[1..])
  {
    var rest := prices[1..];
    assert prices[..1] == [prices[0]];
    forall i | 0 <= i < |rest|
      ensures seen + [prices[0]] + rest[..i + 1] == seen + prices[..i + 2]
      ensures rest[i] == prices[i + 1]
    {
    }
    if AllSafe(side, pct, seen, prices) {
      forall i | 0 <= i < |rest|
        ensures Safe(side, rest[i], Line(side, pct, seen + [prices[0]] + rest[..i + 1]))
      {
        assert Safe(side, prices[i + 1], Line(side, pct, seen + prices[..i + 2]));
      }
    }
    if Safe(side, prices[0], Line(side, pct, seen + [prices[0]])) && AllSafe(side, pct, seen + [prices[0]], rest) {
      forall i | 0 <= i < |prices|
        ensures Safe(side, prices[i], Line(side, pct, seen + prices[..i + 1]))
      {
        if i > 0 {
          assert Safe(side, rest[i - 1], Line(side, pct, seen + [prices[0]] + rest[..i]));
        }
      }
    }
  }

  lemma {:induction false} PricesUnroll(seen: seq<real>, ticks: seq<Tick>)
    requires ticks != []
    ensures Prices(ticks)[0] == ticks[0].price
    ensures Prices(ticks[1..]) == Prices(ticks)[1..]
    ensures seen + [ticks[0].price] + Prices(ticks)[1..] == seen + Prices(ticks)
  {
  }

  /**
   A trailing stop with wick simulation, on every run: a deal that survives carries the
   extreme of its whole history as its peak, and stood on the safe side at every tick.
   */
  lemma {:induction false} TrailingOnEveryRun(cfg: Config, d: Deal, seen: seq<real>, ticks: seq<Tick>, pct: real)
    requires cfg.Valid() && SoundDeal(cfg, d) && Trails(cfg, d, pct) && Tracks(d, seen)
    requires forall i :: 0 <= i < |ticks| ==> ticks[i].price > 0.0
    ensures var v := RunDeal(cfg, d, ticks).verdict;
            v.Stays? ==> Tracks(v.deal, seen + Prices(ticks)) && AllSafe(d.side, pct, seen, Prices(ticks))
    decreases |ticks|
  {
    var prices := Prices(ticks);
    if ticks == [] {
      assert seen + prices == seen;
    } else {
      var v := TickDeal(cfg, d, ticks[0]);
      TickIsHistory(cfg, d, seen, ticks[0], pct);
      if v.Stays? {
        TickSound(cfg, d, ticks[0]);
        TrailingOnEveryRun(cfg, v.deal, seen + [ticks[0].price], ticks[1..], pct);
        PricesUnroll(seen, ticks);
        AllSafeUnrolls(d.side, pct, seen, prices);
      }
    }
  }

  /** The converse: on a run that stays on the safe side only a take-profit closes the deal. */
  lemma {:induction false} SafeRunsSurvive(cfg: Config, d: Deal, seen: seq<real>, ticks: seq<Tick>, pct: real)
    requires cfg.Valid() && SoundDeal(cfg, d) && Trails(cfg, d, pct) && Tracks(d, seen)
    requires forall i :: 0 <= i < |ticks| ==> ticks[i].price > 0.0
    requires AllSafe(d.side, pct, seen, Prices(ticks))
    ensures var v := RunDeal(cfg, d, ticks).verdict;
            v.Closes? ==> v.reason == TP
    decreases |ticks|
  {
    if ticks != [] {
      TickIsHistory(cfg, d, seen, ticks[0], pct);
      AllSafeUnrolls(d.side, pct, seen, Prices(ticks));
      TickSound(cfg, d, ticks[0]);
      PricesUnroll(seen, ticks);
      if TickDeal(cfg, d, ticks[0]).Stays? {
        SafeRunsSurvive(cfg, TickDeal(cfg, d, ticks[0]).deal, seen + [ticks[0].price], ticks[1..], pct);
      }
    }
  }

  /**
   From its opening on: a deal under a trailing stop that survives a run stood on the safe side
   of its history's line at every tick, and on a run that does only a take-profit closes it.
   */
  lemma {:induction false} OpenedDealTrails(cfg: Config, id: DealId, side: Side, entry: real, ticks: seq<Tick>)
    requires cfg.Valid() && cfg.wickSim && cfg.stop.kind.Trailing? && entry > 0.0
    requires forall i :: 0 <= i < |ticks| ==> ticks[i].price > 0.0
    ensures SoundDeal(cfg, OpenedDeal(cfg, id, side, entry))
    ensures var v := RunDeal(cfg, OpenedDeal(cfg, id, side, entry), ticks).verdict;
            && (v.Stays? ==>
                  Tracks(v.deal, [entry] + Prices(ticks)) && AllSafe(side, cfg.stop.pct, [entry], Prices(ticks)))
            && (AllSafe(side, cfg.stop.pct, [entry], Prices(ticks)) ==> v.Stays? || v.reason == TP)
  {
    var d := OpenedDeal(cfg, id, side, entry);
    OpenedIsSound(cfg, id, side, entry);
    OpenedTracks(cfg, id, side, entry);
    TrailingOnEveryRun(cfg, d, [entry], ticks, cfg.stop.pct);
    if AllSafe(side, cfg.stop.pct, [entry], Prices(ticks)) {
      SafeRunsSurvive(cfg, d, [entry], ticks, cfg.stop.pct);
    }
  }

  /** A long's line never falls and a short's never rises as ticks arrive. */
  lemma {:induction false} LineNeverLoosens(side: Side, pct: real, seen: seq<real>, more: seq<real>)
    requires seen != [] && SlDivisor(pct, side) > 0.0
    ensures side.Long? ==> Line(side, pct, seen) <= Line(side, pct, seen + more)
    ensures side.Short? ==> Line(side, pct, seen + more) <= Line(side, pct, seen)
    decreases |more|
  {
    if more == [] {
      assert seen + more == seen;
    } else {
      var front, last := more[..|more| - 1], more[|more| - 1];
      LineNeverLoosens(side, pct, seen, front);
      assert seen + more == (seen + front) + [last];
      Grow(seen + front, last);
      var d, a, b := SlDivisor(pct, side), Best(side, seen + front), Best(side, seen + more);
      if side.Long? { TargetsMonotone(a, b, d); } else { TargetsMonotone(b, a, d); }
    }
  }

  // ---- Without wick simulation -----------------------------------------------------------------

  /** The peak is the best of the ticks checked so far, the entry price not among them. */
  ghost predicate Peaks(d: Deal, seen: seq<real>) {
    && (forall i :: 0 <= i < |seen| ==> seen[i] > 0.0)
    && d.trackers.peak == if seen == [] then 0.0 else Best(d.side, seen)
  }

  lemma {:induction false} PlainTick(cfg: Config, d: Deal, seen: seq<real>, tick: Tick, pct: real)
    requires SoundDeal(cfg, d) && !cfg.wickSim && StopOf(cfg, d) == StopAt(Trailing, pct)
    requires Peaks(d, seen) && tick.price > 0.0
    ensures var v := TickDeal(cfg, d, tick);
            var safe := Safe(d.side, tick.price, Line(d.side, pct, seen + [tick.price]));
            && (v.Stays? ==> safe && Peaks(v.deal, seen + [tick.price]))
            && (safe && v.Closes? ==> v.reason == TP)
            && v.deal.side == d.side && StopOf(cfg, v.deal) == StopOf(cfg, d)
  {
    if seen == [] {
      assert seen + [tick.price] == [tick.price];
    } else {
      Grow(seen, tick.price);
      HighestBounds(seen);
      LowestBounds(seen);
    }
  }

  /**
   Without wick simulation: a deal that survives a run carries the best of its ticks as its
   peak and stood on the safe side of their line at every one; on such a run only a
   take-profit closes it.
   */
  lemma {:induction false} PlainTrailingRun(cfg: Config, d: Deal, seen: seq<real>, ticks: seq<Tick>, pct: real)
    requires cfg.Valid() && SoundDeal(cfg, d) && !cfg.wickSim && StopOf(cfg, d) == StopAt(Trailing, pct)
    requires Peaks(d, seen) && forall i :: 0 <= i < |ticks| ==> ticks[i].price > 0.0
    ensures var v := RunDeal(cfg, d, ticks).verdict;
            && (v.Stays? ==> Peaks(v.deal, seen + Prices(ticks)) && AllSafe(d.side, pct, seen, Prices(ticks)))
            && (AllSafe(d.side, pct, seen, Prices(ticks)) ==> v.Stays? || v.reason == TP)
    decreases |ticks|
  {
    var prices := Prices(ticks);
    if ticks == [] {
      assert seen + prices == seen;
    } else {
      var v := TickDeal(cfg, d, ticks[0]);
      PlainTick(cfg, d, seen, ticks[0], pct);
      AllSafeUnrolls(d.side, pct, seen, prices);
      PricesUnroll(seen, ticks);
      if v.Stays? {
        TickSound(cfg, d, ticks[0]);
        PlainTrailingRun(cfg, v.deal, seen + [ticks[0].price], ticks[1..], pct);
      }
    }
  }
}
