/**
 The DCA ladder in the backtest (backtest/backtest_engine.py, `_check_dca`): the second copy of
 the rule builds the same ladders, in every book of every backtest.
 */
module BacktestLadder {
  import opened Options
  import opened InversePerpMath
  import opened Deals
  import opened TickRules
  import opened PaperLedger
  import opened DcaLadder
  import opened DcaLevels
  import opened CandleRules
  import opened BacktestRuns

  lemma {:induction false} CandleKeepsLadder(cfg: Config, d: Deal, c: Candle, groupHit: bool)
    requires cfg.Valid() && Plain(cfg, d) && Ladder(cfg, d.orders) && c.Priced()
    ensures Ladder(cfg, CandleDeal(cfg, d, c, groupHit).deal.orders)
    ensures d.orders <= CandleDeal(cfg, d, c, groupHit).deal.orders
  {
    var d1 := AfterCandleStop(cfg, d, c);
    CandleDcaIsTickDca(cfg, d1, c.close);
    if CheckDca(cfg, d1, c.close).Some? {
      LadderExtends(cfg, d1, c.close);
    }
  }

  ghost predicate AllLadders(cfg: Config, b: Book) {
    && (b.open.Some? ==> Ladder(cfg, b.open.value.orders))
    && forall i :: 0 <= i < |b.closed| ==> Ladder(cfg, b.closed[i].orders)
  }

  lemma {:induction false} MonitorKeepsLadders(cfg: Config, b: Book, c: Candle, groupHit: bool)
    requires cfg.Valid() && PlainBook(cfg, b) && c.Priced() && AllLadders(cfg, b)
    ensures AllLadders(cfg, MonitorCandle(cfg, b, c, groupHit))
  {
    if b.open.Some? {
      CandleKeepsLadder(cfg, b.open.value, c, groupHit);
    }
  }

  lemma {:induction false} StepKeepsLadders(s: Setup, b: Book, i: nat)
    requires s.Valid() && PlainBook(s.cfg, b) && i < |s.Drive()| && AllLadders(s.cfg, b)
    ensures AllLadders(s.cfg, StepAt(s, b, i))
  {
    if i >= WARMUP {
      MonitorKeepsLadders(s.cfg, b, s.Drive()[i], s.indicator.tpGroup(WindowsAt(s, i)));
      OpenedLadder(s.cfg, s.ids(i), s.Drive()[i].close);
    }
  }

  lemma {:induction false} StartLadders(s: Setup)
    requires s.Valid()
    ensures AllLadders(s.cfg, BookAt(s, 0))
  {
  }

  lemma {:induction false} NextLadders(s: Setup, b: Book, c: Book, i: nat)
    requires s.Valid() && i < |s.Drive()| && PlainBook(s.cfg, b) && AllLadders(s.cfg, b) && c == StepAt(s, b, i)
    ensures AllLadders(s.cfg, c)
  {
    StepKeepsLadders(s, b, i);
  }

  lemma {:induction false} LaddersAt(s: Setup, n: nat, b: Book)
    requires s.Valid() && n <= |s.Drive()| && b == BookAt(s, n)
    ensures AllLadders(s.cfg, b)
    decreases n
  {
    if n == 0 {
      StartLadders(s);
    } else {
      var before, i := BooksBefore(s, n, b);
      LaddersAt(s, i, before);
      NextLadders(s, before, b, i);
    }
  }

  /** Every deal a backtest leaves in its history was a ladder: numbered, spaced, sized and within the limit. */
  lemma {:induction false} EveryBacktestDealIsALadder(s: Setup)
    requires s.Valid()
    ensures AllLadders(s.cfg, Finish(s, BookAt(s, |s.Drive()|)))
  {
    LaddersAt(s, |s.Drive()|, BookAt(s, |s.Drive()|));
  }

  /** In plain arithmetic: base order, numbers, limit, spacings and sizes of every deal in the history. */
  lemma {:induction false} EveryBacktestDealFollowsPlan(s: Setup, spacings: seq<real>, sizes: seq<real>)
    requires s.Valid() && Enough(s.cfg, spacings, sizes)
    ensures var closed := Finish(s, BookAt(s, |s.Drive()|)).closed;
            forall i :: 0 <= i < |closed| ==> FollowsPlan(s.cfg, closed[i].orders, spacings, sizes)
  {
    EveryBacktestDealIsALadder(s);
    var closed := Finish(s, BookAt(s, |s.Drive()|)).closed;
    forall i | 0 <= i < |closed|
      ensures FollowsPlan(s.cfg, closed[i].orders, spacings, sizes)
    {
      LadderFollowsPlan(s.cfg, closed[i].orders, spacings, sizes);
    }
  }
}
