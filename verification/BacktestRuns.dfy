/**
 A whole backtest as a function of its data, and what holds of every one: where the money
 went, which candles a step can see, and that no later candle can change an earlier state
 (backtest/backtest_engine.py, `run`, `_ohlc_up_to`, `_process_candle`).
 */
module BacktestRuns {
  import opened Options
  import opened InversePerpMath
  import opened Deals
  import opened TickRules
  import opened PaperLedger
  import opened CandleRules

  /**
   The closed candles visible per timeframe; closes, highs, lows and opens are its columns.
   Timeframes are numbered in the order of the dictionary that holds them.
   */
  type Windows = seq<seq<Candle>>

  /** The indicator engine: any function of the visible candles. */
  datatype Indicator = Indicator(entry: Windows -> bool, tpGroup: Windows -> bool)

  /** Everything a backtest depends on; `ids(i)` is the id a deal opened on candle `i` would get. */
  datatype Setup = Setup(
    cfg: Config,
    indicator: Indicator,
    initial: real,
    driving: nat,
    feeds: seq<seq<Candle>>,
    ids: nat -> DealId)
  {
    predicate Valid() {
      && cfg.Valid()
      && driving < |feeds|
      && forall i :: 0 <= i < |Drive()| ==> Drive()[i].Priced()
    }

    function Drive(): seq<Candle>
      requires driving < |feeds|
    {
      feeds[driving]
    }
  }

  /** Indicators need 3 * 26 candles before they mean anything. */
  const WARMUP := 78

  /** The pointer loop: past every leading candle stamped before `now`. */
  function Advance(cs: seq<Candle>, p: nat, now: int): (q: nat)
    requires p <= |cs|
    ensures p <= q <= |cs|
    ensures forall i :: p <= i < q ==> cs[i].stamp < now
    ensures q < |cs| ==> cs[q].stamp >= now
    decreases |cs| - p
  {
    if p < |cs| && cs[p].stamp < now then Advance(cs, p + 1, now) else p
  }

  /** A feed's pointer after the first n driving candles. */
  function Pointer(cs: seq<Candle>, drive: seq<Candle>, n: nat): (p: nat)
    requires n <= |drive|
    ensures p <= |cs|
  {
    if n <= WARMUP then 0 else Advance(cs, Pointer(cs, drive, n - 1), drive[n - 1].stamp)
  }

  /** Every feed cut at its pointer. */
  function Visible(feeds: seq<seq<Candle>>, drive: seq<Candle>, n: nat): (w: Windows)
    requires n <= |drive|
    ensures |w| == |feeds|
    ensures forall k :: 0 <= k < |feeds| ==> w[k] == feeds[k][..Pointer(feeds[k], drive, n)]
  {
    if feeds == [] then []
    else
      var last := feeds[|feeds| - 1];
      Visible(feeds[..|feeds| - 1], drive, n) + [last[..Pointer(last, drive, n)]]
  }

  /** What the indicators see on driving candle i. */
  function WindowsAt(s: Setup, i: nat): Windows
    requires s.driving < |s.feeds| && i < |s.Drive()|
  {
    Visible(s.feeds, s.Drive(), i + 1)
  }

  function OnCandle(s: Setup, b: Book, c: Candle, w: Windows, id: DealId): Book
    requires s.cfg.Valid() && PlainBook(s.cfg, b) && c.Priced() && s.driving < |w|
  {
    EnterCandle(s.cfg, MonitorCandle(s.cfg, b, c, s.indicator.tpGroup(w)), c.close,
                w[s.driving] != [] && s.indicator.entry(w), id)
  }

  lemma {:induction false} OnCandlePlain(s: Setup, b: Book, c: Candle, w: Windows, id: DealId)
    requires s.cfg.Valid() && PlainBook(s.cfg, b) && c.Priced() && s.driving < |w|
    ensures PlainBook(s.cfg, OnCandle(s, b, c, w, id))
  {
    MonitorKeepsPlain(s.cfg, b, c, s.indicator.tpGroup(w));
    EnterKeepsPlain(s.cfg, MonitorCandle(s.cfg, b, c, s.indicator.tpGroup(w)), c.close,
                    w[s.driving] != [] && s.indicator.entry(w), id);
  }

  function Start(s: Setup): Book { Book(s.initial, 0.0, None, [], []) }

  /** One pass of the main loop; the warm-up candles are skipped. */
  function StepAt(s: Setup, b: Book, i: nat): (r: Book)
    requires s.Valid() && PlainBook(s.cfg, b) && i < |s.Drive()|
    ensures PlainBook(s.cfg, r)
  {
    if i < WARMUP then b
    else
      OnCandlePlain(s, b, s.Drive()[i], WindowsAt(s, i), s.ids(i));
      OnCandle(s, b, s.Drive()[i], WindowsAt(s, i), s.ids(i))
  }

  /** The books after the first n driving candles. */
  function BookAt(s: Setup, n: nat): (b: Book)
    requires s.Valid() && n <= |s.Drive()|
    ensures PlainBook(s.cfg, b)
  {
    if n == 0 then Start(s) else StepAt(s, BookAt(s, n - 1), n - 1)
  }

  /** A deal still open when the data ends is closed at the last close. */
  function Finish(s: Setup, b: Book): Book
    requires s.driving < |s.feeds| && PlainBook(s.cfg, b)
  {
    if s.Drive() == [] || b.open.None? then b
    else
      var d := b.open.value;
      OrderlyIsBookable(d);
      ClosedOut(s.cfg, b, d.(closing := d.closing.(trigger := Some(TIMEOUT))),
                s.Drive()[|s.Drive()| - 1].close, END_OF_DATA)
  }

  // ---- Money -----------------------------------------------------------------------------

  lemma {:induction false} OnCandleBalances(s: Setup, b: Book, c: Candle, w: Windows, id: DealId)
    requires s.cfg.Valid() && PlainBook(s.cfg, b) && c.Priced() && s.driving < |w|
    requires Balanced(s.cfg, s.initial, b)
    ensures Balanced(s.cfg, s.initial, OnCandle(s, b, c, w, id))
  {
    MonitorBalances(s.cfg, s.initial, b, c, s.indicator.tpGroup(w));
    EnterBalances(s.cfg, s.initial, MonitorCandle(s.cfg, b, c, s.indicator.tpGroup(w)), c.close,
                  w[s.driving] != [] && s.indicator.entry(w), id);
  }

  lemma {:induction false} StepBalances(s: Setup, b: Book, c: Book, i: nat)
    requires s.Valid() && PlainBook(s.cfg, b) && i < |s.Drive()| && Balanced(s.cfg, s.initial, b)
    requires c == StepAt(s, b, i)
    ensures Balanced(s.cfg, s.initial, c)
  {
    if i >= WARMUP {
      OnCandleBalances(s, b, s.Drive()[i], WindowsAt(s, i), s.ids(i));
    }
  }

  lemma {:induction false} StartBalances(s: Setup)
    requires s.Valid()
    ensures Balanced(s.cfg, s.initial, Start(s))
  {
  }

  /** The next books, their number and the books before them. */
  lemma {:induction false} BooksBefore(s: Setup, n: nat, b: Book) returns (before: Book, i: nat)
    requires s.Valid() && 0 < n <= |s.Drive()| && b == BookAt(s, n)
    ensures i == n - 1 && before == BookAt(s, i) && PlainBook(s.cfg, before) && b == StepAt(s, before, i)
  {
    before, i := BookAt(s, n - 1), n - 1;
  }

  lemma {:induction false} BalancedAt(s: Setup, n: nat, b: Book)
    requires s.Valid() && n <= |s.Drive()| && b == BookAt(s, n)
    ensures Balanced(s.cfg, s.initial, b)
    decreases n
  {
    if n == 0 {
      StartBalances(s);
    } else {
      var before, i := BooksBefore(s, n, b);
      BalancedAt(s, i, before);
      StepBalances(s, before, b, i);
    }
  }

  /**
   A finished backtest holds no open deal, every deal it opened is in its history once and in
   order, and its balance is what it started with plus the deals' profit less their fees.
   */
  lemma {:induction false} MoneyOfABacktest(s: Setup)
    requires s.Valid()
    ensures var b := Finish(s, BookAt(s, |s.Drive()|));
            && b.open == None
            && b.everOpened == IdsOf(b.closed)
            && b.balance == s.initial + SumPnl(b.closed) - b.feesPaid
            && b.feesPaid == RoundTripFees(s.cfg, b.closed)
  {
    var b := BookAt(s, |s.Drive()|);
    BalancedAt(s, |s.Drive()|, b);
    if s.Drive() != [] && b.open.Some? {
      var d := b.open.value;
      OrderlyIsBookable(d);
      ClosingBalances(s.cfg, s.initial, b, d.(closing := d.closing.(trigger := Some(TIMEOUT))),
                      s.Drive()[|s.Drive()| - 1].close, END_OF_DATA);
    }
  }

  // ---- The pointer walk --------------------------------------------------------------------

  ghost predicate Sorted(cs: seq<Candle>) {
    forall i, j :: 0 <= i <= j < |cs| ==> cs[i].stamp <= cs[j].stamp
  }

  /** All candles stamped strictly before `now`, wherever they stand. */
  function Before(cs: seq<Candle>, now: int): seq<Candle> {
    if cs == [] then []
    else
      var last := cs[|cs| - 1];
      Before(cs[..|cs| - 1], now) + if last.stamp < now then [last] else []
  }

  lemma {:induction false} BeforeAll(cs: seq<Candle>, now: int)
    requires forall i :: 0 <= i < |cs| ==> cs[i].stamp < now
    ensures Before(cs, now) == cs
  {
    if cs != [] {
      BeforeAll(cs[..|cs| - 1], now);
      assert cs == cs[..|cs| - 1] + [cs[|cs| - 1]];
    }
  }

  /** A cut with everything before it early and everything after it late. */
  lemma {:induction false} BeforeIsCut(cs: seq<Candle>, p: nat, now: int)
    requires p <= |cs|
    requires forall i :: 0 <= i < p ==> cs[i].stamp < now
    requires forall i :: p <= i < |cs| ==> cs[i].stamp >= now
    ensures Before(cs, now) == cs[..p]
  {
    if p == |cs| {
      BeforeAll(cs, now);
      assert cs[..p] == cs;
    } else {
      BeforeIsCut(cs[..|cs| - 1], p, now);
      assert cs[..|cs| - 1][..p] == cs[..p];
    }
  }

  /** Over driving candles whose stamps never fall, the pointer has passed only earlier candles. */
  lemma {:induction false} PassedAreEarlier(cs: seq<Candle>, drive: seq<Candle>, n: nat)
    requires Sorted(drive) && WARMUP < n <= |drive|
    ensures forall i :: 0 <= i < Pointer(cs, drive, n) ==> cs[i].stamp < drive[n - 1].stamp
  {
    if n - 1 > WARMUP {
      PassedAreEarlier(cs, drive, n - 1);
      assert drive[n - 2].stamp <= drive[n - 1].stamp;
    }
  }

  /** On sorted data the pointer cuts a feed exactly at the current stamp: no candle too many, none too few. */
  lemma {:induction false} PointerIsExact(cs: seq<Candle>, drive: seq<Candle>, i: nat)
    requires Sorted(cs) && Sorted(drive) && WARMUP <= i < |drive|
    ensures cs[..Pointer(cs, drive, i + 1)] == Before(cs, drive[i].stamp)
  {
    PassedAreEarlier(cs, drive, i + 1);
    var p := Pointer(cs, drive, i + 1);
    forall k | p <= k < |cs|
      ensures cs[k].stamp >= drive[i].stamp
    {
      assert cs[p].stamp <= cs[k].stamp;
    }
    BeforeIsCut(cs, p, drive[i].stamp);
  }

  lemma {:induction false} PointerMonotone(cs: seq<Candle>, drive: seq<Candle>, m: nat, n: nat)
    requires m <= n <= |drive|
    ensures Pointer(cs, drive, m) <= Pointer(cs, drive, n)
  {
    if m < n {
      PointerMonotone(cs, drive, m, n - 1);
    }
  }

  // ---- Causality -----------------------------------------------------------------------------

  lemma {:induction false} BeforeBefore(cs: seq<Candle>, early: int, late: int)
    requires early <= late
    ensures Before(Before(cs, late), early) == Before(cs, early)
  {
    if cs != [] {
      var front, last := cs[..|cs| - 1], cs[|cs| - 1];
      BeforeBefore(front, early, late);
      if last.stamp < late {
        assert (Before(front, late) + [last])[..|Before(front, late)|] == Before(front, late);
      } else {
        assert Before(front, late) + [] == Before(front, late);
        assert Before(front, early) + [] == Before(front, early);
      }
    }
  }

  ghost predicate AllSorted(s: Setup) {
    forall k :: 0 <= k < |s.feeds| ==> Sorted(s.feeds[k])
  }

  /** Two backtests of one bot whose data agree on driving candles up to i and on all candles stamped before it. */
  ghost predicate SameUpTo(a: Setup, b: Setup, i: nat) {
    && a.Valid() && b.Valid() && AllSorted(a) && AllSorted(b)
    && i < |a.Drive()| && i < |b.Drive()|
    && a.cfg == b.cfg && a.indicator == b.indicator && a.initial == b.initial && a.driving == b.driving
    && |a.feeds| == |b.feeds|
    && (forall j :: 0 <= j <= i ==> a.Drive()[j] == b.Drive()[j] && a.ids(j) == b.ids(j))
    && forall k :: 0 <= k < |a.feeds| ==>
         Before(a.feeds[k], a.Drive()[i].stamp) == Before(b.feeds[k], b.Drive()[i].stamp)
  }

  lemma {:induction false} SameEarlier(a: Setup, b: Setup, i: nat)
    requires 0 < i && SameUpTo(a, b, i)
    ensures SameUpTo(a, b, i - 1)
  {
    var early, late := a.Drive()[i - 1].stamp, a.Drive()[i].stamp;
    assert Sorted(a.feeds[a.driving]);
    forall k | 0 <= k < |a.feeds|
      ensures Before(a.feeds[k], early) == Before(b.feeds[k], early)
    {
      BeforeBefore(a.feeds[k], early, late);
      BeforeBefore(b.feeds[k], early, late);
    }
  }

  lemma {:induction false} SameWindows(a: Setup, b: Setup, i: nat)
    requires WARMUP <= i && SameUpTo(a, b, i)
    ensures WindowsAt(a, i) == WindowsAt(b, i)
  {
    assert Sorted(a.feeds[a.driving]) && Sorted(b.feeds[b.driving]);
    forall k | 0 <= k < |a.feeds|
      ensures WindowsAt(a, i)[k] == WindowsAt(b, i)[k]
    {
      PointerIsExact(a.feeds[k], a.Drive(), i);
      PointerIsExact(b.feeds[k], b.Drive(), i);
    }
  }

  lemma {:induction false} SameStep(a: Setup, b: Setup, k: Book, i: nat)
    requires SameUpTo(a, b, i) && PlainBook(a.cfg, k)
    ensures StepAt(a, k, i) == StepAt(b, k, i)
  {
    if i >= WARMUP {
      SameWindows(a, b, i);
      assert a.Drive()[i] == b.Drive()[i] && a.ids(i) == b.ids(i);
    }
  }

  /** No look-ahead: the books after n candles are the same whatever any feed holds from the n-th one's stamp on. */
  lemma {:induction false} Causality(a: Setup, b: Setup, n: nat)
    requires 0 < n && SameUpTo(a, b, n - 1)
    ensures BookAt(a, n) == BookAt(b, n)
    decreases n
  {
    if n > 1 {
      SameEarlier(a, b, n - 1);
      Causality(a, b, n - 1);
    }
    SameStep(a, b, BookAt(a, n - 1), n - 1);
  }
}
