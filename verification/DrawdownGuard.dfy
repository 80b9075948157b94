/**
 The drawdown kill-switch and the report's maximum drawdown
 (core/drawdown_guard.py, backtest/backtest_report.py `_calc_max_drawdown`).
 */
module Drawdown {
  import opened Options

  datatype Metric = Equity | Balance

  datatype Action = Pause | StopEngine

  datatype GuardConfig = GuardConfig(enabled: bool, maxPct: real, metric: Metric, action: Action)
  {
    predicate Valid() { 0.0 < maxPct <= 100.0 }
  }

  /** The guard's entry in state.json; the keys may be missing from an older file. */
  datatype GuardEntry = GuardEntry(peak: Option<real>, triggered: Option<bool>, reason: Option<real>)

  /** Peak, latch, and the drawdown that tripped it (the number the reason text quotes). */
  datatype Guard = Guard(peak: Option<real>, triggered: bool, reason: Option<real>)

  const FRESH := Guard(None, false, None)

  function ToEntry(g: Guard): GuardEntry {
    GuardEntry(g.peak, Some(g.triggered), g.reason)
  }

  function FromEntry(saved: GuardEntry): Guard {
    Guard(saved.peak, saved.triggered == Some(true), saved.reason)
  }

  /** The percentage by which `now` lies below `from`. */
  function Drop(from: real, now: real): real
    requires from != 0.0
  {
    (from - now) / from * 100.0
  }

  function Updated(cfg: GuardConfig, g: Guard, value: real): Guard {
    if !cfg.enabled || g.triggered then g
    else if g.peak.None? || value > g.peak.value then g.(peak := Some(value))
    else if g.peak.value <= 0.0 then g
    else if Drop(g.peak.value, value) >= cfg.maxPct
    then g.(triggered := true, reason := Some(Drop(g.peak.value, value)))
    else g
  }

  class DrawdownGuard {
    const config: GuardConfig
    var peak: Option<real>
    var triggered: bool
    var reason: Option<real>

    function View(): Guard
      reads this
    {
      Guard(peak, triggered, reason)
    }

    constructor (config: GuardConfig)
      ensures this.config == config && View() == FRESH
    {
      this.config := config;
      peak, triggered, reason := None, false, None;
    }

    method Update(value: real) returns (fired: bool)
      modifies this
      ensures View() == Updated(config, old(View()), value)
      ensures fired <==> config.enabled && triggered
    {
      if !config.enabled {
        return false;
      }
      if triggered {
        return true;
      }
      if peak.None? || value > peak.value {
        peak := Some(value);
        return false;
      }
      if peak.value <= 0.0 {
        return false;
      }
      var drawdown := (peak.value - value) / peak.value * 100.0;
      if drawdown >= config.maxPct {
        triggered, reason := true, Some(drawdown);
        return true;
      }
      return false;
    }

    method Reset()
      modifies this
      ensures View() == FRESH
    {
      peak, triggered, reason := None, false, None;
    }

    method ToDict() returns (saved: GuardEntry)
      ensures saved == ToEntry(View())
    {
      saved := GuardEntry(peak, Some(triggered), reason);
    }

    method FromDict(saved: GuardEntry)
      modifies this
      ensures View() == FromEntry(saved)
    {
      peak, triggered, reason := saved.peak, saved.triggered == Some(true), saved.reason;
    }
  }

  function Feed(cfg: GuardConfig, g: Guard, readings: seq<real>): Guard {
    if readings == [] then g
    else Updated(cfg, Feed(cfg, g, readings[..|readings| - 1]), readings[|readings| - 1])
  }

  ghost predicate DropAt(pct: real, v: seq<real>, i: nat, j: nat) {
    i < j < |v| && v[i] > 0.0 && Drop(v[i], v[j]) >= pct
  }

  /** Some positive reading is followed, at any distance, by one at least `pct` percent below it. */
  ghost predicate SomeDrop(pct: real, v: seq<real>) {
    exists i: nat, j: nat :: DropAt(pct, v, i, j)
  }

  lemma {:induction false} DropThreshold(from: real, now: real, pct: real)
    requires from > 0.0
    ensures Drop(from, now) >= pct <==> now <= from * (1.0 - pct / 100.0)
  {
    var q := (from - now) / from;
    assert from - now == q * from;
    var t := pct / 100.0;
    assert from * (1.0 - t) == from - t * from;
    if q >= t { assert q * from >= t * from; } else { assert q * from < t * from; }
  }

  /** A drop from a higher start is at least as deep, measured against a threshold of at most 100 percent. */
  lemma {:induction false} DropFromHigher(low: real, high: real, now: real, pct: real)
    requires 0.0 < low <= high && pct <= 100.0
    ensures Drop(low, now) >= pct ==> Drop(high, now) >= pct
  {
    DropThreshold(low, now, pct);
    DropThreshold(high, now, pct);
    var k := 1.0 - pct / 100.0;
    assert k >= 0.0;
    assert low * k <= high * k;
  }

  ghost predicate IsMax(v: seq<real>, m: real) {
    m in v && forall i :: 0 <= i < |v| ==> v[i] <= m
  }

  lemma {:induction false} SomeDropExtends(pct: real, v: seq<real>, now: real)
    ensures SomeDrop(pct, v) ==> SomeDrop(pct, v + [now])
  {
    if SomeDrop(pct, v) {
      var i: nat, j: nat :| DropAt(pct, v, i, j);
      assert DropAt(pct, v + [now], i, j);
    }
  }

  /** A new reading creates a drop exactly when it is far enough below the running maximum. */
  lemma {:induction false} NewDropIsFromMax(pct: real, v: seq<real>, m: real, now: real)
    requires 0.0 < pct <= 100.0 && IsMax(v, m) && !SomeDrop(pct, v)
    ensures SomeDrop(pct, v + [now]) <==> m > 0.0 && Drop(m, now) >= pct
  {
    var w, n := v + [now], |v|;
    if m > 0.0 && Drop(m, now) >= pct {
      var i :| 0 <= i < |v| && v[i] == m;
      assert DropAt(pct, w, i, n);
    }
    if SomeDrop(pct, w) {
      var i := DropIsNew(pct, v, now);
      assert v[i] <= m;
      DropFromHigher(v[i], m, now, pct);
    }
  }

  /** If a reading completes the first drop of a series, it is the drop's lower end. */
  lemma {:induction false} DropIsNew(pct: real, v: seq<real>, now: real) returns (i: nat)
    requires SomeDrop(pct, v + [now]) && !SomeDrop(pct, v)
    ensures i < |v| && v[i] > 0.0 && Drop(v[i], now) >= pct
  {
    var w := v + [now];
    var k: nat, j: nat :| DropAt(pct, w, k, j);
    i := k;
    assert w[i] == v[i];
    assert !DropAt(pct, v, i, j);
  }

  lemma {:induction false} MaxExtends(v: seq<real>, m: real, now: real)
    requires IsMax(v, m)
    ensures IsMax(v + [now], if now > m then now else m)
  {
    assert (v + [now])[|v|] == now;
    var i :| 0 <= i < |v| && v[i] == m;
    assert (v + [now])[i] == m;
  }

  lemma {:induction false} NegativeDrop(m: real, now: real, pct: real)
    requires m > 0.0 && pct > 0.0 && now > m
    ensures Drop(m, now) < pct
  {
    DropThreshold(m, now, pct);
    assert m * (1.0 - pct / 100.0) == m - m * (pct / 100.0);
    assert m * (pct / 100.0) > 0.0;
  }

  /** What the guard knows of the readings it was fed. */
  ghost predicate Watches(pct: real, g: Guard, readings: seq<real>) {
    && (g.triggered <==> SomeDrop(pct, readings))
    && (!g.triggered && readings != [] ==> g.peak.Some? && IsMax(readings, g.peak.value))
    && (readings == [] ==> g == FRESH)
  }

  lemma {:induction false} FirstReading(cfg: GuardConfig, now: real)
    requires cfg.enabled && cfg.Valid()
    ensures Watches(cfg.maxPct, Updated(cfg, FRESH, now), [now])
  {
    assert IsMax([now], now);
  }

  lemma {:induction false} NextReading(cfg: GuardConfig, g: Guard, readings: seq<real>, now: real)
    requires cfg.enabled && cfg.Valid() && Watches(cfg.maxPct, g, readings) && readings != []
    ensures Watches(cfg.maxPct, Updated(cfg, g, now), readings + [now])
  {
    SomeDropExtends(cfg.maxPct, readings, now);
    if !g.triggered {
      var m := g.peak.value;
      NewDropIsFromMax(cfg.maxPct, readings, m, now);
      MaxExtends(readings, m, now);
      if now > m && m > 0.0 {
        NegativeDrop(m, now, cfg.maxPct);
      }
    }
  }

  /**
   The latched running-peak test is the brute-force pairwise test: fed any readings from a
   reset, an enabled guard is triggered exactly when some earlier reading dominates a later
   one by the configured percentage.
   */
  lemma {:induction false} TriggeredIffPairwise(cfg: GuardConfig, readings: seq<real>)
    requires cfg.enabled && cfg.Valid()
    ensures Watches(cfg.maxPct, Feed(cfg, FRESH, readings), readings)
    ensures Feed(cfg, FRESH, readings).triggered <==> SomeDrop(cfg.maxPct, readings)
    decreases |readings|
  {
    if readings != [] {
      var front, now := readings[..|readings| - 1], readings[|readings| - 1];
      assert readings == front + [now];
      TriggeredIffPairwise(cfg, front);
      if front == [] {
        FirstReading(cfg, now);
      } else {
        NextReading(cfg, Feed(cfg, FRESH, front), front, now);
      }
    }
  }

  /** A disabled guard never triggers. */
  lemma {:induction false} DisabledNeverTriggers(cfg: GuardConfig, readings: seq<real>)
    requires !cfg.enabled
    ensures Feed(cfg, FRESH, readings) == FRESH
    decreases |readings|
  {
    if readings != [] {
      DisabledNeverTriggers(cfg, readings[..|readings| - 1]);
    }
  }

  // ---- The report ----------------------------------------------------------------------

  datatype Walk = Walk(balance: real, peak: real, maxDd: real)

  function WalkStep(w: Walk, pnl: real): Walk {
    var balance := w.balance + pnl;
    var peak := if balance > w.peak then balance else w.peak;
    Walk(balance, peak,
         if peak > 0.0 && (peak - balance) / peak * 100.0 > w.maxDd then (peak - balance) / peak * 100.0 else w.maxDd)
  }

  function WalkOver(initial: real, pnls: seq<real>): Walk {
    if pnls == [] then Walk(initial, initial, 0.0)
    else WalkStep(WalkOver(initial, pnls[..|pnls| - 1]), pnls[|pnls| - 1])
  }

  method CalcMaxDrawdown(initial: real, pnls: seq<real>) returns (maxDd: real)
    ensures maxDd == WalkOver(initial, pnls).maxDd
  {
    if pnls == [] {
      return 0.0;
    }
    var peak, balance := initial, initial;
    maxDd := 0.0;
    for i := 0 to |pnls|
      invariant Walk(balance, peak, maxDd) == WalkOver(initial, pnls[..i])
    {
      assert pnls[..i + 1][..i] == pnls[..i];
      balance := balance + pnls[i];
      if balance > peak {
        peak := balance;
      }
      if peak > 0.0 {
        var drawdown := (peak - balance) / peak * 100.0;
        if drawdown > maxDd {
          maxDd := drawdown;
        }
      }
    }
    assert pnls[..|pnls|] == pnls;
  }

  /** The running balances, the initial one first. */
  function Balances(initial: real, pnls: seq<real>): (v: seq<real>)
    ensures |v| == |pnls| + 1
  {
    if pnls == [] then [initial]
    else
      var front := Balances(initial, pnls[..|pnls| - 1]);
      front + [front[|front| - 1] + pnls[|pnls| - 1]]
  }

  /** The walk stands at the last balance, and its peak is the largest. */
  lemma {:induction false} WalkIsBalances(initial: real, pnls: seq<real>)
    ensures var (w, v) := (WalkOver(initial, pnls), Balances(initial, pnls));
            w.balance == v[|v| - 1] && IsMax(v, w.peak) && w.maxDd >= 0.0
    decreases |pnls|
  {
    if pnls == [] {
      assert Balances(initial, pnls)[0] == initial;
    } else {
      var front := pnls[..|pnls| - 1];
      WalkIsBalances(initial, front);
      MaxExtends(Balances(initial, front), WalkOver(initial, front).peak, WalkOver(initial, pnls).balance);
    }
  }

  /**
   For every threshold up to 100 percent, the reported maximum drawdown reaches it exactly
   when some pair of running balances does, whatever the signs of the balances.
   */
  lemma {:induction false} ReportReachesIffPairwise(initial: real, pnls: seq<real>, pct: real)
    requires 0.0 < pct <= 100.0
    ensures WalkOver(initial, pnls).maxDd >= pct <==> SomeDrop(pct, Balances(initial, pnls))
    decreases |pnls|
  {
    if pnls == [] {
      assert |Balances(initial, pnls)| == 1;
    } else {
      var front := pnls[..|pnls| - 1];
      ReportReachesIffPairwise(initial, front, pct);
      WalkIsBalances(initial, front);
      var w, v, now := WalkOver(initial, front), Balances(initial, front), WalkOver(initial, pnls).balance;
      SomeDropExtends(pct, v, now);
      if w.maxDd < pct {
        NewDropIsFromMax(pct, v, w.peak, now);
        if now > w.peak && w.peak > 0.0 {
          NegativeDrop(w.peak, now, pct);
        }
      }
    }
  }

  /** The kill-switch fed a backtest's running balances fires exactly when the report reaches its threshold. */
  lemma {:induction false} GuardAgreesWithReport(cfg: GuardConfig, initial: real, pnls: seq<real>)
    requires cfg.enabled && cfg.Valid()
    ensures Feed(cfg, FRESH, Balances(initial, pnls)).triggered <==> WalkOver(initial, pnls).maxDd >= cfg.maxPct
  {
    TriggeredIffPairwise(cfg, Balances(initial, pnls));
    ReportReachesIffPairwise(initial, pnls, cfg.maxPct);
  }

  ghost predicate Falls(v: seq<real>, i: nat, j: nat) {
    i < j < |v| && v[i] > 0.0
  }

  /** No later value lies deeper below an earlier positive one than `dd` percent, and some pair is that deep. */
  ghost predicate LargestDrop(v: seq<real>, dd: real) {
    && (forall i: nat, j: nat :: Falls(v, i, j) ==> Drop(v[i], v[j]) <= dd)
    && (dd == 0.0 || exists i: nat, j: nat :: Falls(v, i, j) && Drop(v[i], v[j]) == dd)
  }

  function LeastPositive(v: seq<real>): (m: Option<real>)
    ensures m.Some? <==> exists i: nat :: i < |v| && v[i] > 0.0
    ensures m.Some? ==> m.value in v && m.value > 0.0 && forall i: nat :: i < |v| && v[i] > 0.0 ==> m.value <= v[i]
  {
    if v == [] then None
    else
      var (m, x) := (LeastPositive(v[1..]), v[0]);
      assert forall i: nat :: 0 < i < |v| ==> v[i] == v[1..][i - 1];
      assert forall i: nat :: i < |v| - 1 ==> v[1..][i] == v[i + 1];
      if x > 0.0 && (m.None? || x < m.value) then Some(x) else m
  }

  /** The report is zero or one of the pairwise drops. */
  lemma {:induction false} ReportIsAttained(initial: real, pnls: seq<real>)
    ensures var (dd, v) := (WalkOver(initial, pnls).maxDd, Balances(initial, pnls));
            dd == 0.0 || exists i: nat, j: nat :: Falls(v, i, j) && Drop(v[i], v[j]) == dd
    decreases |pnls|
  {
    if pnls != [] {
      var front := pnls[..|pnls| - 1];
      ReportIsAttained(initial, front);
      WalkIsBalances(initial, front);
      var w, v0, v := WalkOver(initial, front), Balances(initial, front), Balances(initial, pnls);
      var dd := WalkOver(initial, pnls).maxDd;
      assert forall k :: 0 <= k < |v0| ==> v[k] == v0[k];
      if dd == w.maxDd {
        if dd != 0.0 {
          var i: nat, j: nat :| Falls(v0, i, j) && Drop(v0[i], v0[j]) == dd;
          assert Falls(v, i, j) && Drop(v[i], v[j]) == dd;
        }
      } else {
        var i: nat :| i < |v0| && v0[i] == w.peak;
        assert Falls(v, i, |v0|) && Drop(v[i], v[|v0|]) == dd;
      }
    }
  }

  /** No drop to a balance that is not negative exceeds the report. */
  lemma {:induction false} SolventDropReported(initial: real, pnls: seq<real>, i: nat, j: nat)
    requires Falls(Balances(initial, pnls), i, j) && Balances(initial, pnls)[j] >= 0.0
    ensures Drop(Balances(initial, pnls)[i], Balances(initial, pnls)[j]) <= WalkOver(initial, pnls).maxDd
  {
    var v := Balances(initial, pnls);
    var pct := Drop(v[i], v[j]);
    WalkIsBalances(initial, pnls);
    BelowZero(v[i], v[j]);
    if pct > 0.0 {
      assert DropAt(pct, v, i, j);
      ReportReachesIffPairwise(initial, pnls, pct);
    }
  }

  lemma {:induction false} Scale(k: real, a: real, b: real)
    requires k > 0.0 && a <= b
    ensures k * a <= k * b && (a < b ==> k * a < k * b)
  {
  }

  lemma {:induction false} DropFromLower(low: real, high: real, now: real)
    requires 0.0 < low <= high && now < 0.0
    ensures Drop(high, now) <= Drop(low, now)
  {
    var (a, b) := ((low - now) / low, (high - now) / high);
    assert a * low == low - now && b * high == high - now;
    if a < b {
      assert (b - 1.0) * high == -now && (a - 1.0) * low == -now;
      BelowZero(low, now);
      Scale(a - 1.0, low, high);
      Scale(high, a - 1.0, b - 1.0);
    }
  }

  /** The largest value up to and including the k-th. */
  function PeakAt(v: seq<real>, k: nat): real
    requires k < |v|
  {
    if k == 0 || v[k] > PeakAt(v, k - 1) then v[k] else PeakAt(v, k - 1)
  }

  /** How far the k-th value lies below the running peak. */
  function PeakDrop(v: seq<real>, k: nat): real
    requires k < |v| && PeakAt(v, k) > 0.0
  {
    Drop(PeakAt(v, k), v[k])
  }

  lemma {:induction false} PeakAtPrefix(v: seq<real>, now: real, k: nat)
    requires k < |v|
    ensures PeakAt(v + [now], k) == PeakAt(v, k)
  {
    if k > 0 { PeakAtPrefix(v, now, k - 1); }
  }

  ghost predicate SomePeakDrop(v: seq<real>, dd: real) {
    exists k: nat :: k < |v| && PeakAt(v, k) > 0.0 && PeakDrop(v, k) == dd
  }

  /** A walk that stands at the end of these values: its figure is the deepest fall below the running peak. */
  ghost predicate PeakReport(w: Walk, v: seq<real>) {
    && v != [] && w.peak == PeakAt(v, |v| - 1) && w.balance == v[|v| - 1]
    && (forall k: nat :: k < |v| && PeakAt(v, k) > 0.0 ==> PeakDrop(v, k) <= w.maxDd)
    && (w.maxDd != 0.0 ==> SomePeakDrop(v, w.maxDd))
  }

  /** Earlier peaks are as they were. */
  lemma {:induction false} PeaksExtend(v: seq<real>, now: real)
    requires v != []
    ensures forall k: nat :: k < |v| ==> PeakAt(v + [now], k) == PeakAt(v, k) && (v + [now])[k] == v[k]
    ensures PeakAt(v + [now], |v|) == if now > PeakAt(v, |v| - 1) then now else PeakAt(v, |v| - 1)
  {
    forall k: nat | k < |v|
      ensures PeakAt(v + [now], k) == PeakAt(v, k)
    {
      PeakAtPrefix(v, now, k);
    }
  }

  lemma {:induction false} PeakReportStep(w: Walk, v: seq<real>, w': Walk, v': seq<real>)
    requires PeakReport(w, v) && v' == v + [w'.balance] && w' == WalkStep(w, w'.balance - w.balance)
    ensures PeakReport(w', v')
  {
    var n := |v|;
    PeaksExtend(v, w'.balance);
    if w'.maxDd == w.maxDd {
      if w'.maxDd != 0.0 {
        var k: nat :| k < |v| && PeakAt(v, k) > 0.0 && PeakDrop(v, k) == w.maxDd;
        assert k < |v'| && PeakAt(v', k) > 0.0 && PeakDrop(v', k) == w'.maxDd;
      }
    } else {
      assert PeakDrop(v', n) == w'.maxDd;
    }
    forall k: nat | k < |v'| && PeakAt(v', k) > 0.0
      ensures PeakDrop(v', k) <= w'.maxDd
    {
      if k < n {
        assert PeakDrop(v', k) == PeakDrop(v, k);
      }
    }
  }

  lemma {:induction false} ReportIsPeakDrop(initial: real, pnls: seq<real>)
    ensures PeakReport(WalkOver(initial, pnls), Balances(initial, pnls))
    decreases |pnls|
  {
    if pnls == [] {
      assert Balances(initial, pnls) == [initial];
    } else {
      var front := pnls[..|pnls| - 1];
      ReportIsPeakDrop(initial, front);
      var w0, w := WalkOver(initial, front), WalkOver(initial, pnls);
      assert Balances(initial, pnls) == Balances(initial, front) + [w.balance];
      PeakReportStep(w0, Balances(initial, front), w, Balances(initial, pnls));
    }
  }

  /** Some value lies at least `pct` percent below its running peak. */
  ghost predicate PeakDropReaches(v: seq<real>, pct: real) {
    exists k: nat :: k < |v| && PeakAt(v, k) > 0.0 && PeakDrop(v, k) >= pct
  }

  /**
   Every negative balance lies no further below the smallest positive one before it than
   some balance lies below its running peak.
   */
  ghost predicate DebtsWithin(v: seq<real>) {
    forall j: nat :: j < |v| && v[j] < 0.0 && LeastPositive(v[..j]).Some?
                     ==> PeakDropReaches(v, Drop(LeastPositive(v[..j]).value, v[j]))
  }

  /**
   The reported maximum drawdown is the largest pairwise drop exactly when every negative
   balance lies no further below the smallest positive one before it than some balance lies
   below its running peak.
   */
  lemma {:induction false} ReportIsLargestDropIff(initial: real, pnls: seq<real>)
    ensures LargestDrop(Balances(initial, pnls), WalkOver(initial, pnls).maxDd)
            <==> DebtsWithin(Balances(initial, pnls))
  {
    var dd, v := WalkOver(initial, pnls).maxDd, Balances(initial, pnls);
    ReportIsAttained(initial, pnls);
    ReportIsPeakDrop(initial, pnls);
    if LargestDrop(v, dd) {
      LargestCoversDebts(v, dd);
    }
    if DebtsWithin(v) {
      forall i: nat, j: nat | Falls(v, i, j) ensures Drop(v[i], v[j]) <= dd {
        if v[j] >= 0.0 {
          SolventDropReported(initial, pnls, i, j);
        } else {
          assert v[..j][i] == v[i];
          var low := LeastPositive(v[..j]).value;
          DropFromLower(low, v[i], v[j]);
          var k: nat :| k < |v| && PeakAt(v, k) > 0.0 && PeakDrop(v, k) >= Drop(low, v[j]);
        }
      }
    }
  }

  lemma {:induction false} LargestCoversDebts(v: seq<real>, dd: real)
    requires LargestDrop(v, dd) && (dd != 0.0 ==> SomePeakDrop(v, dd))
    ensures DebtsWithin(v)
  {
    forall j: nat | j < |v| && v[j] < 0.0 && LeastPositive(v[..j]).Some?
      ensures PeakDropReaches(v, Drop(LeastPositive(v[..j]).value, v[j]))
    {
      var low := LeastPositive(v[..j]).value;
      var i: nat :| i < j && v[..j][i] == low;
      assert Falls(v, i, j);
      BelowZero(low, v[j]);
      assert dd != 0.0;
      var k: nat :| k < |v| && PeakAt(v, k) > 0.0 && PeakDrop(v, k) == dd;
    }
  }

  /** While no running balance is negative the report is the largest drop, and at most 100 percent. */
  lemma {:induction false} SolventReportIsLargestDrop(initial: real, pnls: seq<real>)
    requires forall j :: 0 <= j <= |pnls| ==> Balances(initial, pnls)[j] >= 0.0
    ensures LargestDrop(Balances(initial, pnls), WalkOver(initial, pnls).maxDd)
    ensures 0.0 <= WalkOver(initial, pnls).maxDd <= 100.0
  {
    ReportIsLargestDropIff(initial, pnls);
    ReportIsAttained(initial, pnls);
    var dd, v := WalkOver(initial, pnls).maxDd, Balances(initial, pnls);
    WalkIsBalances(initial, pnls);
    if dd != 0.0 {
      var i: nat, j: nat :| Falls(v, i, j) && Drop(v[i], v[j]) == dd;
      BelowZero(v[i], v[j]);
    }
  }

  lemma {:induction false} BelowZero(from: real, now: real)
    requires from > 0.0
    ensures Drop(from, now) > 100.0 <==> now < 0.0
  {
    var q := (from - now) / from;
    assert from - now == q * from;
    if q > 1.0 { assert q * from > from; } else { assert q * from <= from; }
  }

  /** Two falls below zero: 1, 10, -1 is a drop of 200 percent reported as 110, while 10, -1 is reported exactly. */
  lemma {:induction false} DebtExamples()
    ensures WalkOver(1.0, [9.0, -11.0]).maxDd == 110.0
    ensures !LargestDrop(Balances(1.0, [9.0, -11.0]), 110.0)
    ensures WalkOver(10.0, [-11.0]).maxDd == 110.0
    ensures LargestDrop(Balances(10.0, [-11.0]), 110.0)
  {
    assert [9.0, -11.0][..1] == [9.0] && [9.0][..0] == [] && [-11.0][..0] == [];
    assert WalkOver(1.0, [9.0]) == Walk(10.0, 10.0, 0.0);
    assert Balances(1.0, [9.0]) == [1.0, 10.0];
    assert Balances(1.0, [9.0, -11.0]) == [1.0, 10.0, -1.0];
    assert Falls([1.0, 10.0, -1.0], 0, 2) && Drop(1.0, -1.0) == 200.0;
    assert Balances(10.0, [-11.0]) == [10.0, -1.0];
    assert Falls([10.0, -1.0], 0, 1) && Drop(10.0, -1.0) == 110.0;
  }
}
