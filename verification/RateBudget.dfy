/**
 The cost-based token bucket (core/rate_budget.py, class CostBudget).
 */
module RateBudget {
  import opened Options
  import opened InversePerpMath

  type Bucket = (real, real)

  type Buckets = map<string, Bucket>

  datatype Limits = Limits(budget: real, refillRate: real)
  {
    predicate Valid() { budget >= 0.0 && refillRate >= 0.0 }
  }

  datatype Call = Call(key: string, cost: int, now: real)

  /** What flows in between two times; nothing when the clock has gone back. */
  function Inflow(rate: real, from: real, now: real): real {
    if now <= from then 0.0 else (now - from) * rate
  }

  function Refilled(lim: Limits, b: Bucket, now: real): real {
    Min(lim.budget, b.1 + Inflow(lim.refillRate, b.0, now))
  }

  function BucketOf(st: Buckets, key: string): Option<Bucket> {
    if key in st then Some(st[key]) else None
  }

  /** The level of a bucket; a key never seen is full. */
  function LevelOf(lim: Limits, b: Option<Bucket>, now: real): real {
    if b.None? then lim.budget else Refilled(lim, b.value, now)
  }

  function Level(lim: Limits, st: Buckets, key: string, now: real): real {
    LevelOf(lim, BucketOf(st, key), now)
  }

  predicate Granted(lim: Limits, st: Buckets, c: Call) {
    c.cost <= 0 || Level(lim, st, c.key, c.now) >= c.cost as real
  }

  /** A granted call is debited; a refused one still moves the timestamp; a free one leaves no trace. */
  function Debited(lim: Limits, st: Buckets, c: Call): Buckets {
    if c.cost <= 0 then st
    else
      var level := Level(lim, st, c.key, c.now);
      st[c.key := (c.now, if Granted(lim, st, c) then level - c.cost as real else level)]
  }

  lemma {:induction false} ElapsedIsInflow(rate: real, from: real, now: real)
    ensures Max(0.0, now - from) * rate == Inflow(rate, from, now)
  {
  }

  class CostBudget {
    const lim: Limits
    var state: Buckets

    constructor (lim: Limits)
      ensures this.lim == lim && state == map[]
    {
      this.lim, state := lim, map[];
    }

    method Consume(key: string, cost: int, now: real) returns (ok: bool)
      modifies this`state
      ensures ok == Granted(lim, old(state), Call(key, cost, now))
      ensures state == Debited(lim, old(state), Call(key, cost, now))
    {
      if cost <= 0 {
        return true;
      }
      var stamp, remaining := now, lim.budget;
      if key in state {
        stamp, remaining := state[key].0, state[key].1;
      }
      var elapsed := Max(0.0, now - stamp);
      ElapsedIsInflow(lim.refillRate, stamp, now);
      remaining := Min(lim.budget, remaining + elapsed * lim.refillRate);
      assert remaining == Level(lim, state, key, now);
      if remaining < cost as real {
        state := state[key := (now, remaining)];
        return false;
      }
      state := state[key := (now, remaining - cost as real)];
      return true;
    }

    /** For a positive cost, what peek shows decides what consume answers. */
    method Peek(key: string, now: real) returns (level: real)
      ensures level == Level(lim, state, key, now)
      ensures forall cost: int :: cost > 0 ==> (Granted(lim, state, Call(key, cost, now)) <==> level >= cost as real)
    {
      var stamp, remaining := now, lim.budget;
      if key in state {
        stamp, remaining := state[key].0, state[key].1;
      }
      var elapsed := Max(0.0, now - stamp);
      ElapsedIsInflow(lim.refillRate, stamp, now);
      level := Min(lim.budget, remaining + elapsed * lim.refillRate);
    }

    /** After a reset the key, or every key, is full again. */
    method Reset(key: Option<string>)
      modifies this`state
      ensures forall k, now :: (key.None? || key == Some(k)) ==> Level(lim, state, k, now) == lim.budget
      ensures forall k, now :: key.Some? && key.value != k ==>
                Level(lim, state, k, now) == Level(lim, old(state), k, now)
    {
      match key
      case None => state := map[];
      case Some(k) => state := state - {k};
    }
  }

  // ---- Runs ------------------------------------------------------------------------------

  function After(lim: Limits, st: Buckets, calls: seq<Call>): Buckets {
    if calls == [] then st
    else Debited(lim, After(lim, st, calls[..|calls| - 1]), calls[|calls| - 1])
  }

  /** The cost admitted for one key over a run. */
  function Admitted(lim: Limits, st: Buckets, calls: seq<Call>, key: string): real {
    if calls == [] then 0.0
    else
      var front, c := calls[..|calls| - 1], calls[|calls| - 1];
      Admitted(lim, st, front, key) + Taken(lim, After(lim, st, front), c, key)
  }

  /** The clock never goes back, from `start` on. */
  ghost predicate Forward(start: real, calls: seq<Call>) {
    && (forall i :: 0 <= i < |calls| ==> start <= calls[i].now)
    && (forall i, j :: 0 <= i < j < |calls| ==> calls[i].now <= calls[j].now)
  }

  function EndTime(start: real, calls: seq<Call>): real {
    if calls == [] then start else calls[|calls| - 1].now
  }

  lemma {:induction false} InflowGrows(rate: real, from: real, t: real, now: real)
    requires rate >= 0.0 && t <= now
    ensures 0.0 <= Inflow(rate, from, t) <= Inflow(rate, from, now) <= Inflow(rate, from, t) + Inflow(rate, t, now)
  {
    if t > from {
      assert (now - from) * rate == (t - from) * rate + (now - t) * rate;
      assert (t - from) * rate >= 0.0;
    } else if now > from {
      assert (now - t) * rate == (now - from) * rate + (from - t) * rate;
      assert (from - t) * rate >= 0.0 && (now - from) * rate >= 0.0;
    }
    if now > t { assert (now - t) * rate >= 0.0; }
  }

  lemma {:induction false} InflowAdds(rate: real, t: real, mid: real, now: real)
    requires t <= mid <= now
    ensures Inflow(rate, t, mid) + Inflow(rate, mid, now) == Inflow(rate, t, now)
  {
    assert (now - t) * rate == (mid - t) * rate + (now - mid) * rate;
  }

  /** A level never rises by more than the inflow, whichever way the clock moves. */
  lemma {:induction false} LevelRises(lim: Limits, st: Buckets, key: string, t: real, now: real)
    requires lim.Valid()
    ensures Level(lim, st, key, now) <= Level(lim, st, key, t) + Inflow(lim.refillRate, t, now)
  {
    if t <= now {
      InflowGrows(lim.refillRate, t, t, now);
      if key in st { InflowGrows(lim.refillRate, st[key].0, t, now); }
    } else if key in st {
      InflowGrows(lim.refillRate, st[key].0, now, t);
    }
  }

  /** What a call takes from one key's bucket: its cost if it is that key's and granted. */
  function Taken(lim: Limits, st: Buckets, c: Call, key: string): real {
    if c.key == key && c.cost > 0 && Granted(lim, st, c) then c.cost as real else 0.0
  }

  lemma {:induction false} LevelAtStamp(lim: Limits, b: Bucket)
    ensures Refilled(lim, b, b.0) == Min(lim.budget, b.1)
  {
  }

  /** A call touches its own key's bucket and no other. */
  lemma {:induction false} DebitAt(lim: Limits, st: Buckets, c: Call, key: string)
    requires lim.Valid()
    ensures Level(lim, Debited(lim, st, c), key, c.now) == Level(lim, st, key, c.now) - Taken(lim, st, c, key)
  {
    var st' := Debited(lim, st, c);
    if c.key == key && c.cost > 0 {
      LevelAtStamp(lim, st'[key]);
      assert Level(lim, st, key, c.now) <= lim.budget;
    } else {
      assert BucketOf(st', key) == BucketOf(st, key);
    }
  }

  /** All that flows in between consecutive calls, the first measured from `start`. */
  function TotalInflow(rate: real, start: real, calls: seq<Call>): real {
    if calls == [] then 0.0
    else
      var front, c := calls[..|calls| - 1], calls[|calls| - 1];
      TotalInflow(rate, start, front) + Inflow(rate, EndTime(start, front), c.now)
  }

  /** By how much the clock went back, all backward steps together. */
  function Backward(start: real, calls: seq<Call>): (back: real)
    ensures back >= 0.0
  {
    if calls == [] then 0.0
    else
      var front, c := calls[..|calls| - 1], calls[|calls| - 1];
      Backward(start, front) + Max(0.0, EndTime(start, front) - c.now)
  }

  /**
   Conservation, whatever the clock does: what is left and what was admitted came from the
   opening level and the inflow between consecutive calls.
   */
  lemma {:induction false} AdmittedFromInflow(lim: Limits, st: Buckets, calls: seq<Call>, key: string, start: real)
    requires lim.Valid()
    ensures Level(lim, After(lim, st, calls), key, EndTime(start, calls)) + Admitted(lim, st, calls, key)
         <= Level(lim, st, key, start) + TotalInflow(lim.refillRate, start, calls)
  {
    if calls != [] {
      var front, c := calls[..|calls| - 1], calls[|calls| - 1];
      var mid, st' := EndTime(start, front), After(lim, st, front);
      AdmittedFromInflow(lim, st, front, key, start);
      LevelRises(lim, st', key, mid, c.now);
      DebitAt(lim, st', c, key);
    }
  }

  /** The inflow is that of the time gone by and once more that of every step back. */
  lemma {:induction false} BackwardStepsArePaidAgain(rate: real, start: real, calls: seq<Call>)
    ensures TotalInflow(rate, start, calls)
         == Scaled(rate, EndTime(start, calls) - start) + Scaled(rate, Backward(start, calls))
  {
    if calls != [] {
      var front, c := calls[..|calls| - 1], calls[|calls| - 1];
      var mid := EndTime(start, front);
      BackwardStepsArePaidAgain(rate, start, front);
      ScaledAdds(rate, mid - start, c.now - mid);
      ScaledAdds(rate, Backward(start, front), Max(0.0, mid - c.now));
      ScaledAdds(rate, c.now - mid, Max(0.0, mid - c.now));
    }
  }

  function Scaled(rate: real, dt: real): real { dt * rate }

  lemma {:induction false} ScaledAdds(rate: real, a: real, b: real)
    ensures Scaled(rate, a + b) == Scaled(rate, a) + Scaled(rate, b)
    ensures Scaled(rate, 0.0) == 0.0
    ensures Inflow(rate, 0.0, a) == if a <= 0.0 then 0.0 else Scaled(rate, a)
  {
  }

  /** A clock that never goes back has no backward steps. */
  lemma {:induction false} ForwardInflow(rate: real, start: real, calls: seq<Call>)
    requires Forward(start, calls)
    ensures TotalInflow(rate, start, calls) == Inflow(rate, start, EndTime(start, calls))
    ensures Backward(start, calls) == 0.0 && start <= EndTime(start, calls)
  {
    if calls != [] {
      var front, c := calls[..|calls| - 1], calls[|calls| - 1];
      ForwardInflow(rate, start, front);
      InflowAdds(rate, start, EndTime(start, front), c.now);
    }
  }

  ghost predicate Holds(st: Buckets) { forall k :: k in st ==> st[k].1 >= 0.0 }

  lemma {:induction false} LevelNotNegative(lim: Limits, st: Buckets, key: string, now: real)
    requires lim.Valid() && Holds(st)
    ensures Level(lim, st, key, now) >= 0.0
  {
    if key in st {
      InflowGrows(lim.refillRate, st[key].0, now, now);
    }
  }

  lemma {:induction false} DebitHolds(lim: Limits, st: Buckets, c: Call)
    requires lim.Valid() && Holds(st)
    ensures Holds(Debited(lim, st, c))
  {
    LevelNotNegative(lim, st, c.key, c.now);
  }

  lemma {:induction false} NeverNegative(lim: Limits, st: Buckets, calls: seq<Call>)
    requires lim.Valid() && Holds(st)
    ensures Holds(After(lim, st, calls))
  {
    if calls != [] {
      var front := calls[..|calls| - 1];
      NeverNegative(lim, st, front);
      DebitHolds(lim, After(lim, st, front), calls[|calls| - 1]);
    }
  }

  /** Over any stretch of any run, for any clock, a key is admitted at most the budget plus that stretch's inflow. */
  lemma {:induction false} AnyClockBound(lim: Limits, st: Buckets, calls: seq<Call>, key: string)
    requires lim.Valid() && Holds(st) && calls != []
    ensures Admitted(lim, st, calls, key) <= lim.budget + TotalInflow(lim.refillRate, calls[0].now, calls)
  {
    AdmittedFromInflow(lim, st, calls, key, calls[0].now);
    assert Level(lim, st, key, calls[0].now) <= lim.budget;
    NeverNegative(lim, st, calls);
    LevelNotNegative(lim, After(lim, st, calls), key, EndTime(calls[0].now, calls));
  }

  /** While the clock does not go back, that is the budget plus the refill of the time gone by. */
  lemma {:induction false} TokenBucketBound(lim: Limits, st: Buckets, calls: seq<Call>, key: string)
    requires lim.Valid() && Holds(st) && calls != [] && Forward(calls[0].now, calls)
    ensures Admitted(lim, st, calls, key)
         <= lim.budget + Inflow(lim.refillRate, calls[0].now, calls[|calls| - 1].now)
  {
    AnyClockBound(lim, st, calls, key);
    ForwardInflow(lim.refillRate, calls[0].now, calls);
  }

  // ---- Rejections and other keys leave no trace -------------------------------------------------

  /** The run without its refused calls. */
  function Kept(lim: Limits, st: Buckets, calls: seq<Call>): seq<Call> {
    if calls == [] then []
    else
      var front, c := calls[..|calls| - 1], calls[|calls| - 1];
      Kept(lim, st, front) + if Granted(lim, After(lim, st, front), c) then [c] else []
  }

  ghost predicate StampedBefore(st: Buckets, now: real) { forall k :: k in st ==> st[k].0 <= now }

  lemma {:induction false} StaysStamped(lim: Limits, st: Buckets, calls: seq<Call>, start: real)
    requires StampedBefore(st, start) && Forward(start, calls)
    ensures StampedBefore(After(lim, st, calls), EndTime(start, calls))
  {
    if calls != [] {
      StaysStamped(lim, st, calls[..|calls| - 1], start);
    }
  }

  /** Refilling in two steps is refilling in one. */
  lemma {:induction false} RefillComposes(lim: Limits, b: Bucket, t: real, now: real)
    requires lim.Valid() && b.0 <= t <= now
    ensures Refilled(lim, (t, Refilled(lim, b, t)), now) == Refilled(lim, b, now)
  {
    InflowAdds(lim.refillRate, b.0, t, now);
    InflowGrows(lim.refillRate, t, t, now);
  }

  /** Two states that show the same level for every key from some time on. */
  ghost predicate SameLevels(lim: Limits, a: Buckets, b: Buckets, from: real) {
    forall key, now :: now >= from ==> Level(lim, a, key, now) == Level(lim, b, key, now)
  }

  lemma {:induction false} RefusalInvisible(lim: Limits, st: Buckets, c: Call, key: string, now: real)
    requires lim.Valid() && StampedBefore(st, c.now) && !Granted(lim, st, c) && now >= c.now
    ensures Level(lim, Debited(lim, st, c), key, now) == Level(lim, st, key, now)
  {
    var st' := Debited(lim, st, c);
    if key != c.key {
      assert BucketOf(st', key) == BucketOf(st, key);
    } else if key in st {
      RefillComposes(lim, st[key], c.now, now);
    } else {
      InflowGrows(lim.refillRate, c.now, c.now, now);
    }
  }

  lemma {:induction false} GrantAlike(lim: Limits, a: Buckets, b: Buckets, c: Call, key: string, now: real)
    requires Level(lim, a, c.key, c.now) == Level(lim, b, c.key, c.now)
    requires Level(lim, a, key, now) == Level(lim, b, key, now)
    ensures Granted(lim, a, c) == Granted(lim, b, c)
    ensures Level(lim, Debited(lim, a, c), key, now) == Level(lim, Debited(lim, b, c), key, now)
  {
    var x, y := Debited(lim, a, c), Debited(lim, b, c);
    if key == c.key && c.cost > 0 {
      assert BucketOf(x, key) == BucketOf(y, key);
    } else {
      assert BucketOf(x, key) == BucketOf(a, key) && BucketOf(y, key) == BucketOf(b, key);
    }
  }

  lemma {:induction false} KeptLevels(lim: Limits, st: Buckets, calls: seq<Call>, start: real)
    requires lim.Valid() && StampedBefore(st, start) && Forward(start, calls)
    ensures SameLevels(lim, After(lim, st, calls), After(lim, st, Kept(lim, st, calls)), EndTime(start, calls))
  {
    if calls != [] {
      var front, c := calls[..|calls| - 1], calls[|calls| - 1];
      var keptFront := Kept(lim, st, front);
      var all, kept := After(lim, st, front), After(lim, st, keptFront);
      KeptLevels(lim, st, front, start);
      StaysStamped(lim, st, front, start);
      assert (keptFront + [c])[..|keptFront|] == keptFront;
      assert keptFront + [] == keptFront;
      forall key, now | now >= c.now
        ensures Level(lim, After(lim, st, calls), key, now)
             == Level(lim, After(lim, st, Kept(lim, st, calls)), key, now)
      {
        assert Level(lim, all, key, now) == Level(lim, kept, key, now);
        assert Level(lim, all, c.key, c.now) == Level(lim, kept, c.key, c.now);
        if Granted(lim, all, c) {
          GrantAlike(lim, all, kept, c, key, now);
        } else {
          RefusalInvisible(lim, all, c, key, now);
        }
      }
    }
  }

  /** Deleting every refused call from a run changes no later answer. */
  lemma {:induction false} RejectionsAreNeutral(lim: Limits, st: Buckets, calls: seq<Call>, start: real, next: Call)
    requires lim.Valid() && StampedBefore(st, start) && Forward(start, calls) && next.now >= EndTime(start, calls)
    ensures Granted(lim, After(lim, st, calls), next) == Granted(lim, After(lim, st, Kept(lim, st, calls)), next)
  {
    KeptLevels(lim, st, calls, start);
    assert Level(lim, After(lim, st, calls), next.key, next.now)
        == Level(lim, After(lim, st, Kept(lim, st, calls)), next.key, next.now);
  }

  function OnlyKey(calls: seq<Call>, key: string): seq<Call> {
    if calls == [] then []
    else OnlyKey(calls[..|calls| - 1], key) + if calls[|calls| - 1].key == key then [calls[|calls| - 1]] else []
  }

  lemma {:induction false} SameDebit(lim: Limits, a: Buckets, b: Buckets, c: Call, key: string)
    requires BucketOf(a, key) == BucketOf(b, key)
    ensures c.key == key ==> BucketOf(Debited(lim, a, c), key) == BucketOf(Debited(lim, b, c), key)
    ensures c.key == key ==> Taken(lim, a, c, key) == Taken(lim, b, c, key)
    ensures c.key != key ==> BucketOf(Debited(lim, a, c), key) == BucketOf(a, key) && Taken(lim, a, c, key) == 0.0
  {
    assert Level(lim, a, key, c.now) == Level(lim, b, key, c.now);
  }

  /** A key's bucket, and so its answers, depend on its own calls alone. */
  lemma {:induction false} KeysAreIndependent(lim: Limits, st: Buckets, calls: seq<Call>, key: string)
    ensures BucketOf(After(lim, st, calls), key) == BucketOf(After(lim, st, OnlyKey(calls, key)), key)
    ensures Admitted(lim, st, calls, key) == Admitted(lim, st, OnlyKey(calls, key), key)
  {
    if calls != [] {
      var front, c := calls[..|calls| - 1], calls[|calls| - 1];
      var own := OnlyKey(front, key);
      KeysAreIndependent(lim, st, front, key);
      SameDebit(lim, After(lim, st, front), After(lim, st, own), c, key);
      assert (own + [c])[..|own|] == own;
      assert own + [] == own;
    }
  }

  // ---- A clock that steps back ---------------------------------------------------------------

  const TEN := Limits(10.0, 10.0)

  const SPEND := Call("k", 10, 1.0)

  const PROBE := Call("k", 1, 0.0)

  /** A whole budget spent at second 1, then `n` times a refused call at second 0 and the budget spent again. */
  function SeeSaw(n: nat): (calls: seq<Call>)
    ensures |calls| == 2 * n + 1
  {
    if n == 0 then [SPEND] else SeeSaw(n - 1) + [PROBE] + [SPEND]
  }

  const SPENT: Buckets := map["k" := (1.0, 0.0)]

  const LOW: Buckets := map["k" := (0.0, 0.0)]

  /** What a run from an empty table has come to. */
  ghost predicate Reaches(calls: seq<Call>, st: Buckets, admitted: real, inflow: real, end: real) {
    && After(TEN, map[], calls) == st
    && Admitted(TEN, map[], calls, "k") == admitted
    && TotalInflow(TEN.refillRate, 1.0, calls) == inflow
    && EndTime(1.0, calls) == end
  }

  lemma {:induction false} ReachesNext(
    calls: seq<Call>, st: Buckets, admitted: real, inflow: real, end: real, c: Call, st': Buckets, taken: real)
    requires Reaches(calls, st, admitted, inflow, end)
    requires Debited(TEN, st, c) == st' && Taken(TEN, st, c, "k") == taken
    ensures Reaches(calls + [c], st', admitted + taken, inflow + Inflow(TEN.refillRate, end, c.now), c.now)
  {
    assert (calls + [c])[..|calls|] == calls;
  }

  lemma {:induction false} FirstSpend()
    ensures Reaches(SeeSaw(0), SPENT, 10.0, 0.0, 1.0)
  {
    assert [SPEND] == [] + [SPEND];
    ReachesNext([], map[], 0.0, 0.0, 1.0, SPEND, SPENT, 10.0);
  }

  lemma {:induction false} Probed(calls: seq<Call>, admitted: real, inflow: real)
    requires Reaches(calls, SPENT, admitted, inflow, 1.0)
    ensures Reaches(calls + [PROBE], LOW, admitted, inflow, 0.0)
  {
    assert Level(TEN, SPENT, "k", 0.0) == 0.0;
    ReachesNext(calls, SPENT, admitted, inflow, 1.0, PROBE, LOW, 0.0);
  }

  lemma {:induction false} SpentAgain(calls: seq<Call>, admitted: real, inflow: real)
    requires Reaches(calls, LOW, admitted, inflow, 0.0)
    ensures Reaches(calls + [SPEND], SPENT, admitted + 10.0, inflow + 10.0, 1.0)
  {
    assert Level(TEN, LOW, "k", 1.0) == 10.0;
    ReachesNext(calls, LOW, admitted, inflow, 0.0, SPEND, SPENT, 10.0);
  }

  lemma {:induction false} SeeSawReaches(n: nat)
    ensures Reaches(SeeSaw(n), SPENT, 10.0 * n as real + 10.0, 10.0 * n as real, 1.0)
  {
    if n == 0 {
      FirstSpend();
    } else {
      var had := 10.0 * (n - 1) as real;
      SeeSawReaches(n - 1);
      Probed(SeeSaw(n - 1), had + 10.0, had);
      SpentAgain(SeeSaw(n - 1) + [PROBE], had + 10.0, had);
    }
  }

  lemma {:induction false} SeeSawTimes(n: nat)
    ensures forall i :: 0 <= i < |SeeSaw(n)| ==> 0.0 <= SeeSaw(n)[i].now <= 1.0
  {
    if n > 0 { SeeSawTimes(n - 1); }
  }

  /** The bound for any clock is reached, and within one second it has no limit: every step back is paid out again. */
  lemma {:induction false} ClockStepsBack(n: nat)
    ensures forall i :: 0 <= i < |SeeSaw(n)| ==> 0.0 <= SeeSaw(n)[i].now <= 1.0
    ensures Admitted(TEN, map[], SeeSaw(n), "k") == 10.0 * n as real + 10.0
         == TEN.budget + TotalInflow(TEN.refillRate, 1.0, SeeSaw(n))
  {
    SeeSawTimes(n);
    SeeSawReaches(n);
  }

  // ---- One call in plain arithmetic ---------------------------------------------------------------

  /** What a bucket of `left` tokens since some time holds `now`: it fills at the rate, up to the budget. */
  function Holding(lim: Limits, since: real, left: real, now: real): real {
    var filled := if now > since then left + (now - since) * lim.refillRate else left;
    if filled > lim.budget then lim.budget else filled
  }

  /** A call that costs something is granted and debited exactly when the bucket holds its cost; a new key's is full. */
  lemma {:induction false} ConsumeInFull(lim: Limits, st: Buckets, c: Call)
    requires lim.Valid()
    ensures c.cost <= 0 ==> Granted(lim, st, c) && Debited(lim, st, c) == st
    ensures c.cost > 0 ==>
              var held := if c.key in st then Holding(lim, st[c.key].0, st[c.key].1, c.now) else lim.budget;
              && (Granted(lim, st, c) <==> held >= c.cost as real)
              && Debited(lim, st, c)
                 == st[c.key := (c.now, if held >= c.cost as real then held - c.cost as real else held)]
  {
  }
}
