/**
 Failed-login counting and the per-account gate (core/user_store.py), and the wait a refused
 caller is told (web/routes/auth.py).
 The login handlers ask the gate, verify the password, and only then record the failure, so
 several attempts can be between the two at once. The handler that disables the second
 factor records failures without asking the gate. The bound below says what both cost.
 */
module LoginWindow {
  import opened Options

  const FAILED_LOGIN_WINDOW_S := 900.0
  const PER_ACCOUNT_FAIL_LIMIT := 10

  datatype LoginRow = LoginRow(count: nat, last: Option<real>)

  const CLEAN := LoginRow(0, None)

  /** A failure continues the streak unless the one before is more than the window ago. */
  function Incremented(r: LoginRow, now: real): LoginRow {
    if r.last.None? || now - r.last.value > FAILED_LOGIN_WINDOW_S then LoginRow(1, Some(now))
    else LoginRow(r.count + 1, Some(now))
  }

  predicate Limited(r: LoginRow, now: real) {
    r.count >= PER_ACCOUNT_FAIL_LIMIT && r.last.Some? && now - r.last.value < FAILED_LOGIN_WINDOW_S
  }

  /** The whole seconds the caller is told to wait. */
  function RetryAfter(r: LoginRow, now: real): int
    requires Limited(r, now)
  {
    (FAILED_LOGIN_WINDOW_S - (now - r.last.value)).Floor
  }

  class UserStore {
    var rows: map<nat, LoginRow>

    method IncrementFailedLogin(user: nat, now: real) returns (count: nat)
      modifies this`rows
      ensures user !in old(rows) ==> count == 0 && rows == old(rows)
      ensures user in old(rows) ==>
                rows == old(rows)[user := Incremented(old(rows)[user], now)] && count == rows[user].count
    {
      if user !in rows {
        return 0;
      }
      var prior := rows[user];
      var stale := prior.last.None? || now - prior.last.value > FAILED_LOGIN_WINDOW_S;
      count := if stale then 1 else prior.count + 1;
      rows := rows[user := LoginRow(count, Some(now))];
    }

    method ResetFailedLogin(user: nat) returns (done: bool)
      modifies this`rows
      ensures done <==> user in old(rows)
      ensures rows == if done then old(rows)[user := CLEAN] else old(rows)
    {
      if user !in rows {
        return false;
      }
      rows := rows[user := CLEAN];
      return true;
    }

    /** An unknown user is never limited. */
    method CheckLoginRateLimit(user: nat, now: real) returns (limited: bool, retryAfter: Option<int>)
      ensures limited <==> user in rows && Limited(rows[user], now)
      ensures retryAfter == if limited then Some(RetryAfter(rows[user], now)) else None
    {
      var row := if user in rows then rows[user] else CLEAN;
      if row.count < PER_ACCOUNT_FAIL_LIMIT {
        return false, None;
      }
      if row.last.None? {
        return false, None;
      }
      var elapsed := now - row.last.value;
      if elapsed >= FAILED_LOGIN_WINDOW_S {
        return false, None;
      }
      return true, Some((FAILED_LOGIN_WINDOW_S - elapsed).Floor);
    }
  }

  // ---- Traces of one account ----------------------------------------------------------------

  /**
   What happens to an account. `Fail`, `Drop` and `Succeed` end an attempt that passed a
   `Check`; `Ungated` is a failure recorded by a handler that asks no gate.
   */
  datatype Event = Check(now: real) | Fail(now: real) | Drop(now: real) | Succeed(now: real) | Ungated(now: real)

  datatype Account = Account(row: LoginRow, inFlight: nat)

  function Next(g: Account, e: Event): Account {
    match e
    case Check(now) => if Limited(g.row, now) then g else g.(inFlight := g.inFlight + 1)
    case Ungated(now) => g.(row := Incremented(g.row, now))
    case _ =>
      if g.inFlight == 0 then g
      else
        Account(match e
             case Fail(now) => Incremented(g.row, now)
             case Succeed(_) => CLEAN
             case _ => g.row,
             g.inFlight - 1)
  }

  /** Every other failure comes from an attempt that passed the gate; at most `most` attempts run at once. */
  ghost predicate Legal(g: Account, events: seq<Event>, most: nat)
    decreases |events|
  {
    events == [] ||
    (&& (!events[0].Check? && !events[0].Ungated? ==> g.inFlight > 0)
     && Next(g, events[0]).inFlight <= most
     && Legal(Next(g, events[0]), events[1..], most))
  }

  function Failures(events: seq<Event>): nat {
    if events == [] then 0 else (if events[0].Fail? || events[0].Ungated? then 1 else 0) + Failures(events[1..])
  }

  function UngatedIn(events: seq<Event>): nat {
    if events == [] then 0 else (if events[0].Ungated? then 1 else 0) + UngatedIn(events[1..])
  }

  /** The clock never goes back, and the whole trace is shorter than the window. */
  ghost predicate Short(start: real, events: seq<Event>) {
    && (forall i :: 0 <= i < |events| ==> start <= events[i].now < start + FAILED_LOGIN_WINDOW_S)
    && (forall i, j :: 0 <= i < j < |events| ==> events[i].now <= events[j].now)
  }

  ghost predicate NoSuccess(events: seq<Event>) { forall i :: 0 <= i < |events| ==> !events[i].Succeed? }

  /** From the first failure in the interval on, the streak counts every one of them. */
  ghost predicate Streak(g: Account, start: real, failed: nat) {
    failed > 0 ==> g.row.count >= failed && g.row.last.Some? && g.row.last.value >= start
  }

  /** Failures so far and attempts still running share the room the gate leaves; ungated failures make their own. */
  lemma {:induction false} RoomLeft(
    g: Account, events: seq<Event>, most: nat, start: real, failed: nat, ungated: nat)
    requires Legal(g, events, most) && Short(start, events) && NoSuccess(events) && most > 0
    requires Streak(g, start, failed) && failed + g.inFlight <= 9 + most + ungated && g.inFlight <= most
    requires g.row.last.Some? && failed > 0 && events != [] ==> g.row.last.value <= events[0].now
    ensures failed + Failures(events) <= 9 + most + ungated + UngatedIn(events)
    decreases |events|
  {
    if events != [] {
      var e, g' := events[0], Next(g, events[0]);
      assert start <= e.now < start + FAILED_LOGIN_WINDOW_S;
      var failed' := failed + if e.Fail? || e.Ungated? then 1 else 0;
      var ungated' := ungated + if e.Ungated? then 1 else 0;
      if e.Check? && failed > 0 && !Limited(g.row, e.now) {
        assert g.row.count < PER_ACCOUNT_FAIL_LIMIT;
      }
      assert Short(start, events[1..]) by {
        forall i | 0 <= i < |events[1..]|
          ensures events[1..][i] == events[i + 1]
        {
        }
      }
      RoomLeft(g', events[1..], most, start, failed', ungated');
    }
  }

  /**
   With a clock that never goes back, no interval shorter than the window without a
   successful login records more than nine failures, plus the attempts that can run at once,
   plus the failures of handlers that ask no gate: ten when attempts are handled one at a
   time and every handler asks.
   */
  lemma {:induction false} FailuresBounded(g: Account, events: seq<Event>, most: nat, start: real)
    requires Legal(g, events, most) && Short(start, events) && NoSuccess(events)
    requires most > 0 && g.inFlight <= most
    ensures Failures(events) <= PER_ACCOUNT_FAIL_LIMIT - 1 + most + UngatedIn(events)
  {
    RoomLeft(g, events, most, start, 0, 0);
  }

  /** A success forgives every failure before it: the gate is open until there are ten new ones. */
  lemma {:induction false} SuccessForgives(g: Account, now: real, later: real)
    requires g.inFlight > 0
    ensures !Limited(Next(g, Succeed(now)).row, later)
    ensures Incremented(Next(g, Succeed(now)).row, later) == LoginRow(1, Some(later))
    ensures Next(g, Drop(now)).row == g.row && Next(g, Succeed(now)).inFlight == g.inFlight - 1
  {
  }

  // ---- The bound is reached -------------------------------------------------------------------

  function Rounds(k: nat): seq<Event> { if k == 0 then [] else [Check(0.0), Fail(0.0)] + Rounds(k - 1) }

  function Checks(k: nat): seq<Event> { if k == 0 then [] else [Check(0.0)] + Checks(k - 1) }

  /** `k` gated failures and then `u` ungated ones. */
  function Fails(k: nat, u: nat): seq<Event>
    decreases k, u
  {
    if k > 0 then [Fail(0.0)] + Fails(k - 1, u)
    else if u > 0 then [Ungated(0.0)] + Fails(0, u - 1)
    else []
  }

  function Storm(most: nat, u: nat): seq<Event> { Checks(most) + Fails(most, u) }

  function Rush(most: nat, u: nat): seq<Event> { Rounds(PER_ACCOUNT_FAIL_LIMIT - 1) + Storm(most, u) }

  ghost predicate AtZero(g: Account) { g.row.count > 0 ==> g.row.last == Some(0.0) }

  lemma {:induction false} FailsRun(g: Account, k: nat, u: nat, most: nat)
    requires AtZero(g) && k <= g.inFlight <= most
    ensures Legal(g, Fails(k, u), most) && Failures(Fails(k, u)) == k + u && UngatedIn(Fails(k, u)) == u
    decreases k, u
  {
    if k > 0 {
      assert Fails(k, u)[1..] == Fails(k - 1, u);
      FailsRun(Next(g, Fail(0.0)), k - 1, u, most);
    } else if u > 0 {
      assert Fails(0, u)[1..] == Fails(0, u - 1);
      FailsRun(Next(g, Ungated(0.0)), 0, u - 1, most);
    }
  }

  lemma {:induction false} ChecksRun(g: Account, k: nat, n: nat, u: nat, most: nat)
    requires AtZero(g) && g.row.count < PER_ACCOUNT_FAIL_LIMIT && g.inFlight + k <= most && n <= g.inFlight + k
    ensures var events := Checks(k) + Fails(n, u);
            Legal(g, events, most) && Failures(events) == n + u && UngatedIn(events) == u
    decreases k
  {
    if k == 0 {
      assert Checks(0) + Fails(n, u) == Fails(n, u);
      FailsRun(g, n, u, most);
    } else {
      assert (Checks(k) + Fails(n, u))[1..] == Checks(k - 1) + Fails(n, u);
      ChecksRun(Next(g, Check(0.0)), k - 1, n, u, most);
    }
  }

  /** One attempt that passes the gate and fails, before the rest. */
  lemma {:induction false} RoundRun(g: Account, rest: seq<Event>, most: nat)
    requires g.inFlight == 0 && most > 0 && !Limited(g.row, 0.0)
    requires Legal(Account(Incremented(g.row, 0.0), 0), rest, most)
    ensures var events := [Check(0.0), Fail(0.0)] + rest;
            && Legal(g, events, most)
            && Failures(events) == 1 + Failures(rest) && UngatedIn(events) == UngatedIn(rest)
  {
    var events := [Check(0.0), Fail(0.0)] + rest;
    var last := events[1..];
    assert events[0] == Check(0.0) && last[0] == Fail(0.0) && last[1..] == rest;
    var passed := Next(g, Check(0.0));
    assert passed == Account(g.row, 1);
    assert Next(passed, Fail(0.0)) == Account(Incremented(g.row, 0.0), 0);
    assert Legal(passed, last, most);
  }

  lemma {:induction false} RoundsRun(g: Account, k: nat, most: nat, u: nat)
    requires AtZero(g) && g.inFlight == 0 && most > 0 && g.row.count + k == PER_ACCOUNT_FAIL_LIMIT - 1
    ensures var events := Rounds(k) + Storm(most, u);
            Legal(g, events, most) && Failures(events) == k + most + u && UngatedIn(events) == u
    decreases k
  {
    if k == 0 {
      assert Rounds(0) + Storm(most, u) == Storm(most, u);
      ChecksRun(g, most, most, u, most);
    } else {
      var rest := Rounds(k - 1) + Storm(most, u);
      assert Rounds(k) + Storm(most, u) == [Check(0.0), Fail(0.0)] + rest;
      RoundsRun(Account(Incremented(g.row, 0.0), 0), k - 1, most, u);
      RoundRun(g, rest, most);
    }
  }

  lemma {:induction false} AllAtZero(most: nat, u: nat, i: nat)
    requires i < |Rush(most, u)|
    ensures Rush(most, u)[i].now == 0.0 && !Rush(most, u)[i].Succeed?
  {
    RoundsAtZero(PER_ACCOUNT_FAIL_LIMIT - 1);
    ChecksAtZero(most);
    FailsAtZero(most, u);
  }

  lemma {:induction false} RoundsAtZero(k: nat)
    ensures forall i :: 0 <= i < |Rounds(k)| ==> Rounds(k)[i].now == 0.0 && !Rounds(k)[i].Succeed?
  {
    if k > 0 { RoundsAtZero(k - 1); }
  }

  lemma {:induction false} ChecksAtZero(k: nat)
    ensures forall i :: 0 <= i < |Checks(k)| ==> Checks(k)[i] == Check(0.0)
  {
    if k > 0 { ChecksAtZero(k - 1); }
  }

  lemma {:induction false} FailsAtZero(k: nat, u: nat)
    ensures forall i :: 0 <= i < |Fails(k, u)| ==> Fails(k, u)[i].now == 0.0 && !Fails(k, u)[i].Succeed?
    decreases k, u
  {
    if k > 0 { FailsAtZero(k - 1, u); } else if u > 0 { FailsAtZero(0, u - 1); }
  }

  /** A trace of a clean account that records as many failures as FailuresBounded allows. */
  ghost predicate Attains(events: seq<Event>, most: nat, u: nat) {
    && Legal(Account(CLEAN, 0), events, most) && Short(0.0, events) && NoSuccess(events)
    && UngatedIn(events) == u
    && Failures(events) == PER_ACCOUNT_FAIL_LIMIT - 1 + most + u
  }

  /**
   Nine attempts one after another, then `most` at once, then `u` failures past the gate reach
   the bound, for every `most` and `u`.
   */
  lemma {:induction false} BoundIsReached(most: nat, u: nat)
    requires most > 0
    ensures Attains(Rush(most, u), most, u)
  {
    RoundsRun(Account(CLEAN, 0), PER_ACCOUNT_FAIL_LIMIT - 1, most, u);
    forall i | 0 <= i < |Rush(most, u)|
      ensures Rush(most, u)[i].now == 0.0 && !Rush(most, u)[i].Succeed?
    {
      AllAtZero(most, u, i);
    }
  }

  // ---- The wait the caller is told --------------------------------------------------------------

  const MINUTE := 60

  /** The Retry-After header: the whole seconds rounded up to a full minute. */
  function RoundedToMinute(seconds: int): (header: int)
    ensures seconds >= 0 ==> header % MINUTE == 0 && seconds <= header < seconds + MINUTE
  {
    if seconds <= 0 then 0 else (seconds + 59) / 60 * 60
  }

  /** The time until the gate would let the account through again. */
  function Remaining(r: LoginRow, now: real): real
    requires Limited(r, now)
  {
    FAILED_LOGIN_WINDOW_S - (now - r.last.value)
  }

  lemma {:induction false} LimitedUntil(r: LoginRow, now: real, wait: real)
    requires Limited(r, now) && wait >= 0.0
    ensures Limited(r, now + wait) <==> wait < Remaining(r, now)
  {
  }

  /**
   Waiting as the header says is enough except when the remaining time is less than a second
   past a full minute: the fraction is dropped before the minute is rounded up.
   */
  lemma {:induction false} HeaderTooShortIff(r: LoginRow, now: real)
    requires Limited(r, now)
    ensures var header, left := RoundedToMinute(RetryAfter(r, now)), Remaining(r, now);
            && (Limited(r, now + header as real) <==> exists m: nat :: MinuteAnd(m, left))
            && (header == 0 <==> left < 1.0)
            && !Limited(r, now + header as real + 1.0)
  {
    var left := Remaining(r, now);
    var seconds := RetryAfter(r, now);
    var header := RoundedToMinute(seconds);
    assert 0 <= seconds && seconds as real <= left < seconds as real + 1.0;
    LimitedUntil(r, now, header as real);
    LimitedUntil(r, now, header as real + 1.0);
    if header == seconds && seconds as real < left {
      assert MinuteAnd(seconds / MINUTE, left);
    }
    if m: nat :| MinuteAnd(m, left) {
      WholeSeconds(left, MINUTE * m);
      assert seconds == MINUTE * m;
      RoundOfMinutes(m);
    }
  }

  /** `left` is past the m-th full minute by less than a second. */
  ghost predicate MinuteAnd(m: nat, left: real) {
    (MINUTE * m) as real < left < (MINUTE * m) as real + 1.0
  }

  lemma {:induction false} WholeSeconds(x: real, n: int)
    requires n as real <= x < n as real + 1.0
    ensures x.Floor == n
  {
  }

  lemma {:induction false} RoundOfMinutes(m: nat)
    ensures RoundedToMinute(MINUTE * m) == MINUTE * m
  {
  }

  // ---- What the counter counts ------------------------------------------------------------------

  /** The row after failures at these times. */
  function Failed(times: seq<real>): LoginRow {
    if times == [] then CLEAN else Incremented(Failed(times[..|times| - 1]), times[|times| - 1])
  }

  /** The last `n` failures follow each other within fifteen minutes, and the one before them does not. */
  ghost predicate LastStreak(times: seq<real>, n: nat) {
    && 0 < n <= |times|
    && (forall i :: |times| - n < i < |times| ==> times[i] - times[i - 1] <= 900.0)
    && (n < |times| ==> times[|times| - n] - times[|times| - n - 1] > 900.0)
  }

  /** The counter is the length of the last streak: a longer pause starts it afresh. */
  lemma {:induction false} CounterIsStreak(times: seq<real>) returns (n: nat)
    requires times != []
    ensures LastStreak(times, n) && Failed(times) == LoginRow(n, Some(times[|times| - 1]))
    decreases |times|
  {
    var front, last := times[..|times| - 1], |times| - 1;
    if front == [] {
      n := 1;
    } else {
      var m := CounterIsStreak(front);
      assert front[|front| - 1] == times[last - 1];
      if times[last] - times[last - 1] > 900.0 {
        n := 1;
      } else {
        n := m + 1;
        assert forall i :: 0 <= i < last ==> front[i] == times[i];
      }
    }
  }

  /** So the gate is shut exactly after ten failures in a streak, for fifteen minutes from the last. */
  lemma {:induction false} ShutIff(times: seq<real>, n: nat, now: real)
    requires LastStreak(times, n)
    ensures Limited(Failed(times), now) <==> n >= 10 && now - times[|times| - 1] < 900.0
  {
    var m := CounterIsStreak(times);
    StreakUnique(times, m, n);
  }

  lemma {:induction false} StreakUnique(times: seq<real>, m: nat, n: nat)
    requires LastStreak(times, m) && LastStreak(times, n)
    ensures m == n
  {
  }
}
