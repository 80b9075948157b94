/**
 The bounded notification queue between the tick loop and its worker
 (core/trading_engine.py, `_notify`, `_notify_worker`, and the end of `stop`).
 The machine interleaves one producer and the worker at every queue operation.
 */
module NotifyQueue {
  import opened Multisets

  type Note = int

  datatype Item = Notification(note: Note) | Sentinel

  /** Where the producer stands inside `_notify`; `attempt` counts its puts. */
  datatype Producer = Idle | Putting(note: Note, attempt: nat) | Evicting(note: Note, attempt: nat) | Closed

  datatype Worker = Waiting | Handling(note: Note) | Stopped

  /** What became of an item when it left the queue. */
  datatype Fate = Dispatched(note: Note) | Evicted(note: Note)

  /**
   `sent` lists every notification asked for and `taken` the fate of every one that left the
   queue, in the order it left; the program keeps neither.
   */
  datatype Log = Log(droppedCount: nat, dropPending: bool, sent: seq<Note>, taken: seq<Fate>)

  datatype State = State(cap: nat, queue: seq<Item>, producer: Producer, worker: Worker, log: Log)

  function Start(cap: nat): State { State(cap, [], Idle, Waiting, Log(0, false, [], [])) }

  datatype Move = Begin(note: Note) | TryPut | TryEvict | Close | Get | Finish

  function Notes(queue: seq<Item>): seq<Note> {
    if queue == [] then []
    else Notes(queue[..|queue| - 1]) + match queue[|queue| - 1] case Notification(n) => [n] case Sentinel => []
  }

  function Left(taken: seq<Fate>): (notes: seq<Note>)
    ensures |notes| == |taken|
  {
    if taken == [] then [] else Left(taken[..|taken| - 1]) + [taken[|taken| - 1].note]
  }

  function Evictions(taken: seq<Fate>): nat {
    if taken == [] then 0
    else Evictions(taken[..|taken| - 1]) + if taken[|taken| - 1].Evicted? then 1 else 0
  }

  function LogSent(log: Log, n: Note): Log { log.(sent := log.sent + [n]) }

  function LogDispatched(log: Log, n: Note): Log { log.(taken := log.taken + [Dispatched(n)]) }

  function LogEvicted(log: Log, item: Item): Log {
    Log(log.droppedCount + 1, true, log.sent,
        log.taken + match item case Notification(n) => [Evicted(n)] case Sentinel => [])
  }

  function Pushed(s: State, note: Note): State { s.(queue := s.queue + [Notification(note)], producer := Idle) }

  /** The oldest item leaves for good. */
  function HeadEvicted(s: State, note: Note, attempt: nat): State {
    if s.queue == [] then s.(producer := Putting(note, attempt))
    else s.(queue := s.queue[1..], producer := Putting(note, attempt), log := LogEvicted(s.log, s.queue[0]))
  }

  function HeadTaken(s: State): State
    requires s.queue != []
  {
    match s.queue[0]
    case Sentinel => s.(queue := s.queue[1..], worker := Stopped)
    case Notification(n) => s.(queue := s.queue[1..], worker := Handling(n), log := LogDispatched(s.log, n))
  }

  /** After a dispatch: the latch for the summary line opens again once the queue is empty. */
  function Finished(s: State): State {
    s.(worker := Waiting, log := s.log.(dropPending := s.log.dropPending && s.queue != []))
  }

  /** One queue operation of one side; a move that does not apply changes nothing. */
  function Next(s: State, m: Move): State {
    match m
    case Begin(n) => if s.producer == Idle then s.(producer := Putting(n, 1), log := LogSent(s.log, n)) else s
    case TryPut =>
      if !s.producer.Putting? then s
      else if |s.queue| < s.cap then Pushed(s, s.producer.note)
      else s.(producer := Evicting(s.producer.note, s.producer.attempt))
    case TryEvict => if s.producer.Evicting? then HeadEvicted(s, s.producer.note, s.producer.attempt + 1) else s
    case Close =>
      if s.producer == Idle && |s.queue| < s.cap then s.(queue := s.queue + [Sentinel], producer := Closed) else s
    case Get => if s.worker == Waiting && s.queue != [] then HeadTaken(s) else s
    case Finish => if s.worker.Handling? then Finished(s) else s
  }

  // ---- The invariant -------------------------------------------------------------------------

  /** The notification the producer holds but has not placed. */
  function InHand(p: Producer): seq<Note> {
    match p
    case Putting(n, _) => [n]
    case Evicting(n, _) => [n]
    case _ => []
  }

  /** Every notification is exactly one of: gone from the queue, in it, or in the producer's hand; all in order. */
  ghost predicate Accounted(log: Log, queue: seq<Item>, p: Producer) {
    && log.sent == Left(log.taken) + Notes(queue) + InHand(p)
    && log.droppedCount == Evictions(log.taken)
  }

  predicate Ends(queue: seq<Item>) { queue != [] && queue[|queue| - 1].Sentinel? }

  /** The sentinel is last and goes in once. */
  ghost predicate SentinelLast(queue: seq<Item>, p: Producer, w: Worker) {
    && (forall i :: 0 <= i < |queue| - 1 ==> queue[i].Notification?)
    && (p == Closed <==> w == Stopped || Ends(queue))
    && (w == Stopped ==> queue == [])
  }

  /** A second put finds room, so there is no third. */
  ghost predicate TwoAttempts(s: State) {
    match s.producer
    case Putting(_, attempt) => 1 <= attempt <= 2 && (attempt == 2 ==> |s.queue| < s.cap)
    case Evicting(_, attempt) => attempt == 1
    case _ => true
  }

  /** Whoever was dropped had a newer notification behind it. */
  ghost predicate OnlyOlderDropped(log: Log) {
    forall i :: 0 <= i < |log.taken| && log.taken[i].Evicted? ==> i + 1 < |log.sent|
  }

  ghost predicate HandlingTaken(w: Worker, log: Log) {
    w.Handling? ==> Dispatched(w.note) in log.taken
  }

  ghost predicate Sound(s: State) {
    && s.cap > 0 && |s.queue| <= s.cap
    && Accounted(s.log, s.queue, s.producer)
    && SentinelLast(s.queue, s.producer, s.worker)
    && TwoAttempts(s) && OnlyOlderDropped(s.log) && HandlingTaken(s.worker, s.log)
  }

  lemma {:induction false} NotesHead(queue: seq<Item>)
    requires queue != []
    ensures Notes(queue) == (match queue[0] case Notification(n) => [n] case Sentinel => []) + Notes(queue[1..])
  {
    if |queue| > 1 {
      NotesHead(queue[..|queue| - 1]);
      assert queue[..|queue| - 1][1..] == queue[1..][..|queue| - 2];
    } else {
      assert queue[..0] == [] && queue[1..] == [];
    }
  }

  lemma {:induction false} NotesSnoc(queue: seq<Item>, x: Item)
    ensures Notes(queue + [x]) == Notes(queue) + match x case Notification(n) => [n] case Sentinel => []
  {
    assert (queue + [x])[..|queue|] == queue;
  }

  lemma {:induction false} LeftSnoc(taken: seq<Fate>, f: Fate)
    ensures Left(taken + [f]) == Left(taken) + [f.note]
    ensures Evictions(taken + [f]) == Evictions(taken) + if f.Evicted? then 1 else 0
  {
    assert (taken + [f])[..|taken|] == taken;
  }

  /** The head leaving the queue keeps everything in order and accounted for. */
  lemma {:induction false} HeadMoves(log: Log, log': Log, queue: seq<Item>, p: Producer, p': Producer, f: Fate)
    requires Accounted(log, queue, p) && queue != [] && queue[0] == Notification(f.note) && InHand(p) == InHand(p')
    requires log'.sent == log.sent && log'.taken == log.taken + [f]
    requires log'.droppedCount == log.droppedCount + if f.Evicted? then 1 else 0
    ensures Accounted(log', queue[1..], p')
  {
    NotesHead(queue);
    LeftSnoc(log.taken, f);
    var a, b, c := Left(log.taken), Notes(queue[1..]), InHand(p);
    assert a + ([f.note] + b) + c == (a + [f.note]) + b + c;
  }

  lemma {:induction false} TailSentinel(queue: seq<Item>, p: Producer, w: Worker, w': Worker)
    requires SentinelLast(queue, p, w) && queue != [] && w != Stopped && w' != Stopped && queue[0].Notification?
    ensures SentinelLast(queue[1..], p, w')
  {
    forall i | 0 <= i < |queue[1..]|
      ensures queue[1..][i] == queue[i + 1]
    {
    }
  }

  lemma {:induction false} PushKeeps(log: Log, queue: seq<Item>, p: Producer, w: Worker, n: Note)
    requires Accounted(log, queue, p) && SentinelLast(queue, p, w) && InHand(p) == [n] && p != Closed
    ensures Accounted(log, queue + [Notification(n)], Idle) && SentinelLast(queue + [Notification(n)], Idle, w)
  {
    NotesSnoc(queue, Notification(n));
    assert Left(log.taken) + (Notes(queue) + [n]) + [] == Left(log.taken) + Notes(queue) + [n];
  }

  lemma {:induction false} PutKeeps(s: State)
    requires Sound(s) && s.producer.Putting?
    ensures Sound(Next(s, TryPut))
  {
    PushKeeps(s.log, s.queue, s.producer, s.worker, s.producer.note);
  }

  lemma {:induction false} TakenLess(log: Log, queue: seq<Item>, p: Producer)
    requires Accounted(log, queue, p)
    ensures |log.sent| == |log.taken| + |Notes(queue)| + |InHand(p)|
  {
  }

  lemma {:induction false} EvictKeeps(s: State)
    requires Sound(s) && s.producer.Evicting?
    ensures Sound(Next(s, TryEvict))
  {
    if s.queue != [] {
      var n, p' := s.queue[0].note, Putting(s.producer.note, s.producer.attempt + 1);
      HeadMoves(s.log, LogEvicted(s.log, s.queue[0]), s.queue, s.producer, p', Evicted(n));
      TailSentinel(s.queue, s.producer, s.worker, s.worker);
      TakenLess(s.log, s.queue, s.producer);
      NotesHead(s.queue);
      assert SentinelLast(s.queue[1..], p', s.worker);
    }
  }

  lemma {:induction false} CloseKeeps(s: State)
    requires Sound(s)
    ensures Sound(Next(s, Close))
  {
    NotesSnoc(s.queue, Sentinel);
  }

  lemma {:induction false} DispatchLogged(log: Log, n: Note)
    requires OnlyOlderDropped(log)
    ensures OnlyOlderDropped(LogDispatched(log, n)) && HandlingTaken(Handling(n), LogDispatched(log, n))
  {
    var log' := LogDispatched(log, n);
    assert log'.taken[|log.taken|] == Dispatched(n);
    forall i | 0 <= i < |log'.taken| && log'.taken[i].Evicted?
      ensures i + 1 < |log'.sent|
    {
      assert log'.taken[i] == log.taken[i];
    }
  }

  lemma {:induction false} GetKeeps(s: State)
    requires Sound(s) && s.queue != [] && s.worker == Waiting
    ensures Sound(Next(s, Get))
  {
    var t := HeadTaken(s);
    assert Next(s, Get) == t;
    match s.queue[0]
    case Sentinel =>
      NotesHead(s.queue);
      assert s.queue[1..] == [];
    case Notification(n) =>
      HeadMoves(s.log, LogDispatched(s.log, n), s.queue, s.producer, s.producer, Dispatched(n));
      TailSentinel(s.queue, s.producer, s.worker, Handling(n));
      DispatchLogged(s.log, n);
  }

  lemma {:induction false} NextKeeps(s: State, m: Move)
    requires Sound(s)
    ensures Sound(Next(s, m))
  {
    match m
    case TryPut => if s.producer.Putting? { PutKeeps(s); }
    case TryEvict => if s.producer.Evicting? { EvictKeeps(s); }
    case Close => CloseKeeps(s);
    case Get =>
      if s.worker == Waiting && s.queue != [] {
        GetKeeps(s);
      }
    case _ =>
  }

  // ---- Every interleaving ------------------------------------------------------------------------

  function Run(cap: nat, moves: seq<Move>): State {
    if moves == [] then Start(cap) else Next(Run(cap, moves[..|moves| - 1]), moves[|moves| - 1])
  }

  lemma {:induction false} EveryMomentSound(cap: nat, moves: seq<Move>)
    requires cap > 0
    ensures Sound(Run(cap, moves))
  {
    if moves != [] {
      EveryMomentSound(cap, moves[..|moves| - 1]);
      NextKeeps(Run(cap, moves[..|moves| - 1]), moves[|moves| - 1]);
    }
  }

  // ---- Was the drop needed? ------------------------------------------------------------------------

  /** How often the worker took something from the queue. */
  function Takes(cap: nat, moves: seq<Move>): nat {
    if moves == [] then 0
    else
      var front, s := moves[..|moves| - 1], Run(cap, moves[..|moves| - 1]);
      Takes(cap, front) + if moves[|moves| - 1] == Get && s.worker == Waiting && s.queue != [] then 1 else 0
  }

  /** The run up to and including a put that fails. */
  ghost predicate PutFails(cap: nat, moves: seq<Move>) {
    && moves != [] && moves[|moves| - 1] == TryPut
    && var s := Run(cap, moves[..|moves| - 1]);
       s.producer.Putting? && |s.queue| == cap
  }

  lemma {:induction false} OneMoreMove(cap: nat, moves: seq<Move>, m: Move)
    ensures Run(cap, moves + [m]) == Next(Run(cap, moves), m)
    ensures var s := Run(cap, moves);
            Takes(cap, moves + [m])
            == Takes(cap, moves) + if m == Get && s.worker == Waiting && s.queue != [] then 1 else 0
  {
    assert (moves + [m])[..|moves|] == moves;
  }

  /** Between the failed put and its eviction only the worker's takes change the queue. */
  lemma {:induction false} OnlyTakesBetween(cap: nat, before: seq<Move>, between: seq<Move>)
    requires cap > 0 && PutFails(cap, before) && TryEvict !in between
    ensures var t := Run(cap, before + between);
            && t.producer.Evicting? && t.cap == cap
            && |t.queue| + Takes(cap, before + between) == cap + Takes(cap, before)
    decreases |between|
  {
    if between == [] {
      var front := before[..|before| - 1];
      assert before + between == before && before == front + [TryPut];
      CapFixed(cap, front);
      OneMoreMove(cap, front, TryPut);
    } else {
      var front, m := between[..|between| - 1], between[|between| - 1];
      assert before + between == (before + front) + [m];
      OnlyTakesBetween(cap, before, front);
      OneMoreMove(cap, before + front, m);
    }
  }

  lemma {:induction false} CapFixed(cap: nat, moves: seq<Move>)
    ensures Run(cap, moves).cap == cap
  {
    if moves != [] {
      CapFixed(cap, moves[..|moves| - 1]);
    }
  }

  /**
   The eviction does not look again. On every run, when it comes after a failed put the queue
   is still full, so that the drop is needed, exactly when the worker took nothing in between;
   what it drops is the head either way.
   */
  lemma {:induction false} DropWasNeededIff(cap: nat, before: seq<Move>, between: seq<Move>)
    requires cap > 0 && PutFails(cap, before) && TryEvict !in between
    ensures var t, u := Run(cap, before + between), Run(cap, before + between + [TryEvict]);
            && (|t.queue| == cap <==> Takes(cap, before + between) == Takes(cap, before))
            && |u.queue| == (if t.queue == [] then 0 else |t.queue| - 1)
            && u.log.droppedCount == t.log.droppedCount + (if t.queue == [] then 0 else 1)
  {
    OnlyTakesBetween(cap, before, between);
    OneMoreMove(cap, before + between, TryEvict);
  }

  /** Move k of the run drops an item. */
  ghost predicate DropsAt(cap: nat, moves: seq<Move>, k: nat)
    requires k < |moves|
  {
    var s := Run(cap, moves[..k]);
    moves[k] == TryEvict && s.producer.Evicting? && s.queue != []
  }

  /** Move k ends a dispatch with nothing left in the queue. */
  ghost predicate DrainsAt(cap: nat, moves: seq<Move>, k: nat)
    requires k < |moves|
  {
    var s := Run(cap, moves[..k]);
    moves[k] == Finish && s.worker.Handling? && s.queue == []
  }

  /** Some drop has not been followed by a drained queue. */
  ghost predicate Undrained(cap: nat, moves: seq<Move>) {
    exists k :: 0 <= k < |moves| && DropsAt(cap, moves, k) && NoDrainAfter(cap, moves, k)
  }

  ghost predicate NoDrainAfter(cap: nat, moves: seq<Move>, k: nat) {
    forall j :: k < j < |moves| ==> !DrainsAt(cap, moves, j)
  }

  lemma {:induction false} SamePrefix(cap: nat, front: seq<Move>, m: Move, k: nat)
    requires k < |front|
    ensures DropsAt(cap, front + [m], k) == DropsAt(cap, front, k)
    ensures DrainsAt(cap, front + [m], k) == DrainsAt(cap, front, k)
  {
    assert (front + [m])[..k] == front[..k];
  }

  lemma {:induction false} DrainSnoc(cap: nat, front: seq<Move>, m: Move, k: nat)
    requires k < |front|
    ensures NoDrainAfter(cap, front + [m], k)
            <==> NoDrainAfter(cap, front, k) && !DrainsAt(cap, front + [m], |front|)
  {
    forall j | k < j < |front|
      ensures DrainsAt(cap, front + [m], j) == DrainsAt(cap, front, j)
    {
      SamePrefix(cap, front, m, j);
    }
  }

  lemma {:induction false} UndrainedSnoc(cap: nat, front: seq<Move>, m: Move)
    ensures Undrained(cap, front + [m])
            <==> DropsAt(cap, front + [m], |front|)
                 || (Undrained(cap, front) && !DrainsAt(cap, front + [m], |front|))
  {
    var moves, n := front + [m], |front|;
    if DropsAt(cap, moves, n) {
      assert NoDrainAfter(cap, moves, n);
    }
    if k :| 0 <= k < n && DropsAt(cap, moves, k) && NoDrainAfter(cap, moves, k) {
      SamePrefix(cap, front, m, k);
      DrainSnoc(cap, front, m, k);
    }
    if k :| 0 <= k < n && DropsAt(cap, front, k) && NoDrainAfter(cap, front, k) {
      SamePrefix(cap, front, m, k);
      DrainSnoc(cap, front, m, k);
    }
  }

  /** The latch after one move. */
  lemma {:induction false} LatchMoves(cap: nat, front: seq<Move>, m: Move)
    ensures Run(cap, front + [m]).log.dropPending
            <==> DropsAt(cap, front + [m], |front|)
                 || (Run(cap, front).log.dropPending && !DrainsAt(cap, front + [m], |front|))
  {
    OneMoreMove(cap, front, m);
    assert (front + [m])[..|front|] == front;
  }

  /** The latch for the summary line is shut exactly while some drop has not been followed by a drained queue. */
  lemma {:induction false} LatchIff(cap: nat, moves: seq<Move>)
    ensures Run(cap, moves).log.dropPending <==> Undrained(cap, moves)
    decreases |moves|
  {
    if moves != [] {
      var front, m := moves[..|moves| - 1], moves[|moves| - 1];
      LatchIff(cap, front);
      assert moves == front + [m];
      UndrainedSnoc(cap, front, m);
      LatchMoves(cap, front, m);
    }
  }

  const FILLED := [Begin(1), TryPut, Begin(2), TryPut, Begin(3), TryPut]

  lemma {:induction false} FilledRun()
    ensures Run(2, FILLED) == State(2, [Notification(1), Notification(2)], Evicting(3, 1), Waiting,
                                    Log(0, false, [1, 2, 3], []))
    ensures PutFails(2, FILLED)
  {
    var one, two := [Begin(1), TryPut], [Begin(1), TryPut, Begin(2), TryPut];
    assert [] + [Begin(1)] == [Begin(1)] && [Begin(1)] + [TryPut] == one;
    OneMoreMove(2, [], Begin(1));
    OneMoreMove(2, [Begin(1)], TryPut);
    assert one + [Begin(2)] + [TryPut] == two;
    OneMoreMove(2, one, Begin(2));
    OneMoreMove(2, one + [Begin(2)], TryPut);
    assert two + [Begin(3)] + [TryPut] == FILLED && FILLED[..5] == two + [Begin(3)];
    OneMoreMove(2, two, Begin(3));
    OneMoreMove(2, two + [Begin(3)], TryPut);
  }

  /** A drop that was not needed: the worker makes room first, and the second notification is lost all the same. */
  lemma {:induction false} NeedlessDrop()
    ensures PutFails(2, FILLED)
    ensures |Run(2, FILLED + [Get]).queue| == 1
    ensures Run(2, FILLED + [Get] + [TryEvict]).log.taken == [Dispatched(1), Evicted(2)]
  {
    FilledRun();
    OneMoreMove(2, FILLED, Get);
    OneMoreMove(2, FILLED + [Get], TryEvict);
  }

  /** The notifications handed to the notifier, in the order they were. */
  function Delivered(taken: seq<Fate>): seq<Note> {
    if taken == [] then []
    else
      var last := taken[|taken| - 1];
      Delivered(taken[..|taken| - 1]) + if last.Dispatched? then [last.note] else []
  }

  function Dropped(taken: seq<Fate>): seq<Note> {
    if taken == [] then []
    else
      var last := taken[|taken| - 1];
      Dropped(taken[..|taken| - 1]) + if last.Evicted? then [last.note] else []
  }

  lemma {:induction false} Fates(taken: seq<Fate>)
    ensures multiset(Delivered(taken)) + multiset(Dropped(taken)) == multiset(Left(taken))
    ensures |Dropped(taken)| == Evictions(taken)
  {
    if taken != [] {
      var front, last := taken[..|taken| - 1], taken[|taken| - 1];
      Fates(front);
      Shuffle(multiset(Delivered(front)), multiset(Dropped(front)), multiset{last.note});
    }
  }

  /** Delivery follows the order of asking: with the drops put back, delivered and queued items are what was sent. */
  lemma {:induction false} FirstInFirstOut(cap: nat, moves: seq<Move>)
    requires cap > 0
    ensures var s := Run(cap, moves);
            && Left(s.log.taken) + Notes(s.queue) <= s.log.sent
            && |s.queue| <= cap
            && s.log.droppedCount == |Dropped(s.log.taken)|
            && forall i :: 0 <= i < |s.log.taken| && s.log.taken[i].Evicted? ==> i + 1 < |s.log.sent|
  {
    EveryMomentSound(cap, moves);
    CapFixed(cap, moves);
    Fates(Run(cap, moves).log.taken);
  }

  /** When the sentinel ends the worker, every notification ever sent was dispatched or dropped. */
  lemma {:induction false} DrainedWhenStopped(cap: nat, moves: seq<Move>)
    requires cap > 0 && Run(cap, moves).worker == Stopped
    ensures var s := Run(cap, moves);
            && Left(s.log.taken) == s.log.sent
            && multiset(Delivered(s.log.taken)) + multiset(Dropped(s.log.taken)) == multiset(s.log.sent)
            && |s.log.sent| == |Delivered(s.log.taken)| + s.log.droppedCount
  {
    EveryMomentSound(cap, moves);
    var s := Run(cap, moves);
    Fates(s.log.taken);
    assert |multiset(s.log.sent)| == |s.log.sent|;
    var delivered, dropped := Delivered(s.log.taken), Dropped(s.log.taken);
    assert |multiset(delivered) + multiset(dropped)| == |delivered| + |dropped|;
  }

  /** No `_notify` makes a third put, whatever the worker does in between. */
  lemma {:induction false} AtMostTwoPuts(cap: nat, moves: seq<Move>)
    requires cap > 0 && Run(cap, moves).producer.Putting?
    ensures var s := Run(cap, moves);
            && s.producer.attempt <= 2
            && (s.producer.attempt == 2 ==> Next(s, TryPut).producer == Idle)
  {
    EveryMomentSound(cap, moves);
  }

  // ---- The same operations on the engine's fields -------------------------------------------------

  /** What the worker does while the producer is between two queue operations. */
  datatype WorkerMove = Takes | Finishes

  class Notifier {
    var state: State

    ghost predicate Valid()
      reads this
    {
      Sound(state)
    }

    constructor (cap: nat)
      requires cap > 0
      ensures Valid() && state == Start(cap)
    {
      state := Start(cap);
    }

    method WorkerGet()
      requires Valid()
      modifies this
      ensures Valid() && state == Next(old(state), Get)
    {
      NextKeeps(state, Get);
      if state.worker != Waiting || |state.queue| == 0 {
        return;
      }
      var item, rest := state.queue[0], state.queue[1..];
      match item {
        case Sentinel => state := state.(queue := rest, worker := Stopped);
        case Notification(n) =>
          state := state.(queue := rest, worker := Handling(n), log := LogDispatched(state.log, n));
      }
    }

    /** The dispatch has returned or failed; either way the item is done. */
    method WorkerFinish()
      requires Valid()
      modifies this
      ensures Valid() && state == Next(old(state), Finish)
    {
      NextKeeps(state, Finish);
      if !state.worker.Handling? {
        return;
      }
      var log := state.log;
      if log.dropPending && |state.queue| == 0 {
        log := log.(dropPending := false);
      }
      state := state.(worker := Waiting, log := log);
    }

    method RunWorker(moves: seq<WorkerMove>)
      requires Valid()
      modifies this
      ensures Valid() && state.producer == old(state.producer) && state.cap == old(state.cap)
      ensures |state.queue| <= |old(state.queue)| && state.log.sent == old(state.log.sent)
    {
      for i := 0 to |moves|
        invariant Valid() && state.producer == old(state.producer) && state.cap == old(state.cap)
        invariant |state.queue| <= |old(state.queue)| && state.log.sent == old(state.log.sent)
      {
        match moves[i] {
          case Takes => WorkerGet();
          case Finishes => WorkerFinish();
        }
      }
    }

    method BeginNotify(note: Note)
      requires Valid() && state.producer == Idle
      modifies this
      ensures Valid() && state == Next(old(state), Begin(note))
    {
      NextKeeps(state, Begin(note));
      state := state.(producer := Putting(note, 1), log := LogSent(state.log, note));
    }

    method PutNowait(note: Note, ghost attempt: nat) returns (full: bool)
      requires Valid() && state.producer == Putting(note, attempt)
      modifies this
      ensures Valid() && state == Next(old(state), TryPut) && state.log.sent == old(state.log.sent)
      ensures full ==> state.producer == Evicting(note, attempt) && attempt == 1
      ensures !full ==> state.producer == Idle && state.queue == old(state.queue) + [Notification(note)]
    {
      NextKeeps(state, TryPut);
      full := |state.queue| >= state.cap;
      if full {
        state := state.(producer := Evicting(note, state.producer.attempt));
      } else {
        state := Pushed(state, note);
      }
    }

    /** `get_nowait`; an empty queue means the worker was faster. */
    method EvictOldest(note: Note, ghost attempt: nat)
      requires Valid() && state.producer == Evicting(note, attempt)
      modifies this
      ensures Valid() && state == Next(old(state), TryEvict) && state.producer == Putting(note, attempt + 1)
      ensures state.log.sent == old(state.log.sent)
    {
      NextKeeps(state, TryEvict);
      state := HeadEvicted(state, note, state.producer.attempt + 1);
    }

    /** One round of the loop after a failed put: make room and put again, with the worker free to run in between. */
    method Retry(note: Note, beforeEvict: seq<WorkerMove>, beforePut: seq<WorkerMove>, ghost attempt: nat)
      returns (full: bool)
      requires Valid() && state.producer == Evicting(note, attempt)
      modifies this
      ensures Valid() && state.log.sent == old(state.log.sent)
      ensures full ==> state.producer == Evicting(note, attempt + 1) && attempt + 1 == 1
      ensures !full ==> state.producer == Idle
      ensures !full ==> state.queue != [] && state.queue[|state.queue| - 1] == Notification(note)
    {
      RunWorker(beforeEvict);
      EvictOldest(note, attempt);
      RunWorker(beforePut);
      full := PutNowait(note, attempt + 1);
    }

    /** The loop of `_notify`: put, or make room by evicting and put again, with the worker free to run in between. */
    method Notify(note: Note, beforeEvict: seq<WorkerMove>, beforePut: seq<WorkerMove>) returns (attempts: nat)
      requires Valid() && state.producer == Idle
      modifies this
      ensures Valid() && state.producer == Idle
      ensures 1 <= attempts <= 2
      ensures state.log.sent == old(state.log.sent) + [note]
      ensures state.queue != [] && state.queue[|state.queue| - 1] == Notification(note)
    {
      BeginNotify(note);
      attempts := 1;
      var full := PutNowait(note, attempts);
      while full
        invariant Valid() && 1 <= attempts <= 2
        invariant full ==> state.producer == Evicting(note, attempts) && attempts == 1
        invariant !full ==> state.producer == Idle
        invariant !full ==> state.queue != [] && state.queue[|state.queue| - 1] == Notification(note)
        invariant state.log.sent == old(state.log.sent) + [note]
        decreases 2 - attempts
      {
        full := Retry(note, beforeEvict, beforePut, attempts);
        attempts := attempts + 1;
      }
    }
  }
}
