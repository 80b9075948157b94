/**
 Greedy matching of paper deals to live deals by opening time (scripts/parity_compare.py, `match_deals`).
 */
module ParityMatch {
  import opened Options
  import opened Multisets

  type Id = string

  /** The columns matching reads. */
  datatype Row = Row(id: Id, openedAt: real)

  datatype Pair = Pair(paper: Row, live: Row, delta: real)

  function Delta(a: Row, b: Row): (d: real)
    ensures d >= 0.0
  {
    if a.openedAt >= b.openedAt then a.openedAt - b.openedAt else b.openedAt - a.openedAt
  }

  ghost predicate UniqueIds(rows: seq<Row>) {
    forall i, j :: 0 <= i < j < |rows| ==> rows[i].id != rows[j].id
  }

  predicate Eligible(p: Row, l: Row, used: set<Id>, window: real) {
    l.id !in used && Delta(p, l) <= window
  }

  /** The first of the nearest unclaimed live deals inside the window. */
  function Nearest(p: Row, live: seq<Row>, used: set<Id>, window: real): (r: Option<Row>)
    ensures r.None? <==> forall i :: 0 <= i < |live| ==> !Eligible(p, live[i], used, window)
    ensures r.Some? ==> r.value in live && Eligible(p, r.value, used, window)
    ensures r.Some? ==> forall i :: 0 <= i < |live| && Eligible(p, live[i], used, window) ==>
                          Delta(p, r.value) <= Delta(p, live[i])
  {
    if live == [] then None
    else
      var best, last := Nearest(p, live[..|live| - 1], used, window), live[|live| - 1];
      if Eligible(p, last, used, window) && (best.None? || Delta(p, last) < Delta(p, best.value)) then Some(last)
      else best
  }

  function PaperIds(pairs: seq<Pair>): set<Id> { set i | 0 <= i < |pairs| :: pairs[i].paper.id }

  function LiveIds(pairs: seq<Pair>): set<Id> { set i | 0 <= i < |pairs| :: pairs[i].live.id }

  /** What the nested loop builds, paper deal by paper deal. */
  function Greedy(paper: seq<Row>, live: seq<Row>, window: real): seq<Pair> {
    if paper == [] then []
    else
      var pairs, p := Greedy(paper[..|paper| - 1], live, window), paper[|paper| - 1];
      match Nearest(p, live, LiveIds(pairs), window)
      case None => pairs
      case Some(l) => pairs + [Pair(p, l, Delta(p, l))]
  }

  function Kept(rows: seq<Row>, ids: set<Id>): seq<Row> {
    if rows == [] then []
    else Kept(rows[..|rows| - 1], ids) + if rows[|rows| - 1].id in ids then [rows[|rows| - 1]] else []
  }

  function Dropped(rows: seq<Row>, ids: set<Id>): seq<Row> {
    if rows == [] then []
    else Dropped(rows[..|rows| - 1], ids) + if rows[|rows| - 1].id in ids then [] else [rows[|rows| - 1]]
  }

  method Unmatched(rows: seq<Row>, ids: set<Id>) returns (rest: seq<Row>)
    ensures rest == Dropped(rows, ids)
  {
    rest := [];
    for i := 0 to |rows|
      invariant rest == Dropped(rows[..i], ids)
    {
      assert rows[..i + 1][..i] == rows[..i];
      if rows[i].id !in ids {
        rest := rest + [rows[i]];
      }
    }
    assert rows[..|rows|] == rows;
  }

  method MatchDeals(paper: seq<Row>, live: seq<Row>, window: real)
    returns (pairs: seq<Pair>, unmatchedPaper: seq<Row>, unmatchedLive: seq<Row>)
    ensures pairs == Greedy(paper, live, window)
    ensures unmatchedPaper == Dropped(paper, PaperIds(pairs))
    ensures unmatchedLive == Dropped(live, LiveIds(pairs))
  {
    pairs := [];
    var usedLive: set<Id> := {};
    for i := 0 to |paper|
      invariant pairs == Greedy(paper[..i], live, window)
      invariant usedLive == LiveIds(pairs)
    {
      var p := paper[i];
      var best: Option<Row> := None;
      for j := 0 to |live|
        invariant best == Nearest(p, live[..j], usedLive, window)
      {
        assert live[..j + 1][..j] == live[..j];
        if live[j].id in usedLive {
          continue;
        }
        var delta := Delta(live[j], p);
        if delta <= window && (best.None? || delta < Delta(p, best.value)) {
          best := Some(live[j]);
        }
      }
      assert live[..|live|] == live;
      assert paper[..i + 1][..i] == paper[..i];
      if best.Some? {
        var pair := Pair(p, best.value, Delta(p, best.value));
        IdsSnoc(pairs, pair);
        pairs := pairs + [pair];
        usedLive := usedLive + {best.value.id};
      }
    }
    assert paper[..|paper|] == paper;
    unmatchedPaper := Unmatched(paper, PaperIds(pairs));
    unmatchedLive := Unmatched(live, usedLive);
  }

  lemma {:induction false} IdsSnoc(pairs: seq<Pair>, x: Pair)
    ensures PaperIds(pairs + [x]) == PaperIds(pairs) + {x.paper.id}
    ensures LiveIds(pairs + [x]) == LiveIds(pairs) + {x.live.id}
  {
    var all := pairs + [x];
    assert all[|pairs|] == x;
    assert forall i :: 0 <= i < |pairs| ==> all[i] == pairs[i];
    forall id | id in PaperIds(pairs)
      ensures id in PaperIds(all)
    {
      var i: nat :| i < |pairs| && pairs[i].paper.id == id;
      assert all[i].paper.id == id;
    }
    forall id | id in LiveIds(pairs)
      ensures id in LiveIds(all)
    {
      var i: nat :| i < |pairs| && pairs[i].live.id == id;
      assert all[i].live.id == id;
    }
  }

  // ---- A one-to-one matching inside the window, and no pair missed -----------------------------

  ghost predicate OneToOne(pairs: seq<Pair>) {
    forall i, j :: 0 <= i < j < |pairs| ==>
      pairs[i].paper.id != pairs[j].paper.id && pairs[i].live.id != pairs[j].live.id
  }

  ghost predicate WithinWindow(pairs: seq<Pair>, paper: seq<Row>, live: seq<Row>, window: real) {
    forall i :: 0 <= i < |pairs| ==>
      && pairs[i].paper in paper && pairs[i].live in live
      && pairs[i].delta == Delta(pairs[i].paper, pairs[i].live) <= window
  }

  lemma {:induction false} GreedyIsMatching(paper: seq<Row>, live: seq<Row>, window: real)
    requires UniqueIds(paper)
    ensures OneToOne(Greedy(paper, live, window))
    ensures WithinWindow(Greedy(paper, live, window), paper, live, window)
  {
    if paper != [] {
      var front, p := paper[..|paper| - 1], paper[|paper| - 1];
      GreedyIsMatching(front, live, window);
      var pairs := Greedy(front, live, window);
      assert forall r :: r in front ==> r in paper;
      forall i | 0 <= i < |pairs|
        ensures pairs[i].paper.id != p.id && pairs[i].live.id in LiveIds(pairs)
      {
        var k: nat :| k < |front| && front[k] == pairs[i].paper;
        assert front[k] == paper[k];
      }
    }
  }

  /** A later paper deal never takes a live deal back. */
  lemma {:induction false} GreedyGrows(paper: seq<Row>, live: seq<Row>, window: real, k: nat)
    requires k <= |paper|
    ensures Greedy(paper[..k], live, window) <= Greedy(paper, live, window)
    ensures LiveIds(Greedy(paper[..k], live, window)) <= LiveIds(Greedy(paper, live, window))
    ensures PaperIds(Greedy(paper[..k], live, window)) <= PaperIds(Greedy(paper, live, window))
    decreases |paper|
  {
    if k == |paper| {
      assert paper[..k] == paper;
    } else {
      var front, p := paper[..|paper| - 1], paper[|paper| - 1];
      GreedyGrows(front, live, window, k);
      assert front[..k] == paper[..k];
      var pairs := Greedy(front, live, window);
      var l := Nearest(p, live, LiveIds(pairs), window);
      if l.Some? {
        IdsSnoc(pairs, Pair(p, l.value, Delta(p, l.value)));
      }
    }
  }

  /** No pair is missed: within the window, the paper deal is matched or the live deal is. */
  lemma {:induction false} NothingMissed(paper: seq<Row>, live: seq<Row>, window: real, p: Row, l: Row)
    requires p in paper && l in live && Delta(p, l) <= window
    ensures p.id in PaperIds(Greedy(paper, live, window)) || l.id in LiveIds(Greedy(paper, live, window))
  {
    var k: nat :| k < |paper| && paper[k] == p;
    var before := Greedy(paper[..k], live, window);
    assert paper[..k + 1][..k] == paper[..k];
    GreedyGrows(paper, live, window, k);
    GreedyGrows(paper, live, window, k + 1);
    if l.id !in LiveIds(before) {
      assert Eligible(p, l, LiveIds(before), window);
      var best := Nearest(p, live, LiveIds(before), window).value;
      IdsSnoc(before, Pair(p, best, Delta(p, best)));
    }
  }

  /** Of several equally near ones the first is taken. */
  lemma {:induction false} NearestIsFirst(p: Row, live: seq<Row>, used: set<Id>, window: real, i: nat)
    requires i < |live| && Eligible(p, live[i], used, window) && Nearest(p, live, used, window).Some?
    requires Delta(p, live[i]) == Delta(p, Nearest(p, live, used, window).value)
    ensures exists k :: 0 <= k <= i && live[k] == Nearest(p, live, used, window).value
    decreases |live|
  {
    var n := |live| - 1;
    var best := Nearest(p, live[..n], used, window);
    if i < n {
      assert live[..n][i] == live[i] && Eligible(p, live[..n][i], used, window);
      NearestIsFirst(p, live[..n], used, window, i);
      var k :| 0 <= k <= i && live[..n][k] == best.value;
      assert live[k] == best.value;
    } else if best.Some? && Nearest(p, live, used, window) == best {
      var k :| 0 <= k < n && live[..n][k] == best.value;
      assert live[k] == best.value;
    }
  }

  /** Each pair took the nearest live deal that the pairs before it had left. */
  lemma {:induction false} EachTakesNearest(paper: seq<Row>, live: seq<Row>, window: real, i: nat, l: Row)
    requires i < |Greedy(paper, live, window)| && l in live
    ensures var pairs := Greedy(paper, live, window);
            l.id !in LiveIds(pairs[..i]) && Delta(pairs[i].paper, l) <= window ==>
              pairs[i].delta <= Delta(pairs[i].paper, l)
    decreases |paper|
  {
    var front, p := paper[..|paper| - 1], paper[|paper| - 1];
    var before, pairs := Greedy(front, live, window), Greedy(paper, live, window);
    if i < |before| {
      EachTakesNearest(front, live, window, i, l);
      assert pairs[..i] == before[..i];
    } else {
      assert pairs[..i] == before;
      var k: nat :| k < |live| && live[k] == l;
      if l.id !in LiveIds(before) && Delta(p, l) <= window {
        assert Eligible(p, live[k], LiveIds(before), window);
      }
    }
  }

  // ---- The three outputs partition both inputs ---------------------------------------------------

  function Papers(pairs: seq<Pair>): seq<Row> {
    if pairs == [] then [] else Papers(pairs[..|pairs| - 1]) + [pairs[|pairs| - 1].paper]
  }

  function Lives(pairs: seq<Pair>): seq<Row> {
    if pairs == [] then [] else Lives(pairs[..|pairs| - 1]) + [pairs[|pairs| - 1].live]
  }

  lemma {:induction false} KeptAndDropped(rows: seq<Row>, ids: set<Id>)
    ensures multiset(Kept(rows, ids)) + multiset(Dropped(rows, ids)) == multiset(rows)
  {
    if rows != [] {
      var front, last := rows[..|rows| - 1], rows[|rows| - 1];
      KeptAndDropped(front, ids);
      assert rows == front + [last];
      var kept, dropped := Kept(front, ids), Dropped(front, ids);
      Shuffle(multiset(kept), multiset(dropped), multiset{last});
      if last.id in ids {
        assert Dropped(rows, ids) == dropped;
        MultisetSnoc(kept, last);
      } else {
        assert Kept(rows, ids) == kept;
        MultisetSnoc(dropped, last);
      }
      MultisetSnoc(front, last);
    }
  }

  lemma {:induction false} KeptIgnores(rows: seq<Row>, ids: set<Id>, id: Id)
    requires forall r :: r in rows ==> r.id != id
    ensures Kept(rows, ids + {id}) == Kept(rows, ids)
  {
    if rows != [] {
      assert rows[|rows| - 1] in rows;
      KeptIgnores(rows[..|rows| - 1], ids, id);
    }
  }

  /** Claiming one more live deal adds exactly that deal. */
  lemma {:induction false} KeptAdds(rows: seq<Row>, ids: set<Id>, r: Row)
    requires UniqueIds(rows) && r in rows && r.id !in ids
    ensures multiset(Kept(rows, ids + {r.id})) == multiset(Kept(rows, ids)) + multiset{r}
  {
    var front, last := rows[..|rows| - 1], rows[|rows| - 1];
    if last == r {
      forall x | x in front
        ensures x.id != r.id
      {
        var k: nat :| k < |front| && front[k] == x;
        assert rows[k] == x;
      }
      KeptIgnores(front, ids, r.id);
      assert Kept(rows, ids) == Kept(front, ids);
    } else {
      var k: nat :| k < |rows| && rows[k] == r;
      assert front[k] == r;
      assert rows[k].id != rows[|rows| - 1].id;
      KeptAdds(front, ids, r);
    }
  }

  lemma {:induction false} KeptNone(rows: seq<Row>)
    ensures Kept(rows, {}) == []
  {
    if rows != [] {
      KeptNone(rows[..|rows| - 1]);
    }
  }

  lemma {:induction false} MatchedPapers(paper: seq<Row>, live: seq<Row>, window: real)
    requires UniqueIds(paper)
    ensures Kept(paper, PaperIds(Greedy(paper, live, window))) == Papers(Greedy(paper, live, window))
  {
    if paper == [] {
      assert PaperIds([]) == {};
    } else {
      var front, p := paper[..|paper| - 1], paper[|paper| - 1];
      var pairs := Greedy(front, live, window);
      MatchedPapers(front, live, window);
      GreedyIsMatching(front, live, window);
      forall r | r in front
        ensures r.id != p.id
      {
        var k: nat :| k < |front| && front[k] == r;
        assert paper[k] == r;
      }
      var l := Nearest(p, live, LiveIds(pairs), window);
      if l.Some? {
        var x := Pair(p, l.value, Delta(p, l.value));
        IdsSnoc(pairs, x);
        KeptIgnores(front, PaperIds(pairs), p.id);
        assert (pairs + [x])[..|pairs|] == pairs;
      } else {
        assert p.id !in PaperIds(pairs);
      }
    }
  }

  lemma {:induction false} MatchedLives(paper: seq<Row>, live: seq<Row>, window: real)
    requires UniqueIds(live)
    ensures multiset(Kept(live, LiveIds(Greedy(paper, live, window)))) == multiset(Lives(Greedy(paper, live, window)))
  {
    if paper == [] {
      assert LiveIds([]) == {};
      KeptNone(live);
    } else {
      var front, p := paper[..|paper| - 1], paper[|paper| - 1];
      var pairs := Greedy(front, live, window);
      MatchedLives(front, live, window);
      var l := Nearest(p, live, LiveIds(pairs), window);
      if l.Some? {
        var x := Pair(p, l.value, Delta(p, l.value));
        IdsSnoc(pairs, x);
        KeptAdds(live, LiveIds(pairs), l.value);
        assert (pairs + [x])[..|pairs|] == pairs;
      }
    }
  }

  /** Every deal of either list comes out exactly once: in a pair or in its list of leftovers. */
  lemma {:induction false} OutputsPartitionInputs(paper: seq<Row>, live: seq<Row>, window: real)
    requires UniqueIds(paper) && UniqueIds(live)
    ensures var pairs := Greedy(paper, live, window);
            && multiset(Papers(pairs)) + multiset(Dropped(paper, PaperIds(pairs))) == multiset(paper)
            && multiset(Lives(pairs)) + multiset(Dropped(live, LiveIds(pairs))) == multiset(live)
  {
    var pairs := Greedy(paper, live, window);
    MatchedPapers(paper, live, window);
    MatchedLives(paper, live, window);
    KeptAndDropped(paper, PaperIds(pairs));
    KeptAndDropped(live, LiveIds(pairs));
  }

  // ---- At least half of any matching ----------------------------------------------------------------

  /** The pairs of a matching whose paper deal (or whose live deal) is in a given set are no more than the set. */
  function CountPapersIn(m: seq<Pair>, ids: set<Id>): nat {
    if m == [] then 0 else CountPapersIn(m[..|m| - 1], ids) + if m[|m| - 1].paper.id in ids then 1 else 0
  }

  function CountLivesIn(m: seq<Pair>, ids: set<Id>): nat {
    if m == [] then 0 else CountLivesIn(m[..|m| - 1], ids) + if m[|m| - 1].live.id in ids then 1 else 0
  }

  lemma {:induction false} PapersFit(m: seq<Pair>, ids: set<Id>)
    requires OneToOne(m)
    ensures CountPapersIn(m, ids) <= |ids|
  {
    if m != [] {
      var front, id := m[..|m| - 1], m[|m| - 1].paper.id;
      if id in ids {
        PapersFit(front, ids - {id});
        PapersIgnore(front, ids, id);
      } else {
        PapersFit(front, ids);
      }
    }
  }

  lemma {:induction false} PapersIgnore(m: seq<Pair>, ids: set<Id>, id: Id)
    requires forall i :: 0 <= i < |m| ==> m[i].paper.id != id
    ensures CountPapersIn(m, ids - {id}) == CountPapersIn(m, ids)
  {
    if m != [] {
      PapersIgnore(m[..|m| - 1], ids, id);
    }
  }

  lemma {:induction false} LivesFit(m: seq<Pair>, ids: set<Id>)
    requires OneToOne(m)
    ensures CountLivesIn(m, ids) <= |ids|
  {
    if m != [] {
      var front, id := m[..|m| - 1], m[|m| - 1].live.id;
      if id in ids {
        LivesFit(front, ids - {id});
        LivesIgnore(front, ids, id);
      } else {
        LivesFit(front, ids);
      }
    }
  }

  lemma {:induction false} LivesIgnore(m: seq<Pair>, ids: set<Id>, id: Id)
    requires forall i :: 0 <= i < |m| ==> m[i].live.id != id
    ensures CountLivesIn(m, ids - {id}) == CountLivesIn(m, ids)
  {
    if m != [] {
      LivesIgnore(m[..|m| - 1], ids, id);
    }
  }

  lemma {:induction false} IdCounts(pairs: seq<Pair>)
    ensures |PaperIds(pairs)| <= |pairs| && |LiveIds(pairs)| <= |pairs|
  {
    if pairs == [] {
      assert PaperIds(pairs) == {} && LiveIds(pairs) == {};
    } else {
      var front, last := pairs[..|pairs| - 1], pairs[|pairs| - 1];
      IdCounts(front);
      IdsSnoc(front, last);
      assert pairs == front + [last];
    }
  }

  lemma {:induction false} EveryPairCounted(m: seq<Pair>, papers: set<Id>, lives: set<Id>)
    requires forall i :: 0 <= i < |m| ==> m[i].paper.id in papers || m[i].live.id in lives
    ensures |m| <= CountPapersIn(m, papers) + CountLivesIn(m, lives)
  {
    if m != [] {
      EveryPairCounted(m[..|m| - 1], papers, lives);
    }
  }

  /** No one-to-one matching inside the window has more than twice as many pairs. */
  lemma {:induction false} AtLeastHalf(paper: seq<Row>, live: seq<Row>, window: real, other: seq<Pair>)
    requires OneToOne(other) && WithinWindow(other, paper, live, window)
    ensures |other| <= 2 * |Greedy(paper, live, window)|
  {
    var pairs := Greedy(paper, live, window);
    forall i | 0 <= i < |other|
      ensures other[i].paper.id in PaperIds(pairs) || other[i].live.id in LiveIds(pairs)
    {
      NothingMissed(paper, live, window, other[i].paper, other[i].live);
    }
    EveryPairCounted(other, PaperIds(pairs), LiveIds(pairs));
    PapersFit(other, PaperIds(pairs));
    LivesFit(other, LiveIds(pairs));
    IdCounts(pairs);
  }

  /** The factor is reached, on time-sorted inputs too: greedy finds one pair where two are possible. */
  lemma {:induction false} HalfIsReached()
    ensures var p1, p2 := Row("p1", 0.0), Row("p2", 14.0);
            var l1, l2 := Row("l1", -8.0), Row("l2", 6.0);
            var better := [Pair(p1, l1, 8.0), Pair(p2, l2, 8.0)];
            && Greedy([p1, p2], [l1, l2], 10.0) == [Pair(p1, l2, 6.0)]
            && OneToOne(better) && WithinWindow(better, [p1, p2], [l1, l2], 10.0)
  {
    var p1, p2 := Row("p1", 0.0), Row("p2", 14.0);
    var l1, l2 := Row("l1", -8.0), Row("l2", 6.0);
    var live := [l1, l2];
    assert live[..1] == [l1] && [l1][..0] == [];
    assert Nearest(p1, live, {}, 10.0) == Some(l2);
    assert [p1, p2][..1] == [p1] && [p1][..0] == [];
    assert LiveIds([]) == {};
    assert Greedy([p1], live, 10.0) == [Pair(p1, l2, 6.0)];
    IdsSnoc([], Pair(p1, l2, 6.0));
    assert [] + [Pair(p1, l2, 6.0)] == [Pair(p1, l2, 6.0)];
    assert LiveIds([Pair(p1, l2, 6.0)]) == {"l2"};
    forall i | 0 <= i < |live|
      ensures !Eligible(p2, live[i], {"l2"}, 10.0)
    {
    }
  }
}
