/**
 The ledger both engines trade on (paper/paper_state.py, class PaperState): a dictionary of
 open deals in insertion order, the closed deals, and the balance.
 */
module PaperLedger {
  import opened Options
  import opened Deals
  import opened TickRules

  predicate Bookable(d: Deal) {
    d.leverage > 0 && (d.orders != [] ==> TotalSize(d.orders) != 0.0)
  }

  predicate AllOrderly(deals: seq<Deal>) {
    forall i :: 0 <= i < |deals| ==> Orderly(deals[i])
  }

  lemma {:induction false} OrderlyIsBookable(d: Deal)
    requires Orderly(d)
    ensures Bookable(d) && TotalSize(d.orders) > 0.0
  {
    SoundSums(d.orders);
  }

  lemma {:induction false} AllBookable(deals: seq<Deal>)
    requires AllOrderly(deals)
    ensures forall i :: 0 <= i < |deals| ==> Bookable(deals[i])
  {
    forall i | 0 <= i < |deals|
      ensures Bookable(deals[i])
    {
      OrderlyIsBookable(deals[i]);
    }
  }

  function IndexOf(deals: seq<Deal>, id: DealId): (r: Option<nat>)
    ensures r.Some? ==> r.value < |deals| && deals[r.value].id == id
    ensures r.None? ==> forall i :: 0 <= i < |deals| ==> deals[i].id != id
  {
    if deals == [] then None
    else if deals[|deals| - 1].id == id then Some(|deals| - 1)
    else IndexOf(deals[..|deals| - 1], id)
  }

  function Without(deals: seq<Deal>, i: nat): (r: seq<Deal>)
    requires i < |deals|
    ensures |r| == |deals| - 1
  {
    deals[..i] + deals[i + 1..]
  }

  ghost predicate UniqueIds(deals: seq<Deal>) {
    forall i, j :: 0 <= i < j < |deals| ==> deals[i].id != deals[j].id
  }

  /** Dictionary assignment: an existing key keeps its place. */
  function Put(deals: seq<Deal>, d: Deal): seq<Deal> {
    match IndexOf(deals, d.id)
    case Some(i) => deals[i := d]
    case None => deals + [d]
  }

  lemma {:induction false} FoundAt(done: seq<Deal>, d: Deal, rest: seq<Deal>)
    requires UniqueIds(done + [d] + rest)
    ensures IndexOf(done + [d] + rest, d.id) == Some(|done|)
  {
    var all := done + [d] + rest;
    assert all[|done|] == d;
    var r := IndexOf(all, d.id);
    assert r.Some? && all[r.value].id == all[|done|].id;
  }

  lemma {:induction false} ReplacedAt(done: seq<Deal>, d: Deal, rest: seq<Deal>, e: Deal)
    requires UniqueIds(done + [d] + rest) && e.id == d.id
    ensures Put(done + [d] + rest, e) == done + [e] + rest
    ensures UniqueIds(done + [e] + rest)
  {
    FoundAt(done, d, rest);
    var all, all' := done + [d] + rest, done + [e] + rest;
    assert all[|done| := e] == all';
    assert forall i :: 0 <= i < |all| ==> all'[i].id == all[i].id;
  }

  lemma {:induction false} RemovedAt(done: seq<Deal>, d: Deal, rest: seq<Deal>)
    requires UniqueIds(done + [d] + rest)
    ensures Without(done + [d] + rest, |done|) == done + rest
    ensures UniqueIds(done + rest)
  {
    var all := done + [d] + rest;
    forall i, j | 0 <= i < j < |done + rest|
      ensures (done + rest)[i].id != (done + rest)[j].id
    {
      var i', j' := if i < |done| then i else i + 1, if j < |done| then j else j + 1;
      assert all[i'] == (done + rest)[i] && all[j'] == (done + rest)[j];
    }
  }

  lemma {:induction false} RemainOrderly(done: seq<Deal>, d: Deal, rest: seq<Deal>)
    requires AllOrderly(done + [d] + rest)
    ensures AllOrderly(done + rest)
  {
    var all := done + [d] + rest;
    forall i | 0 <= i < |done + rest|
      ensures Orderly((done + rest)[i])
    {
      assert (done + rest)[i] == all[if i < |done| then i else i + 1];
    }
  }

  lemma {:induction false} ReplacedOrderly(done: seq<Deal>, d: Deal, rest: seq<Deal>, e: Deal)
    requires AllOrderly(done + [d] + rest) && Orderly(e)
    ensures AllOrderly(done + [e] + rest)
  {
    var all, all' := done + [d] + rest, done + [e] + rest;
    forall i | 0 <= i < |all'|
      ensures Orderly(all'[i])
    {
      if i != |done| { assert all'[i] == all[i]; }
    }
  }

  /** A dictionary filled from a list: a later entry replaces an earlier one of the same key. */
  function PutAll(deals: seq<Deal>): seq<Deal> {
    if deals == [] then [] else Put(PutAll(deals[..|deals| - 1]), deals[|deals| - 1])
  }

  lemma {:induction false} PutKeeps(deals: seq<Deal>, d: Deal)
    ensures UniqueIds(deals) ==> UniqueIds(Put(deals, d))
    ensures AllOrderly(deals) && Orderly(d) ==> AllOrderly(Put(deals, d))
  {
  }

  lemma {:induction false} PutAllKeeps(deals: seq<Deal>)
    ensures UniqueIds(PutAll(deals))
    ensures AllOrderly(deals) ==> AllOrderly(PutAll(deals))
    decreases |deals|
  {
    if deals != [] {
      PutAllKeeps(deals[..|deals| - 1]);
      PutKeeps(PutAll(deals[..|deals| - 1]), deals[|deals| - 1]);
    }
  }

  /** A list without a repeated key fills the dictionary as it stands. */
  lemma {:induction false} PutAllUnique(deals: seq<Deal>)
    requires UniqueIds(deals)
    ensures PutAll(deals) == deals
    decreases |deals|
  {
    if deals != [] {
      var front, last := deals[..|deals| - 1], deals[|deals| - 1];
      PutAllUnique(front);
      assert deals == front + [last];
      assert forall i :: 0 <= i < |front| ==> front[i] == deals[i];
    }
  }

  lemma {:induction false} StampedAt(deals: seq<Deal>, i: nat, e: Deal)
    requires i < |deals| && IndexOf(deals, deals[i].id) == Some(i) && e.id == deals[i].id
    ensures IndexOf(deals[i := e], e.id) == Some(i)
    ensures Without(deals[i := e], i) == Without(deals, i)
    decreases |deals|
  {
    var last := |deals| - 1;
    if i < last {
      assert deals[i := e][..last] == deals[..last][i := e];
      StampedAt(deals[..last], i, e);
    }
  }

  function IdsOf(deals: seq<Deal>): (ids: seq<DealId>)
    ensures |ids| == |deals|
  {
    if deals == [] then [] else IdsOf(deals[..|deals| - 1]) + [deals[|deals| - 1].id]
  }

  /** The booked profit of closed deals. */
  function SumPnl(closed: seq<Deal>): real {
    if closed == [] then 0.0 else SumPnl(closed[..|closed| - 1]) + closed[|closed| - 1].closing.pnlBtc
  }

  /** The profit of a deal at the price it was closed at. */
  function ClosingPnl(d: Deal): real
    requires Bookable(d)
  {
    CalculatePnl(d.side, d.leverage, d.orders, d.closing.price.GetOr(0.0)).0
  }

  /** The deal carries the profit of its own orders at its closing price. */
  predicate Stamped(d: Deal) {
    Bookable(d) && d.closing.price.Some? && d.closing.pnlBtc == ClosingPnl(d)
  }

  ghost predicate AllStamped(closed: seq<Deal>) { forall i :: 0 <= i < |closed| ==> Stamped(closed[i]) }

  lemma {:induction false} ClosingStamps(d: Deal, price: real, reason: string)
    requires Bookable(d)
    ensures Stamped(ClosedDeal(d, price, reason))
  {
  }

  lemma {:induction false} StampedSnoc(closed: seq<Deal>, e: Deal)
    requires AllStamped(closed) && Stamped(e)
    ensures AllStamped(closed + [e])
  {
  }

  class PaperState {
    var initial: real
    var balance: real
    var openDeals: seq<Deal>
    var closedDeals: seq<Deal>

    constructor (initial: real)
      ensures this.initial == initial == balance && openDeals == closedDeals == []
    {
      this.initial, balance := initial, initial;
      openDeals, closedDeals := [], [];
    }

    method OpenDeal(deal: Deal)
      modifies this`openDeals
      ensures openDeals == Put(old(openDeals), deal)
    {
      openDeals := Put(openDeals, deal);
    }

    /** Pops the deal, stamps it, books its profit and appends it to history; None when it is not open. */
    method CloseDeal(id: DealId, price: real, reason: string) returns (closed: Option<Deal>)
      requires forall i :: 0 <= i < |openDeals| ==> Bookable(openDeals[i])
      modifies this`openDeals, this`closedDeals, this`balance
      ensures IndexOf(old(openDeals), id).None? ==>
                && closed.None? && openDeals == old(openDeals)
                && closedDeals == old(closedDeals) && balance == old(balance)
      ensures IndexOf(old(openDeals), id).Some? ==>
                var i := IndexOf(old(openDeals), id).value;
                && Bookable(old(openDeals)[i])
                && closed == Some(ClosedDeal(old(openDeals)[i], price, reason))
                && openDeals == Without(old(openDeals), i)
                && closedDeals == old(closedDeals) + [closed.value]
                && balance == old(balance) + closed.value.closing.pnlBtc
    {
      var found := IndexOf(openDeals, id);
      if found.None? {
        return None;
      }
      var deal := openDeals[found.value];
      openDeals := Without(openDeals, found.value);
      var pnl := CalculatePnl(deal.side, deal.leverage, deal.orders, price);
      deal := deal.(closing := Closing(false, Some(price), Some(reason), deal.closing.trigger, pnl.0, pnl.1));
      balance := balance + pnl.0;
      closedDeals := closedDeals + [deal];
      return Some(deal);
    }
  }
}
