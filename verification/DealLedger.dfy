/**
 The SQL deal ledger (core/deal_store.py) and the engine's side of it
 (core/trading_engine.py, `_db_create_deal_with_retry`, `_open_deal`, the DCA and exit branches;
 paper/close_handler.py, `_close`, `_cancel`). Tables are keyed by deal id across all owners;
 an order's key is its deal's id and its number.
 */
module DealLedger {
  import opened Options
  import opened InversePerpMath
  import opened Deals
  import opened TickRules
  import opened PaperLedger
  import StateIO
  import EngineRules
  import EngineRuns

  datatype Owner = Owner(user: nat, slug: string)

  /** The columns computed from the order list. */
  datatype Sums = Sums(initialPrice: real, avgEntry: real, totalSize: real)

  datatype DealRow = DealRow(owner: Owner, side: Side, leverage: nat, sums: Sums, peak: real, closing: Closing)

  datatype OrderRow = OrderRow(owner: Owner, order: Order, fee: real)

  type OrderKey = (DealId, nat)

  datatype Db = Db(deals: map<DealId, DealRow>, orders: map<OrderKey, OrderRow>)

  function SumsOf(orders: seq<Order>): Sums
    requires orders != [] ==> TotalSize(orders) != 0.0
  {
    Sums(if orders == [] then 0.0 else orders[0].price, AvgEntry(orders), TotalSize(orders))
  }

  function RowOf(d: Deal, owner: Owner): DealRow
    requires Bookable(d)
  {
    DealRow(owner, d.side, d.leverage, SumsOf(d.orders), d.trackers.peak, d.closing)
  }

  // ---- Statements ---------------------------------------------------------------------------

  /** INSERT; None is the integrity error. */
  function Inserted(db: Db, d: Deal, owner: Owner): Option<Db>
    requires Bookable(d)
  {
    if d.id in db.deals then None else Some(db.(deals := db.deals[d.id := RowOf(d, owner)]))
  }

  predicate Owns(db: Db, id: DealId, owner: Owner) { id in db.deals && db.deals[id].owner == owner }

  /** UPDATE … WHERE id, user and bot match. */
  function Updated(db: Db, d: Deal, owner: Owner): Db
    requires Bookable(d)
  {
    if Owns(db, d.id, owner) then db.(deals := db.deals[d.id := RowOf(d, owner)]) else db
  }

  /** Update, or insert when no row matched. */
  function Saved(db: Db, d: Deal, owner: Owner): Option<Db>
    requires Bookable(d)
  {
    if Owns(db, d.id, owner) then Some(Updated(db, d, owner)) else Inserted(db, d, owner)
  }

  /** INSERT of an order; None when the key is taken or the deal does not exist. */
  function OrderInserted(db: Db, id: DealId, o: Order, owner: Owner, fee: real): Option<Db> {
    if (id, o.number) in db.orders || id !in db.deals then None
    else Some(db.(orders := db.orders[(id, o.number) := OrderRow(owner, o, fee)]))
  }

  /** The closing UPDATE; its WHERE names the user but not the bot. */
  function Closed(db: Db, id: DealId, user: nat, c: Closing): Db {
    if id in db.deals && db.deals[id].owner.user == user then
      db.(deals := db.deals[id := db.deals[id].(closing := c)])
    else db
  }

  function OrdersReplayed(db: Db, id: DealId, orders: seq<Order>, owner: Owner): Db {
    if orders == [] then db
    else
      var front, o := OrdersReplayed(db, id, orders[..|orders| - 1], owner), orders[|orders| - 1];
      if (id, o.number) in front.orders then front
      else front.(orders := front.orders[(id, o.number) := OrderRow(owner, o, 0.0)])
  }

  function DealReplayed(db: Db, d: Deal, owner: Owner): Db
    requires Bookable(d)
  {
    OrdersReplayed(Inserted(db, d, owner).GetOr(db), d.id, d.orders, owner)
  }

  /** INSERT OR IGNORE of every deal and its orders, in one transaction. */
  function Replayed(db: Db, deals: seq<Deal>, owner: Owner): Db
    requires forall i :: 0 <= i < |deals| ==> Bookable(deals[i])
  {
    if deals == [] then db
    else
      assert Bookable(deals[|deals| - 1]);
      DealReplayed(Replayed(db, deals[..|deals| - 1], owner), deals[|deals| - 1], owner)
  }

  // ---- No statement alters another owner's rows -------------------------------------------------

  ghost predicate DealsKept(db: Db, db': Db, owner: Owner) {
    forall id :: id in db.deals && db.deals[id].owner != owner ==> id in db'.deals && db'.deals[id] == db.deals[id]
  }

  ghost predicate OrdersKept(db: Db, db': Db) {
    forall k :: k in db.orders ==> k in db'.orders && db'.orders[k] == db.orders[k]
  }

  lemma {:induction false} WritesStayHome(db: Db, d: Deal, owner: Owner)
    requires Bookable(d)
    ensures var r := Inserted(db, d, owner); r.Some? ==> DealsKept(db, r.value, owner) && r.value.orders == db.orders
    ensures var r := Updated(db, d, owner);
            DealsKept(db, r, owner) && r.orders == db.orders && r.deals.Keys == db.deals.Keys
    ensures var r := Saved(db, d, owner); r.Some? ==> DealsKept(db, r.value, owner) && r.value.orders == db.orders
    ensures Saved(db, d, owner).None? <==> d.id in db.deals && db.deals[d.id].owner != owner
  {
  }

  /** An order that is inserted is there, with its fee. */
  lemma {:induction false} OrderFiled(db: Db, id: DealId, o: Order, owner: Owner, fee: real)
    requires OrderInserted(db, id, o, owner, fee).Some?
    ensures OrderAt(OrderInserted(db, id, o, owner, fee).value, id, o.number) == Some(OrderRow(owner, o, fee))
  {
  }

  lemma {:induction false} OrdersReplayedKeeps(db: Db, id: DealId, orders: seq<Order>, owner: Owner)
    ensures OrdersReplayed(db, id, orders, owner).deals == db.deals
    ensures OrdersKept(db, OrdersReplayed(db, id, orders, owner))
  {
    if orders != [] {
      OrdersReplayedKeeps(db, id, orders[..|orders| - 1], owner);
    }
  }

  /** A replay adds and never alters: every row that existed is still there, whoever owns it. */
  lemma {:induction false} ReplayOnlyAdds(db: Db, deals: seq<Deal>, owner: Owner)
    requires forall i :: 0 <= i < |deals| ==> Bookable(deals[i])
    ensures var r := Replayed(db, deals, owner);
            && OrdersKept(db, r)
            && forall id :: id in db.deals ==> id in r.deals && r.deals[id] == db.deals[id]
  {
    if deals != [] {
      var front, d := deals[..|deals| - 1], deals[|deals| - 1];
      ReplayOnlyAdds(db, front, owner);
      var mid := Replayed(db, front, owner);
      assert Bookable(d);
      OrdersReplayedKeeps(Inserted(mid, d, owner).GetOr(mid), d.id, d.orders, owner);
    }
  }

  // ---- Replaying twice is replaying once -----------------------------------------------------------

  /** Everything a replay of these deals would add is already there. */
  ghost predicate Present(db: Db, d: Deal) {
    d.id in db.deals && forall i :: 0 <= i < |d.orders| ==> (d.id, d.orders[i].number) in db.orders
  }

  lemma {:induction false} OrdersPresent(db: Db, id: DealId, orders: seq<Order>, owner: Owner)
    ensures forall i :: 0 <= i < |orders| ==> (id, orders[i].number) in OrdersReplayed(db, id, orders, owner).orders
  {
    if orders != [] {
      OrdersPresent(db, id, orders[..|orders| - 1], owner);
    }
  }

  lemma {:induction false} OrdersNoop(db: Db, id: DealId, orders: seq<Order>, owner: Owner)
    requires forall i :: 0 <= i < |orders| ==> (id, orders[i].number) in db.orders
    ensures OrdersReplayed(db, id, orders, owner) == db
  {
    if orders != [] {
      OrdersNoop(db, id, orders[..|orders| - 1], owner);
    }
  }

  lemma {:induction false} ReplayMakesPresent(db: Db, deals: seq<Deal>, owner: Owner, k: nat)
    requires k < |deals| && forall i :: 0 <= i < |deals| ==> Bookable(deals[i])
    ensures Present(Replayed(db, deals, owner), deals[k])
  {
    var front, d := deals[..|deals| - 1], deals[|deals| - 1];
    var mid := Replayed(db, front, owner);
    assert Bookable(d);
    var added := Inserted(mid, d, owner).GetOr(mid);
    OrdersReplayedKeeps(added, d.id, d.orders, owner);
    if k < |front| {
      ReplayMakesPresent(db, front, owner, k);
      assert Present(mid, front[k]);
    } else {
      OrdersPresent(added, d.id, d.orders, owner);
    }
  }

  /** Replaying deals that are all present changes nothing; so a restart never overwrites the ledger. */
  lemma {:induction false} ReplayOfPresent(db: Db, deals: seq<Deal>, owner: Owner)
    requires forall i :: 0 <= i < |deals| ==> Bookable(deals[i]) && Present(db, deals[i])
    ensures Replayed(db, deals, owner) == db
  {
    if deals != [] {
      var d := deals[|deals| - 1];
      ReplayOfPresent(db, deals[..|deals| - 1], owner);
      assert Present(db, d);
      OrdersNoop(db, d.id, d.orders, owner);
    }
  }

  lemma {:induction false} ReplayTwiceIsOnce(db: Db, deals: seq<Deal>, owner: Owner)
    requires forall i :: 0 <= i < |deals| ==> Bookable(deals[i])
    ensures Replayed(Replayed(db, deals, owner), deals, owner) == Replayed(db, deals, owner)
  {
    forall k | 0 <= k < |deals|
      ensures Bookable(deals[k]) && Present(Replayed(db, deals, owner), deals[k])
    {
      ReplayMakesPresent(db, deals, owner, k);
    }
    ReplayOfPresent(Replayed(db, deals, owner), deals, owner);
  }

  // ---- The ledger and memory ------------------------------------------------------------------------

  predicate Numbered(orders: seq<Order>) { forall i :: 0 <= i < |orders| ==> orders[i].number == i + 1 }

  predicate GoodDeal(d: Deal) { d.leverage > 0 && SoundOrders(d.orders) && Numbered(d.orders) }

  lemma {:induction false} GoodIsBookable(d: Deal)
    requires GoodDeal(d)
    ensures Bookable(d)
  {
    SoundSums(d.orders);
  }

  function OrderAt(db: Db, id: DealId, n: nat): Option<OrderRow> {
    if (id, n) in db.orders then Some(db.orders[(id, n)]) else None
  }

  /** The order rows under this id are the deal's orders, no more and no fewer. */
  ghost predicate OrdersAgree(db: Db, owner: Owner, d: Deal) {
    forall n: nat :: var r := OrderAt(db, d.id, n);
      && (r.Some? <==> 1 <= n <= |d.orders|)
      && (r.Some? ==> r.value.order == d.orders[n - 1] && r.value.owner == owner)
  }

  /** Status, reason, price and trigger agree; the profit agrees too unless the deal was cancelled. */
  predicate ClosingAgrees(row: Closing, mem: Closing) {
    && row.isOpen == mem.isOpen && row.reason == mem.reason && row.price == mem.price && row.trigger == mem.trigger
    && if mem.reason == Some(EngineRules.CANCELLED) then row.pnlBtc == 0.0 && row.pnlPct == 0.0
       else row.pnlBtc == mem.pnlBtc && row.pnlPct == mem.pnlPct
  }

  predicate ColumnsAgree(r: DealRow, d: Deal)
    requires Bookable(d)
  {
    && r.side == d.side && r.leverage == d.leverage && r.sums == SumsOf(d.orders)
    && ClosingAgrees(r.closing, d.closing)
  }

  ghost predicate RowAgrees(db: Db, owner: Owner, d: Deal) {
    && GoodDeal(d) && Bookable(d) && Owns(db, d.id, owner)
    && ColumnsAgree(db.deals[d.id], d)
    && OrdersAgree(db, owner, d)
  }

  ghost predicate EveryDealHasItsRow(db: Db, owner: Owner, mem: map<DealId, Deal>) {
    forall id :: id in mem ==> mem[id].id == id && RowAgrees(db, owner, mem[id])
  }

  ghost predicate EveryRowHasItsDeal(db: Db, owner: Owner, mem: map<DealId, Deal>) {
    forall id :: Owns(db, id, owner) ==> id in mem
  }

  /** The foreign key. */
  ghost predicate OrdersHaveDeals(db: Db) {
    forall k :: k in db.orders ==> k.0 in db.deals
  }

  /** The bot's rows and the deals it holds are the same deals. */
  ghost predicate Agreed(db: Db, owner: Owner, mem: map<DealId, Deal>) {
    EveryDealHasItsRow(db, owner, mem) && EveryRowHasItsDeal(db, owner, mem) && OrdersHaveDeals(db)
  }

  /** Everything under one deal id is as it was. */
  ghost predicate SameUnder(db: Db, db': Db, id: DealId) {
    && id in db.deals && id in db'.deals && db'.deals[id] == db.deals[id]
    && forall n: nat :: OrderAt(db', id, n) == OrderAt(db, id, n)
  }

  lemma {:induction false} RowSurvives(db: Db, db': Db, owner: Owner, d: Deal)
    requires RowAgrees(db, owner, d) && SameUnder(db, db', d.id)
    ensures RowAgrees(db', owner, d)
  {
    forall n: nat
      ensures OrderAt(db', d.id, n) == OrderAt(db, d.id, n)
    {
    }
  }

  /** One deal's rows change to match it; the rest is as it was. */
  lemma {:induction false} OneDealMoves(db: Db, db': Db, owner: Owner, mem: map<DealId, Deal>, d: Deal)
    requires Agreed(db, owner, mem) && RowAgrees(db', owner, d)
    requires db'.deals.Keys == db.deals.Keys + {d.id}
    requires forall id :: id in db.deals && id != d.id ==> SameUnder(db, db', id)
    requires OrdersHaveDeals(db')
    ensures Agreed(db', owner, mem[d.id := d])
  {
    forall id | id in mem && id != d.id
      ensures RowAgrees(db', owner, mem[id])
    {
      assert RowAgrees(db, owner, mem[id]);
      RowSurvives(db, db', owner, mem[id]);
    }
    forall id | Owns(db', id, owner)
      ensures id in mem[d.id := d]
    {
      if id != d.id {
        assert SameUnder(db, db', id);
        assert Owns(db, id, owner);
      }
    }
  }

  // ---- What each engine step does to both ------------------------------------------------------------

  lemma {:induction false} OpenAgrees(db: Db, owner: Owner, mem: map<DealId, Deal>, d: Deal, fee: real)
    requires Agreed(db, owner, mem) && GoodDeal(d) && |d.orders| == 1 && d.id !in db.deals && Bookable(d)
    requires d.closing.reason.None?
    ensures Inserted(db, d, owner).Some?
    ensures OrderInserted(Inserted(db, d, owner).value, d.id, d.orders[0], owner, fee).Some?
    ensures Agreed(OrderInserted(Inserted(db, d, owner).value, d.id, d.orders[0], owner, fee).value,
                   owner, mem[d.id := d])
  {
    assert forall n: nat :: OrderAt(db, d.id, n).None?;
    var db' := OrderInserted(Inserted(db, d, owner).value, d.id, d.orders[0], owner, fee).value;
    assert RowAgrees(db', owner, d);
    OneDealMoves(db, db', owner, mem, d);
  }

  lemma {:induction false} AppendedOrder(db: Db, db1: Db, owner: Owner, d: Deal, o: Order, fee: real)
    requires OrdersAgree(db, owner, d) && o.number == |d.orders| + 1
    requires OrderInserted(db, d.id, o, owner, fee) == Some(db1)
    ensures OrdersAgree(db1, owner, d.(orders := d.orders + [o]))
  {
    forall n: nat
      ensures OrderAt(db1, d.id, n) == if n == o.number then Some(OrderRow(owner, o, fee)) else OrderAt(db, d.id, n)
    {
    }
  }

  /** The order row and then the deal row, as the DCA branch writes them. */
  function Averaged(db: Db, e: Deal, o: Order, owner: Owner, fee: real): Option<Db>
    requires Bookable(e)
  {
    match OrderInserted(db, e.id, o, owner, fee)
    case None => None
    case Some(ordered) => Saved(ordered, e, owner)
  }

  lemma {:induction false} AverageAgrees(
    db: Db, owner: Owner, mem: map<DealId, Deal>, d: Deal, e: Deal, o: Order, fee: real)
    requires Agreed(db, owner, mem) && d.id in mem && mem[d.id] == d && d.closing.reason.None?
    requires o.number == |d.orders| + 1 && o.price > 0.0 && o.size >= 0.0
    requires e == d.(orders := d.orders + [o])
    ensures GoodDeal(e) && Bookable(e) && Averaged(db, e, o, owner, fee).Some?
    ensures Agreed(Averaged(db, e, o, owner, fee).value, owner, mem[d.id := e])
  {
    assert RowAgrees(db, owner, d);
    assert GoodDeal(e);
    GoodIsBookable(e);
    assert OrderAt(db, d.id, o.number).None?;
    var db1 := OrderInserted(db, d.id, o, owner, fee).value;
    var db2 := Saved(db1, e, owner).value;
    AppendedOrder(db, db1, owner, d, o, fee);
    assert OrdersAgree(db2, owner, e) by {
      assert forall n: nat :: OrderAt(db2, d.id, n) == OrderAt(db1, d.id, n);
    }
    assert RowAgrees(db2, owner, e);
    OneDealMoves(db, db2, owner, mem, e);
  }

  /** `pnl` is what the caller passes to the ledger: the deal's own, or zeros for a cancel. */
  lemma {:induction false} CloseAgrees(db: Db, owner: Owner, mem: map<DealId, Deal>, d: Deal, e: Deal, c: Closing)
    requires Agreed(db, owner, mem) && d.id in mem && mem[d.id] == d
    requires e == d.(closing := e.closing) && ClosingAgrees(c, e.closing)
    ensures Agreed(Closed(db, d.id, owner.user, c), owner, mem[d.id := e])
  {
    assert RowAgrees(db, owner, d);
    var db' := Closed(db, d.id, owner.user, c);
    assert forall n: nat :: OrderAt(db', d.id, n) == OrderAt(db, d.id, n);
    assert RowAgrees(db', owner, e);
    OneDealMoves(db, db', owner, mem, e);
  }

  /** Other owners may create deals, close theirs and add orders to them; what is under the bot's ids stays. */
  ghost predicate ForeignStep(db: Db, db': Db, owner: Owner) {
    && (forall id :: Owns(db, id, owner) ==> SameUnder(db, db', id))
    && (forall id :: Owns(db', id, owner) ==> Owns(db, id, owner))
    && OrdersHaveDeals(db')
  }

  lemma {:induction false} ForeignAgrees(db: Db, db': Db, owner: Owner, mem: map<DealId, Deal>)
    requires Agreed(db, owner, mem) && ForeignStep(db, db', owner)
    ensures Agreed(db', owner, mem)
  {
    forall id | id in mem
      ensures RowAgrees(db', owner, mem[id])
    {
      assert RowAgrees(db, owner, mem[id]);
      RowSurvives(db, db', owner, mem[id]);
    }
  }

  /** Every update and save of another bot's deal is such a step. */
  lemma {:induction false} ForeignSavesAreForeign(db: Db, owner: Owner, other: Owner, d: Deal)
    requires other != owner && OrdersHaveDeals(db) && Bookable(d)
    ensures ForeignStep(db, Updated(db, d, other), owner)
    ensures Saved(db, d, other).Some? ==> ForeignStep(db, Saved(db, d, other).value, owner)
  {
  }

  /** Another bot's order or closing is one exactly when it leaves this bot's deal alone. */
  lemma {:induction false} ForeignWritesIff(
    db: Db, owner: Owner, other: Owner, id: DealId, o: Order, c: Closing, fee: real)
    requires other != owner && OrdersHaveDeals(db)
    ensures var r := OrderInserted(db, id, o, other, fee);
            r.Some? ==> (ForeignStep(db, r.value, owner) <==> !Owns(db, id, owner))
    ensures ForeignStep(db, Closed(db, id, other.user, c), owner)
            <==> (Owns(db, id, owner) && owner.user == other.user ==> db.deals[id].closing == c)
  {
    var r := OrderInserted(db, id, o, other, fee);
    if r.Some? && Owns(db, id, owner) {
      assert OrderAt(db, id, o.number).None? && OrderAt(r.value, id, o.number).Some?;
    }
  }

  /** Another bot's replay is one exactly when it adds nothing under this bot's deal. */
  lemma {:induction false} ForeignReplay(db: Db, owner: Owner, other: Owner, d: Deal)
    requires other != owner && OrdersHaveDeals(db) && Bookable(d)
    ensures ForeignStep(db, DealReplayed(db, d, other), owner)
            <==> (Owns(db, d.id, owner) ==> DealReplayed(db, d, other) == db)
  {
    var added := Inserted(db, d, other).GetOr(db);
    var r := DealReplayed(db, d, other);
    OrdersReplayedKeeps(added, d.id, d.orders, other);
    ReplayedUnder(added, d.id, d.orders, other);
    if Owns(db, d.id, owner) {
      ReplayTrespassesIff(db, owner, other, d);
      OrdersPresent(db, d.id, d.orders, other);
      if r != db {
        var i :| 0 <= i < |d.orders| && (d.id, d.orders[i].number) !in db.orders;
        assert OrderAt(db, d.id, d.orders[i].number).None? && OrderAt(r, d.id, d.orders[i].number).Some?;
      }
    } else {
      forall id | Owns(db, id, owner)
        ensures SameUnder(db, r, id)
      {
        assert forall n: nat :: OrderAt(r, id, n) == OrderAt(added, id, n);
      }
    }
  }

  /** A replay of one deal adds orders under that deal only. */
  lemma {:induction false} ReplayedUnder(db: Db, id: DealId, orders: seq<Order>, owner: Owner)
    ensures forall k: OrderKey :: k.0 != id ==>
              var r := OrdersReplayed(db, id, orders, owner);
              (k in r.orders <==> k in db.orders) && (k in db.orders ==> r.orders[k] == db.orders[k])
    ensures forall k :: k in OrdersReplayed(db, id, orders, owner).orders ==> k in db.orders || k.0 == id
  {
    if orders != [] {
      ReplayedUnder(db, id, orders[..|orders| - 1], owner);
    }
  }

  /**
   A replay is the exception: its order rows are not tied to the replaying owner's deal. It
   files orders under another bot's deal exactly when that id is taken by the other bot and
   lacks one of the order numbers; that bot can then no longer record its own.
   */
  lemma {:induction false} ReplayTrespassesIff(db: Db, owner: Owner, other: Owner, d: Deal)
    requires Bookable(d) && other != owner && Owns(db, d.id, owner)
    ensures DealReplayed(db, d, other) != db
            <==> exists i :: 0 <= i < |d.orders| && (d.id, d.orders[i].number) !in db.orders
    ensures forall i, o: Order, fee ::
              0 <= i < |d.orders| && o.number == d.orders[i].number ==>
                OrderInserted(DealReplayed(db, d, other), d.id, o, owner, fee).None?
  {
    OrdersPresent(db, d.id, d.orders, other);
    assert DealReplayed(db, d, other) == OrdersReplayed(db, d.id, d.orders, other);
    if forall i :: 0 <= i < |d.orders| ==> (d.id, d.orders[i].number) in db.orders {
      OrdersNoop(db, d.id, d.orders, other);
    }
  }

  // ---- Open and closed deals together ----------------------------------------------------------------

  /** The engine's two collections: what is in the first is open, what is in the second is not. */
  ghost predicate Sorted(open: map<DealId, Deal>, closed: map<DealId, Deal>) {
    && open.Keys !! closed.Keys
    && (forall id :: id in open ==> open[id].closing.isOpen && open[id].closing.reason.None?)
    && (forall id :: id in closed ==> !closed[id].closing.isOpen)
  }

  ghost predicate Consistent(db: Db, owner: Owner, open: map<DealId, Deal>, closed: map<DealId, Deal>) {
    Agreed(db, owner, open + closed) && Sorted(open, closed)
  }

  lemma {:induction false} SortedOpen(open: map<DealId, Deal>, closed: map<DealId, Deal>, d: Deal)
    requires Sorted(open, closed) && d.id !in closed && d.closing.isOpen && d.closing.reason.None?
    ensures Sorted(open[d.id := d], closed) && open[d.id := d] + closed == (open + closed)[d.id := d]
  {
  }

  lemma {:induction false} SortedClose(open: map<DealId, Deal>, closed: map<DealId, Deal>, e: Deal)
    requires Sorted(open, closed) && e.id in open && !e.closing.isOpen
    ensures Sorted(open - {e.id}, closed[e.id := e])
    ensures (open - {e.id}) + closed[e.id := e] == (open + closed)[e.id := e]
  {
  }

  /** The two collections as one, put differently. */
  lemma {:induction false} SameMemory(
    db: Db, owner: Owner, mem: map<DealId, Deal>, open: map<DealId, Deal>, closed: map<DealId, Deal>)
    requires Agreed(db, owner, mem) && open + closed == mem && Sorted(open, closed)
    ensures Consistent(db, owner, open, closed)
  {
  }

  lemma {:induction false} OpenKeeps(
    db: Db, owner: Owner, open: map<DealId, Deal>, closed: map<DealId, Deal>, d: Deal, fee: real)
    requires Consistent(db, owner, open, closed) && GoodDeal(d) && |d.orders| == 1 && d.id !in db.deals && Bookable(d)
    requires d.closing.isOpen && d.closing.reason.None?
    ensures Inserted(db, d, owner).Some?
    ensures OrderInserted(Inserted(db, d, owner).value, d.id, d.orders[0], owner, fee).Some?
    ensures Consistent(OrderInserted(Inserted(db, d, owner).value, d.id, d.orders[0], owner, fee).value,
                       owner, open[d.id := d], closed)
  {
    var mem := open + closed;
    OpenAgrees(db, owner, mem, d, fee);
    forall id | id in mem
      ensures id in db.deals
    {
      assert RowAgrees(db, owner, mem[id]);
    }
    SortedOpen(open, closed, d);
    var db' := OrderInserted(Inserted(db, d, owner).value, d.id, d.orders[0], owner, fee).value;
    SameMemory(db', owner, mem[d.id := d], open[d.id := d], closed);
  }

  lemma {:induction false} AverageKeeps(
    db: Db, owner: Owner, open: map<DealId, Deal>, closed: map<DealId, Deal>, id: DealId, e: Deal, o: Order, fee: real)
    requires Consistent(db, owner, open, closed) && id in open
    requires o.number == |open[id].orders| + 1 && o.price > 0.0 && o.size >= 0.0
    requires e == open[id].(orders := open[id].orders + [o])
    ensures Bookable(e) && e.id == id && Averaged(db, e, o, owner, fee).Some?
    ensures Consistent(Averaged(db, e, o, owner, fee).value, owner, open[id := e], closed)
  {
    var mem := open + closed;
    OpenIsGood(db, owner, open, closed, id);
    assert mem[id] == open[id];
    AverageAgrees(db, owner, mem, open[id], e, o, fee);
    SortedOpen(open, closed, e);
    SameMemory(Averaged(db, e, o, owner, fee).value, owner, mem[id := e], open[id := e], closed);
  }

  lemma {:induction false} CloseKeeps(
    db: Db, owner: Owner, open: map<DealId, Deal>, closed: map<DealId, Deal>, id: DealId, e: Deal, c: Closing)
    requires Consistent(db, owner, open, closed) && id in open
    requires e == open[id].(closing := e.closing) && ClosingAgrees(c, e.closing) && !e.closing.isOpen
    ensures Consistent(Closed(db, id, owner.user, c), owner, open - {id}, closed[id := e])
    ensures Owns(Closed(db, id, owner.user, c), id, owner)
    ensures Closed(db, id, owner.user, c).deals[id].closing == c
  {
    var mem := open + closed;
    OpenIsGood(db, owner, open, closed, id);
    assert mem[id] == open[id];
    CloseAgrees(db, owner, mem, open[id], e, c);
    SortedClose(open, closed, e);
    SameMemory(Closed(db, id, owner.user, c), owner, mem[id := e], open - {id}, closed[id := e]);
  }

  lemma {:induction false} OpenIsGood(
    db: Db, owner: Owner, open: map<DealId, Deal>, closed: map<DealId, Deal>, id: DealId)
    requires Consistent(db, owner, open, closed) && id in open
    ensures GoodDeal(open[id]) && Bookable(open[id]) && open[id].id == id && Owns(db, id, owner)
  {
    assert (open + closed)[id] == open[id];
    assert RowAgrees(db, owner, (open + closed)[id]);
  }

  // ---- Cash and ledger -------------------------------------------------------------------------------

  /** The closed deals by id. */
  function Filed(closed: seq<Deal>): map<DealId, Deal> {
    if closed == [] then map[] else Filed(closed[..|closed| - 1])[closed[|closed| - 1].id := closed[|closed| - 1]]
  }

  lemma {:induction false} FiledHolds(closed: seq<Deal>)
    requires UniqueIds(closed)
    ensures forall i :: 0 <= i < |closed| ==> closed[i].id in Filed(closed) && Filed(closed)[closed[i].id] == closed[i]
    ensures forall id :: id in Filed(closed) ==> exists i :: 0 <= i < |closed| && closed[i].id == id
    decreases |closed|
  {
    if closed != [] {
      var front, last := closed[..|closed| - 1], closed[|closed| - 1];
      assert forall i :: 0 <= i < |front| ==> front[i] == closed[i];
      FiledHolds(front);
      forall id | id in Filed(closed)
        ensures exists i :: 0 <= i < |closed| && closed[i].id == id
      {
        if id == last.id {
          assert closed[|front|].id == id;
        } else {
          var i :| 0 <= i < |front| && front[i].id == id;
          assert closed[i].id == id;
        }
      }
    }
  }

  /** One more closed deal. */
  lemma {:induction false} FiledSnoc(closed: seq<Deal>, e: Deal)
    requires UniqueIds(closed) && e.id !in Filed(closed)
    ensures Filed(closed + [e]) == Filed(closed)[e.id := e]
    ensures UniqueIds(closed + [e])
  {
    FiledHolds(closed);
    assert (closed + [e])[..|closed|] == closed;
  }

  /** The profits the ledger shows for these deals. */
  function LedgerPnl(db: Db, closed: seq<Deal>): real
    requires forall i :: 0 <= i < |closed| ==> closed[i].id in db.deals
  {
    if closed == [] then 0.0
    else LedgerPnl(db, closed[..|closed| - 1]) + db.deals[closed[|closed| - 1].id].closing.pnlBtc
  }

  /** The profits of the cancelled deals among these. */
  function CancelledPnl(closed: seq<Deal>): real
    requires forall i :: 0 <= i < |closed| ==> Bookable(closed[i])
  {
    if closed == [] then 0.0
    else
      var last := closed[|closed| - 1];
      assert Bookable(last);
      CancelledPnl(closed[..|closed| - 1])
      + if last.closing.reason == Some(EngineRules.CANCELLED) then ClosingPnl(last) else 0.0
  }

  /** The cash of an engine that began with `capital`: nothing but booked profit and accepted fees moved it. */
  ghost predicate Cash(m: EngineRules.Money, capital: real) {
    EngineRuns.Capital(m) == capital && UniqueIds(m.closed) && AllStamped(m.closed)
  }

  lemma {:induction false} LedgerShows(
    db: Db, owner: Owner, open: map<DealId, Deal>, all: seq<Deal>, i: nat)
    requires Consistent(db, owner, open, Filed(all)) && UniqueIds(all) && AllStamped(all) && i < |all|
    ensures Owns(db, all[i].id, owner) && Bookable(all[i])
    ensures all[i].closing.pnlBtc
         == db.deals[all[i].id].closing.pnlBtc
            + if all[i].closing.reason == Some(EngineRules.CANCELLED) then ClosingPnl(all[i]) else 0.0
  {
    var d := all[i];
    assert Stamped(d);
    FiledHolds(all);
    assert (open + Filed(all))[d.id] == d;
    assert RowAgrees(db, owner, d);
  }

  /** All of these are the bot's, and their profits split as stated. */
  ghost predicate Split(db: Db, owner: Owner, closed: seq<Deal>) {
    && (forall i :: 0 <= i < |closed| ==> Owns(db, closed[i].id, owner) && Bookable(closed[i]))
    && SumPnl(closed) == LedgerPnl(db, closed) + CancelledPnl(closed)
  }

  lemma {:induction false} SplitSnoc(db: Db, owner: Owner, front: seq<Deal>, last: Deal, closed: seq<Deal>)
    requires Split(db, owner, front) && Owns(db, last.id, owner) && Bookable(last) && closed == front + [last]
    requires last.closing.pnlBtc
          == db.deals[last.id].closing.pnlBtc
             + if last.closing.reason == Some(EngineRules.CANCELLED) then ClosingPnl(last) else 0.0
    ensures Split(db, owner, closed)
  {
    assert closed[..|closed| - 1] == front && closed[|closed| - 1] == last;
  }

  lemma {:induction false} LedgerMissesCancelled(
    db: Db, owner: Owner, open: map<DealId, Deal>, all: seq<Deal>, n: nat, closed: seq<Deal>)
    requires Consistent(db, owner, open, Filed(all)) && UniqueIds(all) && AllStamped(all)
    requires n <= |all| && closed == all[..n]
    ensures Split(db, owner, closed)
    decreases n
  {
    if n > 0 {
      var front, last := all[..n - 1], all[n - 1];
      LedgerMissesCancelled(db, owner, open, all, n - 1, front);
      LedgerShows(db, owner, open, all, n - 1);
      assert closed == front + [last];
      SplitSnoc(db, owner, front, last, closed);
    }
  }

  /**
   The balance and the ledger part by the cancelled deals and by nothing else: the balance is
   the capital, less the accepted fees, plus the profits the ledger shows, plus what the
   cancelled deals would have made at the prices they were cancelled at. The ledger shows
   zero for those.
   */
  lemma {:induction false} BalanceVersusLedger(
    db: Db, owner: Owner, open: map<DealId, Deal>, m: EngineRules.Money, capital: real)
    requires Consistent(db, owner, open, Filed(m.closed)) && Cash(m, capital)
    ensures forall i :: 0 <= i < |m.closed| ==> Owns(db, m.closed[i].id, owner) && Bookable(m.closed[i])
    ensures m.balance - (capital - m.accepted + LedgerPnl(db, m.closed)) == CancelledPnl(m.closed)
  {
    assert m.closed == m.closed[..|m.closed|];
    LedgerMissesCancelled(db, owner, open, m.closed, |m.closed|, m.closed);
  }

  /** One cancel at a positive price parts them exactly when the price is not the deal's average entry. */
  lemma {:induction false} CancelPartsIff(d: Deal, price: real)
    requires GoodDeal(d) && price > 0.0
    ensures TotalSize(d.orders) > 0.0
    ensures CalculatePnl(d.side, d.leverage, d.orders, price).0 != 0.0 <==> price != AvgEntry(d.orders)
  {
    PnlUnfolded(d.side, d.leverage, d.orders, price);
    ReturnZeroIff(AvgEntry(d.orders), price, d.side);
    NonZeroProduct(TotalSize(d.orders), Return(AvgEntry(d.orders), price, d.side), d.leverage as real);
  }

  lemma {:induction false} ReturnZeroIff(avg: real, price: real, side: Side)
    requires price > 0.0
    ensures Return(avg, price, side) == 0.0 <==> price == avg
  {
    var gain := if side.Long? then price - avg else avg - price;
    assert Return(avg, price, side) * price == gain;
  }

  lemma {:induction false} NonZeroProduct(size: real, r: real, lev: real)
    requires size > 0.0 && lev > 0.0
    ensures Leveraged(size, r, lev) == 0.0 <==> r == 0.0
  {
    if r > 0.0 {
      assert size * r > 0.0;
      assert size * r * lev > 0.0;
    } else if r < 0.0 {
      assert size * -r > 0.0;
      assert size * -r * lev > 0.0;
    }
  }

  lemma {:induction false} ChargeKeepsCash(m: EngineRules.Money, capital: real, fee: real)
    requires Cash(m, capital) && fee >= 0.0
    ensures Cash(EngineRules.Charge(m, fee), capital) && Cash(EngineRules.ChargeAnyway(m, fee), capital)
  {
    EngineRuns.ChargeConserves(m, fee);
  }

  /** A deal that is closed takes its place in cash and history. */
  lemma {:induction false} SettleKeepsCash(
    m: EngineRules.Money, capital: real, d: Deal, price: real, reason: string)
    requires Cash(m, capital) && Bookable(d) && d.id !in Filed(m.closed)
    ensures var s := EngineRules.Settle(m, d, price, reason);
            && Filed(s.closed) == Filed(m.closed)[d.id := ClosedDeal(d, price, reason)]
            && Cash(s, capital)
  {
    var s, e := EngineRules.Settle(m, d, price, reason), ClosedDeal(d, price, reason);
    assert s.closed == m.closed + [e] && e.id == d.id;
    EngineRuns.SettleConserves(m, d, price, reason);
    FiledSnoc(m.closed, e);
    ClosingStamps(d, price, reason);
    StampedSnoc(m.closed, e);
  }

  /** The deal with the trigger of its exit. */
  function Triggered(d: Deal, trigger: string): Deal {
    d.(closing := d.closing.(trigger := Some(trigger)))
  }

  /** The cash after an exit: a cancel is charged nothing, a manual close its fee whatever the balance. */
  function AfterExit(cfg: Config, m: EngineRules.Money, d: Deal, price: real, reason: string): EngineRules.Money
    requires Bookable(d)
  {
    var s, fee := EngineRules.Settle(m, d, price, reason), EngineRules.Fee(cfg, TotalSize(d.orders));
    if reason == EngineRules.CANCELLED then s
    else if reason == EngineRules.MANUAL then EngineRules.ChargeAnyway(s, fee)
    else EngineRules.Charge(s, fee)
  }

  lemma {:induction false} ExitKeepsCash(
    cfg: Config, m: EngineRules.Money, capital: real, d: Deal, price: real, reason: string)
    requires cfg.Valid() && Cash(m, capital) && GoodDeal(d) && Bookable(d) && d.id !in Filed(m.closed)
    ensures Cash(AfterExit(cfg, m, d, price, reason), capital)
    ensures Filed(AfterExit(cfg, m, d, price, reason).closed)
         == Filed(m.closed)[d.id := ClosedDeal(d, price, reason)]
  {
    var s, fee := EngineRules.Settle(m, d, price, reason), EngineRules.Fee(cfg, TotalSize(d.orders));
    SettleKeepsCash(m, capital, d, price, reason);
    FeeOf(cfg, d);
    ChargeKeepsCash(s, capital, fee);
    assert AfterExit(cfg, m, d, price, reason).closed == s.closed;
  }

  /** An exit in both places: `c` is what the ledger is told. */
  lemma {:induction false} ExitKeeps(
    db: Db, owner: Owner, cfg: Config, open: map<DealId, Deal>, m: EngineRules.Money, capital: real,
    id: DealId, leaving: Deal, price: real, reason: string, c: Closing)
    requires cfg.Valid() && Consistent(db, owner, open, Filed(m.closed)) && Cash(m, capital) && id in open
    requires leaving == open[id].(closing := leaving.closing) && Bookable(leaving)
    requires ClosingAgrees(c, ClosedDeal(leaving, price, reason).closing)
    ensures var m', db' := AfterExit(cfg, m, leaving, price, reason), Closed(db, id, owner.user, c);
            && Cash(m', capital)
            && Consistent(db', owner, open - {id}, Filed(m'.closed))
            && Owns(db', id, owner) && db'.deals[id].closing == c
  {
    OpenIsGood(db, owner, open, Filed(m.closed), id);
    ExitKeepsCash(cfg, m, capital, leaving, price, reason);
    CloseKeeps(db, owner, open, Filed(m.closed), id, ClosedDeal(leaving, price, reason), c);
  }

  lemma {:induction false} FeeOf(cfg: Config, d: Deal)
    requires cfg.Valid() && SoundOrders(d.orders)
    ensures EngineRules.Fee(cfg, TotalSize(d.orders)) >= 0.0
  {
    SoundSums(d.orders);
    EngineRuns.FeeNonNegative(cfg, TotalSize(d.orders));
  }

  // ---- The engine's side ---------------------------------------------------------------------------

  const MAX_ATTEMPTS := 3

  /** One base order and otherwise DCA orders, so that the next order's number is one more than their count. */
  predicate OneBase(d: Deal) { DcaCount(d.orders) == |d.orders| - 1 }

  class LedgerEngine {
    const owner: Owner
    const cfg: Config
    const capital: real
    var db: Db
    var openDeals: map<DealId, Deal>
    var money: EngineRules.Money

    ghost predicate Valid()
      reads this
    {
      && cfg.Valid()
      && Consistent(db, owner, openDeals, Filed(money.closed))
      && Cash(money, capital)
      && forall id :: id in openDeals ==> OneBase(openDeals[id])
    }

    /** A bot with no rows yet. */
    constructor (owner: Owner, cfg: Config, capital: real, db: Db)
      requires cfg.Valid() && OrdersHaveDeals(db) && forall id :: !Owns(db, id, owner)
      ensures Valid() && this.owner == owner && this.cfg == cfg && this.capital == capital
      ensures this.db == db && openDeals == map[] && money == EngineRules.Money(capital, [], 0.0, 0.0, [])
    {
      this.owner, this.cfg, this.capital, this.db := owner, cfg, capital, db;
      openDeals, money := map[], EngineRules.Money(capital, [], 0.0, 0.0, []);
    }

    /** Insert, and on a collision draw another id, three times over. `draws` are the ids drawn. */
    method CreateWithRetry(deal: Deal, draws: seq<DealId>) returns (created: Option<Deal>)
      requires Bookable(deal) && |draws| == MAX_ATTEMPTS
      modifies this`db
      ensures created.None? <==> deal.id in old(db).deals && draws[0] in old(db).deals && draws[1] in old(db).deals
      ensures created.None? ==> db == old(db)
      ensures created.Some? ==>
                && created.value == deal.(id := created.value.id)
                && created.value.id in {deal.id, draws[0], draws[1]}
                && Bookable(created.value)
                && Some(db) == Inserted(old(db), created.value, owner)
    {
      var trial := deal;
      for attempt := 0 to MAX_ATTEMPTS
        invariant db == old(db) && trial == deal.(id := if attempt == 0 then deal.id else draws[attempt - 1])
        invariant attempt > 0 ==> deal.id in db.deals
        invariant attempt > 1 ==> draws[0] in db.deals
        invariant attempt > 2 ==> draws[1] in db.deals
      {
        assert Bookable(trial);
        var inserted := Inserted(db, trial, owner);
        if inserted.Some? {
          db := inserted.value;
          return Some(trial);
        }
        trial := trial.(id := draws[attempt]);
      }
      return None;
    }

    /** The ledger first: a deal the ledger refused never reaches memory. */
    method OpenDeal(id: DealId, draws: seq<DealId>, side: Side, price: real) returns (deal: Option<Deal>)
      requires Valid() && price > 0.0 && |draws| == MAX_ATTEMPTS
      modifies this`db, this`openDeals, this`money
      ensures Valid()
      ensures deal.None? <==> id in old(db).deals && draws[0] in old(db).deals && draws[1] in old(db).deals
      ensures deal.None? ==> db == old(db) && openDeals == old(openDeals) && money == old(money)
      ensures deal.Some? ==>
                && deal.value.id !in old(db).deals && deal.value.id in {id, draws[0], draws[1]}
                && deal.value == OpenedDeal(cfg, deal.value.id, side, price)
                && OrderAt(db, deal.value.id, 1)
                   == Some(OrderRow(owner, deal.value.orders[0], EngineRules.Fee(cfg, cfg.dca.baseSize)))
                && openDeals == old(openDeals)[deal.value.id := deal.value]
                && money == EngineRules.Charge(old(money), EngineRules.Fee(cfg, cfg.dca.baseSize))
    {
      var draft := OpenedDeal(cfg, id, side, price);
      OpenedIsSound(cfg, id, side, price);
      GoodIsBookable(draft);
      ghost var before := db;
      deal := CreateWithRetry(draft, draws);
      if deal.None? {
        return;
      }
      var d := deal.value;
      var fee := EngineRules.Fee(cfg, cfg.dca.baseSize);
      OpenKeeps(before, owner, openDeals, Filed(money.closed), d, fee);
      EngineRuns.FeeNonNegative(cfg, cfg.dca.baseSize);
      ChargeKeepsCash(money, capital, fee);
      SingleDca(d);
      openDeals := openDeals[d.id := d];
      var saved := OrderInserted(db, d.id, d.orders[0], owner, fee);
      OrderFiled(db, d.id, d.orders[0], owner, fee);
      db := saved.value;
      money := EngineRules.Charge(money, fee);
    }

    /** The DCA branch: an order the rule of TickRules asks for goes to the order table, the deal row and memory. */
    method AverageDown(id: DealId, price: real) returns (averaged: bool)
      requires Valid() && id in openDeals && price > 0.0
      modifies this`db, this`openDeals, this`money
      ensures Valid() && old(openDeals)[id].orders != []
      ensures var (d, dca) := (old(openDeals)[id], CheckDca(cfg, old(openDeals)[id], price));
              && averaged == dca.Some?
              && (!averaged ==> db == old(db) && openDeals == old(openDeals) && money == old(money))
              && (averaged ==>
                    && openDeals == old(openDeals)[id := d.(orders := d.orders + [dca.value])]
                    && OrderAt(db, id, dca.value.number)
                       == Some(OrderRow(owner, dca.value, EngineRules.Fee(cfg, dca.value.size)))
                    && money == EngineRules.Charge(old(money), EngineRules.Fee(cfg, dca.value.size)))
    {
      var deal := openDeals[id];
      OpenIsGood(db, owner, openDeals, Filed(money.closed), id);
      var dca := CheckDca(cfg, deal, price);
      averaged := dca.Some?;
      if averaged {
        var order := dca.value;
        var down := deal.(orders := deal.orders + [order]);
        var fee := EngineRules.Fee(cfg, order.size);
        DcaTerms(cfg, DcaCount(deal.orders));
        AverageKeeps(db, owner, openDeals, Filed(money.closed), id, down, order, fee);
        EngineRuns.FeeNonNegative(cfg, order.size);
        ChargeKeepsCash(money, capital, fee);
        assert down.orders[..|down.orders| - 1] == deal.orders;
        openDeals := openDeals[id := down];
        var ordered := OrderInserted(db, id, order, owner, fee);
        OrderFiled(db, id, order, owner, fee);
        WritesStayHome(ordered.value, down, owner);
        var saved := Saved(ordered.value, down, owner);
        db := saved.value;
        money := EngineRules.Charge(money, fee);
      }
    }

    /** Any exit but a cancel: the profit the ledger books is the deal's own. */
    method CloseDeal(id: DealId, fill: real, reason: string, trigger: string)
      requires Valid() && id in openDeals && reason != EngineRules.CANCELLED
      modifies this`db, this`openDeals, this`money
      ensures Valid() && openDeals == old(openDeals) - {id}
      ensures Bookable(old(openDeals)[id]) && Owns(db, id, owner)
      ensures var leaving := Triggered(old(openDeals)[id], trigger);
              && money == AfterExit(cfg, old(money), leaving, fill, reason)
              && db.deals[id].closing == ClosedDeal(leaving, fill, reason).closing
    {
      OpenIsGood(db, owner, openDeals, Filed(money.closed), id);
      var leaving := Triggered(openDeals[id], trigger);
      var gone := ClosedDeal(leaving, fill, reason);
      ExitKeeps(db, owner, cfg, openDeals, money, capital, id, leaving, fill, reason, gone.closing);
      openDeals := openDeals - {id};
      money := AfterExit(cfg, money, leaving, fill, reason);
      db := Closed(db, id, owner.user, gone.closing);
    }

    /**
     A cancel books the deal's profit into the balance and history but zeros into the ledger.
     An unknown deal or a price that is not positive is refused.
     */
    method CancelDeal(id: DealId, price: real) returns (ok: bool)
      requires Valid()
      modifies this`db, this`openDeals, this`money
      ensures Valid()
      ensures ok <==> id in old(openDeals) && price > 0.0
      ensures !ok ==> db == old(db) && openDeals == old(openDeals) && money == old(money)
      ensures ok ==>
                && openDeals == old(openDeals) - {id}
                && GoodDeal(old(openDeals)[id]) && Bookable(old(openDeals)[id])
                && Owns(db, id, owner) && db.deals[id].closing.pnlBtc == 0.0
                && var d := old(openDeals)[id];
                   && money.balance == old(money).balance + CalculatePnl(d.side, d.leverage, d.orders, price).0
                   && money == AfterExit(cfg, old(money), Triggered(d, EngineRules.CANCELLED), price,
                                         EngineRules.CANCELLED)
    {
      ok := id in openDeals && price > 0.0;
      if !ok {
        return;
      }
      OpenIsGood(db, owner, openDeals, Filed(money.closed), id);
      var leaving := Triggered(openDeals[id], EngineRules.CANCELLED);
      var gone := ClosedDeal(leaving, price, EngineRules.CANCELLED);
      var row := gone.closing.(pnlBtc := 0.0, pnlPct := 0.0);
      ExitKeeps(db, owner, cfg, openDeals, money, capital, id, leaving, price, EngineRules.CANCELLED, row);
      openDeals := openDeals - {id};
      money := AfterExit(cfg, money, leaving, price, EngineRules.CANCELLED);
      db := Closed(db, id, owner.user, row);
    }

    /** Whatever other bots write between two of this bot's statements. */
    method OthersWrite(after: Db)
      requires Valid() && ForeignStep(db, after, owner)
      modifies this`db
      ensures Valid() && db == after
    {
      ForeignAgrees(db, after, owner, openDeals + Filed(money.closed));
      db := after;
    }

    /** A restart replays what its file holds; the ledger already has it, from any earlier file, and stays as it is. */
    method ReplayOnRestart(deals: seq<Deal>)
      requires Valid()
      requires forall i :: 0 <= i < |deals| ==> Remembered(openDeals + Filed(money.closed), deals[i])
      modifies this`db
      ensures Valid() && db == old(db)
    {
      forall i | 0 <= i < |deals|
        ensures Bookable(deals[i]) && Present(db, deals[i])
      {
        RememberedIsPresent(db, owner, openDeals + Filed(money.closed), deals[i]);
      }
      ReplayOfPresent(db, deals, owner);
      db := Replayed(db, deals, owner);
    }
  }

  lemma {:induction false} SingleDca(d: Deal)
    requires |d.orders| == 1 && d.orders[0].kind.BaseOrder?
    ensures OneBase(d)
  {
    assert d.orders[..0] == [];
  }

  /** Memory holds the deal, with these orders and perhaps later ones. */
  predicate Remembered(mem: map<DealId, Deal>, d: Deal) {
    d.id in mem && d.orders != [] && d.orders <= mem[d.id].orders && d.leverage > 0
  }

  lemma {:induction false} RememberedIsPresent(db: Db, owner: Owner, mem: map<DealId, Deal>, d: Deal)
    requires Agreed(db, owner, mem) && Remembered(mem, d)
    ensures Bookable(d) && Present(db, d)
  {
    var m := mem[d.id];
    assert RowAgrees(db, owner, m);
    assert forall i :: 0 <= i < |d.orders| ==> d.orders[i] == m.orders[i];
    SoundSums(d.orders);
    forall i | 0 <= i < |d.orders|
      ensures (d.id, d.orders[i].number) in db.orders
    {
      assert OrderAt(db, m.id, i + 1).Some?;
    }
  }

  // ---- A restart from a file -------------------------------------------------------------------------

  /** An earlier memory of the same bot: fewer deals, fewer orders, closings perhaps not yet there. */
  ghost predicate Older(mem': map<DealId, Deal>, mem: map<DealId, Deal>) {
    forall id :: id in mem' ==>
      && mem'[id].id == id && Remembered(mem, mem'[id])
      && mem'[id].side == mem[id].side && mem'[id].leverage == mem[id].leverage
  }

  /** The two agree in everything the ledger holds of a deal. */
  predicate UpToDate(d: Deal, m: Deal) {
    && d.orders == m.orders
    && d.closing.isOpen == m.closing.isOpen && d.closing.reason == m.closing.reason
    && d.closing.price == m.closing.price && d.closing.trigger == m.closing.trigger
    && (m.closing.reason != Some(EngineRules.CANCELLED) ==>
          d.closing.pnlBtc == m.closing.pnlBtc && d.closing.pnlPct == m.closing.pnlPct)
  }

  lemma {:induction false} RowDecides(db: Db, owner: Owner, d: Deal, m: Deal)
    requires RowAgrees(db, owner, m) && d.id == m.id && d.side == m.side && d.leverage == m.leverage
    requires d.orders <= m.orders && d.orders != []
    ensures RowAgrees(db, owner, d) <==> UpToDate(d, m)
  {
    if RowAgrees(db, owner, d) {
      var n := |m.orders|;
      assert OrderAt(db, m.id, n).Some?;
      assert n <= |d.orders|;
      assert d.orders == m.orders;
    }
    if UpToDate(d, m) {
      forall n: nat
        ensures var r := OrderAt(db, d.id, n);
                && (r.Some? <==> 1 <= n <= |d.orders|)
                && (r.Some? ==> r.value.order == d.orders[n - 1] && r.value.owner == owner)
      {
        assert OrderAt(db, m.id, n) == OrderAt(db, d.id, n);
      }
    }
  }

  /**
   A restart replaces memory by what an older or current file holds, and replays it. The replay
   changes nothing; ledger and memory agree afterwards exactly when the file has every deal of
   the memory that was lost, each up to date.
   */
  lemma {:induction false} RestartAgreesIff(
    db: Db, owner: Owner, mem: map<DealId, Deal>, mem': map<DealId, Deal>, deals: seq<Deal>)
    requires Agreed(db, owner, mem) && Older(mem', mem)
    requires forall i :: 0 <= i < |deals| ==> deals[i].id in mem' && mem'[deals[i].id] == deals[i]
    ensures forall i :: 0 <= i < |deals| ==> Bookable(deals[i])
    ensures Replayed(db, deals, owner) == db
    ensures Agreed(db, owner, mem')
            <==> mem'.Keys == mem.Keys && forall id :: id in mem' ==> UpToDate(mem'[id], mem[id])
  {
    forall i | 0 <= i < |deals|
      ensures Bookable(deals[i]) && Present(db, deals[i])
    {
      RememberedIsPresent(db, owner, mem, deals[i]);
    }
    ReplayOfPresent(db, deals, owner);
    forall id | id in mem'
      ensures RowAgrees(db, owner, mem'[id]) <==> UpToDate(mem'[id], mem[id])
    {
      assert RowAgrees(db, owner, mem[id]);
      RowDecides(db, owner, mem'[id], mem[id]);
    }
    if Agreed(db, owner, mem') {
      forall id | id in mem
        ensures id in mem'
      {
        assert RowAgrees(db, owner, mem[id]);
      }
    }
  }

  /** The profit figures of the deal come back from a file as they went in. */
  predicate ReadsBack(d: Deal) {
    d.closing.reason == Some(EngineRules.CANCELLED) || StateIO.AsSaved(d, 0.0).closing == d.closing
  }

  /**
   From a file that is current, and complete, they agree exactly when rounding to satoshis and
   to four decimals of a percent changes no booked profit.
   */
  lemma {:induction false} CurrentFileAgreesIff(
    db: Db, owner: Owner, mem: map<DealId, Deal>, mem': map<DealId, Deal>)
    requires Agreed(db, owner, mem) && mem'.Keys == mem.Keys
    requires forall id :: id in mem ==> mem'[id] == StateIO.AsSaved(mem[id], 0.0)
    ensures Agreed(db, owner, mem') <==> forall id :: id in mem ==> ReadsBack(mem[id])
  {
    forall id | id in mem'
      ensures mem'[id].id == id && Remembered(mem, mem'[id])
      ensures UpToDate(mem'[id], mem[id]) <==> ReadsBack(mem[id])
    {
      assert RowAgrees(db, owner, mem[id]);
    }
    RestartAgreesIff(db, owner, mem, mem', []);
  }

  /** A deal closed after the file was written comes back open beside its closed row. */
  lemma {:induction false} LateCloseDisagrees(
    db: Db, owner: Owner, mem: map<DealId, Deal>, mem': map<DealId, Deal>, id: DealId)
    requires Agreed(db, owner, mem) && Older(mem', mem)
    requires id in mem' && mem'[id].closing.isOpen && !mem[id].closing.isOpen
    ensures Owns(db, id, owner) && !db.deals[id].closing.isOpen && !Agreed(db, owner, mem')
  {
    assert RowAgrees(db, owner, mem[id]);
    RestartAgreesIff(db, owner, mem, mem', []);
  }

  // ---- The columns and the cash in plain arithmetic ----------------------------------------------------

  /** What a row of a deal holds: the first order's price, the sizes summed, the average that makes up their value. */
  lemma {:induction false} RowColumns(db: Db, owner: Owner, d: Deal)
    requires RowAgrees(db, owner, d)
    ensures var r := db.deals[d.id];
            && r.owner == owner && r.side == d.side && r.leverage == d.leverage
            && r.sums.initialPrice == d.orders[0].price
            && r.sums.totalSize == TotalSize(d.orders) && r.sums.totalSize > 0.0
            && r.sums.avgEntry * r.sums.totalSize == TotalValue(d.orders)
            && r.closing.isOpen == d.closing.isOpen && r.closing.price == d.closing.price
            && r.closing.reason == d.closing.reason
  {
    SoundSums(d.orders);
    AvgTimesSize(d.orders);
  }

  /**
   An exit books the deal's profit at its price. A cancel is charged nothing; a manual close pays
   the rate on the whole size whatever the balance; any other exit pays it unless the balance,
   profit included, is short.
   */
  lemma {:induction false} ExitInCash(cfg: Config, m: EngineRules.Money, d: Deal, price: real, reason: string)
    requires Bookable(d)
    ensures var r := AfterExit(cfg, m, d, price, reason);
            var pnl, fee := CalculatePnl(d.side, d.leverage, d.orders, price).0, cfg.dca.takerFee * TotalSize(d.orders);
            && |r.closed| == |m.closed| + 1 && r.closed[|m.closed|].closing.pnlBtc == pnl
            && (reason == "cancelled" ==> r.balance == m.balance + pnl && r.feesPaid == m.feesPaid)
            && (reason != "cancelled" ==> r.feesPaid == m.feesPaid + fee)
            && (reason == "manual" ==> r.balance == m.balance + pnl - fee)
            && (reason != "cancelled" && reason != "manual" ==>
                  r.balance == if m.balance + pnl < fee then m.balance + pnl else m.balance + pnl - fee)
  {
    assert EngineRules.CANCELLED == "cancelled" && EngineRules.MANUAL == "manual";
    assert EngineRules.MANUAL[0] != EngineRules.CANCELLED[0];
  }
}
