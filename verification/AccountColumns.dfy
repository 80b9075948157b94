/**
 What the account transactions do to the table, column by column
 (core/exchange_account_store.py, `create_account`, `update_account`).
 */
module AccountColumns {
  import opened Options
  import opened Credentials
  import opened AccountRules

  /** Some row but `skip` already carries this name in the same user, exchange and market. */
  ghost predicate Taken(rows: map<nat, Row>, user: nat, exchange: string, market: string, alias: string,
                        skip: Option<nat>) {
    exists j :: j in rows && Some(j) != skip && rows[j].user == user && rows[j].exchange == exchange
                && rows[j].market == market && rows[j].alias == alias
  }

  /** A row that is not touched but for a default taken off in this bucket. */
  predicate Bystander(before: Row, now: Row, clears: bool, user: nat, exchange: string) {
    now == if clears && before.user == user && before.exchange == exchange
           then Row(before.user, before.exchange, before.market, before.alias, before.uuid, false, before.lastTested)
           else before
  }

  /** The new value of each column where one is given, and the old one where not. */
  predicate RowChanged(before: Row, now: Row, c: Change) {
    && now.user == before.user && now.exchange == before.exchange && now.market == before.market
    && now.uuid == before.uuid
    && now.alias == (if c.alias.Some? then c.alias.value else before.alias)
    && now.isDefault == (if c.isDefault.Some? then c.isDefault.value else before.isDefault)
    && now.lastTested == (if c.lastTested.Some? then c.lastTested else before.lastTested)
  }

  ghost predicate TableUpdated(before: map<nat, Row>, now: map<nat, Row>, id: nat, c: Change) {
    && id in before && now.Keys == before.Keys
    && RowChanged(before[id], now[id], c)
    && forall j :: j in before && j != id ==>
         Bystander(before[j], now[j], c.isDefault == Some(true), before[id].user, before[id].exchange)
  }

  ghost predicate TableInserted(before: map<nat, Row>, now: map<nat, Row>, id: nat, r: Row) {
    && id !in before && now.Keys == before.Keys + {id}
    && now[id] == r
    && forall j :: j in before ==> Bystander(before[j], now[j], r.isDefault, r.user, r.exchange)
  }

  lemma {:induction false} ConflictIff(rows: map<nat, Row>, r: Row, skip: Option<nat>)
    ensures Conflict(rows, r, skip) <==> Taken(rows, r.user, r.exchange, r.market, r.alias, skip)
  {
  }

  /** An update is refused exactly when another row has the new alias; otherwise it changes these columns only. */
  lemma {:induction false} UpdateColumns(s: Store, id: nat, c: Change)
    requires Sound(s) && id in s.rows
    ensures var r := s.rows[id];
            var t := Updated(s, id, r.user, r.exchange, c);
            && (t.None? <==> c.alias.Some?
                             && Taken(s.rows, r.user, r.exchange, r.market, c.alias.value, Some(id)))
            && (t.Some? ==> TableUpdated(s.rows, t.value.rows, id, c))
  {
    var r := s.rows[id];
    ConflictIff(s.rows, Amended(r, c), Some(id));
    var t := Updated(s, id, r.user, r.exchange, c);
    if t.Some? {
      forall j | j in s.rows && j != id
        ensures Bystander(s.rows[j], t.value.rows[j], c.isDefault == Some(true), r.user, r.exchange)
      {
      }
    }
  }

  /** An insert is refused exactly when the name is taken; otherwise the row is in and others at most lose a default. */
  lemma {:induction false} InsertColumns(s: Store, r: Row)
    requires Sound(s)
    ensures var t := Inserted(s, r);
            && (t.None? <==> Taken(s.rows, r.user, r.exchange, r.market, r.alias, None))
            && (t.Some? ==> TableInserted(s.rows, t.value.rows, s.nextId, r))
  {
    ConflictIff(s.rows, r, None);
    assert s.nextId !in s.rows;
  }
}
