/**
 The account store as it runs (core/exchange_account_store.py): file steps and transactions in
 the program's order, any of which can be the last one before a stop.
 */
module ExchangeAccounts {
  import opened Options
  import opened Credentials
  import opened AccountRules
  import opened AccountColumns

  const MAX_ALIAS_LEN := 64
  const MAX_API_KEY_LEN := 512
  const MAX_API_SECRET_LEN := 512
  const MAX_PASSPHRASE_LEN := 64

  datatype CreateResult = Created(id: nat) | Invalid | AliasTaken | Interrupted

  datatype UpdateResult = Changed | Unchanged | BadAlias | AliasCollision | Cut

  predicate GoodAlias(alias: string) { 0 < |alias| <= MAX_ALIAS_LEN }

  predicate GoodKeys(k: Keys) {
    && 0 < |k.apiKey| <= MAX_API_KEY_LEN
    && 0 < |k.apiSecret| <= MAX_API_SECRET_LEN
    && |k.passphrase| <= MAX_PASSPHRASE_LEN
  }

  /** Another session's create, which may commit between this one's check and its insert. */
  datatype Rival = Rival(row: Row, keys: Keys)

  /** The store once the rival, if it can, has committed. */
  function WithRival(s: Store, rival: Option<Rival>): Store {
    if rival.None? then s
    else Inserted(BlobSaved(s, BlobOf(rival.value.row), rival.value.keys), rival.value.row).GetOr(s)
  }

  ghost predicate FreshUuid(s: Store, uuid: Uuid) {
    UuidUnused(s, uuid) && forall b :: b in s.blobs ==> b.uuid != uuid
  }

  lemma {:induction false} RivalKeeps(s: Store, rival: Option<Rival>, uuid: Uuid)
    requires Sound(s) && FreshUuid(s, uuid)
    requires rival.Some? ==> FreshUuid(s, rival.value.row.uuid) && rival.value.row.uuid != uuid
    ensures Sound(WithRival(s, rival)) && FreshUuid(WithRival(s, rival), uuid)
  {
    if rival.Some? {
      var r := rival.value.row;
      var saved := BlobSaved(s, BlobOf(r), rival.value.keys);
      if Inserted(saved, r).Some? {
        InsertKeeps(saved, r);
        forall id | id in Inserted(saved, r).value.rows
          ensures Inserted(saved, r).value.rows[id].uuid != uuid
        {
          InsertedRow(saved, r, id);
        }
      }
    }
  }

  class AccountStore {
    /** The combinations the market registry knows. */
    const combos: set<(string, string)>
    var rows: map<nat, Row>
    var nextId: nat
    var blobs: map<BlobId, Keys>
    /** Steps left before the process stops. */
    var left: nat

    ghost function View(): Store
      reads this
    {
      Store(rows, nextId, blobs)
    }

    method Tick() returns (alive: bool)
      modifies this`left
      ensures alive <==> old(left) > 0
    {
      alive := left > 0;
      if alive {
        left := left - 1;
      }
    }

    method Set(s: Store)
      modifies this`rows, this`nextId, this`blobs
      ensures View() == s
    {
      rows, nextId, blobs := s.rows, s.nextId, s.blobs;
    }

    /** Blob first, row second, and the blob taken back when the row is refused. */
    method CreateAccount(row: Row, keys: Keys, rival: Option<Rival>) returns (r: CreateResult)
      requires Sound(View()) && FreshUuid(View(), row.uuid)
      requires rival.Some? ==> FreshUuid(View(), rival.value.row.uuid) && rival.value.row.uuid != row.uuid
      modifies this`rows, this`nextId, this`blobs, this`left
      ensures Sound(View())
      ensures r.Invalid? <==> !((row.exchange, row.market) in combos && GoodAlias(row.alias) && GoodKeys(keys))
      ensures r.Invalid? ==> View() == old(View())
      ensures r.AliasTaken? ==> Taken(rows, row.user, row.exchange, row.market, row.alias, None)
      ensures r.Created? ==> TableInserted(WithRival(old(View()), rival).rows, rows, r.id, row)
      ensures Taken(old(rows), row.user, row.exchange, row.market, row.alias, None) ==> r.Invalid? || r.AliasTaken?
      ensures r.AliasTaken? ==>
                View() == (if Conflict(old(rows), row, None) then old(View()) else WithRival(old(View()), rival))
                && Conflict(rows, row, None)
      ensures r.Created? ==>
                var saved := BlobSaved(WithRival(old(View()), rival), BlobOf(row), keys);
                && Some(View()) == Inserted(saved, row) && r.id == saved.nextId
                && blobs[BlobOf(rows[r.id])] == keys
      ensures r.Interrupted? ==>
                && (rows == old(rows) || rows == WithRival(old(View()), rival).rows)
                && forall b :: b in blobs && b !in old(blobs) ==>
                     b == BlobOf(row) || (rival.Some? && b == BlobOf(rival.value.row))
    {
      if (row.exchange, row.market) !in combos || !GoodAlias(row.alias) || !GoodKeys(keys) {
        return Invalid;
      }
      ConflictIff(rows, row, None);
      if Conflict(rows, row, None) {
        return AliasTaken;
      }
      RivalKeeps(View(), rival, row.uuid);
      Set(WithRival(Store(rows, nextId, blobs), rival));
      var alive := Tick();
      if !alive { return Interrupted; }
      blobs := blobs[BlobOf(row) := keys];
      alive := Tick();
      if !alive { return Interrupted; }
      var inserted := Inserted(Store(rows, nextId, blobs), row);
      if inserted.None? {
        assert BlobOf(row) !in WithRival(old(View()), rival).blobs;
        alive := Tick();
        if !alive { return Interrupted; }
        blobs := blobs - {BlobOf(row)};
        assert View() == WithRival(old(View()), rival);
        ConflictIff(rows, row, None);
        return AliasTaken;
      }
      InsertKeeps(View(), row);
      InsertColumns(View(), row);
      r := Created(nextId);
      InsertedRow(View(), row, nextId);
      Set(inserted.value);
    }

    /** One transaction: the fields, then the other defaults off, then this one on; an alias collision rolls back. */
    method UpdateAccount(id: nat, c: Change) returns (r: UpdateResult)
      requires Sound(View())
      modifies this`rows, this`nextId, this`blobs, this`left
      ensures Sound(View()) && blobs == old(blobs)
      ensures r.Changed? ==> TableUpdated(old(rows), rows, id, c)
      ensures r.Changed? || r.AliasCollision? ==>
                && id in old(rows)
                && (r.AliasCollision? <==>
                      && c.alias.Some?
                      && var o := old(rows)[id];
                         Taken(old(rows), o.user, o.exchange, o.market, c.alias.value, Some(id)))
      ensures r.Cut? <==> id in old(rows) && GoodChange(c) && c != Change(None, None, None) && old(left) == 0
      ensures r.Changed? ==>
                && id in old(rows)
                && Some(View())
                   == AccountRules.Updated(old(View()), id, old(rows)[id].user, old(rows)[id].exchange, c)
      ensures !r.Changed? ==> View() == old(View())
      ensures r.Unchanged? <==> id !in old(rows) || (GoodChange(c) && c == Change(None, None, None))
      ensures r.BadAlias? <==> id in old(rows) && !GoodChange(c)
      ensures r.AliasCollision? ==> c.alias.Some? && Conflict(rows, Amended(rows[id], c), Some(id))
    {
      if id !in rows {
        return Unchanged;
      }
      var row := rows[id];
      if !GoodChange(c) {
        return BadAlias;
      }
      if c == Change(None, None, None) {
        return Unchanged;
      }
      var alive := Tick();
      if !alive { return Cut; }
      UpdateColumns(View(), id, c);
      var updated := AccountRules.Updated(Store(rows, nextId, blobs), id, row.user, row.exchange, c);
      if updated.None? {
        return AliasCollision;
      }
      UpdateKeeps(View(), id, row.user, row.exchange, c);
      Set(updated.value);
      return Changed;
    }

    method SetDefault(id: nat) returns (r: UpdateResult)
      requires Sound(View())
      modifies this`rows, this`nextId, this`blobs, this`left
      ensures Sound(View())
      ensures r.Changed? ==>
                && id in rows && rows[id].isDefault
                && forall j :: j in rows && j != id && SameBucket(rows[j], rows[id]) ==> !rows[j].isDefault
      ensures !r.Changed? ==> View() == old(View())
    {
      r := UpdateAccount(id, Change(None, Some(true), None));
    }

    /** Row first, blob second: a stop in between leaves a blob without a row, never a row without a blob. */
    method DeleteAccount(id: nat) returns (done: bool)
      requires Sound(View())
      modifies this`rows, this`blobs, this`left
      ensures Sound(View())
      ensures done ==> id in old(rows) && rows == old(rows) - {id}
      ensures rows == old(rows) || (id in old(rows) && rows == old(rows) - {id})
      ensures blobs == old(blobs) || (id in old(rows) && id !in rows && blobs == old(blobs) - {BlobOf(old(rows)[id])})
    {
      if id !in rows {
        return false;
      }
      var blob := BlobOf(rows[id]);
      var alive := Tick();
      if !alive { return false; }
      DeleteKeeps(View(), id);
      assert View().(rows := rows - {id}) == RowDeleted(View(), id);
      assert UuidUnused(RowDeleted(View(), id), blob.uuid);
      rows := rows - {id};
      alive := Tick();
      if !alive { return false; }
      UnlinkingKeeps(View(), blob);
      blobs := blobs - {blob};
      return true;
    }
  }

  predicate GoodChange(c: Change) { c.alias.Some? ==> GoodAlias(c.alias.value) }
}
