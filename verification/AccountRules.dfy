/**
 Exchange accounts and their encrypted blobs (core/exchange_account_store.py): a table and a
 directory that no transaction spans. The atomic actions of the program are functions here;
 the state machine below lets any number of sessions interleave them and stop between any two.
 */
module AccountRules {
  import opened Options
  import opened Credentials

  datatype Row = Row(
    user: nat,
    exchange: string,
    market: string,
    alias: string,
    uuid: Uuid,
    isDefault: bool,
    lastTested: Option<string>)

  datatype BlobId = BlobId(user: nat, uuid: Uuid)

  datatype Store = Store(rows: map<nat, Row>, nextId: nat, blobs: map<BlobId, Keys>)

  function BlobOf(r: Row): BlobId { BlobId(r.user, r.uuid) }

  /** The columns of the table's UNIQUE constraint. */
  predicate SameName(a: Row, b: Row) {
    a.user == b.user && a.exchange == b.exchange && a.market == b.market && a.alias == b.alias
  }

  predicate SameBucket(a: Row, b: Row) { a.user == b.user && a.exchange == b.exchange }

  predicate Conflict(rows: map<nat, Row>, r: Row, skip: Option<nat>) {
    exists id :: id in rows && Some(id) != skip && SameName(rows[id], r)
  }

  // ---- The atomic actions -------------------------------------------------------------------

  /** `UPDATE … SET is_default = 0` for one user and exchange, sparing one id. */
  function ClearOthers(rows: map<nat, Row>, user: nat, exchange: string, keep: nat): (r: map<nat, Row>)
    ensures r.Keys == rows.Keys
  {
    map id | id in rows ::
      if id != keep && rows[id].user == user && rows[id].exchange == exchange then rows[id].(isDefault := false)
      else rows[id]
  }

  /** The insert transaction; None is the integrity error, which rolls back. */
  function Inserted(s: Store, r: Row): Option<Store> {
    if Conflict(s.rows, r, None) then None
    else
      var rows := s.rows[s.nextId := r];
      Some(s.(rows := if r.isDefault then ClearOthers(rows, r.user, r.exchange, s.nextId) else rows,
              nextId := s.nextId + 1))
  }

  datatype Change = Change(alias: Option<string>, isDefault: Option<bool>, lastTested: Option<string>)

  function Amended(r: Row, c: Change): Row {
    r.(alias := c.alias.GetOr(r.alias),
       lastTested := if c.lastTested.Some? then c.lastTested else r.lastTested,
       isDefault := c.isDefault.GetOr(r.isDefault))
  }

  /** The update transaction for a row that may be gone by now; `user` and `exchange` were read before it began. */
  function Updated(s: Store, id: nat, user: nat, exchange: string, c: Change): Option<Store> {
    if id in s.rows && c.alias.Some? && Conflict(s.rows, Amended(s.rows[id], c), Some(id)) then None
    else
      var rows := if c.isDefault == Some(true) then ClearOthers(s.rows, user, exchange, id) else s.rows;
      Some(s.(rows := if id in s.rows then rows[id := Amended(s.rows[id], c)] else rows))
  }

  function RowDeleted(s: Store, id: nat): Store { s.(rows := s.rows - {id}) }

  function BlobSaved(s: Store, b: BlobId, k: Keys): Store { s.(blobs := s.blobs[b := k]) }

  function BlobDeleted(s: Store, b: BlobId): Store { s.(blobs := s.blobs - {b}) }

  // ---- The invariant ------------------------------------------------------------------------

  ghost predicate IdsBelow(s: Store) { forall id :: id in s.rows ==> id < s.nextId }

  /** Every row's blob exists. */
  ghost predicate Backed(s: Store) { forall id :: id in s.rows ==> BlobOf(s.rows[id]) in s.blobs }

  ghost predicate DistinctUuids(rows: map<nat, Row>) {
    forall i, j :: i in rows && j in rows && i != j ==> rows[i].uuid != rows[j].uuid
  }

  ghost predicate UniqueNames(rows: map<nat, Row>) {
    forall i, j :: i in rows && j in rows && i != j ==> !SameName(rows[i], rows[j])
  }

  /** At most one default per user and exchange. */
  ghost predicate OneDefault(rows: map<nat, Row>) {
    forall i, j :: i in rows && j in rows && i != j && SameBucket(rows[i], rows[j]) ==>
      !(rows[i].isDefault && rows[j].isDefault)
  }

  ghost predicate Sound(s: Store) {
    IdsBelow(s) && Backed(s) && DistinctUuids(s.rows) && UniqueNames(s.rows) && OneDefault(s.rows)
  }

  ghost predicate UuidUnused(s: Store, u: Uuid) { forall id :: id in s.rows ==> s.rows[id].uuid != u }

  /** The same rows but for their default flags. */
  ghost predicate OnlyFlags(a: map<nat, Row>, b: map<nat, Row>) {
    a.Keys == b.Keys && forall i :: i in a ==> b[i] == a[i].(isDefault := b[i].isDefault)
  }

  lemma {:induction false} FlagsKeep(a: map<nat, Row>, b: map<nat, Row>)
    requires OnlyFlags(a, b)
    ensures DistinctUuids(a) ==> DistinctUuids(b)
    ensures UniqueNames(a) ==> UniqueNames(b)
  {
    forall i, j | i in b && j in b
      ensures SameName(b[i], b[j]) <==> SameName(a[i], a[j])
      ensures a[i].uuid == b[i].uuid && a[j].uuid == b[j].uuid
    {
    }
  }

  /** Defaults are unique once one row is set aside. */
  ghost predicate OneDefaultBut(rows: map<nat, Row>, keep: nat) {
    forall i, j :: i in rows && j in rows && i != j && i != keep && j != keep && SameBucket(rows[i], rows[j]) ==>
      !(rows[i].isDefault && rows[j].isDefault)
  }

  lemma {:induction false} ClearLeavesOne(rows: map<nat, Row>, user: nat, exchange: string, keep: nat)
    requires OneDefaultBut(rows, keep)
    requires keep in rows ==> rows[keep].user == user && rows[keep].exchange == exchange
    ensures OneDefault(ClearOthers(rows, user, exchange, keep))
    ensures OnlyFlags(rows, ClearOthers(rows, user, exchange, keep))
  {
    var cleared := ClearOthers(rows, user, exchange, keep);
    forall i, j | i in cleared && j in cleared && i != j && SameBucket(cleared[i], cleared[j])
      ensures !(cleared[i].isDefault && cleared[j].isDefault)
    {
      assert SameBucket(rows[i], rows[j]);
      if i != keep && j != keep && rows[i].isDefault && rows[j].isDefault {
        assert false;
      }
    }
  }

  /** Putting a row in, or in place of another, keeps names and uuids apart when it conflicts with no third row. */
  lemma {:induction false} PutKeeps(rows: map<nat, Row>, id: nat, r: Row)
    requires DistinctUuids(rows) && UniqueNames(rows) && OneDefault(rows)
    requires !Conflict(rows, r, Some(id)) && forall j :: j in rows && j != id ==> rows[j].uuid != r.uuid
    ensures DistinctUuids(rows[id := r]) && UniqueNames(rows[id := r]) && OneDefaultBut(rows[id := r], id)
    ensures (id in rows && SameBucket(rows[id], r) && (r.isDefault ==> rows[id].isDefault)) || !r.isDefault ==>
              OneDefault(rows[id := r])
  {
  }

  lemma {:induction false} InsertKeeps(s: Store, r: Row)
    requires Sound(s) && BlobOf(r) in s.blobs && UuidUnused(s, r.uuid) && Inserted(s, r).Some?
    ensures Sound(Inserted(s, r).value)
    ensures Inserted(s, r).value.blobs == s.blobs
    ensures OnlyFlags(s.rows[s.nextId := r], Inserted(s, r).value.rows)
  {
    var rows := s.rows[s.nextId := r];
    assert s.nextId !in s.rows;
    PutKeeps(s.rows, s.nextId, r);
    if r.isDefault {
      ClearLeavesOne(rows, r.user, r.exchange, s.nextId);
      FlagsKeep(rows, ClearOthers(rows, r.user, r.exchange, s.nextId));
    }
  }

  lemma {:induction false} AmendedName(rows: map<nat, Row>, id: nat, c: Change)
    requires UniqueNames(rows) && id in rows
    requires c.alias.Some? ==> !Conflict(rows, Amended(rows[id], c), Some(id))
    ensures !Conflict(rows, Amended(rows[id], c), Some(id))
  {
    if c.alias.None? {
      forall j | j in rows && j != id
        ensures !SameName(rows[j], Amended(rows[id], c))
      {
        assert !SameName(rows[j], rows[id]);
      }
    }
  }

  /** Identity columns never change. */
  ghost predicate SameIdentity(a: map<nat, Row>, b: map<nat, Row>) {
    a.Keys == b.Keys && forall i :: i in a ==> BlobOf(a[i]) == BlobOf(b[i]) && SameBucket(a[i], b[i])
  }

  /** The update in the order of the program: the fields first, then the flags. */
  lemma {:induction false} UpdatedRows(s: Store, id: nat, user: nat, exchange: string, c: Change)
    requires id in s.rows && Updated(s, id, user, exchange, c).Some?
    ensures var fields := s.rows[id := Amended(s.rows[id], c)];
            Updated(s, id, user, exchange, c).value.rows
            == if c.isDefault == Some(true) then ClearOthers(fields, user, exchange, id) else fields
  {
  }

  /** An update of a row that is there: its fields, then the flags. */
  lemma {:induction false} RowUpdated(s: Store, id: nat, c: Change)
    requires Sound(s) && id in s.rows
    requires c.alias.Some? ==> !Conflict(s.rows, Amended(s.rows[id], c), Some(id))
    ensures var r := s.rows[id];
            var fields := s.rows[id := Amended(r, c)];
            var rows := if c.isDefault == Some(true) then ClearOthers(fields, r.user, r.exchange, id) else fields;
            DistinctUuids(rows) && UniqueNames(rows) && OneDefault(rows) && SameIdentity(s.rows, rows)
  {
    var r := s.rows[id];
    var fields := s.rows[id := Amended(r, c)];
    AmendedName(s.rows, id, c);
    PutKeeps(s.rows, id, Amended(r, c));
    if c.isDefault == Some(true) {
      ClearLeavesOne(fields, r.user, r.exchange, id);
      FlagsKeep(fields, ClearOthers(fields, r.user, r.exchange, id));
    }
  }

  lemma {:induction false} SameIdentitySound(s: Store, t: Store)
    requires Sound(s) && SameIdentity(s.rows, t.rows) && t.nextId == s.nextId && t.blobs == s.blobs
    requires DistinctUuids(t.rows) && UniqueNames(t.rows) && OneDefault(t.rows)
    ensures Sound(t)
  {
  }

  lemma {:induction false} UpdateKeeps(s: Store, id: nat, user: nat, exchange: string, c: Change)
    requires Sound(s) && Updated(s, id, user, exchange, c).Some?
    requires id in s.rows ==> s.rows[id].user == user && s.rows[id].exchange == exchange
    ensures var t := Updated(s, id, user, exchange, c).value;
            Sound(t) && t.blobs == s.blobs && t.nextId == s.nextId && SameIdentity(s.rows, t.rows)
  {
    var t := Updated(s, id, user, exchange, c).value;
    if id in s.rows {
      UpdatedRows(s, id, user, exchange, c);
      RowUpdated(s, id, c);
    } else if c.isDefault == Some(true) {
      ClearLeavesOne(s.rows, user, exchange, id);
      FlagsKeep(s.rows, ClearOthers(s.rows, user, exchange, id));
    }
    SameIdentitySound(s, t);
  }

  lemma {:induction false} DeleteKeeps(s: Store, id: nat)
    requires Sound(s)
    ensures Sound(RowDeleted(s, id))
  {
  }

  lemma {:induction false} UnlinkingKeeps(s: Store, b: BlobId)
    requires Sound(s) && UuidUnused(s, b.uuid)
    ensures Sound(BlobDeleted(s, b))
    ensures forall id :: id in s.rows ==> BlobOf(s.rows[id]) != b
  {
  }

  // ---- Sessions that interleave --------------------------------------------------------------

  /** Where a session stands between two of its atomic actions. */
  datatype Session =
    | Saving(row: Row, keys: Keys)
    | Inserting(row: Row)
    | Deleting(id: nat, blob: BlobId)
    | Unlinking(blob: BlobId)
    | Updating(id: nat, user: nat, exchange: string, change: Change)

  /**
   `issued` maps every uuid ever drawn to the keys it was drawn for; `orphans` are the blobs
   abandoned sessions left behind.
   */
  datatype World = World(
    store: Store,
    sessions: map<nat, Session>,
    issued: map<Uuid, Keys>,
    orphans: set<BlobId>)

  datatype Move =
    | BeginCreate(pid: nat, row: Row, keys: Keys)
    | Save(pid: nat)
    | Insert(pid: nat)
    | BeginDelete(pid: nat, id: nat)
    | DropRow(pid: nat)
    | Unlink(pid: nat)
    | BeginUpdate(pid: nat, id: nat, change: Change)
    | Update(pid: nat)
    | Abandon(pid: nat)

  function Without(w: World, pid: nat): World { w.(sessions := w.sessions - {pid}) }

  function Become(w: World, pid: nat, next: Session): World { w.(sessions := w.sessions[pid := next]) }

  /** The blob a session may leave behind when it stops here. */
  function BlobInHand(x: Session): Option<BlobId> {
    match x
    case Saving(r, _) => Some(BlobOf(r))
    case Inserting(r) => Some(BlobOf(r))
    case Deleting(_, b) => Some(b)
    case Unlinking(b) => Some(b)
    case Updating(_, _, _, _) => None
  }

  /** One move; a move that does not fit its session changes nothing. */
  function Next(w: World, m: Move): World {
    if m.BeginCreate? then
      if m.pid in w.sessions || m.row.uuid in w.issued || Conflict(w.store.rows, m.row, None) then w
      else Become(w.(issued := w.issued[m.row.uuid := m.keys]), m.pid, Saving(m.row, m.keys))
    else if m.BeginDelete? then
      if m.pid in w.sessions || m.id !in w.store.rows then w
      else Become(w, m.pid, Deleting(m.id, BlobOf(w.store.rows[m.id])))
    else if m.BeginUpdate? then
      if m.pid in w.sessions || m.id !in w.store.rows then w
      else Become(w, m.pid, Updating(m.id, w.store.rows[m.id].user, w.store.rows[m.id].exchange, m.change))
    else if m.pid !in w.sessions then w
    else
      match (m, w.sessions[m.pid])
      case (Save(p), Saving(r, k)) => Become(w.(store := BlobSaved(w.store, BlobOf(r), k)), p, Inserting(r))
      case (Insert(p), Inserting(r)) =>
        (match Inserted(w.store, r)
         case None => Become(w, p, Unlinking(BlobOf(r)))
         case Some(s) => Without(w.(store := s), p))
      case (DropRow(p), Deleting(id, b)) => Become(w.(store := RowDeleted(w.store, id)), p, Unlinking(b))
      case (Unlink(p), Unlinking(b)) => Without(w.(store := BlobDeleted(w.store, b)), p)
      case (Update(p), Updating(id, user, exchange, c)) =>
        (match Updated(w.store, id, user, exchange, c)
         case None => Without(w, p)
         case Some(s) => Without(w.(store := s), p))
      case (Abandon(p), x) =>
        Without(w.(orphans := w.orphans + if BlobInHand(x).Some? then {BlobInHand(x).value} else {}), p)
      case (_, _) => w
  }

  /** A session that has drawn a uuid for a row it has not inserted yet. */
  predicate Claims(x: Session, u: Uuid) { (x.Saving? || x.Inserting?) && x.row.uuid == u }

  predicate Touches(x: Session, u: Uuid) { BlobInHand(x).Some? && BlobInHand(x).value.uuid == u }

  /** What holds of one session whatever the others do. */
  ghost predicate SessionSound(w: World, x: Session) {
    match x
    case Saving(r, k) => UuidUnused(w.store, r.uuid) && r.uuid in w.issued && w.issued[r.uuid] == k
    case Inserting(r) =>
      && UuidUnused(w.store, r.uuid) && r.uuid in w.issued
      && BlobOf(r) in w.store.blobs && w.store.blobs[BlobOf(r)] == w.issued[r.uuid]
    case Deleting(id, b) =>
      && b.uuid in w.issued && id < w.store.nextId
      && (id in w.store.rows ==> BlobOf(w.store.rows[id]) == b)
      && forall j :: j in w.store.rows && j != id ==> w.store.rows[j].uuid != b.uuid
    case Unlinking(b) => b.uuid in w.issued && UuidUnused(w.store, b.uuid)
    case Updating(id, user, exchange, _) =>
      && id < w.store.nextId
      && (id in w.store.rows ==> w.store.rows[id].user == user && w.store.rows[id].exchange == exchange)
  }

  ghost predicate RowsIssued(w: World) {
    forall id :: id in w.store.rows ==>
      var r := w.store.rows[id];
      && r.uuid in w.issued
      && BlobOf(r) in w.store.blobs && w.store.blobs[BlobOf(r)] == w.issued[r.uuid]
  }

  ghost predicate SessionsSound(w: World) {
    forall p :: p in w.sessions ==> SessionSound(w, w.sessions[p])
  }

  ghost predicate ClaimsApart(w: World) {
    forall p, q, u :: p in w.sessions && q in w.sessions && p != q && Claims(w.sessions[p], u) ==>
      !Touches(w.sessions[q], u)
  }

  /** A row holds this blob. */
  ghost predicate RowHolds(w: World, b: BlobId) {
    exists id :: id in w.store.rows && BlobOf(w.store.rows[id]) == b
  }

  ghost predicate SessionHolds(w: World, b: BlobId) {
    exists p :: p in w.sessions && BlobInHand(w.sessions[p]) == Some(b)
  }

  /** No blob is unaccounted for. */
  ghost predicate BlobsAccounted(w: World) {
    forall b :: b in w.store.blobs ==> RowHolds(w, b) || SessionHolds(w, b) || b in w.orphans
  }

  ghost predicate Whole(w: World) {
    Sound(w.store) && RowsIssued(w) && SessionsSound(w) && ClaimsApart(w) && BlobsAccounted(w)
  }

  // ---- Every move keeps it --------------------------------------------------------------------

  /** As long as the rows stay and no session lets go of b, b keeps its holder. */
  lemma {:induction false} StillHeld(w: World, v: World, b: BlobId)
    requires RowHolds(w, b) || SessionHolds(w, b) || b in w.orphans
    requires w.store.rows == v.store.rows && w.orphans <= v.orphans
    requires forall p :: p in w.sessions && BlobInHand(w.sessions[p]) == Some(b) ==>
               b in v.orphans || (p in v.sessions && BlobInHand(v.sessions[p]) == Some(b))
    ensures RowHolds(v, b) || SessionHolds(v, b) || b in v.orphans
  {
    if RowHolds(w, b) {
      var id :| id in w.store.rows && BlobOf(w.store.rows[id]) == b;
      assert BlobOf(v.store.rows[id]) == b;
    }
  }

  ghost predicate MoreIssued(w: World, v: World) {
    forall u :: u in w.issued ==> u in v.issued && v.issued[u] == w.issued[u]
  }

  /** A session that starts, beside the others, on a store it has not touched. */
  lemma {:induction false} JoinKeeps(w: World, v: World, pid: nat, x: Session)
    requires Whole(w) && pid !in w.sessions && v.sessions == w.sessions[pid := x]
    requires v.store == w.store && v.orphans == w.orphans && MoreIssued(w, v)
    requires SessionSound(v, x)
    requires forall q, u :: q in w.sessions ==>
               (Claims(x, u) ==> !Touches(w.sessions[q], u)) && (Claims(w.sessions[q], u) ==> !Touches(x, u))
    ensures Whole(v)
  {
    forall p | p in w.sessions
      ensures SessionSound(v, w.sessions[p])
    {
      assert SessionSound(w, w.sessions[p]);
    }
    forall b | b in v.store.blobs
      ensures RowHolds(v, b) || SessionHolds(v, b) || b in v.orphans
    {
      StillHeld(w, v, b);
    }
  }

  lemma {:induction false} BeginCreateKeeps(w: World, pid: nat, row: Row, keys: Keys)
    requires Whole(w)
    ensures Whole(Next(w, BeginCreate(pid, row, keys)))
  {
    var v := Next(w, BeginCreate(pid, row, keys));
    if v != w {
      forall q | q in w.sessions
        ensures !Touches(w.sessions[q], row.uuid)
      {
        assert SessionSound(w, w.sessions[q]);
      }
      JoinKeeps(w, v, pid, Saving(row, keys));
    }
  }

  lemma {:induction false} BeginDeleteKeeps(w: World, pid: nat, id: nat)
    requires Whole(w)
    ensures Whole(Next(w, BeginDelete(pid, id)))
  {
    var v := Next(w, BeginDelete(pid, id));
    if v != w {
      var b := BlobOf(w.store.rows[id]);
      forall q | q in w.sessions
        ensures !Claims(w.sessions[q], b.uuid)
      {
        assert SessionSound(w, w.sessions[q]);
      }
      JoinKeeps(w, v, pid, Deleting(id, b));
    }
  }

  lemma {:induction false} BeginUpdateKeeps(w: World, pid: nat, id: nat, c: Change)
    requires Whole(w)
    ensures Whole(Next(w, BeginUpdate(pid, id, c)))
  {
    var v := Next(w, BeginUpdate(pid, id, c));
    if v != w {
      JoinKeeps(w, v, pid, Updating(id, w.store.rows[id].user, w.store.rows[id].exchange, c));
    }
  }

  /** One session leaves or moves on, keeping to the uuid it had; the others are as they were. */
  ghost predicate OneMoved(w: World, v: World, pid: nat) {
    && pid in w.sessions
    && (forall p :: p != pid ==>
          (p in v.sessions <==> p in w.sessions) && (p in w.sessions ==> v.sessions[p] == w.sessions[p]))
    && (pid in v.sessions ==>
          forall u :: (Claims(v.sessions[pid], u) ==> Claims(w.sessions[pid], u))
                      && (Touches(v.sessions[pid], u) ==> Touches(w.sessions[pid], u)))
  }

  lemma {:induction false} ClaimsStayApart(w: World, v: World, pid: nat)
    requires ClaimsApart(w) && OneMoved(w, v, pid)
    ensures ClaimsApart(v)
  {
    forall p, q, u | p in v.sessions && q in v.sessions && p != q && Claims(v.sessions[p], u)
      ensures !Touches(v.sessions[q], u)
    {
      assert p in w.sessions && q in w.sessions;
      assert Claims(w.sessions[p], u);
      assert !Touches(w.sessions[q], u);
    }
  }

  lemma {:induction false} SaveKeeps(w: World, pid: nat)
    requires Whole(w) && pid in w.sessions && w.sessions[pid].Saving?
    ensures Whole(Next(w, Save(pid)))
  {
    var r := w.sessions[pid].row;
    var v := Become(w.(store := BlobSaved(w.store, BlobOf(r), w.sessions[pid].keys)), pid, Inserting(r));
    assert v == Next(w, Save(pid));
    assert SessionSound(w, w.sessions[pid]) && Claims(w.sessions[pid], r.uuid);
    forall p | p in w.sessions && p != pid
      ensures SessionSound(v, w.sessions[p])
    {
      assert SessionSound(w, w.sessions[p]) && !Touches(w.sessions[p], r.uuid);
    }
    forall b | b in v.store.blobs
      ensures RowHolds(v, b) || SessionHolds(v, b) || b in v.orphans
    {
      if b == BlobOf(r) {
        assert BlobInHand(v.sessions[pid]) == Some(b);
      } else {
        StillHeld(w, v, b);
      }
    }
    ClaimsStayApart(w, v, pid);
  }

  /** One session moved on without touching the store, and its blob is still in hand or an orphan. */
  lemma {:induction false} StoreUntouched(w: World, v: World, pid: nat)
    requires Whole(w) && v.store == w.store && v.issued == w.issued && w.orphans <= v.orphans && OneMoved(w, v, pid)
    requires pid in v.sessions ==> SessionSound(v, v.sessions[pid])
    requires forall b :: BlobInHand(w.sessions[pid]) == Some(b) ==>
               b in v.orphans || (pid in v.sessions && BlobInHand(v.sessions[pid]) == Some(b))
    ensures Whole(v)
  {
    forall p | p in v.sessions && p != pid
      ensures SessionSound(v, v.sessions[p])
    {
      assert SessionSound(w, w.sessions[p]);
    }
    forall b | b in v.store.blobs
      ensures RowHolds(v, b) || SessionHolds(v, b) || b in v.orphans
    {
      StillHeld(w, v, b);
    }
    ClaimsStayApart(w, v, pid);
  }

  /** The insert lost a race: the session goes on to remove its own blob. */
  lemma {:induction false} LostInsertKeeps(w: World, pid: nat)
    requires Whole(w) && pid in w.sessions && w.sessions[pid].Inserting?
    requires Inserted(w.store, w.sessions[pid].row).None?
    ensures Whole(Next(w, Insert(pid)))
  {
    var r := w.sessions[pid].row;
    assert SessionSound(w, w.sessions[pid]);
    assert Next(w, Insert(pid)) == Become(w, pid, Unlinking(BlobOf(r)));
    StoreUntouched(w, Become(w, pid, Unlinking(BlobOf(r))), pid);
  }

  lemma {:induction false} InsertedRow(s: Store, r: Row, id: nat)
    requires Sound(s) && BlobOf(r) in s.blobs && UuidUnused(s, r.uuid) && Inserted(s, r).Some?
    ensures var t := Inserted(s, r).value;
            && (id in t.rows <==> id in s.rows || id == s.nextId)
            && t.nextId == s.nextId + 1 && t.blobs == s.blobs
            && (id in s.rows ==> BlobOf(t.rows[id]) == BlobOf(s.rows[id]) && SameBucket(t.rows[id], s.rows[id]))
            && BlobOf(t.rows[s.nextId]) == BlobOf(r)
  {
    InsertKeeps(s, r);
  }

  /** A session that shares no uuid with the new row does not notice it. */
  lemma {:induction false} OthersSurviveInsert(w: World, v: World, r: Row, x: Session)
    requires Sound(w.store) && BlobOf(r) in w.store.blobs && UuidUnused(w.store, r.uuid)
    requires Inserted(w.store, r).Some? && v.store == Inserted(w.store, r).value
    requires v.issued == w.issued
    requires SessionSound(w, x) && !Touches(x, r.uuid)
    ensures SessionSound(v, x)
  {
    InsertKeeps(w.store, r);
    forall id | id in v.store.rows
      ensures id in w.store.rows || id == w.store.nextId
      ensures v.store.rows[id].uuid == if id == w.store.nextId then r.uuid else w.store.rows[id].uuid
    {
      InsertedRow(w.store, r, id);
    }
    match x
    case Deleting(id, b) => InsertedRow(w.store, r, id);
    case Updating(id, _, _, _) => InsertedRow(w.store, r, id);
    case _ =>
  }

  lemma {:induction false} WonInsertKeeps(w: World, pid: nat)
    requires Whole(w) && pid in w.sessions && w.sessions[pid].Inserting?
    requires Inserted(w.store, w.sessions[pid].row).Some?
    ensures Whole(Next(w, Insert(pid)))
  {
    var v, r := Next(w, Insert(pid)), w.sessions[pid].row;
    assert SessionSound(w, w.sessions[pid]) && Claims(w.sessions[pid], r.uuid);
    InsertKeeps(w.store, r);
    forall p | p in v.sessions
      ensures SessionSound(v, v.sessions[p])
    {
      assert SessionSound(w, w.sessions[p]) && !Touches(w.sessions[p], r.uuid);
      OthersSurviveInsert(w, v, r, w.sessions[p]);
    }
    forall id | id in v.store.rows
      ensures BlobOf(v.store.rows[id]) == if id == w.store.nextId then BlobOf(r) else BlobOf(w.store.rows[id])
      ensures id in w.store.rows || id == w.store.nextId
    {
      InsertedRow(w.store, r, id);
    }
    forall b | b in v.store.blobs
      ensures RowHolds(v, b) || SessionHolds(v, b) || b in v.orphans
    {
      InsertedHolder(w, v, pid, b);
    }
    ClaimsStayApart(w, v, pid);
  }

  lemma {:induction false} InsertedHolder(w: World, v: World, pid: nat, b: BlobId)
    requires Whole(w) && pid in w.sessions && w.sessions[pid].Inserting? && b in w.store.blobs
    requires Inserted(w.store, w.sessions[pid].row).Some? && v == Next(w, Insert(pid))
    ensures RowHolds(v, b) || SessionHolds(v, b) || b in v.orphans
  {
    var r := w.sessions[pid].row;
    assert SessionSound(w, w.sessions[pid]);
    if b == BlobOf(r) {
      InsertedRow(w.store, r, w.store.nextId);
      assert BlobOf(v.store.rows[w.store.nextId]) == b;
    } else if RowHolds(w, b) {
      var id :| id in w.store.rows && BlobOf(w.store.rows[id]) == b;
      InsertedRow(w.store, r, id);
      assert BlobOf(v.store.rows[id]) == b;
    } else if SessionHolds(w, b) {
      var p :| p in w.sessions && BlobInHand(w.sessions[p]) == Some(b);
      assert p in v.sessions && BlobInHand(v.sessions[p]) == Some(b);
    }
  }

  lemma {:induction false} DroppedHolder(w: World, v: World, pid: nat, b: BlobId)
    requires Whole(w) && pid in w.sessions && w.sessions[pid].Deleting? && b in w.store.blobs
    requires var x := w.sessions[pid]; v == Become(w.(store := RowDeleted(w.store, x.id)), pid, Unlinking(x.blob))
    ensures RowHolds(v, b) || SessionHolds(v, b) || b in v.orphans
  {
    assert SessionSound(w, w.sessions[pid]);
    if b == w.sessions[pid].blob {
      assert BlobInHand(v.sessions[pid]) == Some(b);
    } else if RowHolds(w, b) {
      var j :| j in w.store.rows && BlobOf(w.store.rows[j]) == b;
      assert j in v.store.rows && BlobOf(v.store.rows[j]) == b;
    } else if SessionHolds(w, b) {
      var p :| p in w.sessions && BlobInHand(w.sessions[p]) == Some(b);
      assert p in v.sessions && BlobInHand(v.sessions[p]) == Some(b);
    }
  }

  lemma {:induction false} DropRowKeeps(w: World, pid: nat)
    requires Whole(w) && pid in w.sessions && w.sessions[pid].Deleting?
    ensures Whole(Next(w, DropRow(pid)))
  {
    var x := w.sessions[pid];
    var v := Become(w.(store := RowDeleted(w.store, x.id)), pid, Unlinking(x.blob));
    assert v == Next(w, DropRow(pid));
    assert SessionSound(w, x);
    DeleteKeeps(w.store, x.id);
    assert RowsIssued(v);
    forall p | p in w.sessions && p != pid
      ensures SessionSound(v, w.sessions[p])
    {
      assert SessionSound(w, w.sessions[p]);
    }
    forall b | b in v.store.blobs
      ensures RowHolds(v, b) || SessionHolds(v, b) || b in v.orphans
    {
      DroppedHolder(w, v, pid, b);
    }
    ClaimsStayApart(w, v, pid);
  }

  lemma {:induction false} UnlinkKeeps(w: World, pid: nat)
    requires Whole(w) && pid in w.sessions && w.sessions[pid].Unlinking?
    ensures Whole(Next(w, Unlink(pid)))
  {
    var v, blob := Next(w, Unlink(pid)), w.sessions[pid].blob;
    assert SessionSound(w, w.sessions[pid]) && Touches(w.sessions[pid], blob.uuid);
    UnlinkingKeeps(w.store, blob);
    assert v == Without(w.(store := BlobDeleted(w.store, blob)), pid);
    assert RowsIssued(v);
    forall p | p in v.sessions
      ensures SessionSound(v, v.sessions[p])
    {
      assert SessionSound(w, w.sessions[p]) && !Claims(w.sessions[p], blob.uuid);
    }
    forall b | b in v.store.blobs
      ensures RowHolds(v, b) || SessionHolds(v, b) || b in v.orphans
    {
      StillHeld(w, v, b);
    }
    ClaimsStayApart(w, v, pid);
  }

  lemma {:induction false} SameHolders(w: World, v: World, pid: nat, b: BlobId)
    requires SameIdentity(w.store.rows, v.store.rows) && w.orphans == v.orphans
    requires OneMoved(w, v, pid) && BlobInHand(w.sessions[pid]).None?
    requires RowHolds(w, b) || SessionHolds(w, b) || b in w.orphans
    ensures RowHolds(v, b) || SessionHolds(v, b) || b in v.orphans
  {
    if RowHolds(w, b) {
      var j :| j in w.store.rows && BlobOf(w.store.rows[j]) == b;
      assert BlobOf(v.store.rows[j]) == b;
    } else if SessionHolds(w, b) {
      var p :| p in w.sessions && BlobInHand(w.sessions[p]) == Some(b);
      assert p in v.sessions && BlobInHand(v.sessions[p]) == Some(b);
    }
  }

  lemma {:induction false} UpdateMoved(w: World, pid: nat)
    requires Whole(w) && pid in w.sessions && w.sessions[pid].Updating?
    ensures var v := Next(w, Update(pid));
            && Sound(v.store) && SameIdentity(w.store.rows, v.store.rows) && v.store.blobs == w.store.blobs
            && v.store.nextId == w.store.nextId && v.issued == w.issued && v.orphans == w.orphans
            && v.sessions == w.sessions - {pid}
  {
    var x := w.sessions[pid];
    assert SessionSound(w, x);
    match Updated(w.store, x.id, x.user, x.exchange, x.change)
    case None => assert Next(w, Update(pid)) == Without(w, pid);
    case Some(s) =>
      UpdateKeeps(w.store, x.id, x.user, x.exchange, x.change);
      assert Next(w, Update(pid)) == Without(w.(store := s), pid);
  }

  lemma {:induction false} UpdateMoveKeeps(w: World, pid: nat)
    requires Whole(w) && pid in w.sessions && w.sessions[pid].Updating?
    ensures Whole(Next(w, Update(pid)))
  {
    var v := Next(w, Update(pid));
    UpdateMoved(w, pid);
    SameWorldWhole(w, v, pid);
  }

  lemma {:induction false} SameWorldWhole(w: World, v: World, pid: nat)
    requires Whole(w) && pid in w.sessions && w.sessions[pid].Updating? && v.sessions == w.sessions - {pid}
    requires Sound(v.store) && SameIdentity(w.store.rows, v.store.rows) && v.store.blobs == w.store.blobs
    requires v.store.nextId == w.store.nextId && v.issued == w.issued && v.orphans == w.orphans
    ensures Whole(v)
  {
    forall p | p in v.sessions
      ensures SessionSound(v, v.sessions[p])
    {
      assert SessionSound(w, w.sessions[p]);
      IdentitySurvives(w, v, w.sessions[p]);
    }
    forall b | b in v.store.blobs
      ensures RowHolds(v, b) || SessionHolds(v, b) || b in v.orphans
    {
      SameHolders(w, v, pid, b);
    }
    ClaimsStayApart(w, v, pid);
  }

  lemma {:induction false} IdentitySurvives(w: World, v: World, x: Session)
    requires SessionSound(w, x) && SameIdentity(w.store.rows, v.store.rows)
    requires v.store.blobs == w.store.blobs && v.store.nextId == w.store.nextId
    requires v.issued == w.issued
    ensures SessionSound(v, x)
  {
  }

  lemma {:induction false} AbandonKeeps(w: World, pid: nat)
    requires Whole(w) && pid in w.sessions
    ensures Whole(Next(w, Abandon(pid)))
  {
    StoreUntouched(w, Next(w, Abandon(pid)), pid);
  }

  lemma {:induction false} InsertMoveKeeps(w: World, pid: nat)
    requires Whole(w) && pid in w.sessions && w.sessions[pid].Inserting?
    ensures Whole(Next(w, Insert(pid)))
  {
    if Inserted(w.store, w.sessions[pid].row).Some? {
      WonInsertKeeps(w, pid);
    } else {
      LostInsertKeeps(w, pid);
    }
  }

  lemma {:induction false} NextKeeps(w: World, m: Move)
    requires Whole(w)
    ensures Whole(Next(w, m))
  {
    match m
    case BeginCreate(pid, row, keys) => BeginCreateKeeps(w, pid, row, keys);
    case BeginDelete(pid, id) => BeginDeleteKeeps(w, pid, id);
    case BeginUpdate(pid, id, c) => BeginUpdateKeeps(w, pid, id, c);
    case Save(p) => if p in w.sessions && w.sessions[p].Saving? { SaveKeeps(w, p); }
    case Insert(p) => if p in w.sessions && w.sessions[p].Inserting? { InsertMoveKeeps(w, p); }
    case DropRow(p) => if p in w.sessions && w.sessions[p].Deleting? { DropRowKeeps(w, p); }
    case Unlink(p) => if p in w.sessions && w.sessions[p].Unlinking? { UnlinkKeeps(w, p); }
    case Update(p) => if p in w.sessions && w.sessions[p].Updating? { UpdateMoveKeeps(w, p); }
    case Abandon(p) => if p in w.sessions { AbandonKeeps(w, p); }
  }

  // ---- Every moment of every interleaving -------------------------------------------------------

  const EMPTY := World(Store(map[], 0, map[]), map[], map[], {})

  function After(w: World, moves: seq<Move>): World {
    if moves == [] then w else Next(After(w, moves[..|moves| - 1]), moves[|moves| - 1])
  }

  /**
   At every moment of every interleaving of creates, deletes and updates, stops included: each
   row's blob exists and holds the keys it was created with, uuids and names are unique, each
   user has at most one default per exchange, and no blob is unaccounted for.
   */
  lemma {:induction false} EveryMomentWhole(moves: seq<Move>)
    ensures Whole(After(EMPTY, moves))
  {
    if moves != [] {
      EveryMomentWhole(moves[..|moves| - 1]);
      NextKeeps(After(EMPTY, moves[..|moves| - 1]), moves[|moves| - 1]);
    }
  }

  /** When every session has come to its end, the blobs are the rows' blobs and nothing else. */
  lemma {:induction false} NothingLeftOver(moves: seq<Move>, b: BlobId)
    requires var w := After(EMPTY, moves); w.sessions == map[] && w.orphans == {}
    ensures b in After(EMPTY, moves).store.blobs <==> RowHolds(After(EMPTY, moves), b)
  {
    EveryMomentWhole(moves);
  }
}
