/**
 Encrypted exchange keys and the rotation of the key that seals them (core/credentials.py).

 Encryption is symbolic: a blob remembers its key and opens under no other. Files that are
 written in place can be left torn by a stop in mid-write; `os.replace` cannot.
 */
module Credentials {
  import opened Options

  type Key = nat

  type Uuid = string

  type Stamp = string

  /** What `get_keys_by_uuid` returns: the passphrase is always present, empty when not stored. */
  datatype Keys = Keys(apiKey: string, apiSecret: string, passphrase: string)

  /** The JSON inside a blob; a field may be absent. */
  datatype Content = Fields(apiKey: Option<string>, apiSecret: Option<string>, passphrase: Option<string>) | Junk

  datatype Blob = Sealed(key: Key, content: Content) | TornBlob

  datatype KeyBytes = Whole(key: Key) | TornKey

  datatype Files = Files(
    keyFile: Option<KeyBytes>,
    tmpKey: Option<KeyBytes>,
    backups: map<Stamp, KeyBytes>,
    enc: map<Uuid, Blob>,
    tmps: map<Uuid, Blob>)

  function Normalised(c: Content): Option<Keys> {
    match c
    case Junk => None
    case Fields(a, s, p) => Some(Keys(a.GetOr(""), s.GetOr(""), p.GetOr("")))
  }

  /** What saving stores: an empty passphrase is left out. */
  function SavedContent(k: Keys): Content {
    Fields(Some(k.apiKey), Some(k.apiSecret), if k.passphrase == "" then None else Some(k.passphrase))
  }

  /** What rotating stores: the normalised dictionary, all three fields. */
  function RotatedContent(k: Keys): Content {
    Fields(Some(k.apiKey), Some(k.apiSecret), Some(k.passphrase))
  }

  function OpenedWith(b: Blob, key: KeyBytes): Option<Keys> {
    if b.Sealed? && key == Whole(b.key) then Normalised(b.content) else None
  }

  function GetKeys(f: Files, uuid: Uuid): Option<Keys> {
    if uuid in f.enc && f.keyFile.Some? then OpenedWith(f.enc[uuid], f.keyFile.value) else None
  }

  /** Every stored credential opens under the current key file. */
  ghost predicate Readable(f: Files) {
    f.keyFile.Some? && forall u :: u in f.enc ==> GetKeys(f, u).Some?
  }

  datatype Outcome = Refused | Stopped | Completed

  // ---- What a rotation can leave behind ----------------------------------------------------

  /** Before the key is replaced: key and blobs untouched, other backups too. */
  ghost predicate Untouched(b: Files, f: Files, stamp: Stamp) {
    f.keyFile == b.keyFile && f.enc == b.enc && f.backups - {stamp} == b.backups - {stamp}
  }

  function Resealed(b: Files, newKey: Key, u: Uuid): Blob
    requires GetKeys(b, u).Some?
  {
    Sealed(newKey, RotatedContent(GetKeys(b, u).value))
  }

  /** The key is new and exactly the blobs in `done` are resealed. */
  ghost predicate Swapped(b: Files, f: Files, newKey: Key, done: set<Uuid>)
    requires Readable(b)
  {
    && f.keyFile == Some(Whole(newKey))
    && f.enc.Keys == b.enc.Keys
    && done <= b.enc.Keys
    && forall u :: u in b.enc ==> f.enc[u] == if u in done then Resealed(b, newKey, u) else b.enc[u]
  }

  /** Part way through the blobs the old key is in this rotation's backup. */
  ghost predicate HalfWay(b: Files, f: Files, newKey: Key, stamp: Stamp, done: set<Uuid>)
    requires Readable(b)
  {
    Swapped(b, f, newKey, done) && stamp in f.backups && Some(f.backups[stamp]) == b.keyFile
  }

  /** All blobs resealed; the sweep may have removed any backups, this rotation's included. */
  ghost predicate Finished(b: Files, f: Files, newKey: Key, stamp: Stamp)
    requires Readable(b)
  {
    Swapped(b, f, newKey, b.enc.Keys) && (stamp in f.backups ==> Some(f.backups[stamp]) == b.keyFile)
  }

  ghost predicate Rotated(b: Files, f: Files, newKey: Key, stamp: Stamp, outcome: Outcome) {
    match outcome
    case Refused => f == b && !Readable(b)
    case Completed =>
      Readable(b) && Finished(b, f, newKey, stamp) && f.tmpKey.None? && forall u :: u in b.enc ==> u !in f.tmps
    case Stopped =>
      && Readable(b)
      && (Untouched(b, f, stamp)
          || (exists done :: HalfWay(b, f, newKey, stamp, done))
          || Finished(b, f, newKey, stamp))
  }

  ghost predicate Distinct(uuids: seq<Uuid>) {
    forall i, j :: 0 <= i < j < |uuids| ==> uuids[i] != uuids[j]
  }

  ghost predicate AreFirst(done: set<Uuid>, uuids: seq<Uuid>, i: nat)
    requires i <= |uuids|
  {
    forall u :: u in done <==> u in uuids[..i]
  }

  class KeyStore {
    var keyFile: Option<KeyBytes>
    var tmpKey: Option<KeyBytes>
    var backups: map<Stamp, KeyBytes>
    var enc: map<Uuid, Blob>
    var tmps: map<Uuid, Blob>
    /** File operations left before the process stops. */
    var left: nat

    ghost function View(): Files
      reads this
    {
      Files(keyFile, tmpKey, backups, enc, tmps)
    }

    method Tick() returns (alive: bool)
      modifies this`left
      ensures !alive ==> left == old(left)
    {
      alive := left > 0;
      if alive {
        left := left - 1;
      }
    }

    /** The uuids of all `.enc` files, each once. */
    method ListUuids() returns (uuids: seq<Uuid>)
      ensures forall u :: u in uuids <==> u in enc
      ensures Distinct(uuids)
    {
      uuids := [];
      var todo := enc.Keys;
      while todo != {}
        invariant forall u :: u in enc <==> u in todo || u in uuids
        invariant forall u :: u in uuids ==> u !in todo
        invariant Distinct(uuids)
        decreases |todo|
      {
        var u :| u in todo;
        todo, uuids := todo - {u}, uuids + [u];
      }
    }

    /** The read a running engine makes with a key file present. */
    method Decrypt(uuid: Uuid) returns (r: Option<Keys>)
      requires keyFile.Some?
      ensures r == GetKeys(View(), uuid)
    {
      if uuid !in enc {
        return None;
      }
      var blob := enc[uuid];
      if !blob.Sealed? || keyFile.value != Whole(blob.key) {
        return None;
      }
      return Normalised(blob.content);
    }

    /** With a blob and no key file the read makes a key, which opens nothing stored before. */
    method Read(uuid: Uuid, freshKey: Key) returns (r: Option<Keys>)
      modifies this`left, this`keyFile
      ensures r == GetKeys(View(), uuid)
      ensures old(keyFile).Some? || uuid !in enc ==> keyFile == old(keyFile)
      ensures old(keyFile).None? && uuid in enc && (enc[uuid].Sealed? ==> enc[uuid].key != freshKey) ==>
                r.None? && (keyFile.None? || keyFile == Some(TornKey) || keyFile == Some(Whole(freshKey)))
    {
      if uuid !in enc {
        return None;
      }
      var key := LoadOrCreate(freshKey);
      if key.None? {
        return None;
      }
      r := Decrypt(uuid);
    }

    /** Decrypts everything first; a single failure refuses the rotation. */
    method LoadAll(uuids: seq<Uuid>) returns (plain: Option<map<Uuid, Keys>>)
      requires keyFile.Some? && forall u :: u in uuids <==> u in enc
      ensures plain.Some? <==> Readable(View())
      ensures plain.Some? ==> plain.value.Keys == enc.Keys
      ensures plain.Some? ==> forall u :: u in enc ==> Some(plain.value[u]) == GetKeys(View(), u)
    {
      var found: map<Uuid, Keys> := map[];
      for i := 0 to |uuids|
        invariant forall u :: u in found <==> u in uuids[..i]
        invariant forall u :: u in found ==> Some(found[u]) == GetKeys(View(), u)
      {
        var k := Decrypt(uuids[i]);
        if k.None? {
          assert uuids[i] in enc;
          return None;
        }
        found := found[uuids[i] := k.value];
      }
      assert uuids[..|uuids|] == uuids;
      return Some(found);
    }

    /** Copies the key file to its backup; a stop in mid-copy leaves the backup torn. */
    method Backup(stamp: Stamp) returns (alive: bool)
      requires keyFile.Some?
      modifies this`left, this`backups
      ensures keyFile.Some? && Untouched(old(View()), View(), stamp)
      ensures alive ==> backups == old(backups)[stamp := keyFile.value]
    {
      alive := Tick();
      if !alive { return; }
      backups := backups[stamp := TornKey];
      alive := Tick();
      if !alive { return; }
      backups := backups[stamp := keyFile.value];
    }

    method WriteTmps(uuids: seq<Uuid>, plain: map<Uuid, Keys>, newKey: Key) returns (alive: bool)
      requires forall u :: u in uuids ==> u in plain
      modifies this`left, this`tmps
      ensures alive ==> forall u :: u in uuids ==> u in tmps && tmps[u] == Sealed(newKey, RotatedContent(plain[u]))
    {
      for i := 0 to |uuids|
        invariant forall u :: u in uuids[..i] ==> u in tmps && tmps[u] == Sealed(newKey, RotatedContent(plain[u]))
      {
        alive := Tick();
        if !alive { return; }
        tmps := tmps[uuids[i] := TornBlob];
        alive := Tick();
        if !alive { return; }
        tmps := tmps[uuids[i] := Sealed(newKey, RotatedContent(plain[uuids[i]]))];
        assert uuids[..i + 1] == uuids[..i] + [uuids[i]];
      }
      assert uuids[..|uuids|] == uuids;
      alive := true;
    }

    method WriteTmpKey(newKey: Key) returns (alive: bool)
      modifies this`left, this`tmpKey
      ensures alive ==> tmpKey == Some(Whole(newKey))
    {
      alive := Tick();
      if !alive { return; }
      tmpKey := Some(TornKey);
      alive := Tick();
      if !alive { return; }
      tmpKey := Some(Whole(newKey));
    }

    /** The temporary files hold exactly the blobs still to be replaced. */
    ghost predicate Staged(b: Files, newKey: Key, done: set<Uuid>)
      requires Readable(b)
      reads this
    {
      && (forall u :: u in done ==> u !in tmps)
      && (forall u :: u in b.enc && u !in done ==> u in tmps && tmps[u] == Resealed(b, newKey, u))
    }

    /** Replaces the next blob, unless the process stops first. */
    method ReplaceNext(uuids: seq<Uuid>, i: nat, ghost b: Files, newKey: Key, ghost stamp: Stamp, ghost done: set<Uuid>)
      returns (alive: bool, j: nat, ghost done': set<Uuid>)
      requires Readable(b) && HalfWay(b, View(), newKey, stamp, done) && Staged(b, newKey, done)
      requires i < |uuids| && uuids[i] in b.enc && AreFirst(done, uuids, i) && Distinct(uuids)
      modifies this`left, this`enc, this`tmps
      ensures HalfWay(b, View(), newKey, stamp, done') && Staged(b, newKey, done')
      ensures alive ==> j == i + 1 && AreFirst(done', uuids, j)
    {
      j, done' := i, done;
      alive := Tick();
      if alive {
        var u := uuids[i];
        enc, tmps := enc[u := tmps[u]], tmps - {u};
        done', j := done + {u}, i + 1;
        assert uuids[..j] == uuids[..i] + [u];
      }
    }

    /** Replaces the blobs one by one; whenever it stops, some set of them has been resealed. */
    method ReplaceBlobs(uuids: seq<Uuid>, ghost b: Files, newKey: Key, ghost stamp: Stamp)
      returns (alive: bool, ghost done: set<Uuid>)
      requires Readable(b) && HalfWay(b, View(), newKey, stamp, {}) && Staged(b, newKey, {})
      requires (forall u :: u in uuids <==> u in b.enc) && Distinct(uuids)
      modifies this`left, this`enc, this`tmps
      ensures HalfWay(b, View(), newKey, stamp, done) && Staged(b, newKey, done)
      ensures alive ==> done == b.enc.Keys
    {
      var i: nat := 0;
      done, alive := {}, true;
      while i < |uuids|
        invariant i <= |uuids| && alive
        invariant HalfWay(b, View(), newKey, stamp, done) && Staged(b, newKey, done)
        invariant AreFirst(done, uuids, i)
      {
        alive, i, done := ReplaceNext(uuids, i, b, newKey, stamp, done);
        if !alive { return; }
      }
      assert uuids[..|uuids|] == uuids;
    }

    /** Removes whichever of the backups look old. */
    method Sweep(stale: set<Stamp>) returns (alive: bool)
      modifies this`left, this`backups
      ensures alive ==> backups == old(backups) - stale
      ensures forall s :: s in backups ==> s in old(backups) && backups[s] == old(backups)[s]
    {
      var todo := stale * backups.Keys;
      ghost var gone: set<Stamp> := {};
      while todo != {}
        invariant gone + todo == stale * old(backups).Keys && backups == old(backups) - gone
        decreases |todo|
      {
        alive := Tick();
        if !alive { return; }
        var s :| s in todo;
        LessOne(old(backups), gone, s);
        todo, gone, backups := todo - {s}, gone + {s}, backups - {s};
      }
      LessPresent(old(backups), stale);
      alive := true;
    }

    /** Loads the key, making one on first use; a torn key file is an error. */
    method LoadOrCreate(freshKey: Key) returns (r: Option<Key>)
      modifies this`left, this`keyFile
      ensures r.Some? ==> keyFile == Some(Whole(r.value))
      ensures r.None? ==> keyFile.None? || keyFile == Some(TornKey)
      ensures old(keyFile).Some? ==> keyFile == old(keyFile)
      ensures old(keyFile).None? && r.Some? ==> r.value == freshKey
    {
      if keyFile.Some? {
        return if keyFile.value.Whole? then Some(keyFile.value.key) else None;
      }
      var alive := Tick();
      if !alive { return None; }
      keyFile := Some(TornKey);
      alive := Tick();
      if !alive { return None; }
      keyFile := Some(Whole(freshKey));
      return Some(freshKey);
    }

    /** Saves through a temporary file; a stop leaves the old blob or the new one, never half of either. */
    method SaveKeys(uuid: Uuid, keys: Keys, freshKey: Key) returns (saved: bool)
      modifies this
      ensures old(keyFile).Some? ==> keyFile == old(keyFile)
      ensures backups == old(backups) && tmpKey == old(tmpKey)
      ensures forall u :: u != uuid ==> (u in enc <==> u in old(enc)) && (u in enc ==> enc[u] == old(enc)[u])
      ensures saved ==> GetKeys(View(), uuid) == Some(keys)
      ensures !saved ==> enc == old(enc)
    {
      var key := LoadOrCreate(freshKey);
      if key.None? {
        return false;
      }
      var alive := Tick();
      if !alive { return false; }
      tmps := tmps[uuid := TornBlob];
      alive := Tick();
      if !alive { return false; }
      tmps := tmps[uuid := Sealed(key.value, SavedContent(keys))];
      alive := Tick();
      if !alive { return false; }
      enc, tmps := enc[uuid := tmps[uuid]], tmps - {uuid};
      return true;
    }

    method DeleteKeys(uuid: Uuid) returns (deleted: bool)
      modifies this`left, this`enc
      ensures enc == if deleted then old(enc) - {uuid} else old(enc)
      ensures deleted ==> uuid in old(enc)
    {
      if uuid !in enc {
        return false;
      }
      var alive := Tick();
      if !alive { return false; }
      enc := enc - {uuid};
      return true;
    }

    /** The rotation; it may stop before any file operation. */
    method Rotate(newKey: Key, stamp: Stamp, stale: set<Stamp>) returns (outcome: Outcome)
      modifies this
      ensures Rotated(old(View()), View(), newKey, stamp, outcome)
      ensures outcome.Completed? ==> backups == old(backups)[stamp := old(keyFile).value] - stale
    {
      ghost var b := View();
      if keyFile.None? {
        return Refused;
      }
      var uuids := ListUuids();
      var plain := LoadAll(uuids);
      if plain.None? {
        return Refused;
      }
      var alive := Backup(stamp);
      if !alive { return Stopped; }
      alive := WriteTmps(uuids, plain.value, newKey);
      if !alive { return Stopped; }
      alive := WriteTmpKey(newKey);
      if !alive { return Stopped; }
      alive := Tick();
      if !alive { return Stopped; }
      keyFile, tmpKey := tmpKey, None;
      assert HalfWay(b, View(), newKey, stamp, {});
      ghost var done;
      alive, done := ReplaceBlobs(uuids, b, newKey, stamp);
      if !alive { return Stopped; }
      alive := Sweep(stale);
      return if alive then Completed else Stopped;
    }
  }

  lemma {:induction false} LessOne<V>(m: map<Stamp, V>, gone: set<Stamp>, s: Stamp)
    ensures (m - gone) - {s} == m - (gone + {s})
  {
  }

  lemma {:induction false} LessPresent<V>(m: map<Stamp, V>, stale: set<Stamp>)
    ensures m - stale * m.Keys == m - stale
  {
  }

  // ---- What that means for the operator ------------------------------------------------------

  lemma {:induction false} ContentRoundTrip(k: Keys)
    ensures Normalised(SavedContent(k)) == Normalised(RotatedContent(k)) == Some(k)
  {
  }

  /** Wherever a rotation stops, every blob opens to its old payload under the key file or this rotation's backup. */
  lemma {:induction false} CrashSafe(b: Files, f: Files, newKey: Key, stamp: Stamp, outcome: Outcome, u: Uuid)
    requires Rotated(b, f, newKey, stamp, outcome) && Readable(b) && u in b.enc
    ensures u in f.enc
    ensures GetKeys(f, u) == GetKeys(b, u)
            || (stamp in f.backups && OpenedWith(f.enc[u], f.backups[stamp]) == GetKeys(b, u))
  {
    if f.keyFile == Some(Whole(newKey)) && f.enc[u] == Resealed(b, newKey, u) {
      ContentRoundTrip(GetKeys(b, u).value);
    }
  }

  /** A finished rotation changes no answer, for stored and unknown uuids alike. */
  lemma {:induction false} CompletionKeepsAnswers(b: Files, f: Files, newKey: Key, stamp: Stamp, u: Uuid)
    requires Rotated(b, f, newKey, stamp, Completed)
    ensures GetKeys(f, u) == GetKeys(b, u)
  {
    if u in b.enc {
      ContentRoundTrip(GetKeys(b, u).value);
    }
  }

  /** As long as the key file is the old one, so is every blob. */
  lemma {:induction false} KeyFirst(b: Files, f: Files, newKey: Key, stamp: Stamp, outcome: Outcome)
    requires Rotated(b, f, newKey, stamp, outcome) && b.keyFile != Some(Whole(newKey))
    ensures f.keyFile == b.keyFile ==> f.enc == b.enc
    ensures f.keyFile != b.keyFile ==> f.keyFile == Some(Whole(newKey))
  {
  }

  /** The blob is still the one from before the rotation. */
  predicate Stale(b: Files, f: Files, newKey: Key, u: Uuid)
    requires GetKeys(b, u).Some?
  {
    u in f.enc && f.keyFile != b.keyFile && f.enc[u] != Resealed(b, newKey, u)
  }

  /**
   After a stop, the tree is unreadable to a second rotation exactly when the key was
   replaced and some blob was not; then the second rotation refuses and changes nothing.
   */
  lemma {:induction false} RerunRefusesIff(
    b: Files, f: Files, newKey: Key, stamp: Stamp, g: Files, key': Key, stamp': Stamp, outcome: Outcome)
    requires Rotated(b, f, newKey, stamp, Stopped) && b.keyFile != Some(Whole(newKey))
    requires Rotated(f, g, key', stamp', outcome)
    ensures outcome == Refused <==> exists u :: u in b.enc && Stale(b, f, newKey, u)
    ensures outcome == Refused ==> g == f
  {
    if f.keyFile == b.keyFile {
      KeyFirst(b, f, newKey, stamp, Stopped);
    } else if u :| u in b.enc && Stale(b, f, newKey, u) {
      assert f.enc[u] == b.enc[u];
      assert GetKeys(f, u).None?;
    } else {
      forall u | u in f.enc
        ensures GetKeys(f, u).Some?
      {
        assert !Stale(b, f, newKey, u);
        ContentRoundTrip(GetKeys(b, u).value);
      }
    }
  }

  function Restored(f: Files, stamp: Stamp): Files
    requires stamp in f.backups
  {
    f.(keyFile := Some(f.backups[stamp]))
  }

  /**
   Restoring the backup, the remedy the code documents, brings every credential back exactly
   when the backup is whole and no blob had been replaced yet. A stop in mid-copy leaves a
   torn backup that recovers nothing; after the first replaced blob neither key opens them all.
   */
  lemma {:induction false} RestoreRecoversIff(b: Files, f: Files, newKey: Key, stamp: Stamp)
    requires Rotated(b, f, newKey, stamp, Stopped) && b.keyFile != Some(Whole(newKey)) && stamp in f.backups
    ensures (forall u :: u in b.enc ==> GetKeys(Restored(f, stamp), u) == GetKeys(b, u))
            <==> b.enc == map[] || (Some(f.backups[stamp]) == b.keyFile && f.enc == b.enc)
  {
    if b.enc != map[] {
      if Untouched(b, f, stamp) {
        var u :| u in b.enc;
        assert GetKeys(b, u).Some?;
      } else if u :| u in b.enc && f.enc[u] != b.enc[u] {
        assert f.enc[u] == Resealed(b, newKey, u);
        assert GetKeys(b, u).Some? && GetKeys(Restored(f, stamp), u).None?;
      } else {
        assert f.enc == b.enc;
      }
    }
  }

  /** The stop in mid-copy: a torn backup beside an untouched key, and restoring it loses every credential. */
  lemma {:induction false} TornBackupRecoversNothing(b: Files, newKey: Key, stamp: Stamp, u: Uuid)
    requires Readable(b) && u in b.enc
    ensures var f := b.(backups := b.backups[stamp := TornKey]);
            && Rotated(b, f, newKey, stamp, Stopped)
            && GetKeys(f, u) == GetKeys(b, u)
            && GetKeys(Restored(f, stamp), u).None?
  {
    var f := b.(backups := b.backups[stamp := TornKey]);
    assert f.backups - {stamp} == b.backups - {stamp};
  }

  // ---- Any number of rotations ---------------------------------------------------------------

  ghost predicate OnDisk(f: Files, key: KeyBytes) {
    f.keyFile == Some(key) || exists s :: s in f.backups && f.backups[s] == key
  }

  ghost predicate Recoverable(f: Files, u: Uuid, k: Keys) {
    u in f.enc && exists key :: OnDisk(f, key) && OpenedWith(f.enc[u], key) == Some(k)
  }

  /** Everything ever stored can still be opened with some key on disk. */
  ghost predicate NothingLost(stored: map<Uuid, Keys>, f: Files) {
    forall u :: u in stored ==> Recoverable(f, u, stored[u])
  }

  lemma {:induction false} RotationLosesNothing(
    stored: map<Uuid, Keys>, b: Files, f: Files, newKey: Key, stamp: Stamp, outcome: Outcome)
    requires NothingLost(stored, b) && Rotated(b, f, newKey, stamp, outcome)
    ensures NothingLost(stored, f)
  {
    if outcome != Refused {
      forall u | u in stored
        ensures Recoverable(f, u, stored[u])
      {
        assert Recoverable(b, u, stored[u]);
        var key :| OnDisk(b, key) && OpenedWith(b.enc[u], key) == Some(stored[u]);
        assert GetKeys(b, u) == Some(stored[u]);
        CrashSafe(b, f, newKey, stamp, outcome, u);
        if GetKeys(f, u) == GetKeys(b, u) {
          assert OnDisk(f, f.keyFile.value);
        } else {
          assert OnDisk(f, f.backups[stamp]);
        }
      }
    }
  }

  datatype Attempt = Attempt(newKey: Key, stamp: Stamp, outcome: Outcome)

  /** Each attempt leads from one state of the disk to the next. */
  ghost predicate History(states: seq<Files>, attempts: seq<Attempt>) {
    && |states| == |attempts| + 1
    && forall i :: 0 <= i < |attempts| ==>
         Rotated(states[i], states[i + 1], attempts[i].newKey, attempts[i].stamp, attempts[i].outcome)
  }

  /** However often rotation is tried and stopped, and whatever each sweep removes, nothing is lost. */
  lemma {:induction false} NothingEverLost(stored: map<Uuid, Keys>, states: seq<Files>, attempts: seq<Attempt>)
    requires History(states, attempts) && NothingLost(stored, states[0])
    ensures NothingLost(stored, states[|attempts|])
    decreases |attempts|
  {
    if attempts != [] {
      var n := |attempts| - 1;
      NothingEverLost(stored, states[..n + 1], attempts[..n]);
      var a := attempts[n];
      RotationLosesNothing(stored, states[n], states[n + 1], a.newKey, a.stamp, a.outcome);
    }
  }
}
