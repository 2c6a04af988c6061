/** The sync cursor of src/models/SyncCursor.js and the lock `withLock` of
    src/services/zohoBooksSync.js builds on it.

    The cursors collection is a sequence in natural order: `module` is
    indexed but not unique, so `findOne({ module })` returns the first match
    and nothing stops two cursors for one module. The lock is a read followed
    by writes, split here into its three steps: `Find` (the `findOne`),
    `Create` (the lazy `create`, a no-op when a cursor was found) and `Check`
    (the `running` test on the document read, then the save of
    `running = true`). `AcquireSpec` runs them back to back; the lemmas at the
    end run two acquisitions interleaved. */
module Cursors {
  import opened Values

  const DefaultSource := "zoho-books"

  datatype Cursor = Cursor(
    source: string,
    moduleName: string,
    lastSyncAt: Option<int>,
    running: bool,
    lastError: Option<string>)

  /** `SyncCursor.create({ module })`: the schema defaults fill in the rest. */
  function NewCursor(moduleName: string): Cursor
  {
    Cursor(DefaultSource, moduleName, None, false, None)
  }

  /** `findOne({ module })`: the index of the first cursor of the module. */
  function FindFirst(cs: seq<Cursor>, moduleName: string): (r: Option<nat>)
    ensures r.Some? ==>
      r.value < |cs| && cs[r.value].moduleName == moduleName
      && forall j :: 0 <= j < r.value ==> cs[j].moduleName != moduleName
    ensures r.None? ==> forall j :: 0 <= j < |cs| ==> cs[j].moduleName != moduleName
  {
    if cs == [] then None
    else if cs[0].moduleName == moduleName then Some(0)
    else match FindFirst(cs[1..], moduleName)
      case None => None
      case Some(i) => Some(i + 1)
  }

  /** Changing a cursor without changing its module does not change which
      cursor `findOne` returns, for any module. */
  lemma FindFirstKeepsModules(cs: seq<Cursor>, i: nat, c: Cursor, moduleName: string)
    requires i < |cs| && c.moduleName == cs[i].moduleName
    ensures FindFirst(cs[i := c], moduleName) == FindFirst(cs, moduleName)
  {
    assert forall j :: 0 <= j < |cs| ==> cs[i := c][j].moduleName == cs[j].moduleName;
  }

  /** What one process read: where the cursor is, and the document as read. */
  datatype Snapshot = Snapshot(index: nat, cursor: Cursor)

  /** The `findOne` step. */
  function Find(cs: seq<Cursor>, moduleName: string): Option<Snapshot>
  {
    match FindFirst(cs, moduleName)
    case None => None
    case Some(i) => Some(Snapshot(i, cs[i]))
  }

  /** The `if (!cur) cur = await SyncCursor.create({ module })` step. */
  function Create(cs: seq<Cursor>, found: Option<Snapshot>, moduleName: string): (seq<Cursor>, Snapshot)
  {
    if found.Some? then (cs, found.value) else (cs + [NewCursor(moduleName)], Snapshot(|cs|, NewCursor(moduleName)))
  }

  function AlreadyRunning(moduleName: string): string
  {
    moduleName + " sync already running"
  }

  /** The `running` test on the document read, then `running = true`,
      `lastError = undefined` and the save of those two fields. */
  function Check(cs: seq<Cursor>, snap: Snapshot, moduleName: string): (seq<Cursor>, Result<nat, string>)
    requires snap.index < |cs|
  {
    if snap.cursor.running then (cs, Err(AlreadyRunning(moduleName)))
    else (cs[snap.index := cs[snap.index].(running := true, lastError := None)], Ok(snap.index))
  }

  /** The acquisition half of `withLock(module, fn)`, run without
      interruption. */
  function AcquireSpec(cs: seq<Cursor>, moduleName: string): (seq<Cursor>, Result<nat, string>)
  {
    var (s1, snap) := Create(cs, Find(cs, moduleName), moduleName);
    Check(s1, snap, moduleName)
  }

  /** The release half: `lastSyncAt = now` when `fn` succeeded, `lastError`
      = the error's message when it failed, and `running = false` either
      way, saved. */
  function ReleaseSpec(cs: seq<Cursor>, index: nat, failure: Option<string>, now: int): seq<Cursor>
    requires index < |cs|
  {
    var c := cs[index];
    cs[index := c.(
      running := false,
      lastSyncAt := if failure.None? then Some(now) else c.lastSyncAt,
      lastError := if failure.Some? then failure else c.lastError)]
  }

  /** Acquisition succeeds iff the module has no cursor yet or its first
      cursor is not running. On success that cursor (created if needed, and
      then the first of its module) is running with no error and is
      otherwise as it was; on failure nothing changes. */
  lemma AcquireOutcome(cs: seq<Cursor>, moduleName: string)
    ensures var (s, r) := AcquireSpec(cs, moduleName);
      var found := FindFirst(cs, moduleName);
      && (r.Ok? <==> found.None? || !cs[found.value].running)
      && (r.Err? ==> r.error == moduleName + " sync already running" && s == cs)
      && (r.Ok? ==>
        && |s| == |cs| + (if found.None? then 1 else 0)
        && r.value < |s|
        && FindFirst(s, moduleName) == Some(r.value)
        && s[r.value].running && s[r.value].lastError.None? && s[r.value].moduleName == moduleName
        && (found.Some? ==>
              r.value == found.value
              && s[r.value].lastSyncAt == cs[found.value].lastSyncAt && s[r.value].source == cs[found.value].source)
        && (found.None? ==> r.value == |cs| && s[r.value].lastSyncAt.None? && s[r.value].source == DefaultSource)
        && forall j :: 0 <= j < |cs| && j != r.value ==> s[j] == cs[j])
  {
    var found := FindFirst(cs, moduleName);
    var (s1, snap) := Create(cs, Find(cs, moduleName), moduleName);
    if found.None? {
      assert FindFirst(s1, moduleName) == Some(|cs|) by {
        assert s1[|cs|].moduleName == moduleName;
        assert forall j :: 0 <= j < |cs| ==> s1[j] == cs[j];
      }
    }
    assert FindFirst(s1, moduleName) == Some(snap.index);
    if !snap.cursor.running {
      FindFirstKeepsModules(s1, snap.index, s1[snap.index].(running := true, lastError := None), moduleName);
    }
  }

  /** The first acquisition for a module with no cursor appends one built
      from the schema's defaults (source "zoho-books", never synced, no
      error) and already marked running. */
  lemma FirstAcquireCreates(cs: seq<Cursor>, moduleName: string)
    requires FindFirst(cs, moduleName).None?
    ensures AcquireSpec(cs, moduleName) == (cs + [Cursor("zoho-books", moduleName, None, true, None)], Ok(|cs|))
  {
    var (s1, snap) := Create(cs, Find(cs, moduleName), moduleName);
    assert s1 == cs + [NewCursor(moduleName)] && snap == Snapshot(|cs|, NewCursor(moduleName));
    assert s1[|cs| := s1[|cs|].(running := true, lastError := None)] == cs + [Cursor(DefaultSource, moduleName, None, true, None)];
  }

  /** Run one after the other, a second acquisition of the same module is
      refused with "<module> sync already running" and changes nothing. */
  lemma SequentialAcquireExcludes(cs: seq<Cursor>, moduleName: string)
    requires AcquireSpec(cs, moduleName).1.Ok?
    ensures var s1 := AcquireSpec(cs, moduleName).0;
      AcquireSpec(s1, moduleName) == (s1, Err(moduleName + " sync already running"))
  {
    AcquireOutcome(cs, moduleName);
  }

  /** After acquisition and release the cursor is idle again; `lastSyncAt`
      is `now` exactly when `fn` succeeded and is otherwise what it was, and a
      failure's message is kept in `lastError`. */
  lemma ReleaseOutcome(cs: seq<Cursor>, moduleName: string, failure: Option<string>, now: int)
    requires AcquireSpec(cs, moduleName).1.Ok?
    ensures var (s1, r) := AcquireSpec(cs, moduleName);
      var s2 := ReleaseSpec(s1, r.value, failure, now);
      var found := FindFirst(cs, moduleName);
      && FindFirst(s2, moduleName) == Some(r.value)
      && !s2[r.value].running
      && (failure.None? ==> s2[r.value].lastSyncAt == Some(now) && s2[r.value].lastError.None?)
      && (failure.Some? ==>
            s2[r.value].lastError == failure
            && s2[r.value].lastSyncAt == (if found.Some? then cs[found.value].lastSyncAt else None))
      && AcquireSpec(s2, moduleName).1.Ok?
  {
    AcquireOutcome(cs, moduleName);
    var (s1, r) := AcquireSpec(cs, moduleName);
    var s2 := ReleaseSpec(s1, r.value, failure, now);
    FindFirstKeepsModules(s1, r.value, s2[r.value], moduleName);
    AcquireOutcome(s2, moduleName);
  }

  /** The lock is not atomic: when two processes both read an idle cursor
      before either saves, both pass the check and both run. */
  lemma InterleavedReadsBothAcquire(cs: seq<Cursor>, moduleName: string)
    requires FindFirst(cs, moduleName).Some? && !cs[FindFirst(cs, moduleName).value].running
    ensures var a := Find(cs, moduleName);        // process A reads
      var b := Find(cs, moduleName);              // process B reads
      var (s1, snapA) := Create(cs, a, moduleName);
      var (s2, snapB) := Create(s1, b, moduleName);
      snapA.index < |s2| && snapB.index < |s2|
      && var (s3, ra) := Check(s2, snapA, moduleName);  // A saves
      snapB.index < |s3|
      && var (s4, rb) := Check(s3, snapB, moduleName);  // B saves
      ra.Ok? && rb.Ok? && ra.value == rb.value
  {
  }

  /** Nor is the lazy create: when two processes both find no cursor before
      either creates one, the module ends up with two cursors, both running. */
  lemma InterleavedCreatesDuplicate(cs: seq<Cursor>, moduleName: string)
    requires FindFirst(cs, moduleName).None?
    ensures var a := Find(cs, moduleName);
      var b := Find(cs, moduleName);
      var (s1, snapA) := Create(cs, a, moduleName);
      var (s2, snapB) := Create(s1, b, moduleName);
      snapA.index < |s2| && snapB.index < |s2|
      && var (s3, ra) := Check(s2, snapA, moduleName);
      snapB.index < |s3|
      && var (s4, rb) := Check(s3, snapB, moduleName);
      && ra.Ok? && rb.Ok? && ra.value != rb.value
      && |s4| == |cs| + 2
      && s4[|cs|].moduleName == moduleName && s4[|cs| + 1].moduleName == moduleName
      && s4[|cs|].running && s4[|cs| + 1].running
  {
  }

  /** The `zoho_sync_cursors` collection. */
  class CursorCollection {
    var docs: seq<Cursor>

    constructor (docs: seq<Cursor>)
      ensures this.docs == docs
    {
      this.docs := docs;
    }

    /** The acquisition half of `withLock`: find, create if missing, test
        `running`, and save `running = true` with `lastError` cleared. */
    method Acquire(moduleName: string) returns (r: Result<nat, string>)
      modifies this
      ensures (docs, r) == AcquireSpec(old(docs), moduleName)
      ensures r.Ok? ==> r.value < |docs|
    {
      var found := FindFirst(docs, moduleName);
      var index: nat;
      if found.None? {
        docs := docs + [NewCursor(moduleName)];
        index := |docs| - 1;
      } else {
        index := found.value;
      }
      if docs[index].running {
        return Err(AlreadyRunning(moduleName));
      }
      docs := docs[index := docs[index].(running := true, lastError := None)];
      r := Ok(index);
    }

    /** The `then`/`catch`/`finally` half of `withLock`. */
    method Release(index: nat, failure: Option<string>, now: int)
      requires index < |docs|
      modifies this
      ensures docs == ReleaseSpec(old(docs), index, failure, now)
    {
      var c := docs[index];
      if failure.None? {
        c := c.(lastSyncAt := Some(now));
      } else {
        c := c.(lastError := failure);
      }
      c := c.(running := false);
      docs := docs[index := c];
    }
  }
}
