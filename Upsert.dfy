/** `bulkUpsertInvoices` and `bulkUpsertPOs` of src/services/upsertBooks.js
    over the collections of src/models/Invoice.js and
    src/models/PurchaseOrder.js.

    A collection is a map from the natural key (`invoice_id` or
    `purchaseorder_id`, unique by the collection's index) to the stored
    document. A batch becomes one `updateOne` per record, filtered on the key,
    with `$set: { ...record, fetchedAt }` and `upsert: true`. `$set` merges:
    fields of the stored document that the record lacks are kept. Both
    schemas declare `timestamps: true`, so `bulkWrite` adds `updatedAt` to
    every `$set` and puts `createdAt` in a `$setOnInsert`, which only an
    insert applies.

    The write is unordered: an operation the server refuses (its key is in
    `refused`, standing for a validation or duplicate-key failure) changes
    nothing, the others are still applied, and the call then fails with a
    bulk-write error. `ApplyOps` and `Tally` are the specification of the
    collection's `BulkWrite`; the lemmas below characterise `ApplyOps`. */
module Upsert {
  import opened Values

  const InvoiceKey := "invoice_id"
  const PurchaseOrderKey := "purchaseorder_id"
  /** The field every upsert stamps with the fetch time. */
  const FetchedAt := "fetchedAt"
  /** The fields the schemas' `timestamps: true` maintains. */
  const CreatedAt := "createdAt"
  const UpdatedAt := "updatedAt"

  type Store = map<Value, Record>

  /** One `updateOne` with `upsert: true`: filter `{ [keyField]: key }`,
      update `{ $set: fields, $setOnInsert: onInsert }`. */
  datatype UpdateOne = UpdateOne(key: Value, fields: Record, onInsert: Record)

  /** `inv.invoice_id` (or the purchase-order key); a missing key filters on
      `null`. */
  function KeyOf(rec: Record, keyField: string): Value
  {
    Field(rec, keyField)
  }

  function UpsertOp(rec: Record, keyField: string, now: int): UpdateOne
  {
    UpdateOne(KeyOf(rec, keyField), rec[FetchedAt := Num(now)], map[])
  }

  /** An operation whose `$set` and `$setOnInsert` do not move the document
      off its key. */
  predicate OpFor(op: UpdateOne, keyField: string)
  {
    && (keyField in op.fields ==> op.fields[keyField] == op.key)
    && (keyField in op.onInsert ==> op.onInsert[keyField] == op.key)
  }

  /** `records.map(...)`: exactly one operation per record, in order, keyed
      on the record's own key, setting every field of the record and
      `fetchedAt`, with nothing reserved for an insert. */
  function BuildOps(records: seq<Record>, keyField: string, now: int): (ops: seq<UpdateOne>)
    ensures |ops| == |records|
    ensures forall i :: 0 <= i < |records| ==>
      ops[i].key == KeyOf(records[i], keyField)
      && ops[i].fields.Keys == records[i].Keys + {FetchedAt}
      && ops[i].fields[FetchedAt] == Num(now)
      && (forall f :: f in records[i] && f != FetchedAt ==> ops[i].fields[f] == records[i][f])
      && ops[i].onInsert == map[]
    ensures keyField != FetchedAt ==> forall i :: 0 <= i < |ops| ==> OpFor(ops[i], keyField)
  {
    seq(|records|, i requires 0 <= i < |records| => UpsertOp(records[i], keyField, now))
  }

  /** Mongoose's timestamps applied to one update at write time `now`:
      `updatedAt` is set, and `createdAt` leaves the `$set` for the
      `$setOnInsert`. */
  function Stamp(op: UpdateOne, now: int): UpdateOne
  {
    UpdateOne(op.key, (op.fields - {CreatedAt})[UpdatedAt := Num(now)], op.onInsert[CreatedAt := Num(now)])
  }

  function StampAll(ops: seq<UpdateOne>, now: int): (stamped: seq<UpdateOne>)
    ensures |stamped| == |ops| && forall i :: 0 <= i < |ops| ==> stamped[i] == Stamp(ops[i], now)
  {
    seq(|ops|, i requires 0 <= i < |ops| => Stamp(ops[i], now))
  }

  /** The operations the server receives for a batch of records fetched and
      written at `now`. */
  function Sent(records: seq<Record>, keyField: string, now: int): seq<UpdateOne>
  {
    StampAll(BuildOps(records, keyField, now), now)
  }

  /** Stamping keeps an operation on its key, unless the key field is one of
      the timestamps. */
  lemma StampKeepsOpFor(ops: seq<UpdateOne>, keyField: string, now: int)
    requires keyField != CreatedAt && keyField != UpdatedAt
    requires forall i :: 0 <= i < |ops| ==> OpFor(ops[i], keyField)
    ensures forall i :: 0 <= i < |ops| ==> OpFor(StampAll(ops, now)[i], keyField)
  {
  }

  /** The first accepted operation on key `k` gives its `$setOnInsert`. */
  function FirstInsert(ops: seq<UpdateOne>, refused: set<Value>, k: Value): Record
  {
    if ops == [] then map[]
    else if Applies(ops[0], refused, k) then ops[0].onInsert
    else FirstInsert(ops[1..], refused, k)
  }

  /** The document the batch's updates of key `k` start from: the stored
      one, or a new one holding the filter's key and the first accepted
      operation's `$setOnInsert`. */
  function Start(docs: Store, keyField: string, ops: seq<UpdateOne>, refused: set<Value>, k: Value): Record
  {
    if k in docs then docs[k] else map[keyField := k] + FirstInsert(ops, refused, k)
  }

  /** One operation, as the server applies it. */
  function Step(docs: Store, keyField: string, op: UpdateOne, refused: set<Value>): Store
  {
    if op.key in refused then docs
    else if op.key in docs then docs[op.key := docs[op.key] + op.fields]
    else docs[op.key := map[keyField := op.key] + op.onInsert + op.fields]
  }

  /** The whole unordered batch: every operation applied in turn, refused
      ones skipped. */
  function ApplyOps(docs: Store, keyField: string, ops: seq<UpdateOne>, refused: set<Value>): Store
    decreases |ops|
  {
    if ops == [] then docs else ApplyOps(Step(docs, keyField, ops[0], refused), keyField, ops[1..], refused)
  }

  /** The bulk-write result counts. */
  datatype WriteCounts = WriteCounts(inserted: nat, modified: nat, failed: nat)

  function Add(a: WriteCounts, b: WriteCounts): WriteCounts
  {
    WriteCounts(a.inserted + b.inserted, a.modified + b.modified, a.failed + b.failed)
  }

  /** The document already holds every field of the `$set` with the same
      value. */
  predicate AlreadyHolds(doc: Record, fields: Record)
  {
    forall f :: f in fields ==> f in doc && doc[f] == fields[f]
  }

  /** A matched document counts as modified exactly when the `$set` changes
      it. */
  lemma AlreadyHoldsIffUnchanged(doc: Record, fields: Record)
    ensures AlreadyHolds(doc, fields) <==> doc + fields == doc
  {
    if doc + fields == doc {
      forall f | f in fields
        ensures f in doc && doc[f] == fields[f]
      {
        assert (doc + fields)[f] == fields[f];
      }
    }
  }

  /** What one operation counts as: an insert, a modification (the document
      actually changed), a failure, or nothing (matched but unchanged). */
  function StepTally(docs: Store, keyField: string, op: UpdateOne, refused: set<Value>): WriteCounts
  {
    if op.key in refused then WriteCounts(0, 0, 1)
    else if op.key !in docs then WriteCounts(1, 0, 0)
    else if !AlreadyHolds(docs[op.key], op.fields) then WriteCounts(0, 1, 0)
    else WriteCounts(0, 0, 0)
  }

  /** The counts of a batch, added to `acc`. */
  function TallyFrom(docs: Store, keyField: string, ops: seq<UpdateOne>, refused: set<Value>, acc: WriteCounts): WriteCounts
    decreases |ops|
  {
    if ops == [] then acc
    else TallyFrom(Step(docs, keyField, ops[0], refused), keyField, ops[1..], refused, Add(acc, StepTally(docs, keyField, ops[0], refused)))
  }

  const NoCounts := WriteCounts(0, 0, 0)

  /** The counts a bulk write reports for the batch. */
  function Tally(docs: Store, keyField: string, ops: seq<UpdateOne>, refused: set<Value>): WriteCounts
  {
    TallyFrom(docs, keyField, ops, refused, NoCounts)
  }

  /** Every stored document holds its own key under the key field. */
  ghost predicate WellKeyed(docs: Store, keyField: string)
  {
    forall k :: k in docs ==> keyField in docs[k] && docs[k][keyField] == k
  }

  predicate Applies(op: UpdateOne, refused: set<Value>, k: Value)
  {
    op.key == k && k !in refused
  }

  /** Some operation of the batch writes key `k`. */
  predicate Touched(ops: seq<UpdateOne>, refused: set<Value>, k: Value)
  {
    exists i :: 0 <= i < |ops| && Applies(ops[i], refused, k)
  }

  /** The `$set`s of the batch for key `k`, merged in order (later ones win). */
  function Updates(ops: seq<UpdateOne>, refused: set<Value>, k: Value): Record
  {
    if ops == [] then map[]
    else (if Applies(ops[0], refused, k) then ops[0].fields else map[]) + Updates(ops[1..], refused, k)
  }

  lemma UnionAssoc(a: Record, b: Record, c: Record)
    ensures (a + b) + c == a + (b + c)
  {
    assert forall f :: f in (a + b) + c ==> ((a + b) + c)[f] == (a + (b + c))[f];
  }

  lemma UnionIdem(a: Record, b: Record)
    ensures (a + b) + b == a + b
  {
    assert forall f :: f in (a + b) + b ==> ((a + b) + b)[f] == (a + b)[f];
  }

  lemma UnionEmpty(a: Record)
    ensures a + map[] == a && map[] + a == a
  {
    assert forall f :: f in a + map[] ==> (a + map[])[f] == a[f];
    assert forall f :: f in map[] + a ==> (map[] + a)[f] == a[f];
  }

  lemma {:induction false} TouchedUnfold(ops: seq<UpdateOne>, refused: set<Value>, k: Value)
    requires ops != []
    ensures Touched(ops, refused, k) <==> Applies(ops[0], refused, k) || Touched(ops[1..], refused, k)
  {
    if Touched(ops, refused, k) && !Applies(ops[0], refused, k) {
      var i :| 0 <= i < |ops| && Applies(ops[i], refused, k);
      assert ops[1..][i - 1] == ops[i];
    }
    if Touched(ops[1..], refused, k) {
      var i :| 0 <= i < |ops[1..]| && Applies(ops[1..][i], refused, k);
      assert ops[i + 1] == ops[1..][i];
    }
  }

  /** The characterisation of a batch: key `k` is stored afterwards iff it
      was before or some accepted operation wrote it, and its document is
      the starting document merged with that key's `$set`s in order. */
  lemma {:induction false} ApplyAt(docs: Store, keyField: string, ops: seq<UpdateOne>, refused: set<Value>, k: Value)
    ensures var out := ApplyOps(docs, keyField, ops, refused);
      && (k in out <==> k in docs || Touched(ops, refused, k))
      && (k in out ==> out[k] == Start(docs, keyField, ops, refused, k) + Updates(ops, refused, k))
    decreases |ops|
  {
    if ops == [] {
      UnionEmpty(Start(docs, keyField, ops, refused, k));
    } else {
      var d1 := Step(docs, keyField, ops[0], refused);
      ApplyAt(d1, keyField, ops[1..], refused, k);
      TouchedUnfold(ops, refused, k);
      var rest := Updates(ops[1..], refused, k);
      if Applies(ops[0], refused, k) {
        var s := Start(docs, keyField, ops, refused, k);
        assert k in d1 && d1[k] == s + ops[0].fields;
        assert Start(d1, keyField, ops[1..], refused, k) == s + ops[0].fields;
        UnionAssoc(s, ops[0].fields, rest);
      } else {
        assert Start(d1, keyField, ops[1..], refused, k) == Start(docs, keyField, ops, refused, k);
        UnionEmpty(rest);
      }
    }
  }

  /** Keys that no operation of the batch names are left exactly as they
      were, and no document appears for them. */
  lemma UntouchedKeysUnchanged(docs: Store, keyField: string, ops: seq<UpdateOne>, refused: set<Value>, k: Value)
    requires forall i :: 0 <= i < |ops| ==> ops[i].key != k
    ensures var out := ApplyOps(docs, keyField, ops, refused);
      (k in out <==> k in docs) && (k in docs ==> out[k] == docs[k])
  {
    ApplyAt(docs, keyField, ops, refused, k);
    NoUpdates(ops, refused, k);
    UnionEmpty(Start(docs, keyField, ops, refused, k));
  }

  lemma {:induction false} NoUpdates(ops: seq<UpdateOne>, refused: set<Value>, k: Value)
    requires forall i :: 0 <= i < |ops| ==> !Applies(ops[i], refused, k)
    ensures Updates(ops, refused, k) == map[]
  {
    if ops != [] {
      NoUpdates(ops[1..], refused, k);
      UnionEmpty(map[]);
    }
  }

  /** The last accepted operation for a key determines every field it sets. */
  lemma {:induction false} LastUpdateWins(ops: seq<UpdateOne>, refused: set<Value>, i: nat)
    requires i < |ops| && ops[i].key !in refused
    requires forall j :: i < j < |ops| ==> ops[j].key != ops[i].key
    ensures var u := Updates(ops, refused, ops[i].key);
      forall f :: f in ops[i].fields ==> f in u && u[f] == ops[i].fields[f]
  {
    var k := ops[i].key;
    if i == 0 {
      NoUpdates(ops[1..], refused, k);
      UnionEmpty(ops[0].fields);
    } else {
      assert ops[1..][i - 1] == ops[i];
      LastUpdateWins(ops[1..], refused, i - 1);
    }
  }

  lemma SentUnfold(records: seq<Record>, keyField: string, now: int)
    requires records != []
    ensures Sent(records, keyField, now)[0] == Stamp(UpsertOp(records[0], keyField, now), now)
    ensures Sent(records, keyField, now)[1..] == Sent(records[1..], keyField, now)
  {
  }

  /** Every operation sent for a batch written at `now` reserves exactly
      `createdAt = now` for an insert and never sets `createdAt`. */
  lemma SentStamps(records: seq<Record>, keyField: string, now: int)
    ensures var ops := Sent(records, keyField, now);
      forall i :: 0 <= i < |ops| ==>
        ops[i].onInsert == map[CreatedAt := Num(now)] && CreatedAt !in ops[i].fields
        && UpdatedAt in ops[i].fields && ops[i].fields[UpdatedAt] == Num(now)
  {
  }

  lemma {:induction false} FirstInsertIs(ops: seq<UpdateOne>, refused: set<Value>, k: Value, r: Record)
    requires Touched(ops, refused, k)
    requires forall i :: 0 <= i < |ops| ==> ops[i].onInsert == r
    ensures FirstInsert(ops, refused, k) == r
    decreases |ops|
  {
    TouchedUnfold(ops, refused, k);
    if !Applies(ops[0], refused, k) {
      FirstInsertIs(ops[1..], refused, k, r);
    }
  }

  /** After the write, the key of every accepted record (the last one, when
      a key repeats in the batch) maps to a document holding all of that
      record's fields, with `fetchedAt` and `updatedAt` at the write time. */
  lemma RecordStored(docs: Store, keyField: string, records: seq<Record>, now: int, refused: set<Value>, i: nat)
    requires i < |records| && KeyOf(records[i], keyField) !in refused
    requires forall j :: i < j < |records| ==> KeyOf(records[j], keyField) != KeyOf(records[i], keyField)
    ensures var out := ApplyOps(docs, keyField, Sent(records, keyField, now), refused);
      var k := KeyOf(records[i], keyField);
      && k in out
      && FetchedAt in out[k] && out[k][FetchedAt] == Num(now)
      && UpdatedAt in out[k] && out[k][UpdatedAt] == Num(now)
      && forall f :: f in records[i] && f != FetchedAt && f != CreatedAt && f != UpdatedAt ==>
           f in out[k] && out[k][f] == records[i][f]
  {
    var ops := Sent(records, keyField, now);
    var k := KeyOf(records[i], keyField);
    var out := ApplyOps(docs, keyField, ops, refused);
    var fields := ops[i].fields;
    assert ops[i].key == k;
    assert fields == (records[i][FetchedAt := Num(now)] - {CreatedAt})[UpdatedAt := Num(now)];
    LastUpdateWins(ops, refused, i);
    ApplyAt(docs, keyField, ops, refused, k);
    assert Touched(ops, refused, k) by {
      assert Applies(ops[i], refused, k);
    }
    var u := Updates(ops, refused, k);
    assert out[k] == Start(docs, keyField, ops, refused, k) + u;
    assert forall f :: f in fields ==> f in out[k] && out[k][f] == fields[f];
  }

  /** `createdAt` is set once: a key the batch inserts gets the write time,
      and a stored document keeps the `createdAt` it had (or still lacks
      one). */
  lemma CreatedAtOnce(docs: Store, keyField: string, records: seq<Record>, now: int, refused: set<Value>, k: Value)
    ensures var out := ApplyOps(docs, keyField, Sent(records, keyField, now), refused);
      && (k in out && k !in docs ==> CreatedAt in out[k] && out[k][CreatedAt] == Num(now))
      && (k in docs ==> k in out && (CreatedAt in out[k] <==> CreatedAt in docs[k]))
      && (k in docs && CreatedAt in docs[k] ==> out[k][CreatedAt] == docs[k][CreatedAt])
  {
    var ops := Sent(records, keyField, now);
    ApplyAt(docs, keyField, ops, refused, k);
    SentStamps(records, keyField, now);
    UpdatesLack(ops, refused, k, CreatedAt);
    if k !in docs && Touched(ops, refused, k) {
      FirstInsertIs(ops, refused, k, map[CreatedAt := Num(now)]);
    }
  }

  /** `$set` merges: a stored field that no accepted operation for its key
      sets keeps its value. */
  lemma {:induction false} OldFieldsSurvive(docs: Store, keyField: string, ops: seq<UpdateOne>, refused: set<Value>, k: Value, f: string)
    requires k in docs && f in docs[k]
    requires forall i :: 0 <= i < |ops| && Applies(ops[i], refused, k) ==> f !in ops[i].fields
    ensures var out := ApplyOps(docs, keyField, ops, refused);
      k in out && f in out[k] && out[k][f] == docs[k][f]
  {
    ApplyAt(docs, keyField, ops, refused, k);
    UpdatesLack(ops, refused, k, f);
  }

  lemma {:induction false} UpdatesLack(ops: seq<UpdateOne>, refused: set<Value>, k: Value, f: string)
    requires forall i :: 0 <= i < |ops| && Applies(ops[i], refused, k) ==> f !in ops[i].fields
    ensures f !in Updates(ops, refused, k)
  {
    if ops != [] {
      UpdatesLack(ops[1..], refused, k, f);
    }
  }

  /** Applying the same batch twice is applying it once. */
  lemma BatchIdempotent(docs: Store, keyField: string, ops: seq<UpdateOne>, refused: set<Value>)
    ensures ApplyOps(ApplyOps(docs, keyField, ops, refused), keyField, ops, refused) == ApplyOps(docs, keyField, ops, refused)
  {
    var once := ApplyOps(docs, keyField, ops, refused);
    var twice := ApplyOps(once, keyField, ops, refused);
    forall k | k in twice || k in once
      ensures k in twice && k in once && twice[k] == once[k]
    {
      ApplyAt(docs, keyField, ops, refused, k);
      ApplyAt(once, keyField, ops, refused, k);
      UnionIdem(Start(docs, keyField, ops, refused, k), Updates(ops, refused, k));
    }
    assert twice == once;
  }

  /** Two documents with the same fields, holding the same values except
      the clock readings `fetchedAt` and `updatedAt`. */
  predicate SameButClock(a: Record, b: Record)
  {
    a.Keys == b.Keys && forall f :: f in a && f != FetchedAt && f != UpdatedAt ==> a[f] == b[f]
  }

  lemma UnionAgrees(a1: Record, a2: Record, b1: Record, b2: Record)
    requires SameButClock(a1, a2) && SameButClock(b1, b2)
    ensures SameButClock(a1 + b1, a2 + b2)
  {
  }

  /** Merging a second `$set` that agrees with the first except on the
      clock fields changes only those. */
  lemma MergeAgain(s: Record, u1: Record, u2: Record)
    requires SameButClock(u1, u2)
    ensures SameButClock((s + u1) + u2, s + u1)
  {
  }

  /** Two batches of the same records sent at different times write the same
      keys and the same fields, with the same values except the clock
      fields. */
  lemma {:induction false} RebuildAgrees(records: seq<Record>, keyField: string, now1: int, now2: int, refused: set<Value>, k: Value)
    ensures SameButClock(Updates(Sent(records, keyField, now1), refused, k), Updates(Sent(records, keyField, now2), refused, k))
  {
    if records != [] {
      RebuildAgrees(records[1..], keyField, now1, now2, refused, k);
      SentUnfold(records, keyField, now1);
      SentUnfold(records, keyField, now2);
      var op1 := Stamp(UpsertOp(records[0], keyField, now1), now1);
      var op2 := Stamp(UpsertOp(records[0], keyField, now2), now2);
      var h1: Record := if Applies(op1, refused, k) then op1.fields else map[];
      var h2: Record := if Applies(op2, refused, k) then op2.fields else map[];
      UnionAgrees(h1, h2, Updates(Sent(records[1..], keyField, now1), refused, k),
        Updates(Sent(records[1..], keyField, now2), refused, k));
    } else {
      assert Sent(records, keyField, now1) == [] == Sent(records, keyField, now2);
    }
  }

  /** Re-running the same batch later yields the same stored documents,
      field for field, except `fetchedAt` and `updatedAt`: no key appears or
      disappears, and `createdAt` keeps its first value. */
  lemma ReapplyChangesOnlyClockFields(docs: Store, keyField: string, records: seq<Record>, now1: int, now2: int, refused: set<Value>)
    ensures var once := ApplyOps(docs, keyField, Sent(records, keyField, now1), refused);
      var twice := ApplyOps(once, keyField, Sent(records, keyField, now2), refused);
      && twice.Keys == once.Keys
      && forall k :: k in once ==> SameButClock(twice[k], once[k])
  {
    var ops1 := Sent(records, keyField, now1);
    var ops2 := Sent(records, keyField, now2);
    var once := ApplyOps(docs, keyField, ops1, refused);
    var twice := ApplyOps(once, keyField, ops2, refused);
    forall k | k in twice || k in once
      ensures k in twice && k in once
      ensures SameButClock(twice[k], once[k])
    {
      ApplyAt(docs, keyField, ops1, refused, k);
      ApplyAt(once, keyField, ops2, refused, k);
      RebuildAgrees(records, keyField, now1, now2, refused, k);
      TouchedSameKeys(records, keyField, now1, now2, refused, k);
      MergeAgain(Start(docs, keyField, ops1, refused, k), Updates(ops1, refused, k), Updates(ops2, refused, k));
    }
  }

  lemma TouchedSameKeys(records: seq<Record>, keyField: string, now1: int, now2: int, refused: set<Value>, k: Value)
    ensures Touched(Sent(records, keyField, now1), refused, k) <==> Touched(Sent(records, keyField, now2), refused, k)
  {
    var ops1 := Sent(records, keyField, now1);
    var ops2 := Sent(records, keyField, now2);
    assert forall i :: 0 <= i < |records| ==> (Applies(ops1[i], refused, k) <==> Applies(ops2[i], refused, k));
  }

  lemma {:induction false} TallyFromBounded(docs: Store, keyField: string, ops: seq<UpdateOne>, refused: set<Value>, acc: WriteCounts)
    ensures var t := TallyFrom(docs, keyField, ops, refused, acc);
      t.inserted + t.modified + t.failed <= acc.inserted + acc.modified + acc.failed + |ops|
    decreases |ops|
  {
    if ops != [] {
      TallyFromBounded(Step(docs, keyField, ops[0], refused), keyField, ops[1..], refused,
        Add(acc, StepTally(docs, keyField, ops[0], refused)));
    }
  }

  /** Every operation is counted at most once, so the reported number of
      upserted documents never exceeds the batch. */
  lemma TallyBounded(docs: Store, keyField: string, ops: seq<UpdateOne>, refused: set<Value>)
    ensures var t := Tally(docs, keyField, ops, refused);
      t.inserted + t.modified + t.failed <= |ops|
  {
    TallyFromBounded(docs, keyField, ops, refused, NoCounts);
  }

  lemma {:induction false} TallyFromFailures(docs: Store, keyField: string, ops: seq<UpdateOne>, refused: set<Value>, acc: WriteCounts)
    ensures TallyFrom(docs, keyField, ops, refused, acc).failed == acc.failed
      <==> forall i :: 0 <= i < |ops| ==> ops[i].key !in refused
    ensures TallyFrom(docs, keyField, ops, refused, acc).failed >= acc.failed
    decreases |ops|
  {
    if ops != [] {
      TallyFromFailures(Step(docs, keyField, ops[0], refused), keyField, ops[1..], refused,
        Add(acc, StepTally(docs, keyField, ops[0], refused)));
      var rest := ops[1..];
      assert forall i :: 1 <= i < |ops| ==> ops[i] == rest[i - 1];
    }
  }

  /** The batch reports failures iff some operation was refused. */
  lemma TallyFailsIffRefused(docs: Store, keyField: string, ops: seq<UpdateOne>, refused: set<Value>)
    ensures Tally(docs, keyField, ops, refused).failed == 0 <==> forall i :: 0 <= i < |ops| ==> ops[i].key !in refused
  {
    TallyFromFailures(docs, keyField, ops, refused, NoCounts);
  }

  /** The three cases of one operation: refused, matched, inserted. */
  lemma StepCases(docs: Store, keyField: string, op: UpdateOne, refused: set<Value>)
    ensures op.key in refused ==>
      Step(docs, keyField, op, refused) == docs && StepTally(docs, keyField, op, refused) == WriteCounts(0, 0, 1)
    ensures op.key !in refused && op.key in docs ==>
      && Step(docs, keyField, op, refused) == docs[op.key := docs[op.key] + op.fields]
      && StepTally(docs, keyField, op, refused) == WriteCounts(0, if AlreadyHolds(docs[op.key], op.fields) then 0 else 1, 0)
    ensures op.key !in refused && op.key !in docs ==>
      && Step(docs, keyField, op, refused) == docs[op.key := map[keyField := op.key] + op.onInsert + op.fields]
      && StepTally(docs, keyField, op, refused) == WriteCounts(1, 0, 0)
  {
  }

  /** `ApplyOps` and `TallyFrom` take one operation at a time. */
  lemma StepUnfold(docs: Store, keyField: string, ops: seq<UpdateOne>, refused: set<Value>, i: nat, acc: WriteCounts)
    requires i < |ops|
    ensures ApplyOps(docs, keyField, ops[i..], refused) == ApplyOps(Step(docs, keyField, ops[i], refused), keyField, ops[i + 1..], refused)
    ensures TallyFrom(docs, keyField, ops[i..], refused, acc)
      == TallyFrom(Step(docs, keyField, ops[i], refused), keyField, ops[i + 1..], refused, Add(acc, StepTally(docs, keyField, ops[i], refused)))
  {
    assert ops[i..][0] == ops[i] && ops[i..][1..] == ops[i + 1..];
  }

  /** Accepted operations keep every document on its own key. */
  lemma {:induction false} ApplyKeepsKeys(docs: Store, keyField: string, ops: seq<UpdateOne>, refused: set<Value>)
    requires WellKeyed(docs, keyField)
    requires forall i :: 0 <= i < |ops| ==> OpFor(ops[i], keyField)
    ensures WellKeyed(ApplyOps(docs, keyField, ops, refused), keyField)
    decreases |ops|
  {
    if ops != [] {
      var d1 := Step(docs, keyField, ops[0], refused);
      assert WellKeyed(d1, keyField);
      ApplyKeepsKeys(d1, keyField, ops[1..], refused);
    }
  }

  datatype WriteError = BulkWriteError(counts: WriteCounts)

  /** The key field is none of the fields the writes stamp. */
  predicate TimestampFree(keyField: string)
  {
    keyField != FetchedAt && keyField != CreatedAt && keyField != UpdatedAt
  }

  /** A Mongo collection with a unique index on `keyField`. */
  class Collection {
    const keyField: string
    /** Keys whose writes the server refuses. */
    const refused: set<Value>
    var docs: Store
    /** How many `bulkWrite` calls reached the server. */
    var bulkWrites: nat

    ghost predicate Valid()
      reads this
    {
      TimestampFree(keyField) && WellKeyed(docs, keyField)
    }

    constructor (keyField: string, refused: set<Value>, docs: Store)
      requires TimestampFree(keyField) && WellKeyed(docs, keyField)
      ensures Valid()
      ensures this.keyField == keyField && this.refused == refused && this.docs == docs && bulkWrites == 0
    {
      this.keyField := keyField;
      this.refused := refused;
      this.docs := docs;
      bulkWrites := 0;
    }

    /** One operation of the batch, as the server applies it: a refused
        operation changes nothing; a matched document gets the `$set` merged
        in (and counts as modified only if that changed it); otherwise a new
        document holding the key and the `$set` is inserted. */
    method WriteOne(op: UpdateOne) returns (c: WriteCounts)
      modifies this
      ensures docs == Step(old(docs), keyField, op, refused)
      ensures c == StepTally(old(docs), keyField, op, refused)
      ensures bulkWrites == old(bulkWrites)
    {
      StepCases(docs, keyField, op, refused);
      if op.key in refused {
        c := WriteCounts(0, 0, 1);
      } else if op.key in docs {
        c := WriteCounts(0, if AlreadyHolds(docs[op.key], op.fields) then 0 else 1, 0);
        docs := docs[op.key := docs[op.key] + op.fields];
      } else {
        c := WriteCounts(1, 0, 0);
        docs := docs[op.key := map[keyField := op.key] + op.onInsert + op.fields];
      }
    }

    /** `Model.bulkWrite(ops, { ordered: false })` at time `now`: the
        operations are stamped with the schema's timestamps, then every one
        is attempted, in order; refused ones are counted as failures and do
        not stop the others. */
    method BulkWrite(ops: seq<UpdateOne>, now: int) returns (counts: WriteCounts)
      requires Valid()
      requires forall i :: 0 <= i < |ops| ==> OpFor(ops[i], keyField)
      modifies this
      ensures Valid()
      ensures docs == ApplyOps(old(docs), keyField, StampAll(ops, now), refused)
      ensures counts == Tally(old(docs), keyField, StampAll(ops, now), refused)
      ensures bulkWrites == old(bulkWrites) + 1
    {
      var sent := StampAll(ops, now);
      StampKeepsOpFor(ops, keyField, now);
      ApplyKeepsKeys(docs, keyField, sent, refused);
      counts := NoCounts;
      var i := 0;
      while i < |sent|
        invariant 0 <= i <= |sent|
        invariant bulkWrites == old(bulkWrites)
        invariant ApplyOps(docs, keyField, sent[i..], refused) == ApplyOps(old(docs), keyField, sent, refused)
        invariant TallyFrom(docs, keyField, sent[i..], refused, counts) == Tally(old(docs), keyField, sent, refused)
      {
        StepUnfold(docs, keyField, sent, refused, i, counts);
        var c := WriteOne(sent[i]);
        counts := Add(counts, c);
        i := i + 1;
      }
      bulkWrites := bulkWrites + 1;
    }

    /** `bulkUpsertInvoices` / `bulkUpsertPOs`: an empty batch reports 0 and
        writes nothing; otherwise the batch is written and reports
        `upsertedCount + modifiedCount`, or fails if any operation failed
        (the other operations having been applied). `fetchedAt` and the
        write's timestamps are the same clock reading `now`. */
    method BulkUpsert(records: seq<Record>, now: int) returns (r: Result<nat, WriteError>)
      requires Valid()
      modifies this
      ensures Valid()
      ensures records == [] ==> r == Ok(0) && docs == old(docs) && bulkWrites == old(bulkWrites)
      ensures records != [] ==>
        var ops := Sent(records, keyField, now);
        var t := Tally(old(docs), keyField, ops, refused);
        && docs == ApplyOps(old(docs), keyField, ops, refused)
        && bulkWrites == old(bulkWrites) + 1
        && (t.failed == 0 ==> r.Ok? && r.value == t.inserted + t.modified)
        && (t.failed > 0 ==> r == Err(BulkWriteError(t)))
      ensures r.Ok? ==> r.value <= |records|
    {
      if records == [] {
        return Ok(0);
      }
      var ops := BuildOps(records, keyField, now);
      var counts := BulkWrite(ops, now);
      TallyBounded(old(docs), keyField, Sent(records, keyField, now), refused);
      if counts.failed > 0 {
        return Err(BulkWriteError(counts));
      }
      r := Ok(counts.inserted + counts.modified);
    }
  }
}
