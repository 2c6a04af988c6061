/** The nightly delta sync of src/services/zohoBooksSync.js and the full
    backfill of src/services/zohoBooksBackfillAll.js.

    A `SyncEngine` holds the API client, the invoice and purchase-order
    collections and the cursor collection. Both jobs walk a module's list
    endpoint and upsert what they get (`FetchAndStore`). The nightly job does
    so under the cursor lock, with a date window derived from the cursor; the
    backfill does so with no parameters and never touches a cursor.

    Dates are whole UTC days counted from 1970-01-01; the date parameters are
    sent as those day numbers rather than as "YYYY-MM-DD" text. */
module BooksSync {
  import opened Values
  import opened ZohoApi
  import opened PageWalker
  import opened Upsert
  import opened Cursors

  /** The two mirrored modules. */
  datatype Books = Invoices | PurchaseOrders

  /** The module's name: its cursor's `module`, its list's item key, and the
      `module` of its report. */
  function Name(b: Books): string
  {
    if b == Invoices then "invoices" else "purchaseorders"
  }

  function Path(b: Books): string
  {
    "/" + Name(b)
  }

  function KeyField(b: Books): string
  {
    if b == Invoices then InvoiceKey else PurchaseOrderKey
  }

  const DayMs := 86400000
  /** How far back the first nightly sync of a module reaches. */
  const InitialWindowDays := 90

  /** The UTC day of a timestamp in milliseconds. */
  function DayOf(ms: int): int
  {
    ms / DayMs
  }

  datatype Window = Window(start: int, end: int)

  /** `getDeltaParams(lastSyncAt)` as days: it ends today and starts the day
      before the last sync, or 90 days ago when there was none. */
  function DeltaWindow(lastSyncAt: Option<int>, now: int): Window
  {
    var end := DayOf(now);
    if lastSyncAt.Some? then Window(DayOf(lastSyncAt.value) - 1, end) else Window(end - InitialWindowDays, end)
  }

  function DeltaParams(lastSyncAt: Option<int>, now: int): Record
  {
    var w := DeltaWindow(lastSyncAt, now);
    map["date_start" := Num(w.start), "date_end" := Num(w.end)]
  }

  lemma DayOfMonotone(a: int, b: int)
    requires a <= b
    ensures DayOf(a) <= DayOf(b)
  {
  }

  /** The window ends today. After a sync at or before `now`, it covers every
      moment from a full day before that sync up to now, so nothing changed
      since the last sync falls outside it; with no sync yet it covers the
      last 90 days. */
  lemma DeltaWindowCovers(lastSyncAt: Option<int>, now: int, t: int)
    requires lastSyncAt.Some? ==> lastSyncAt.value <= now
    ensures DeltaWindow(lastSyncAt, now).end == DayOf(now)
    ensures lastSyncAt.Some? && lastSyncAt.value - DayMs <= t <= now ==>
      DeltaWindow(lastSyncAt, now).start <= DayOf(t) <= DeltaWindow(lastSyncAt, now).end
    ensures lastSyncAt.None? && now - InitialWindowDays * DayMs <= t <= now ==>
      DeltaWindow(lastSyncAt, now).start <= DayOf(t) <= DeltaWindow(lastSyncAt, now).end
  {
    if lastSyncAt.Some? && lastSyncAt.value - DayMs <= t <= now {
      DayOfMonotone(lastSyncAt.value - DayMs, t);
      DayOfMonotone(t, now);
      assert DayOf(lastSyncAt.value - DayMs) == DayOf(lastSyncAt.value) - 1;
    }
    if lastSyncAt.None? && now - InitialWindowDays * DayMs <= t <= now {
      DayOfMonotone(now - InitialWindowDays * DayMs, t);
      DayOfMonotone(t, now);
      assert DayOf(now - InitialWindowDays * DayMs) == DayOf(now) - InitialWindowDays;
    }
  }

  /** `process.env.ZOHO_FULL_REFRESH === "true"`. */
  predicate FullRefresh(env: Option<string>)
  {
    env == Some("true")
  }

  function ModeName(full: bool): string
  {
    if full then "full" else "delta"
  }

  /** `FULL_REFRESH_NIGHTLY ? {} : getDeltaParams(cursor.lastSyncAt)`. */
  function NightlyParams(full: bool, lastSyncAt: Option<int>, now: int): Record
  {
    if full then map[] else DeltaParams(lastSyncAt, now)
  }

  datatype SyncError =
    | Locked(message: string)
    | FetchFailed(error: ApiError)
    | WriteFailed(writeError: WriteError)

  /** The message of the bulk-write error; its server text is not modelled. */
  const BulkWriteMessage := "bulk write error"

  function StatusText(status: int): string
  {
    if status >= 0 then NatToString(status) else "-" + NatToString(-status)
  }

  /** `e?.message || String(e)`: the message axios or the driver gives the
      error, or "Error" when that message is empty. */
  function ErrorMessage(e: SyncError): (m: string)
    ensures m != ""
  {
    var message := match e
      case Locked(m) => m
      case FetchFailed(HttpError(status, _)) => "Request failed with status code " + StatusText(status)
      case FetchFailed(Timeout) => "timeout of " + NatToString(TimeoutMs) + "ms exceeded"
      case FetchFailed(TokenError(m)) => m
      case WriteFailed(_) => BulkWriteMessage;
    if message == "" then "Error" else message
  }

  /** `{ ...item }`: an object's own fields; any other item spreads to no
      fields, so its key reads as missing. */
  function AsRecord(item: Value): Record
  {
    if item.Obj? then item.fields else map[]
  }

  function Records(items: seq<Value>): (rs: seq<Record>)
    ensures |rs| == |items| && forall i :: 0 <= i < |items| ==> rs[i] == AsRecord(items[i])
  {
    seq(|items|, i requires 0 <= i < |items| => AsRecord(items[i]))
  }

  /** The items fetched and the `upserted` count of one module. */
  datatype Stored = Stored(fetched: nat, upserted: nat)

  datatype NightlyReport = NightlyReport(moduleName: string, mode: string, fetched: nat, upserted: nat)

  datatype BackfillReport = BackfillReport(moduleName: string, totalFetched: nat, upserted: nat)

  function NightlyStored(r: Result<NightlyReport, SyncError>): Result<Stored, SyncError>
  {
    match r
    case Ok(rep) => Ok(Stored(rep.fetched, rep.upserted))
    case Err(e) => Err(e)
  }

  function BackfillStored(r: Result<BackfillReport, SyncError>): Result<Stored, SyncError>
  {
    match r
    case Ok(rep) => Ok(Stored(rep.totalFetched, rep.upserted))
    case Err(e) => Err(e)
  }

  /** Walking module `b` with `params` made the calls `calls`; the store went
      from `docs0` to `docs1`. The pages are requested in order with these
      parameters; a failed walk leaves the store alone and fails the job;
      otherwise exactly the walked items are upserted, `fetched` is their
      number, and the job fails iff the bulk write did. */
  ghost predicate FetchedAndStored(calls: seq<Call>, b: Books, params: Record, docs0: Store, docs1: Store,
    refused: set<Value>, now: int, r: Result<Stored, SyncError>)
  {
    && PagedCalls(calls, Path(b), params)
    && var w := Walk(Outcomes(calls), Name(b));
    && w.Some? && w.value.1 == |calls|
    && match w.value.0
       case Err(e) => r == Err(FetchFailed(e)) && docs1 == docs0
       case Ok(walked) =>
         var ops := Sent(Records(walked.items), KeyField(b), now);
         var t := Tally(docs0, KeyField(b), ops, refused);
         && docs1 == ApplyOps(docs0, KeyField(b), ops, refused)
         && (t.failed == 0 ==> r.Ok? && r.value.fetched == |walked.items| && r.value.upserted == t.inserted + t.modified)
         && (t.failed > 0 ==> r.Err? && r.error == WriteFailed(BulkWriteError(t)))
  }

  /** One nightly module sync from cursors `cs0`: the lock is taken (or
      refused, with nothing else happening), the module is fetched and
      stored with the window of the cursor as locked, and the cursor is
      released with `lastSyncAt = now` on success or the error's message on
      failure. */
  ghost predicate NightlyOutcome(b: Books, full: bool, cs0: seq<Cursor>, cs1: seq<Cursor>, calls: seq<Call>,
    docs0: Store, docs1: Store, refused: set<Value>, now: int, r: Result<NightlyReport, SyncError>)
  {
    var (locked, lock) := AcquireSpec(cs0, Name(b));
    if lock.Err? then
      r.Err? && r.error == Locked(lock.error) && cs1 == locked && calls == [] && docs1 == docs0
    else
      && lock.value < |locked|
      && FetchedAndStored(calls, b, NightlyParams(full, locked[lock.value].lastSyncAt, now), docs0, docs1, refused, now, NightlyStored(r))
      && (r.Ok? ==> r.value.moduleName == Name(b) && r.value.mode == ModeName(full))
      && cs1 == ReleaseSpec(locked, lock.value, if r.Ok? then None else Some(ErrorMessage(r.error)), now)
  }

  /** One module backfilled: fetched and stored with no parameters, and the
      report names the module. */
  ghost predicate BackfillOutcome(b: Books, calls: seq<Call>, docs0: Store, docs1: Store, refused: set<Value>, now: int,
    r: Result<BackfillReport, SyncError>)
  {
    && FetchedAndStored(calls, b, map[], docs0, docs1, refused, now, BackfillStored(r))
    && (r.Ok? ==> r.value.moduleName == Name(b))
  }

  class SyncEngine {
    const client: ApiClient
    const invoices: Collection
    const purchaseOrders: Collection
    const cursors: CursorCollection
    /** `process.env.ZOHO_FULL_REFRESH`. */
    const fullRefreshEnv: Option<string>

    ghost predicate Valid()
      reads this, client, client.tokens, invoices, purchaseOrders
    {
      && client.Valid() && invoices.Valid() && purchaseOrders.Valid()
      && invoices != purchaseOrders
      && invoices.keyField == InvoiceKey && purchaseOrders.keyField == PurchaseOrderKey
    }

    constructor (client: ApiClient, invoices: Collection, purchaseOrders: Collection, cursors: CursorCollection, fullRefreshEnv: Option<string>)
      requires client.Valid() && invoices.Valid() && purchaseOrders.Valid() && invoices != purchaseOrders
      requires invoices.keyField == InvoiceKey && purchaseOrders.keyField == PurchaseOrderKey
      ensures Valid()
      ensures this.client == client && this.invoices == invoices && this.purchaseOrders == purchaseOrders
      ensures this.cursors == cursors && this.fullRefreshEnv == fullRefreshEnv
    {
      this.client := client;
      this.invoices := invoices;
      this.purchaseOrders := purchaseOrders;
      this.cursors := cursors;
      this.fullRefreshEnv := fullRefreshEnv;
    }

    function StoreOf(b: Books): Collection
    {
      if b == Invoices then invoices else purchaseOrders
    }

    /** `fetchAllZohoPages(path, params, module)` then `bulkUpsert…(items)`. */
    method FetchAndStore(b: Books, params: Record, now: int) returns (r: Result<Stored, SyncError>)
      requires Valid()
      modifies client, client.tokens, client.tokens.endpoint, client.server, StoreOf(b)
      ensures Valid()
      ensures old(client.calls) <= client.calls
      ensures FetchedAndStored(client.calls[|old(client.calls)|..], b, params, old(StoreOf(b).docs), StoreOf(b).docs,
        StoreOf(b).refused, now, r)
    {
      var store := StoreOf(b);
      var walked := FetchAllPages(client, Path(b), params, Name(b), now);
      if walked.Err? {
        return Err(FetchFailed(walked.error));
      }
      var items := walked.value.items;
      var upserted := store.BulkUpsert(Records(items), now);
      if upserted.Err? {
        return Err(WriteFailed(upserted.error));
      }
      r := Ok(Stored(|items|, upserted.value));
    }

    /** `nightlyInvoices` / `nightlyPOs`: `fn` run under `withLock`. */
    method NightlyModule(b: Books, now: int) returns (r: Result<NightlyReport, SyncError>)
      requires Valid()
      modifies client, client.tokens, client.tokens.endpoint, client.server, StoreOf(b), cursors
      ensures Valid()
      ensures old(client.calls) <= client.calls
      ensures NightlyOutcome(b, FullRefresh(fullRefreshEnv), old(cursors.docs), cursors.docs,
        client.calls[|old(client.calls)|..], old(StoreOf(b).docs), StoreOf(b).docs, StoreOf(b).refused, now, r)
    {
      var lock := cursors.Acquire(Name(b));
      if lock.Err? {
        assert client.calls[|old(client.calls)|..] == [];
        return Err(Locked(lock.error));
      }
      var index := lock.value;
      ghost var locked := cursors.docs;
      var full := FullRefresh(fullRefreshEnv);
      var params := NightlyParams(full, cursors.docs[index].lastSyncAt, now);
      var stored := FetchAndStore(b, params, now);
      if stored.Err? {
        r := Err(stored.error);
        cursors.Release(index, Some(ErrorMessage(stored.error)), now);
        return;
      }
      cursors.Release(index, None, now);
      r := Ok(NightlyReport(Name(b), ModeName(full), stored.value.fetched, stored.value.upserted));
    }

    /** `runNightlyBooksSync`: invoices, then purchase orders. `first` and
        `second` are the two module results, `invoiceCalls` and `poCalls`
        the calls each made, `between` the cursors after the first. A failed
        invoice sync is rethrown before the purchase orders are attempted:
        no purchase-order request is made and their collection and cursor
        are untouched. */
    method RunNightly(now: int) returns (r: Result<(NightlyReport, NightlyReport), SyncError>,
      ghost first: Result<NightlyReport, SyncError>, ghost second: Result<NightlyReport, SyncError>,
      ghost invoiceCalls: seq<Call>, ghost poCalls: seq<Call>, ghost between: seq<Cursor>)
      requires Valid()
      modifies client, client.tokens, client.tokens.endpoint, client.server, invoices, purchaseOrders, cursors
      ensures Valid()
      ensures first.Err? ==> r.Err? && r.error == first.error
      ensures first.Err? ==> cursors.docs == between && client.calls == old(client.calls) + invoiceCalls
      ensures first.Err? ==> purchaseOrders.docs == old(purchaseOrders.docs)
      ensures first.Ok? ==> client.calls == old(client.calls) + invoiceCalls + poCalls
      ensures first.Ok? ==>
        NightlyOutcome(PurchaseOrders, FullRefresh(fullRefreshEnv), between, cursors.docs,
          poCalls, old(purchaseOrders.docs), purchaseOrders.docs, purchaseOrders.refused, now, second)
      ensures first.Ok? && second.Err? ==> r.Err? && r.error == second.error
      ensures first.Ok? && second.Ok? ==> r.Ok? && r.value == (first.value, second.value)
      ensures NightlyOutcome(Invoices, FullRefresh(fullRefreshEnv), old(cursors.docs), between,
        invoiceCalls, old(invoices.docs), invoices.docs, invoices.refused, now, first)
    {
      var a := NightlyModule(Invoices, now);
      first, second := a, a;
      poCalls := [];
      invoiceCalls := client.calls[|old(client.calls)|..];
      between := cursors.docs;
      assert client.calls == old(client.calls) + invoiceCalls;
      if a.Err? {
        return Err(a.error), first, second, invoiceCalls, poCalls, between;
      }
      ghost var mid := client.calls;
      var b := NightlyModule(PurchaseOrders, now);
      second := b;
      poCalls := client.calls[|mid|..];
      assert client.calls == mid + poCalls;
      if b.Err? {
        return Err(b.error), first, second, invoiceCalls, poCalls, between;
      }
      r := Ok((a.value, b.value));
    }

    /** `backfillAllInvoices` / `backfillAllPOs`: the whole module, walked
        with no date window and upserted. No cursor is read or written: no
        lock is taken and `lastSyncAt` does not advance. */
    method BackfillModule(b: Books, now: int) returns (r: Result<BackfillReport, SyncError>)
      requires Valid()
      modifies client, client.tokens, client.tokens.endpoint, client.server, StoreOf(b)
      ensures Valid()
      ensures old(client.calls) <= client.calls
      ensures BackfillOutcome(b, client.calls[|old(client.calls)|..], old(StoreOf(b).docs), StoreOf(b).docs,
        StoreOf(b).refused, now, r)
      ensures cursors.docs == old(cursors.docs)
    {
      var stored := FetchAndStore(b, map[], now);
      if stored.Err? {
        return Err(stored.error);
      }
      r := Ok(BackfillReport(Name(b), stored.value.fetched, stored.value.upserted));
    }

    /** `backfillAll`: invoices, then purchase orders, with the same
        sequencing as the nightly run; an invoice failure is rethrown before
        any purchase-order request. */
    method BackfillAll(now: int) returns (r: Result<(BackfillReport, BackfillReport), SyncError>,
      ghost first: Result<BackfillReport, SyncError>, ghost second: Result<BackfillReport, SyncError>,
      ghost invoiceCalls: seq<Call>, ghost poCalls: seq<Call>)
      requires Valid()
      modifies client, client.tokens, client.tokens.endpoint, client.server, invoices, purchaseOrders
      ensures Valid()
      ensures cursors.docs == old(cursors.docs)
      ensures first.Err? ==> r.Err? && r.error == first.error
      ensures first.Err? ==> client.calls == old(client.calls) + invoiceCalls && purchaseOrders.docs == old(purchaseOrders.docs)
      ensures first.Ok? ==> client.calls == old(client.calls) + invoiceCalls + poCalls
      ensures first.Ok? ==>
        BackfillOutcome(PurchaseOrders, poCalls, old(purchaseOrders.docs), purchaseOrders.docs,
          purchaseOrders.refused, now, second)
      ensures first.Ok? && second.Err? ==> r.Err? && r.error == second.error
      ensures first.Ok? && second.Ok? ==> r.Ok? && r.value == (first.value, second.value)
      ensures BackfillOutcome(Invoices, invoiceCalls, old(invoices.docs), invoices.docs, invoices.refused, now, first)
    {
      var a := BackfillModule(Invoices, now);
      first, second := a, a;
      poCalls := [];
      invoiceCalls := client.calls[|old(client.calls)|..];
      assert client.calls == old(client.calls) + invoiceCalls;
      if a.Err? {
        return Err(a.error), first, second, invoiceCalls, poCalls;
      }
      ghost var mid := client.calls;
      var b := BackfillModule(PurchaseOrders, now);
      second := b;
      poCalls := client.calls[|mid|..];
      assert client.calls == mid + poCalls;
      if b.Err? {
        return Err(b.error), first, second, invoiceCalls, poCalls;
      }
      r := Ok((a.value, b.value));
    }
  }
}
