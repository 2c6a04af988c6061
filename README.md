# Zoho Books mirror: a Dafny model

This project models the Zoho Books mirroring engine of the repository. The
engine keeps a local copy of the invoices and purchase orders held by the
Zoho Books API. It also models the pure request helpers around it: the sales
report, the dashboard, the invoice and purchase-order read endpoints, sales
authentication, sales-member administration and the product validator.

The engine is modelled leaf first:

- **Token cache** (`Tokens`). `TokenManager` holds `accessToken`,
  `expiryTs` and the pending refresh. A refresh is split into two steps, begin
  and settle, so that callers who join a pending refresh share one POST to the
  token endpoint.
- **API client** (`ZohoApi`). `ApiClient.Dispatch` runs the request
  interceptor, which attaches the auth and organisation headers. It then runs
  the response interceptor, which refreshes and retries once on a 401.
- **Books server** (`ZohoApi.BooksServer`). It answers each request with the
  next reply from a script.
- **Page walker** (`PageWalker`). `FetchAllPages` is the loop. It is proved
  against `Walk`, a function that states what a walk yields for a given
  sequence of replies.
- **Bulk upsert** (`Upsert`). `Collection.BulkWrite` stamps `updatedAt` and `createdAt` as the schemas' `timestamps` option does, and updates a keyed map in
  place. It is proved against the functions `ApplyOps` and `Tally`.
- **Sync cursor and lock** (`Cursors`). The cursor is a datatype with its
  defaults. The lock is split into its read and write steps, so that two
  acquisitions can be interleaved.
- **Nightly sync and backfill** (`BooksSync`). `SyncEngine` sequences walk,
  upsert and cursor updates.

The pure helpers are functions with lemmas. `Values` holds the JSON values
and text helpers, and `Conversions` holds JavaScript's `String(v)` and
`Number(v)` and the error a handler passes to `next`. Where the source updates objects
in place, it is modelled with classes:

- `MemberDoc` is the member document edited field by field;
- `SalesMemberStore` is the member collection;
- `PlainObject` stands for `sanitizeSalesMember` deleting the password in place;
- `Request` stands for `req.user`;
- `RequestBody` stands for `preprocessProductBody`.

Inputs from outside the program are modelled as follows:

- The clock is an integer parameter `now` in milliseconds.
- The HTTP API and the token endpoint are scripted reply sequences.
- MongoDB collections are maps or sequences.
- bcrypt's comparison is the function parameter `matches`, and password
  hashing is the function parameter `hash`.
- `jwt.verify` is the function parameter `verify`.
- Numbers are integers.

Four behaviours of the code worth noting:

- `$set` merges the record into the stored document; it does not replace it.
- An unordered bulk write with a refused operation still applies the other
  operations, and then fails the whole call.
- `runNightlyBooksSync` does not isolate module failures: an invoice failure
  means purchase orders are never synced.
- Backfill takes no lock and never advances `lastSyncAt`. The lock is a read
  followed by writes, and `Cursors.InterleavedCreatesDuplicate` shows two
  runs that both acquire it.

## Model

| member | source | states |
|---|---|---|
| Tokens.GrantExpiresOnSchedule | src/services/tokenManager.js:32-34 | a token granted at `now` with `expires_in` s (3600 s when missing or 0) is expiring at time `later` exactly when `later` is at least its expiry minus the 60 s skew of `isExpiring` (lines 11-13) |
| Tokens.FreshGrantNotExpiring | src/services/tokenManager.js:11-13 | a token granted at `now` is not treated as expiring until 60 s before its expiry |
| Tokens.ExpiringIsStable | src/services/tokenManager.js:11-13 | once a token is expiring it stays expiring as time advances |
| Tokens.OAuthEndpoint.Post | src/services/tokenManager.js:27-29 | each POST is counted and answered with the next scripted reply |
| Tokens.TokenManager.BeginRefresh | src/services/tokenManager.js:16-18 | with a refresh pending, a caller joins it and no POST is sent; otherwise exactly one POST is sent and becomes the pending refresh |
| Tokens.TokenManager.SettleRefresh | src/services/tokenManager.js:32-46 | settling hands every joined caller the same result and clears the pending refresh; a grant stores the token with expiry `now + lifetime`, and a failure leaves token and expiry unchanged and reports the error |
| Tokens.TokenManager.RefreshAccessToken | src/services/tokenManager.js:15-47 | a refresh sends a POST only when none is pending; it stores the granted token and expiry, or leaves both unchanged on failure; afterwards nothing is pending |
| Tokens.TokenManager.GetAccessToken | src/services/tokenManager.js:49-54 | a token that is not expiring is returned with no state change and no POST; an expiring one triggers a refresh whose outcome is returned; a returned token is the cached one |
| Tokens.ConcurrentRefresh | src/services/tokenManager.js:16-46 | n ≥ 1 concurrent refresh calls send exactly one POST, all n receive its result, and nothing is pending afterwards; a grant stores the token and its expiry `now + lifetime`, and a failure leaves token and expiry unchanged |
| ZohoApi.WithAuth | src/services/zohoApi.js:16-23 | the outgoing request has `Authorization = "Zoho-oauthtoken " + token`; it has the organisation header exactly when an org id is configured; all other headers, the path, the params and the retry flag are unchanged |
| ZohoApi.OnReply | src/services/zohoApi.js:26-39 | the response interceptor refreshes and retries exactly on a 401 to a request not yet retried; success passes through unchanged; every other error, including a timeout, is rethrown |
| ZohoApi.ApiClient.Dispatch | src/services/zohoApi.js:16-39 | a call sends at most two requests, the second only after a 401 on the first, a forced refresh and with `__retried` set; a request already retried sends at most one; every request carries the headers the interceptor attaches; the result is the last reply's, and the last request carried the token held at the end |
| ZohoApi.ApiClient.Get | src/services/zohoHelpers.js:40-48 | `zohoGet` records the call and its outcome in the ghost call log; a success is the last reply's body, unchanged, and errors propagate |
| PageWalker.PageParamsKeepBase | src/services/zohoHelpers.js:58 | the page request is the base params plus `page` and `per_page = 200`, which override same-named base keys |
| PageWalker.WalkStopsAtFirstFalsyMore | src/services/zohoHelpers.js:57-66 | with `has_more_page` true on pages 1..k and falsy on page k+1, the walk makes exactly k+1 requests and returns the in-order concatenation of their items and the last `page_context` |
| PageWalker.WalkAbortsOnError | src/services/zohoHelpers.js:40-48 | an error on any page ends the walk with that error and no item list |
| PageWalker.ItemCountIsSum | src/services/zohoHelpers.js:59-60 | the number of items returned is the sum of the per-page item counts |
| PageWalker.FetchAllPages | src/services/zohoHelpers.js:51-67 | the loop requests pages 1, 2, 3, … in order (the same loop as src/controllers/zohoController.js:189-206) and returns exactly what `Walk` yields for the replies received |
| Upsert.BuildOps | src/services/upsertBooks.js:6-12 | one operation per record, keyed on the record's natural key, whose `$set` is all of the record's fields plus `fetchedAt = now`, with nothing set on insert yet |
| Upsert.SentStamps | src/models/Invoice.js:11 | with `timestamps: true` each operation sent sets `updatedAt = now`, never sets `createdAt`, and sets `createdAt = now` only on insert (as src/models/PurchaseOrder.js:10) |
| Upsert.AlreadyHoldsIffUnchanged | src/services/upsertBooks.js:16 | an update counts as not modified exactly when merging it leaves the document as it was |
| Upsert.ApplyAt | src/services/upsertBooks.js:14 | after a batch, a key is stored iff it was stored before or an accepted operation targeted it; its document is the stored one (or, for a new key, the key field and the first accepted insert's `$setOnInsert`) merged with the accepted updates |
| Upsert.UntouchedKeysUnchanged | src/services/upsertBooks.js:8 | documents whose key is not in the batch are unchanged |
| Upsert.LastUpdateWins | src/services/upsertBooks.js:14 | the fields of the last accepted operation on a key are those that end up stored |
| Upsert.RecordStored | src/services/upsertBooks.js:6-14 | after an accepted upsert, the key holds every field of the record other than the clock fields, and `fetchedAt = updatedAt = now` |
| Upsert.CreatedAtOnce | src/models/Invoice.js:11 | a key the batch inserts gets `createdAt = now`; a stored document keeps its `createdAt`, or its lack of one (as src/models/PurchaseOrder.js:10) |
| Upsert.OldFieldsSurvive | src/services/upsertBooks.js:9 | `$set` merges: stored fields that no accepted update mentions survive |
| Upsert.BatchIdempotent | src/services/upsertBooks.js:14 | applying the same operations twice stores the same as applying them once |
| Upsert.ReapplyChangesOnlyClockFields | src/services/upsertBooks.js:8-10 | re-upserting the same records later changes no key and, in each document, no field except `fetchedAt` and `updatedAt`; `createdAt` stays |
| Upsert.TallyBounded | src/services/upsertBooks.js:16 | inserted + modified + failed never exceeds the number of operations |
| Upsert.TallyFailsIffRefused | src/services/upsertBooks.js:14 | the batch reports failures exactly when some operation was refused |
| Upsert.StepCases | src/services/upsertBooks.js:7-11 | a refused operation changes nothing and counts one failure; an existing key is merged and counted as modified unless already current; a new key is inserted with its key field, its `$setOnInsert` and its `$set` |
| Upsert.ApplyKeepsKeys | src/services/upsertBooks.js:8 | every stored document keeps its key field equal to its map key |
| Upsert.Collection.WriteOne | src/services/upsertBooks.js:7-11 | one operation changes the collection as `Step` says and returns its counts |
| Upsert.Collection.BulkWrite | src/services/upsertBooks.js:14 | the unordered write stamps the timestamps into every operation and applies every accepted one in order, as `ApplyOps` says, returning `Tally`'s counts |
| Upsert.Collection.BulkUpsert | src/services/upsertBooks.js:4-17 | an empty batch returns 0 with no write; otherwise one bulk write; success reports inserted + modified, which is at most the number of records; any refused operation makes the call fail after the others are applied |
| Cursors.FirstAcquireCreates | src/services/zohoBooksSync.js:18-24 | with no cursor for the module, acquiring appends one cursor with source "zoho-books", the module, no `lastSyncAt`, `running = true` and no `lastError` (the defaults of src/models/SyncCursor.js:5-9 then the lock's writes), and succeeds on it |
| Cursors.FindFirst | src/services/zohoBooksSync.js:18 | `findOne` returns the first cursor of the module, or none when no cursor has it |
| Cursors.AcquireOutcome | src/services/zohoBooksSync.js:17-24 | the lock fails with "<module> sync already running" and changes nothing exactly when the module's first cursor is running; otherwise it creates the cursor when missing, and sets `running` and clears `lastError` on that cursor only |
| Cursors.SequentialAcquireExcludes | src/services/zohoBooksSync.js:20 | a second acquisition run after a successful one fails and changes nothing |
| Cursors.ReleaseOutcome | src/services/zohoBooksSync.js:26-36 | after release `running` is false; success sets `lastSyncAt = now`; failure records the message and keeps the previous `lastSyncAt`; the lock can be taken again |
| Cursors.InterleavedReadsBothAcquire | src/services/zohoBooksSync.js:18-24 | when two runs read an idle cursor before either saves, both acquire the same cursor |
| Cursors.InterleavedCreatesDuplicate | src/services/zohoBooksSync.js:18-19 | when two runs find no cursor, both create one, and the module then has two running cursors |
| Cursors.CursorCollection.Acquire | src/services/zohoBooksSync.js:17-24 | acquisition updates the stored cursors as `AcquireSpec` says |
| Cursors.CursorCollection.Release | src/services/zohoBooksSync.js:26-36 | release updates the stored cursors as `ReleaseSpec` says |
| BooksSync.DeltaWindowCovers | src/services/zohoBooksSync.js:9-15 | the window ends today; it covers every day from one day before `lastSyncAt` up to today, or the last 90 days when there is no `lastSyncAt` |
| BooksSync.ErrorMessage | src/services/zohoBooksSync.js:31 | the message recorded in `lastError` is never empty |
| BooksSync.SyncEngine.FetchAndStore | src/services/zohoBooksSync.js:42-43 | walks the module and upserts exactly the walked items into the module's collection; a walk error means no write |
| BooksSync.SyncEngine.NightlyModule | src/services/zohoBooksSync.js:39-55 | under the lock: full-refresh mode sends `{}` and reports "full", delta mode sends the window and reports "delta"; `fetched` is the item count; the cursor is released with `lastSyncAt = now` only on success; a held lock means no call and no write |
| BooksSync.SyncEngine.RunNightly | src/services/zohoBooksSync.js:57-61 | invoices run first; if they fail, the error is returned and purchase orders are never attempted; otherwise purchase orders follow and both reports are returned |
| BooksSync.SyncEngine.BackfillModule | src/services/zohoBooksBackfillAll.js:4-14 | walks the module with empty params, upserts exactly the walked items, reports `totalFetched` as their count, and leaves the cursors untouched |
| BooksSync.SyncEngine.BackfillAll | src/services/zohoBooksBackfillAll.js:16-20 | invoices before purchase orders; an invoice failure prevents the purchase-order backfill; the cursors are never touched |
| Dashboard.PreviousDay | src/controllers/zohoController.js:283 | the day before a valid date is a valid date, earlier, with no valid date in between |
| Dashboard.FiscalYearContainsToday | src/controllers/zohoController.js:280-283 | the default range runs from April 1 to the following March 31, it contains today, and it is the only such year that does |
| Dashboard.RangeOverridesIndependent | src/controllers/zohoController.js:285-289 | an explicit start and an explicit end each override their default independently; with neither, the range is the financial year |
| Dashboard.RealizedBounds | src/controllers/zohoController.js:247 | a month's realized sum is never negative, and for non-negative amounts it never exceeds the billed sum |
| Dashboard.Insert | src/controllers/zohoController.js:252 | inserting a bucket into an ascending list keeps it strictly ascending by month and adds exactly that bucket |
| Dashboard.SortByMonth | src/controllers/zohoController.js:252 | the buckets, sorted strictly ascending by month, with the same elements |
| Dashboard.EmptyMonth | src/controllers/zohoController.js:244 | a month with no dated invoice sums to zero billed and zero realized |
| Dashboard.SortedGroups | src/controllers/zohoController.js:242-252 | the buckets built have distinct months; sorted, they cover exactly the months of the dated invoices, each with that month's billed and realized sums |
| Dashboard.GroupMonthly | src/controllers/zohoController.js:241-253 | the output is ascending by month, has one bucket per distinct month of a dated invoice, and each bucket holds that month's billed and realized sums |
| Dashboard.TargetAchieved | src/controllers/zohoController.js:316 | the status is null iff the target is not positive, and true iff the target is positive and reached |
| Dashboard.TargetStatus | src/controllers/zohoController.js:313-316 | for every query target, configured target, metric and totals: the effective target is the query's when given (0 included, as `??` only skips `undefined`), else the configured one, else 1000000; the status is null iff that target is not positive, and otherwise whether the tracked total (billed for metric "billed", realized for any other) reaches it; a given query target makes the configured one irrelevant |
| Dashboard.InvoiceRowShape | src/controllers/zohoController.js:211-221 | an invoice row has exactly the listed fields the record has, each copied; a field the record lacks is absent from the row, as `undefined` is dropped by the JSON response; a record with every listed field gives a row with exactly those fields |
| Dashboard.PoRowShape | src/controllers/zohoController.js:224-234 | a purchase-order row has exactly the listed fields the record has, each copied, and all of them when the record has them all |
| Dashboard.RowDependsOnlyOnListedFields | src/controllers/zohoController.js:211-234 | two records that have the same listed fields, with the same values, map to the same row |
| SalesReport.EscapeRegexRoundTrip | src/controllers/salesController.js:9 | the escaped text is a literal pattern that unescapes back to the input, and text without special characters is unchanged |
| SalesReport.SplitJoinRoundTrip | src/controllers/salesController.js:81 | splitting words joined by single spaces on whitespace runs gives the words back |
| SalesReport.SplitGivesWords | src/controllers/salesController.js:81 | splitting trimmed text gives non-empty words without whitespace |
| SalesReport.EscapeAll | src/controllers/salesController.js:81 | every word is escaped, in order |
| SalesReport.NameRegexIgnoresSpacing | src/controllers/salesController.js:80-83 | names that differ only in the amount of whitespace between words, or around them, give the same pattern |
| SalesReport.PrefixMeaning | src/controllers/salesController.js:26-30 | a prefix exists iff the year is not 0 and the month is within 1..12; it is the year, "-" and the two-digit month; the window runs from the 1st of the month to the 1st of the next month, with December rolling over to January; years 0..99 map to 1900..1999 |
| SalesReport.ParseNeedsShape | src/controllers/salesController.js:16-47 | only a string that trims to "DD-MM-YYYY" or "YYYY-MM-DD" can parse |
| SalesReport.ParseYmdRoundTrip | src/controllers/salesController.js:33-44 | "YYYY-MM-DD" parses to the prefix of its year and month |
| SalesReport.ParseDmyRoundTrip | src/controllers/salesController.js:20-31 | "DD-MM-YYYY" parses to the prefix of its year and month |
| SalesReport.TwoDigitsIsPad2 | src/controllers/salesController.js:27 | the two-digit month text is `padStart(2, "0")` of the month |
| SalesReport.FourDigitsOfLargeYear | src/controllers/salesController.js:30 | for a four-digit year, the year text in the prefix is the year's decimal text |
| SalesReport.DatePrefixIsIsoPrefix | src/controllers/salesController.js:33-44 | for a four-digit year, the date prefix of "YYYY-MM-DD" is its first seven characters |
| SalesReport.ParseIgnoresDay | src/controllers/salesController.js:21-23 | two dates of the same shape that differ only in the day digits parse identically |
| SalesReport.ValidateParamsErrors | src/controllers/salesController.js:56-67 | a blank date gives 400 "Missing/invalid query param(s): date", and an unparseable one gives a different 400 |
| SalesReport.ValidateParamsAccepts | src/controllers/salesController.js:50-74 | an accepted query carries the parsed date; `isAll` holds iff the salesperson is null, iff the trimmed name is "", "all" or "*" in any case; otherwise the salesperson is the trimmed name |
| SalesReport.PersonNameFirst | src/controllers/salesController.js:52 | when `personName` is given, `salesperson` is ignored |
| SalesReport.AllNameMeaning | src/controllers/salesController.js:70 | a trimmed name means all salespeople exactly when it is "", "*" or "all" in any mix of case |
| SalesReport.ClampsInRange | src/controllers/salesController.js:625-626 | page ≥ 1 and 1 ≤ limit ≤ cap; a valid value is kept, a value above the cap is capped, and a missing, unparseable or zero value gives page 1 and limit 25 |
| SalesReport.PoLimitAlias | src/controllers/salesController.js:804 | `per_page` stands in for a missing `limit`; an unparseable limit gives 25 |
| SalesReport.PagesCoverItems | src/controllers/salesController.js:705-706 | `pages = max(1, ⌈total/limit⌉)` pages cover all items with no empty trailing page; skip advances by one limit per page and starts at 0 |
| SalesReport.BuildFacetNegativeSkip | src/controllers/salesController.js:133-134 | as written, page 2 with limit -5 skips -5 documents while returning 1 per page |
| SalesReport.BuildFacetTiles | src/controllers/salesController.js:132-134 | with the skip computed from the same limit as the page size, the skip is never negative, consecutive pages tile, the default size is 10, and the result agrees with the code whenever the limit is not negative |
| InvoicePoRead.ReadClamps | src/controllers/invoicePoRead.js:7-8 | text `parseInt` cannot read makes the page or the limit NaN, as `Math.max` and `Math.min` pass NaN on; otherwise the page is `max(page, 1)` defaulting to 1, and the limit is clamped to [1, 200] defaulting to 25, with 0 or a negative value raised to 1 |
| InvoicePoRead.SearchFilterChoice | src/controllers/invoicePoRead.js:9-13 | a blank search matches everything; otherwise the filter matches the trimmed search on the two listed fields, number and counterparty |
| InvoicePoRead.SkipNext | src/controllers/invoicePoRead.js:16 | each page starts one limit after the previous one |
| InvoicePoRead.PageSlice | src/controllers/invoicePoRead.js:16 | a page holds at most `limit` rows |
| InvoicePoRead.PageWindow | src/controllers/invoicePoRead.js:16 | page p holds the rows from `(p-1)·limit` on, in order; it is non-empty iff p ≤ `⌈total/limit⌉` |
| InvoicePoRead.PagesPartitionRows | src/controllers/invoicePoRead.js:16-20 | pages 1..`⌈total/limit⌉` concatenate to exactly the rows; there are 0 pages iff there are no rows; the last page is non-empty and the page after it is empty |
| InvoicePoRead.ListResponseConsistent | src/controllers/invoicePoRead.js:5-20 | there is a response exactly when page and limit are readable; it reports the row count as total and the page and limit `ReadClamps` gives (page ≥ 1, limit within [1, 200]); it holds at most limit items, has items iff page ≤ pages, and each item is the row at its offset |
| Values.TrimSpec | src/controllers/invoicePoRead.js:9 | `trim` removes leading and trailing whitespace only, and gives "" iff the text is all whitespace |
| Values.TrimIdempotent | src/controllers/salesController.js:52 | trimming twice is trimming once |
| Values.LowerTrimCommute | src/models/SalesMember.js:18-19 | lower-casing and trimming commute, so the order in which the two setters run does not matter |
| Values.Lower | src/controllers/salesMemberController.js:59 | lower-casing keeps the length and lower-cases each character |
| Values.NatToStringRoundTrip | src/controllers/salesController.js:30 | a number's decimal text reads back as the number |
| Values.Pad2RoundTrip | src/controllers/salesController.js:27 | the two-digit padding of a number below 100 reads back as the number |
| Values.CeilDivBounds | src/controllers/invoicePoRead.js:20 | `⌈total/limit⌉` pages of `limit` cover `total`, one fewer page does not, and it is 0 iff total is 0 |
| Conversions.NumberOfTextMeaning | src/controllers/salesMemberController.js:122-123 | `Number(text)` ignores surrounding whitespace, reads blank text as 0, and is NaN exactly when the trimmed text has a character that is neither a digit nor a leading sign |
| Conversions.NumberOfTextRoundTrip | src/controllers/salesMemberController.js:162-163 | `Number` reads back the decimal text of any integer, negative ones included |
| Conversions.JsNumberMeaning | src/controllers/salesMemberController.js:122-123 | `Number(v)` is `Number(String(v))` except for null (0) and the booleans (1 and 0); a number, its text and a one-element array of it read as the number, and an empty array as 0 |
| SalesMembers.CastNumber | src/models/SalesMember.js:37-46 | Mongoose's number cast gives null exactly for null and `''`, refuses arrays and objects, and otherwise reads the value as `Number` does |
| SalesMembers.CastString | src/models/SalesMember.js:31-36 | Mongoose's string cast keeps a string, gives the text of a number or boolean, takes a non-empty string `_id` from an object, and refuses arrays, other objects and null |
| SalesMembers.AsRecord | src/models/SalesMember.js:6-59 | the stored document has `_id` and `isAdmin`, and holds `password` exactly when selected with `+password` |
| SalesMembers.Save | src/models/SalesMember.js:6-75 | a successful save yields a member that satisfies the schema, with the given id, and whose name, email and phone no other member has |
| SalesMembers.SaveKeepsDraft | src/models/SalesMember.js:62-75 | save stores the draft's fields, hashing the password only when it was changed |
| SalesMembers.ToPublic | src/controllers/salesMemberController.js:4-29 | null for no document; otherwise exactly the nine public fields the document has, copied, never `password` or `isAdmin` |
| SalesMembers.ToPublicOfMember | src/controllers/salesMemberController.js:4-29 | a stored member's public view has all nine public fields, with its email and phone |
| SalesMembers.CreateValidationOrder | src/controllers/salesMemberController.js:47-51 | create checks name, email, phone and password length ≥ 6 in that order, and each 400 occurs exactly when the earlier checks pass and its own fails |
| SalesMembers.CreateNormalises | src/controllers/salesMemberController.js:57-65 | a created member has the trimmed name, lower-cased trimmed email and trimmed phone; its password casts to a string and is stored hashed, a string, number or boolean password being hashed as its text; `isActive` is `!!isActive`, defaulting to true; `isAdmin` is false; both timestamps are `now` |
| SalesMembers.CreateNumbers | src/controllers/salesMemberController.js:62-63 | a created member's top line and target are null when missing (the defaults of lines 41-42), null or `''`, and the given number when a number is given |
| SalesMembers.CreateConflict | src/controllers/salesMemberController.js:54-55 | past the 400 checks, create answers 409 exactly when a member already has the lower-cased trimmed email or the trimmed phone |
| SalesMembers.CreateCastFailures | src/models/SalesMember.js:31-46 | past the lookup, an array password, an object password without `_id`, or an array or object top line or target fails the create with a 500 |
| SalesMembers.CreateKeepsConsistent | src/controllers/salesMemberController.js:57-65 | adding the created member keeps the collection well formed, with unique ids, names, emails and phones |
| SalesMembers.LookupEmailIsStored | src/models/SalesMember.js:18-19 | the lookup's email, after the schema's lowercase and trim setters run on the query (src/controllers/salesMemberController.js:54), is exactly the email stored at line 59, and the setters leave a stored email unchanged |
| SalesMembers.CreateLookupMatchesIndexes | src/controllers/salesMemberController.js:54-65 | when the lookup finds nothing, the create succeeds, or fails validation, or fails on the unique index only because another member has the same trimmed name |
| SalesMembers.IndexOfId | src/controllers/salesMemberController.js:106 | `findById` finds the member with the id, or reports that none has it |
| SalesMembers.UpdateUnknownId | src/controllers/salesMemberController.js:106-107 | update gives 404 exactly when no member has the id |
| SalesMembers.UpdateKeepsIdentity | src/controllers/salesMemberController.js:106-139 | an update keeps the id, `createdAt` and `isAdmin`, and sets `updatedAt = now` |
| SalesMembers.UpdateKeepsUndefinedFields | src/controllers/salesMemberController.js:110-134 | fields the body leaves undefined (or falsy, for email, phone and password) keep their current values |
| SalesMembers.UpdateNumberRules | src/controllers/salesMemberController.js:122-123 | `''` target or top line becomes null, null becomes 0, and any other number is stored as `Number(value)` |
| SalesMembers.UpdateShortPasswordRefused | src/controllers/salesMemberController.js:130-139 | a new password shorter than 6 always fails the update, with 400 once the email and phone checks pass, so nothing is saved |
| SalesMembers.UpdateEmailPhoneUnique | src/controllers/salesMemberController.js:110-119 | an updated email or phone is either the current one or the normalised new one, and no other member has it |
| SalesMembers.UpdateKeepsConsistent | src/controllers/salesMemberController.js:106-139 | replacing the member by its updated version keeps the collection consistent |
| SalesMembers.MemberDoc.MergeBody | src/controllers/salesMemberController.js:121-128 | name, target, top line and active flag are updated as `MergeFields` says |
| SalesMembers.MemberDoc.ChangeEmail | src/controllers/salesMemberController.js:110-114 | the email changes as `EmailStep` says, or the step's 409 is returned |
| SalesMembers.MemberDoc.ChangePhone | src/controllers/salesMemberController.js:115-119 | the phone changes as `PhoneStep` says, or the step's 409 is returned |
| SalesMembers.MemberDoc.ChangePassword | src/controllers/salesMemberController.js:130-134 | the password changes as `PasswordStep` says, or the step's 400 is returned |
| SalesMembers.SalesMemberStore.AddSalesMember | src/controllers/salesMemberController.js:34-74 | the response is `CreateOutcome`, with its 400s, 409, cast failures and save; on success the member is appended, otherwise nothing changes; the collection stays consistent |
| SalesMembers.SalesMemberStore.UpdateSalesMember | src/controllers/salesMemberController.js:93-146 | the response is `UpdateOutcome`; on success the member is replaced in place, otherwise nothing changes; the collection stays consistent |
| SalesMembers.ListPage | src/controllers/salesMemberController.js:162 | the page is NaN exactly when `Number(page)` is; otherwise it is at least 1, equal to `Number(page)` when that is at least 1 and 1 when below; a missing page reads as 1 (the default of line 154) |
| SalesMembers.ListLimit | src/controllers/salesMemberController.js:163 | the limit is NaN exactly when `Number(limit)` is; otherwise it lies in [1, 100], equal to `Number(limit)` when in range, 1 below and 100 above; a missing limit reads as 10 (the default of line 155) |
| SalesMembers.ListClamps | src/controllers/salesMemberController.js:153-163 | page and limit default to 1 and 10; the text of an integer n gives page `max(1, n)` and limit `max(1, min(100, n))`; text that `Number` cannot read gives NaN |
| SalesMembers.ActiveFilter | src/controllers/salesMemberController.js:174-176 | the filter is set only for the texts "true" and "false", and then it is true iff the text is "true" |
| SalesAuth.ParseExpiresRoundTrip | src/controllers/salesAuthController.js:18-26 | "<n>d", "<n>h" and "<n>m" give n·86400000, n·3600000 and n·60000 ms |
| SalesAuth.ParseExpiresDefault | src/controllers/salesAuthController.js:20-27 | any other text gives the 30-day default of 2592000000 ms; every result is a whole number of minutes; "30d" is the default |
| SalesAuth.WithoutPassword | src/controllers/salesAuthController.js:45 | the result has every field but `password`, with the same values |
| SalesAuth.SanitizeSalesMember | src/controllers/salesAuthController.js:42-47 | null for a missing document; a Mongoose document is copied without `password`; a plain object has `password` deleted in place and is returned |
| SalesAuth.LoginQueryChoice | src/controllers/salesAuthController.js:63-75 | there is no lookup exactly when phone, email and identifier are all unusable; a phone that trims to 10 digits is chosen first, then the trimmed, lower-cased email; phone lookups are 10 digits and email lookups are lower case and non-empty |
| SalesAuth.FindOne | src/controllers/salesAuthController.js:77 | the member found matches the query, and none is found iff no member matches |
| SalesAuth.LoginSales | src/controllers/salesAuthController.js:54-112 | the handler, reassigning its query through the branch chain, answers `LoginOutcome` |
| SalesAuth.LoginRefusals | src/controllers/salesAuthController.js:57-96 | missing password 400, no identifier 400, unknown user 401, inactive 403 before the password check, wrong password 401; success iff the password is a non-empty string, the user exists, is active and the password matches |
| SalesAuth.UnknownAndWrongPasswordAlike | src/controllers/salesAuthController.js:79-96 | an unknown user and a wrong password for an active user get the same 401 "Invalid credentials" |
| SalesAuth.LoginPayload | src/controllers/salesAuthController.js:98-107 | the token payload has `sub` = the member's id, `type = "sales"`, and role "admin" iff `isAdmin`, else "sales"; the returned user has no password |
| SalesAuth.UpToSpace | src/middlewares/salesAuth.js:8 | the text up to the first space, which contains no space |
| SalesAuth.RequireSalesAuth | src/middlewares/salesAuth.js:4-27 | the request is admitted iff `AuthOutcome` is Ok, and then `req.user` is the decoded payload; otherwise the error is returned and `req.user` is unchanged |
| SalesAuth.AuthRules | src/middlewares/salesAuth.js:4-27 | every failure is 401, including a wrong `type`, whose 403 the catch overwrites; the cookie wins over the header; no cookie and no Bearer header gives "Not authenticated"; admission iff a token is present, verifies and has type "sales" |
| SalesAuth.BearerSecondPart | src/middlewares/salesAuth.js:7-9 | with no cookie, "Bearer <t>" yields the token t |
| SalesAuth.RequireSalesRole | src/middlewares/salesAuth.js:29-36 | a refusal is always 403 |
| SalesAuth.RoleGate | src/middlewares/salesAuth.js:29-36 | the gate passes iff the user has a truthy role that is among the allowed roles; with no allowed roles it always refuses |
| SalesAuth.PayloadGates | src/middlewares/salesAuth.js:15-36 | a token that verifies to a member's payload is admitted; the admin gate passes iff the member is an admin, and the sales-or-admin gate always passes |
| SalesAuth.LoginThenGate | src/controllers/salesAuthController.js:98-100 | the token a successful login signs gets through `requireSalesAuth`, through the admin gate iff the member is an admin, and always through the sales-or-admin gate |
| ProductValidator.LicenseRuleCases | src/validators/productValidator.js:26-34 | a limited seats license without a positive integer seat count is rejected; a keys license whose pool is not an array is rejected; anything else passes unchanged |
| ProductValidator.LicenseDefaults | src/validators/productValidator.js:13-17 | the defaults only add missing fields and keep every given one |
| ProductValidator.KeysRuleAfterDefaults | src/validators/productValidator.js:13-34 | once the defaults are applied, an absent pool becomes an array, so the keys rule cannot fire for it, and an empty license passes |
| ProductValidator.StockRuleCases | src/validators/productValidator.js:64-68 | stock is required only for hardware, and a given stock that is a JSON number is accepted iff it is a non-negative integer; the default of 0 is Joi's validated value, which src/middlewares/validateRequest.js:3 discards, so it never reaches the body |
| ProductValidator.PriceCheckCases | src/validators/productValidator.js:96-103 | 400 exactly when both prices are numbers and srp > mrp; equal prices pass, and so does a missing price |
| ProductValidator.PreprocessRules | src/validators/productValidator.js:106-124 | the legacy fields are gone, an empty subcategory becomes null, a truthy `licenseMode` lands in `license.mode` (creating the license or keeping its other fields), and every other field is untouched |
| ProductValidator.PreprocessFails | src/validators/productValidator.js:108-111 | the cleanup throws only when a truthy `licenseMode` meets a license that is a string, a number or `true` |
| ProductValidator.PreprocessIdempotent | src/validators/productValidator.js:106-124 | cleaning an already cleaned body changes nothing |
| ProductValidator.RequestBody.Preprocess | src/validators/productValidator.js:106-124 | the body is edited in place into `Preprocessed`'s result, or left as it was when the cleanup throws |

## Left out

- HTTP and Express wiring, the cron trigger, scripts, S3 presigning, logging, and `zohoController.js`'s proxy handlers are out of scope. They are wiring and I/O.
- axios, the OAuth POST, MongoDB and Mongoose queries are replaced by scripted replies, maps and sequences. Network errors appear as scripted failures.
- Concurrency:
  - the shared `inflight` promise is two explicit steps, not proved over arbitrary interleavings;
  - the lock's interleavings are shown only for two processes;
  - `Promise.all` is not modelled.
- Floating-point money is not modelled. Amounts are integers, so `toFixed`, `round2`, `toAmount`, progress percentages, the PI rollups and `dashboardController.js` are left out.
- The aggregation pipelines of `salesController.js` (`buildDateNormalizationStage`, the `$facet`/`$group` stages) are database expressions. `buildFacet` is modelled only as the skip and limit numbers it computes.
- Joi's own field rules (types, patterns, bounds, conversion) are out of scope. So are the order and user validators and `validateRequest`.
- `ProductValidator.StockRule`: a stock given as numeric text such as "5" is refused, whereas `Joi.number()` would convert it and accept it; only JSON numbers are read as numbers.
- bcrypt and JWT are oracles: `matches`, `hash` and `verify`. `jwt.sign`, the cookie options and `logoutSales` are not modelled.
- `meSales`, `getSalesMemberById`, `updateSalesMemberStatus` and `deleteSalesMember` are single database calls around `toPublic` or `sanitizeSalesMember`, and are not modelled.
- The search regex and the sort of `listSalesMembers` are not modelled. Regular expressions are kept as pattern text, never matched.
- `toLowerCase` is modelled as ASCII lower-casing. JavaScript whitespace is the set in `Values.IsWs`.
- `Number` and `parseInt` read only optionally signed decimal integers. Fractions, hex, exponents and `Infinity` are not modelled.
- `BooksSync.DeltaParams`: dates are whole UTC days, not "YYYY-MM-DD" text in the server's local time zone, because dayjs formatting is not modelled.
- `Dashboard.GroupMonthly`: months are keyed by `year * 12 + month - 1`, not by "YYYY-MM" strings. The two orders agree for four-digit years.
- `Dashboard.RealizedBounds`: realized never exceeds billed only for non-negative amounts, because the source does not bound them.
- `Upsert.BuildOps`: `fetchedAt`, `updatedAt` and `createdAt` are the one clock reading `now`, not `Date` objects taken at slightly different instants.
- `ZohoApi.ApiClient.Dispatch`: a failed token refresh inside the request interceptor rejects the call. axios would instead route it through the response interceptor with the token POST's config.
- `SalesMembers.Save`: Mongoose's timestamps are reduced to `createdAt` on create and `updatedAt = now` on every save.
- `SalesMembers.Save`: the text of a validation or duplicate-key error is not modelled; `InternalCause` names the kind of 500.
- `SalesMembers.CreateOutcome`: when the email is not a string, creation fails with the `TypeFailure` cause, as calling a string method would.
- `SalesMembers.ListClamps`: `listSalesMembers` has no `|| 1` fallback, so a non-numeric page or limit stays NaN. The lemma states that rather than a clamp.
- `PageWalker.FetchAllPages`: the loop ends because the scripted replies run out; the source's `while (true)` could run forever against a server that always reports another page.
- `Cursors.Cursor` has no `createdAt` or `updatedAt`. The cursor schema's `timestamps: true` makes each `save()` in the lock and in its release also set `updatedAt` (and `createdAt` on the first save); the acquire and release contracts speak only of `running`, `lastError` and `lastSyncAt`.
- `BooksSync.ErrorMessage`: a refused bulk write records the fixed text "bulk write error", not the driver error's own `message`, which the model does not carry.
- `Upsert.Collection.BulkWrite`: the `ordered: false` batch is applied in list order; MongoDB does not promise an order, which matters only when two operations share a key.
- `BooksSync.AsRecord`: an item that is not an object becomes the empty record; the source would spread a string into indexed characters, and `null` would make `inv.invoice_id` throw.
- `InvoicePoRead.List`: with a NaN page or limit the source hands NaN to `.skip` and `.limit` and answers `page`, `limit` or `pages` as NaN; what the database does with a NaN skip or limit is not modelled, so `List` gives no response there.
- `InvoicePoRead`: a search text that is not a valid regular expression makes `new RegExp` throw, giving a 500; the model keeps the pattern text and does not model that failure.
- `SalesAuth.SanitizeSalesMember` keeps `isAdmin`, unlike `toPublic`. This follows the code.
- `ProductValidator.KeysRuleAfterDefaults`: a pool that is present but not an array is refused by Joi's own rule before the custom rule runs, which is not modelled.
- `ProductValidator.WithMode`: setting `mode` on an array license adds a property the JSON value cannot show, so the array is returned unchanged.

## Findings

| source | as written | input that shows it | evidently intended | confidence | as-written member | corrected member |
|---|---|---|---|---|---|---|
| src/controllers/salesController.js:133-134 | the skip multiplies by `Number(limit) \|\| 10`, but the page size is clamped by `Math.max(1, …)` | page=2, limit=-5: skip is -5 while the page size is 1 | the skip is computed from the same clamped page size, so it is never negative and consecutive pages tile | medium, not executed | SalesReport.BuildFacetAsWritten, SalesReport.BuildFacetNegativeSkip | SalesReport.BuildFacet, SalesReport.BuildFacetTiles |
