/** The pure parts of `getDashboard` in src/controllers/zohoController.js:
    the default date range (the Indian financial year, April 1 to March 31),
    the monthly series `groupMonthly`, the target status, and the two table
    row mappers.

    Dates are calendar triples, as dayjs would hold them once parsed. A month
    bucket is keyed by `year * 12 + (month - 1)`, which orders months exactly
    as the "YYYY-MM" strings of the source do for four-digit years. Amounts
    are integers. */
module Dashboard {
  import opened Values

  /** A calendar date; `month` runs 1..12. */
  datatype Date = Date(year: int, month: int, day: int)

  predicate LeapYear(y: int)
  {
    (y % 4 == 0 && y % 100 != 0) || y % 400 == 0
  }

  function DaysInMonth(y: int, m: int): int
    requires 1 <= m <= 12
  {
    if m == 2 then (if LeapYear(y) then 29 else 28)
    else if m == 4 || m == 6 || m == 9 || m == 11 then 30
    else 31
  }

  predicate ValidDate(d: Date)
  {
    1 <= d.month <= 12 && 1 <= d.day <= DaysInMonth(d.year, d.month)
  }

  /** Chronological order. */
  predicate DateLe(a: Date, b: Date)
  {
    a.year < b.year || (a.year == b.year && (a.month < b.month || (a.month == b.month && a.day <= b.day)))
  }

  predicate DateLt(a: Date, b: Date)
  {
    DateLe(a, b) && a != b
  }

  /** `subtract(1, 'day')`: the last valid date before `d`. */
  function PreviousDay(d: Date): (r: Date)
    requires ValidDate(d)
    ensures ValidDate(r) && DateLt(r, d)
    ensures forall x :: ValidDate(x) && DateLt(r, x) ==> DateLe(d, x)
  {
    if d.day > 1 then Date(d.year, d.month, d.day - 1)
    else if d.month > 1 then Date(d.year, d.month - 1, DaysInMonth(d.year, d.month - 1))
    else Date(d.year - 1, 12, 31)
  }

  /** The financial year starts in April (dayjs month index 3). */
  const FiscalStartMonth := 4

  /** April 1 of this year when today is in April or later, else April 1 of
      last year. */
  function FiscalYearStart(today: Date): Date
  {
    if today.month >= FiscalStartMonth then Date(today.year, FiscalStartMonth, 1) else Date(today.year - 1, FiscalStartMonth, 1)
  }

  /** `fyStart.add(1, 'year').subtract(1, 'day')`. */
  function FiscalYearEnd(today: Date): Date
  {
    var start := FiscalYearStart(today);
    PreviousDay(Date(start.year + 1, start.month, start.day))
  }

  /** The default range is the one financial year that contains today: it
      runs from an April 1 to the following March 31, today lies within it,
      and no other April-to-March year does. */
  lemma FiscalYearContainsToday(today: Date)
    requires ValidDate(today)
    ensures var s, e := FiscalYearStart(today), FiscalYearEnd(today);
      && s.month == 4 && s.day == 1 && e == Date(s.year + 1, 3, 31)
      && DateLe(s, today) && DateLe(today, e)
      && forall y :: DateLe(Date(y, 4, 1), today) && DateLe(today, Date(y + 1, 3, 31)) ==> y == s.year
  {
  }

  /** `start_date` and `end_date` each override their own default. */
  function DashboardRange(today: Date, startDate: Option<Date>, endDate: Option<Date>): (Date, Date)
  {
    (if startDate.Some? then startDate.value else FiscalYearStart(today),
     if endDate.Some? then endDate.value else FiscalYearEnd(today))
  }

  /** Either bound of the range depends only on its own parameter (and
      today); with neither given, the range is the current financial year. */
  lemma RangeOverridesIndependent(today: Date, s1: Option<Date>, s2: Option<Date>, e1: Option<Date>, e2: Option<Date>)
    ensures DashboardRange(today, s1, e1).0 == DashboardRange(today, s1, e2).0
    ensures DashboardRange(today, s1, e1).1 == DashboardRange(today, s2, e1).1
    ensures s1.Some? ==> DashboardRange(today, s1, e1).0 == s1.value
    ensures e1.Some? ==> DashboardRange(today, s1, e1).1 == e1.value
    ensures DashboardRange(today, None, None) == (FiscalYearStart(today), FiscalYearEnd(today))
  {
  }

  /** What `groupMonthly` reads of an invoice: its date (if any) and
      `Number(total || 0)`, `Number(balance || 0)`. */
  datatype InvoiceAmounts = InvoiceAmounts(date: Option<Date>, total: int, balance: int)

  /** One entry of the monthly series. */
  datatype Bucket = Bucket(month: int, billed: int, realized: int)

  /** The bucket key of a date, in the order of its "YYYY-MM" text. */
  function MonthKey(d: Date): int
  {
    d.year * 12 + (d.month - 1)
  }

  /** `Math.max(0, total - balance)`. */
  function Realized(inv: InvoiceAmounts): nat
  {
    if inv.total - inv.balance > 0 then inv.total - inv.balance else 0
  }

  predicate InMonth(inv: InvoiceAmounts, m: int)
  {
    inv.date.Some? && MonthKey(inv.date.value) == m
  }

  /** The billed sum of the dated invoices of month `m`. */
  function BilledIn(invs: seq<InvoiceAmounts>, m: int): int
  {
    if invs == [] then 0
    else BilledIn(invs[..|invs| - 1], m) + (if InMonth(invs[|invs| - 1], m) then invs[|invs| - 1].total else 0)
  }

  /** The realized sum of the dated invoices of month `m`. */
  function RealizedIn(invs: seq<InvoiceAmounts>, m: int): int
  {
    if invs == [] then 0
    else RealizedIn(invs[..|invs| - 1], m) + (if InMonth(invs[|invs| - 1], m) then Realized(invs[|invs| - 1]) else 0)
  }

  /** The months that have at least one dated invoice. */
  function DatedMonths(invs: seq<InvoiceAmounts>): set<int>
  {
    set inv | inv in invs && inv.date.Some? :: MonthKey(inv.date.value)
  }

  /** A month's realized sum is never negative, and it never exceeds the
      billed sum when no invoice of the month has a negative total or
      balance. */
  lemma {:induction false} RealizedBounds(invs: seq<InvoiceAmounts>, m: int)
    ensures RealizedIn(invs, m) >= 0
    ensures (forall i :: 0 <= i < |invs| && InMonth(invs[i], m) ==> invs[i].total >= 0 && invs[i].balance >= 0) ==>
      RealizedIn(invs, m) <= BilledIn(invs, m)
  {
    if invs != [] {
      var init := invs[..|invs| - 1];
      assert forall i :: 0 <= i < |init| ==> init[i] == invs[i];
      RealizedBounds(init, m);
    }
  }

  function MonthsOf(bs: seq<Bucket>): set<int>
  {
    set b | b in bs :: b.month
  }

  predicate StrictlyAscending(bs: seq<Bucket>)
  {
    forall i, j :: 0 <= i < j < |bs| ==> bs[i].month < bs[j].month
  }

  predicate DistinctMonths(bs: seq<Bucket>)
  {
    forall i, j :: 0 <= i < j < |bs| ==> bs[i].month != bs[j].month
  }

  /** Inserts `b` in front of the first bucket of a later month. */
  function Insert(b: Bucket, bs: seq<Bucket>): (r: seq<Bucket>)
    requires StrictlyAscending(bs) && b.month !in MonthsOf(bs)
    ensures StrictlyAscending(r)
    ensures forall x :: x in r <==> x == b || x in bs
  {
    if bs == [] || b.month < bs[0].month then [b] + bs
    else
      assert b.month !in MonthsOf(bs[1..]) by {
        assert forall x :: x in bs[1..] ==> x in bs;
      }
      var rest := Insert(b, bs[1..]);
      assert bs[0].month < b.month by {
        assert bs[0] in bs;
      }
      assert forall k :: 0 <= k < |rest| ==> bs[0].month < rest[k].month by {
        forall k | 0 <= k < |rest|
          ensures bs[0].month < rest[k].month
        {
          assert rest[k] in rest;
          if rest[k] != b {
            var j :| 0 <= j < |bs[1..]| && bs[1..][j] == rest[k];
            assert bs[j + 1] == rest[k];
          }
        }
      }
      [bs[0]] + rest
  }

  /** `.sort((a, b) => (a.month < b.month ? -1 : 1))` over buckets of
      distinct months. */
  function SortByMonth(bs: seq<Bucket>): (r: seq<Bucket>)
    requires DistinctMonths(bs)
    ensures StrictlyAscending(r)
    ensures forall x :: x in r <==> x in bs
  {
    if bs == [] then []
    else
      var rest := SortByMonth(bs[1..]);
      assert bs[0].month !in MonthsOf(rest) by {
        forall x | x in rest
          ensures x.month != bs[0].month
        {
          var k :| 0 <= k < |bs[1..]| && bs[1..][k] == x;
          assert bs[k + 1] == x;
        }
      }
      Insert(bs[0], rest)
  }

  /** A month without dated invoices sums to zero. */
  lemma {:induction false} EmptyMonth(invs: seq<InvoiceAmounts>, m: int)
    requires m !in DatedMonths(invs)
    ensures BilledIn(invs, m) == 0 && RealizedIn(invs, m) == 0
  {
    if invs != [] {
      var init := invs[..|invs| - 1];
      assert forall x :: x in init ==> x in invs;
      assert invs[|invs| - 1] in invs;
      EmptyMonth(init, m);
    }
  }

  lemma SumsStep(invs: seq<InvoiceAmounts>, i: nat, m: int)
    requires i < |invs|
    ensures BilledIn(invs[..i + 1], m) == BilledIn(invs[..i], m) + (if InMonth(invs[i], m) then invs[i].total else 0)
    ensures RealizedIn(invs[..i + 1], m) == RealizedIn(invs[..i], m) + (if InMonth(invs[i], m) then Realized(invs[i]) else 0)
    ensures DatedMonths(invs[..i + 1]) == DatedMonths(invs[..i]) + (if invs[i].date.Some? then {MonthKey(invs[i].date.value)} else {})
  {
    assert invs[..i + 1][..i] == invs[..i];
    assert invs[..i + 1] == invs[..i] + [invs[i]];
  }

  /** The state of `groupMonthly`'s loop after the invoices `invs`: one
      bucket per dated month, holding that month's sums, and `order` listing
      each bucket's month once, in the order of first appearance. */
  ghost predicate Grouped(buckets: map<int, Bucket>, order: seq<int>, invs: seq<InvoiceAmounts>)
  {
    && buckets.Keys == DatedMonths(invs)
    && (forall k :: 0 <= k < |order| ==> order[k] in buckets)
    && (forall m :: m in buckets ==> m in order)
    && (forall a, b :: 0 <= a < b < |order| ==> order[a] != order[b])
    && forall m :: m in buckets ==> buckets[m] == Bucket(m, BilledIn(invs, m), RealizedIn(invs, m))
  }

  /** `Object.values(buckets)` in insertion order. */
  function InsertionOrder(buckets: map<int, Bucket>, order: seq<int>): seq<Bucket>
    requires forall k :: 0 <= k < |order| ==> order[k] in buckets
  {
    seq(|order|, k requires 0 <= k < |order| => buckets[order[k]])
  }

  /** Sorting the grouped buckets gives the monthly series. */
  lemma SortedGroups(buckets: map<int, Bucket>, order: seq<int>, invs: seq<InvoiceAmounts>)
    requires Grouped(buckets, order, invs)
    ensures DistinctMonths(InsertionOrder(buckets, order))
    ensures var monthly := SortByMonth(InsertionOrder(buckets, order));
      && MonthsOf(monthly) == DatedMonths(invs)
      && forall b :: b in monthly ==> b.billed == BilledIn(invs, b.month) && b.realized == RealizedIn(invs, b.month)
  {
    var values := InsertionOrder(buckets, order);
    assert forall k :: 0 <= k < |values| ==> values[k].month == order[k];
    var monthly := SortByMonth(values);
    forall b | b in monthly
      ensures b.month in buckets && b == buckets[b.month]
    {
      var k :| 0 <= k < |values| && values[k] == b;
    }
    forall m | m in DatedMonths(invs)
      ensures m in MonthsOf(monthly)
    {
      var k :| 0 <= k < |order| && order[k] == m;
      assert values[k] in monthly;
    }
  }

  /** `groupMonthly`: one bucket per month that has a dated invoice, in
      ascending month order, holding that month's billed and realized sums;
      undated invoices are skipped. */
  method GroupMonthly(invoices: seq<InvoiceAmounts>) returns (monthly: seq<Bucket>)
    ensures StrictlyAscending(monthly)
    ensures MonthsOf(monthly) == DatedMonths(invoices)
    ensures forall b :: b in monthly ==> b.billed == BilledIn(invoices, b.month) && b.realized == RealizedIn(invoices, b.month)
  {
    var buckets: map<int, Bucket> := map[];
    var order: seq<int> := [];
    for i := 0 to |invoices|
      invariant Grouped(buckets, order, invoices[..i])
    {
      var inv := invoices[i];
      forall m {
        SumsStep(invoices, i, m);
      }
      if inv.date.None? {
        continue;
      }
      var month := MonthKey(inv.date.value);
      if month !in buckets {
        EmptyMonth(invoices[..i], month);
        buckets := buckets[month := Bucket(month, 0, 0)];
        order := order + [month];
      }
      var b := buckets[month];
      buckets := buckets[month := b.(billed := b.billed + inv.total, realized := b.realized + Realized(inv))];
    }
    assert invoices[..|invoices|] == invoices;
    SortedGroups(buckets, order, invoices);
    monthly := SortByMonth(InsertionOrder(buckets, order));
  }

  /** `Number(process.env.DASHBOARD_TARGET || 1000000)`. */
  const DefaultTarget := 1000000

  /** `Number((target ?? DASHBOARD_TARGET) || 0)`. */
  function TargetNumber(target: Option<int>, envTarget: Option<int>): int
  {
    if target.Some? then target.value else if envTarget.Some? then envTarget.value else DefaultTarget
  }

  /** The total the target is measured against: billed for metric
      "billed", realized for anything else. */
  function Tracked(metric: string, billed: int, realized: int): int
  {
    if metric == "billed" then billed else realized
  }

  /** `targetAchieved`: absent (null) unless the target is positive, and
      then whether the tracked total has reached it. */
  function TargetAchieved(tracked: int, target: int): (r: Option<bool>)
    ensures r.None? <==> target <= 0
    ensures r == Some(true) <==> target > 0 && tracked >= target
  {
    if target > 0 then Some(tracked >= target) else None
  }

  /** The status the handler returns, for every query: the effective target
      is the query's when one is given (even 0, since `??` falls back only
      on `undefined`), else the configured one, else 1000000; there is no
      status unless it is positive, and then it says whether the tracked
      total (billed for metric "billed", realized for any other metric) has
      reached it. */
  lemma TargetStatus(target: Option<int>, envTarget: Option<int>, metric: string, billed: int, realized: int)
    ensures var effective := if target.Some? then target.value
                             else if envTarget.Some? then envTarget.value else 1000000;
      var tracked := if metric == "billed" then billed else realized;
      var status := TargetAchieved(Tracked(metric, billed, realized), TargetNumber(target, envTarget));
      && (status.None? <==> effective <= 0)
      && (status.Some? ==> status.value == (tracked >= effective))
    ensures target == Some(0) ==> TargetAchieved(Tracked(metric, billed, realized), TargetNumber(target, envTarget)).None?
    ensures target.Some? ==> forall e :: TargetNumber(target, e) == TargetNumber(target, envTarget)
  {
  }

  const InvoiceRowFields := ["invoice_id", "invoice_number", "customer_name", "date", "status", "total", "balance", "currency_code"]
  const PoRowFields := ["purchaseorder_id", "purchaseorder_number", "vendor_name", "date", "status", "total", "currency_code"]

  /** An object literal copying `fields` of `r`, as `res.json` sends it: a
      field `r` lacks is `undefined` there and leaves the JSON. */
  function Row(fields: seq<string>, r: Record): Record
  {
    map f | f in fields && f in r :: r[f]
  }

  function MapInvoiceRow(inv: Record): Record
  {
    Row(InvoiceRowFields, inv)
  }

  function MapPoRow(po: Record): Record
  {
    Row(PoRowFields, po)
  }

  const InvoiceRowNames := {"invoice_id", "invoice_number", "customer_name", "date", "status", "total", "balance", "currency_code"}
  const PoRowNames := {"purchaseorder_id", "purchaseorder_number", "vendor_name", "date", "status", "total", "currency_code"}

  /** An invoice row carries those of the eight listed fields the invoice
      has, each with the invoice's value, and nothing else; an invoice
      holding every listed field gives exactly those names. */
  lemma InvoiceRowShape(inv: Record)
    ensures MapInvoiceRow(inv).Keys == inv.Keys * InvoiceRowNames
    ensures forall f :: f in MapInvoiceRow(inv) ==> MapInvoiceRow(inv)[f] == inv[f]
    ensures InvoiceRowNames <= inv.Keys ==> MapInvoiceRow(inv).Keys == InvoiceRowNames
  {
    assert forall f :: f in InvoiceRowFields <==> f in InvoiceRowNames;
  }

  /** A purchase-order row likewise carries those of the seven listed
      fields the order has, and nothing else; an order holding every listed
      field gives exactly those names. */
  lemma PoRowShape(po: Record)
    ensures MapPoRow(po).Keys == po.Keys * PoRowNames
    ensures forall f :: f in MapPoRow(po) ==> MapPoRow(po)[f] == po[f]
    ensures PoRowNames <= po.Keys ==> MapPoRow(po).Keys == PoRowNames
  {
    assert forall f :: f in PoRowFields <==> f in PoRowNames;
  }

  /** A row depends on no field of the document other than the listed
      ones. */
  lemma RowDependsOnlyOnListedFields(fields: seq<string>, a: Record, b: Record)
    requires forall f :: f in fields ==> (f in a <==> f in b) && (f in a ==> a[f] == b[f])
    ensures Row(fields, a) == Row(fields, b)
  {
  }
}
