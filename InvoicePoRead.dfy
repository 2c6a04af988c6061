/** The read endpoints of src/controllers/invoicePoRead.js: `listInvoices`
    and `listPOs` turn `page`, `limit` and `search` into a filter and a page
    window over the mirrored collection, and answer with the page and its
    counts.

    The database query is an oracle: `rows` are the documents the filter
    selects, already in the `date`-descending order the query asks for. A
    numeric parameter is a `QueryInt`: `Absent` when missing or empty
    (`|| "1"`), otherwise what `parseInt(text, 10)` made of it, NaN
    included, since no fallback follows the `parseInt`. */
module InvoicePoRead {
  import opened Values
  import opened Conversions

  const DefaultLimit := 25
  const MaxLimit := 200

  /** `Math.max(parseInt(page || "1", 10), 1)`: `Math.max` with NaN is NaN. */
  function ReadPage(page: QueryInt): Numeric
  {
    match page
    case Absent => Finite(1)
    case Given(None) => NaN
    case Given(Some(n)) => Finite(Max(n, 1))
  }

  /** `Math.min(Math.max(parseInt(limit || "25", 10), 1), 200)`. */
  function ReadLimit(limit: QueryInt): Numeric
  {
    match limit
    case Absent => Finite(DefaultLimit)
    case Given(None) => NaN
    case Given(Some(n)) => Finite(Min(Max(n, 1), MaxLimit))
  }

  /** Text that `parseInt` cannot read leaves the page or the limit NaN.
      Otherwise the page is at least 1 and the limit within [1, 200]; an
      in-range value is kept, a missing one is 1 and 25, and an explicit 0
      or negative value is raised to 1 rather than replaced by the default. */
  lemma ReadClamps(page: QueryInt, limit: QueryInt)
    ensures ReadPage(page).NaN? <==> page == Given(None)
    ensures ReadLimit(limit).NaN? <==> limit == Given(None)
    ensures !ReadPage(page).Blank? && !ReadLimit(limit).Blank?
    ensures ReadPage(page).Finite? ==> ReadPage(page).n >= 1
    ensures ReadLimit(limit).Finite? ==> 1 <= ReadLimit(limit).n <= 200
    ensures page.Absent? ==> ReadPage(page) == Finite(1)
    ensures limit.Absent? ==> ReadLimit(limit) == Finite(25)
    ensures page.Given? && page.parsed.Some? ==>
      var n := page.parsed.value;
      ReadPage(page) == Finite(if n >= 1 then n else 1)
    ensures limit.Given? && limit.parsed.Some? ==>
      var n := limit.parsed.value;
      ReadLimit(limit) == Finite(if n < 1 then 1 else if n > 200 then 200 else n)
  {
  }

  datatype Listing = Invoices | PurchaseOrders

  /** The fields the search is matched against: the document number and
      the counterparty's name. */
  function SearchFields(l: Listing): seq<string>
  {
    match l
    case Invoices => ["invoice_number", "customer_name"]
    case PurchaseOrders => ["purchaseorder_number", "vendor_name"]
  }

  /** `{}`, or `$or` of a case-insensitive `RegExp(search, "i")` over the
      fields. The pattern is the search text itself, not escaped. */
  datatype Filter = MatchAll | MatchAny(fields: seq<string>, pattern: string)

  /** `search ? { $or: [...] } : {}` with `search = (search || "").trim()`. */
  function SearchFilter(l: Listing, search: Option<string>): Filter
  {
    var s := Trim(if search.Some? then search.value else "");
    if s == "" then MatchAll else MatchAny(SearchFields(l), s)
  }

  /** A missing or all-white-space search selects everything; any other
      search matches its trimmed text, unescaped, against the number and the
      name field. */
  lemma SearchFilterChoice(l: Listing, search: Option<string>)
    ensures var f := SearchFilter(l, search);
      var text := if search.Some? then search.value else "";
      && (f.MatchAll? <==> forall i :: 0 <= i < |text| ==> IsWs(text[i]))
      && (f.MatchAny? ==>
            && f.pattern == Trim(text) && f.pattern != ""
            && |f.fields| == 2 && f.fields[0] != f.fields[1])
  {
    var text := if search.Some? then search.value else "";
    TrimSpec(text);
  }

  function Skip(page: int, limit: int): int
  {
    (page - 1) * limit
  }

  lemma MulMono(a: int, b: int, l: int)
    requires a <= b && l >= 0
    ensures a * l <= b * l
  {
    assert b * l - a * l == (b - a) * l;
  }

  lemma SkipNext(page: int, limit: int)
    ensures Skip(page + 1, limit) == Skip(page, limit) + limit
  {
    assert page * limit == (page - 1) * limit + limit;
  }

  /** The items of page `page`: `.skip((page - 1) * limit).limit(limit)`
      over the rows. */
  function PageSlice<T>(rows: seq<T>, page: int, limit: int): (items: seq<T>)
    requires page >= 1 && limit >= 1
    ensures |items| <= limit
  {
    var from := Min(Skip(page, limit), |rows|);
    rows[from..Min(from + limit, |rows|)]
  }

  /** Pages `first`, `first + 1`, ..., `last`, concatenated. */
  function PagesFrom<T>(rows: seq<T>, first: int, last: int, limit: int): seq<T>
    requires first >= 1 && limit >= 1
    decreases last - first + 1
  {
    if first > last then [] else PageSlice(rows, first, limit) + PagesFrom(rows, first + 1, last, limit)
  }

  lemma {:induction false} PagesFromSuffix<T>(rows: seq<T>, first: int, last: int, limit: int)
    requires first >= 1 && limit >= 1 && last >= first - 1
    requires last * limit >= |rows|
    ensures PagesFrom(rows, first, last, limit) == rows[Min(Skip(first, limit), |rows|)..]
    decreases last - first + 1
  {
    if first <= last {
      PagesFromSuffix(rows, first + 1, last, limit);
      var from := Min(Skip(first, limit), |rows|);
      SkipNext(first, limit);
      assert rows[from..] == rows[from..Min(from + limit, |rows|)] + rows[Min(from + limit, |rows|)..];
    } else {
      MulMono(last, first - 1, limit);
    }
  }

  /** `Math.ceil(total / limit)`: 0 when there is nothing to list. */
  function PageCount(total: nat, limit: int): nat
    requires limit >= 1
  {
    CeilDiv(total, limit)
  }

  /** Page `page` holds the rows from index (page-1)*limit on, at most
      `limit` of them, and it has some exactly when `page` is within the
      page count. */
  lemma PageWindow<T>(rows: seq<T>, page: int, limit: int)
    requires page >= 1 && limit >= 1
    ensures var items := PageSlice(rows, page, limit);
      && (items != [] <==> page <= PageCount(|rows|, limit))
      && forall i :: 0 <= i < |items| ==> 0 <= Skip(page, limit) + i < |rows| && items[i] == rows[Skip(page, limit) + i]
  {
    var c := PageCount(|rows|, limit);
    CeilDivBounds(|rows|, limit);
    if page <= c {
      MulMono(page - 1, c - 1, limit);
    } else {
      MulMono(c, page - 1, limit);
    }
  }

  /** The pages 1..`pages` together list every row exactly once and in
      order; there are no pages when there are no rows, and the last page is
      never empty. */
  lemma PagesPartitionRows<T>(rows: seq<T>, limit: int)
    requires limit >= 1
    ensures var pages := PageCount(|rows|, limit);
      && PagesFrom(rows, 1, pages, limit) == rows
      && (pages == 0 <==> rows == [])
      && (pages > 0 ==> PageSlice(rows, pages, limit) != [])
      && PageSlice(rows, pages + 1, limit) == []
  {
    var pages := PageCount(|rows|, limit);
    CeilDivBounds(|rows|, limit);
    PagesFromSuffix(rows, 1, pages, limit);
    PageWindow(rows, pages + 1, limit);
    if pages > 0 {
      PageWindow(rows, pages, limit);
    }
  }

  /** The answer: `{ items, page, limit, total, pages }`. */
  datatype ListResponse<T> = ListResponse(items: seq<T>, page: int, limit: int, total: nat, pages: nat)

  /** `listInvoices` / `listPOs` once the database has produced the rows the
      filter selects, newest first. With a NaN page or limit the skip and
      the limit handed to the query are NaN too; what the database makes of
      them is not modelled, so there is no response. */
  function List<T>(rows: seq<T>, page: QueryInt, limit: QueryInt): Option<ListResponse<T>>
  {
    var p := ReadPage(page);
    var l := ReadLimit(limit);
    if !p.Finite? || !l.Finite? then None
    else
      Some(ListResponse(PageSlice(rows, p.n, l.n), p.n, l.n, |rows|, PageCount(|rows|, l.n)))
  }

  /** The window of a response built from a page and a limit in range. */
  lemma ResponseWindow<T>(rows: seq<T>, r: ListResponse<T>)
    requires r.page >= 1 && r.limit >= 1
    requires r == ListResponse(PageSlice(rows, r.page, r.limit), r.page, r.limit, |rows|, PageCount(|rows|, r.limit))
    ensures |r.items| <= r.limit
    ensures |r.items| > 0 <==> r.page <= r.pages
    ensures var from := (r.page - 1) * r.limit;
      forall i :: 0 <= i < |r.items| ==> 0 <= from + i < |rows| && r.items[i] == rows[from + i]
  {
    PageWindow(rows, r.page, r.limit);
  }

  /** Readable page and limit texts give an answer; it reports the clamped
      page and limit and the full count, its items are the rows from index
      (page-1)*limit on, at most `limit` of them, and there are some exactly
      when the page is within `pages`. */
  lemma ListResponseConsistent<T>(rows: seq<T>, page: QueryInt, limit: QueryInt)
    ensures List(rows, page, limit).None? <==> page == Given(None) || limit == Given(None)
    ensures List(rows, page, limit).Some? ==>
      var r := List(rows, page, limit).value;
      && r.total == |rows| && 1 <= r.limit <= 200 && r.page >= 1
      && Finite(r.page) == ReadPage(page) && Finite(r.limit) == ReadLimit(limit)
      && |r.items| <= r.limit
      && (|r.items| > 0 <==> r.page <= r.pages)
      && var from := (r.page - 1) * r.limit;
         forall i :: 0 <= i < |r.items| ==> 0 <= from + i < |rows| && r.items[i] == rows[from + i]
  {
    ReadClamps(page, limit);
    if List(rows, page, limit).Some? {
      ResponseWindow(rows, List(rows, page, limit).value);
    }
  }
}
