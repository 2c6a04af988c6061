/** The pure helpers of src/controllers/salesController.js: regex escaping,
    the salesperson name pattern, the month-prefix date parser, query
    validation, `buildFacet`, and the page/limit clamps of
    `listInvoicesOnly` and `listPOs`.

    A query number is what `parseInt`/`Number` made of the query text:
    `Absent` when the key is missing, `Given(None)` when the text is not a
    number. Regular expressions are kept as their pattern text. */
module SalesReport {
  import opened Values

  // ---------------------------------------------------------------- escaping

  /** The characters `escapeRegex` prefixes with a backslash. */
  predicate IsRegexSpecial(c: char)
  {
    c in ".*+?^${}()|[]\\"
  }

  /** `escapeRegex`. */
  function EscapeRegex(s: string): string
  {
    if s == [] then []
    else (if IsRegexSpecial(s[0]) then ['\\', s[0]] else [s[0]]) + EscapeRegex(s[1..])
  }

  /** A pattern that matches one literal string: every special character is
      escaped, and a backslash only ever escapes one. */
  predicate LiteralPattern(r: string)
  {
    if r == [] then true
    else if !IsRegexSpecial(r[0]) then LiteralPattern(r[1..])
    else r[0] == '\\' && |r| >= 2 && IsRegexSpecial(r[1]) && LiteralPattern(r[2..])
  }

  /** The literal text a `LiteralPattern` stands for. */
  function Unescape(r: string): string
  {
    if r == [] then []
    else if r[0] == '\\' && |r| >= 2 then [r[1]] + Unescape(r[2..])
    else [r[0]] + Unescape(r[1..])
  }

  /** An escaped string is a literal pattern standing for exactly that
      string, and a string without special characters is left as it is. */
  lemma {:induction false} EscapeRegexRoundTrip(s: string)
    ensures LiteralPattern(EscapeRegex(s))
    ensures Unescape(EscapeRegex(s)) == s
    ensures (forall i :: 0 <= i < |s| ==> !IsRegexSpecial(s[i])) ==> EscapeRegex(s) == s
  {
    if s != [] {
      EscapeRegexRoundTrip(s[1..]);
      var e := EscapeRegex(s);
      if IsRegexSpecial(s[0]) {
        assert e[2..] == EscapeRegex(s[1..]);
      } else {
        assert e[1..] == EscapeRegex(s[1..]);
      }
    }
  }

  // ------------------------------------------------------------- name regex

  /** The index of the first white-space character, or `|s|`. */
  function WsIndex(s: string): (i: nat)
    ensures i <= |s|
  {
    if s == [] || IsWs(s[0]) then 0 else 1 + WsIndex(s[1..])
  }

  /** `WsIndex` finds the first white space: there is one there, and none
      before it. */
  lemma {:induction false} WsIndexSpec(s: string)
    ensures var i := WsIndex(s);
      (i < |s| ==> IsWs(s[i])) && forall j :: 0 <= j < i ==> !IsWs(s[j])
  {
    if s != [] && !IsWs(s[0]) {
      WsIndexSpec(s[1..]);
      assert forall j :: 1 <= j < |s| ==> s[1..][j - 1] == s[j];
    }
  }

  /** `s.split(/\s+/)`. */
  function SplitWs(s: string): (ws: seq<string>)
    ensures |ws| >= 1
    decreases |s|
  {
    var i := WsIndex(s);
    if i == |s| then [s]
    else
      TrimStartSpec(s[i + 1..]);
      [s[..i]] + SplitWs(TrimStart(s[i + 1..]))
  }

  /** `parts.join(sep)`. */
  function Join(parts: seq<string>, sep: string): string
  {
    if parts == [] then ""
    else if |parts| == 1 then parts[0]
    else parts[0] + sep + Join(parts[1..], sep)
  }

  predicate IsWord(w: string)
  {
    w != [] && forall i :: 0 <= i < |w| ==> !IsWs(w[i])
  }

  lemma {:induction false} WsIndexAfterWord(w: string, t: string)
    requires forall i :: 0 <= i < |w| ==> !IsWs(w[i])
    ensures WsIndex(w + t) == |w| + WsIndex(t)
  {
    if w != [] {
      assert (w + t)[1..] == w[1..] + t;
      WsIndexAfterWord(w[1..], t);
    } else {
      assert w + t == t;
    }
  }

  lemma {:induction false} JoinWordsEnds(words: seq<string>)
    requires |words| >= 1 && forall k :: 0 <= k < |words| ==> IsWord(words[k])
    ensures var s := Join(words, " "); s != [] && !IsWs(s[0]) && !IsWs(s[|s| - 1])
  {
    if |words| > 1 {
      JoinWordsEnds(words[1..]);
    }
  }

  /** Splitting words joined by single spaces gives the words back. */
  lemma {:induction false} SplitJoinRoundTrip(words: seq<string>)
    requires |words| >= 1 && forall k :: 0 <= k < |words| ==> IsWord(words[k])
    ensures SplitWs(Join(words, " ")) == words
  {
    var s := Join(words, " ");
    if |words| == 1 {
      WsIndexAfterWord(words[0], "");
      assert words[0] + "" == words[0];
    } else {
      var rest := Join(words[1..], " ");
      assert s == words[0] + (" " + rest);
      JoinWordsEnds(words[1..]);
      SplitAfterWord(words[0], rest);
      SplitJoinRoundTrip(words[1..]);
    }
  }

  /** A word, one space and text starting with a non-space split into the
      word and the split of the text. */
  lemma SplitAfterWord(w: string, rest: string)
    requires IsWord(w) && rest != [] && !IsWs(rest[0])
    ensures SplitWs(w + (" " + rest)) == [w] + SplitWs(rest)
  {
    var s := w + (" " + rest);
    var i := |w|;
    WsIndexAfterWord(w, " " + rest);
    assert WsIndex(" " + rest) == 0;
    assert s[..i] == w;
    assert s[i + 1..] == rest;
    assert TrimStart(rest) == rest;
  }

  /** Splitting a trimmed, non-blank name gives non-empty words without
      white space. */
  lemma {:induction false} SplitGivesWords(s: string)
    requires s != [] && !IsWs(s[0]) && !IsWs(s[|s| - 1])
    ensures forall k :: 0 <= k < |SplitWs(s)| ==> IsWord(SplitWs(s)[k])
  {
    var i := WsIndex(s);
    WsIndexSpec(s);
    if i < |s| {
      var t := TrimStart(s[i + 1..]);
      TrimStartSpec(s[i + 1..]);
      assert s[i + 1..][|s| - i - 2] == s[|s| - 1];
      assert t[|t| - 1] == s[|s| - 1];
      SplitGivesWords(t);
    }
  }

  /** `makeNameRegex`: the escaped words of the trimmed name joined by
      `\s+`, between `^\s*` and `\s*$`; the flag is always "i". */
  function MakeNameRegex(personName: string): string
  {
    "^\\s*" + Join(EscapeAll(SplitWs(Trim(personName))), "\\s+") + "\\s*$"
  }

  function EscapeAll(words: seq<string>): (r: seq<string>)
    ensures |r| == |words| && forall k :: 0 <= k < |words| ==> r[k] == EscapeRegex(words[k])
  {
    if words == [] then [] else [EscapeRegex(words[0])] + EscapeAll(words[1..])
  }

  /** The pattern depends on the name's words only: a name padded or spaced
      differently gives the same pattern as its words joined by single
      spaces. */
  lemma NameRegexIgnoresSpacing(personName: string)
    ensures MakeNameRegex(personName) == MakeNameRegex(Join(SplitWs(Trim(personName)), " "))
  {
    var t := Trim(personName);
    TrimSpec(personName);
    if t == [] {
      assert Join(SplitWs(t), " ") == "";
    } else {
      var words := SplitWs(t);
      SplitGivesWords(t);
      JoinWordsEnds(words);
      TrimOfTrimmed(Join(words, " "));
      SplitJoinRoundTrip(words);
    }
  }

  // ------------------------------------------------------------ date prefix

  /** A calendar month as a `Date` built by `Date.UTC` lands on it. */
  datatype CalendarMonth = CalendarMonth(year: int, month: int)

  /** `Date.UTC` reads the years 0..99 as 1900..1999. */
  function UtcYear(y: int): int
  {
    if 0 <= y <= 99 then 1900 + y else y
  }

  /** `Date.UTC(year, monthIndex, 1)`; month index 12 rolls over into
      January of the next year. */
  function UtcMonthStart(year: int, monthIndex: int): CalendarMonth
    requires 0 <= monthIndex <= 12
  {
    if monthIndex == 12 then CalendarMonth(UtcYear(year) + 1, 1) else CalendarMonth(UtcYear(year), monthIndex + 1)
  }

  function NextMonth(c: CalendarMonth): CalendarMonth
  {
    if c.month == 12 then CalendarMonth(c.year + 1, 1) else CalendarMonth(c.year, c.month + 1)
  }

  /** What `parseDateToPrefix` returns. */
  datatype MonthPrefix = MonthPrefix(
    year: nat,
    month: nat,
    monthStr: string,
    datePrefix: string,
    start: CalendarMonth,
    end: CalendarMonth)

  /** The common tail of both branches: year 0 and months outside 1..12 are
      refused. */
  function PrefixFor(year: nat, month: nat): Option<MonthPrefix>
  {
    if year == 0 || month < 1 || month > 12 then None
    else Some(MonthPrefix(year, month, Pad2(month), NatToString(year) + "-" + Pad2(month),
                          UtcMonthStart(year, month - 1), UtcMonthStart(year, month)))
  }

  /** The number two digit characters spell. */
  function D2(a: char, b: char): nat
    requires IsDigit(a) && IsDigit(b)
  {
    DigitValue(a) * 10 + DigitValue(b)
  }

  /** The number four digit characters spell. */
  function D4(a: char, b: char, c: char, d: char): nat
    requires IsDigit(a) && IsDigit(b) && IsDigit(c) && IsDigit(d)
  {
    D2(a, b) * 100 + D2(c, d)
  }

  /** `/^(\d{2})-(\d{2})-(\d{4})$/`. */
  predicate DmyShape(s: string)
  {
    |s| == 10 && IsDigit(s[0]) && IsDigit(s[1]) && s[2] == '-' && IsDigit(s[3]) && IsDigit(s[4]) && s[5] == '-'
    && IsDigit(s[6]) && IsDigit(s[7]) && IsDigit(s[8]) && IsDigit(s[9])
  }

  /** `/^(\d{4})-(\d{2})-(\d{2})$/`. */
  predicate YmdShape(s: string)
  {
    |s| == 10 && IsDigit(s[0]) && IsDigit(s[1]) && IsDigit(s[2]) && IsDigit(s[3]) && s[4] == '-'
    && IsDigit(s[5]) && IsDigit(s[6]) && s[7] == '-' && IsDigit(s[8]) && IsDigit(s[9])
  }

  /** `parseDateToPrefix`; `None` stands for a missing, empty or
      non-string argument. The day digits are matched but never read. */
  function ParseDateToPrefix(dateStr: Option<string>): Option<MonthPrefix>
  {
    if dateStr.None? then None
    else
      var s := Trim(dateStr.value);
      if DmyShape(s) then PrefixFor(D4(s[6], s[7], s[8], s[9]), D2(s[3], s[4]))
      else if YmdShape(s) then PrefixFor(D4(s[0], s[1], s[2], s[3]), D2(s[5], s[6]))
      else None
  }

  /** An accepted month is 1..12 with its two-digit text, the year is not
      0, `end` is the month after `start`, and `start` is the given month of
      the given year, the years 1..99 being read as 1901..1999. */
  lemma PrefixMeaning(year: nat, month: nat)
    ensures PrefixFor(year, month).Some? <==> year != 0 && 1 <= month <= 12
    ensures var r := PrefixFor(year, month);
      r.Some? ==>
        && r.value.year == year && r.value.month == month
        && |r.value.monthStr| == 2 && DigitsValue(r.value.monthStr) == month
        && r.value.datePrefix == NatToString(year) + "-" + r.value.monthStr
        && r.value.start == CalendarMonth(UtcYear(year), month)
        && r.value.end == NextMonth(r.value.start)
        && (year >= 100 ==> r.value.start.year == year)
        && (year <= 99 ==> r.value.start.year == 1900 + year)
  {
    if 1 <= month <= 12 {
      Pad2RoundTrip(month);
    }
  }

  /** Only the two shapes, after trimming, are ever accepted. */
  lemma ParseNeedsShape(dateStr: Option<string>)
    requires ParseDateToPrefix(dateStr).Some?
    ensures dateStr.Some? && (DmyShape(Trim(dateStr.value)) || YmdShape(Trim(dateStr.value)))
  {
  }

  /** The two digits of a number below 100. */
  function TwoDigits(n: nat): (s: string)
    requires n < 100
    ensures |s| == 2 && IsDigit(s[0]) && IsDigit(s[1]) && D2(s[0], s[1]) == n
  {
    [DigitChar(n / 10), DigitChar(n % 10)]
  }

  /** The four digits of a year below 10000, as "YYYY-MM-DD" writes it. */
  function FourDigits(y: nat): (s: string)
    requires y < 10000
    ensures |s| == 4 && IsDigit(s[0]) && IsDigit(s[1]) && IsDigit(s[2]) && IsDigit(s[3])
    ensures D4(s[0], s[1], s[2], s[3]) == y
  {
    TwoDigits(y / 100) + TwoDigits(y % 100)
  }

  /** Any date written "YYYY-MM-DD" parses to its year and month (or is
      refused for year 0 or a month outside 1..12), whatever the day. */
  lemma ParseYmdRoundTrip(y: nat, m: nat, d: nat)
    requires y < 10000 && m < 100 && d < 100
    ensures ParseDateToPrefix(Some(FourDigits(y) + "-" + TwoDigits(m) + "-" + TwoDigits(d))) == PrefixFor(y, m)
  {
    var s := FourDigits(y) + "-" + TwoDigits(m) + "-" + TwoDigits(d);
    TrimOfTrimmed(s);
    assert YmdShape(s) && !DmyShape(s);
  }

  /** Any date written "DD-MM-YYYY" parses to its year and month (or is
      refused for year 0 or a month outside 1..12), whatever the day. */
  lemma ParseDmyRoundTrip(y: nat, m: nat, d: nat)
    requires y < 10000 && m < 100 && d < 100
    ensures ParseDateToPrefix(Some(TwoDigits(d) + "-" + TwoDigits(m) + "-" + FourDigits(y))) == PrefixFor(y, m)
  {
    var s := TwoDigits(d) + "-" + TwoDigits(m) + "-" + FourDigits(y);
    TrimOfTrimmed(s);
    assert DmyShape(s);
  }

  lemma TwoDigitsIsPad2(n: nat)
    requires 10 <= n < 100
    ensures TwoDigits(n) == Pad2(n)
  {
    assert NatToString(n) == NatToString(n / 10) + [DigitChar(n % 10)];
  }

  lemma FourDigitsOfLargeYear(y: nat)
    requires 1000 <= y < 10000
    ensures FourDigits(y) == NatToString(y)
  {
    var a, b, c, d := y / 1000, y / 100 % 10, y / 10 % 10, y % 10;
    assert y / 10 / 10 == y / 100 && y / 100 / 10 == a && 1 <= a < 10;
    assert NatToString(y / 1000) == [DigitChar(a)];
    assert NatToString(y / 100) == [DigitChar(a), DigitChar(b)];
    assert NatToString(y / 10) == [DigitChar(a), DigitChar(b), DigitChar(c)];
    assert NatToString(y) == [DigitChar(a), DigitChar(b), DigitChar(c), DigitChar(d)];
    assert y / 100 / 10 == a && y / 100 % 10 == b && y % 100 / 10 == c && y % 100 % 10 == d;
  }

  /** For the years 1000..9999 the month prefix is the first seven
      characters of any "YYYY-MM-DD" date of that month, which is what lets
      it select stored dates by prefix. */
  lemma DatePrefixIsIsoPrefix(y: nat, m: nat, d: nat)
    requires 1000 <= y < 10000 && 1 <= m <= 12 && d < 100
    ensures var s := FourDigits(y) + "-" + TwoDigits(m) + "-" + TwoDigits(d);
      var r := ParseDateToPrefix(Some(s));
      r.Some? && r.value.datePrefix == s[..7]
  {
    ParseYmdRoundTrip(y, m, d);
    FourDigitsOfLargeYear(y);
    if m >= 10 {
      TwoDigitsIsPad2(m);
    } else {
      assert Pad2(m) == TwoDigits(m);
    }
    var s := FourDigits(y) + "-" + TwoDigits(m) + "-" + TwoDigits(d);
    assert s[..7] == FourDigits(y) + "-" + TwoDigits(m);
  }

  /** Two dates of one shape that differ only in their day digits parse
      identically. */
  lemma ParseIgnoresDay(s: string, t: string)
    requires (DmyShape(s) && DmyShape(t) && s[2..] == t[2..]) || (YmdShape(s) && YmdShape(t) && s[..8] == t[..8])
    ensures ParseDateToPrefix(Some(s)) == ParseDateToPrefix(Some(t))
  {
    TrimOfTrimmed(s);
    TrimOfTrimmed(t);
    if DmyShape(s) && DmyShape(t) && s[2..] == t[2..] {
      assert forall i :: 2 <= i < 10 ==> s[i] == s[2..][i - 2] == t[i];
    } else {
      assert forall i :: 0 <= i < 8 ==> s[i] == s[..8][i] == t[i];
    }
  }

  // ------------------------------------------------------- validateParams

  /** The query keys `validateParams` reads; `None` is a missing key. */
  datatype SalesQuery = SalesQuery(personName: Option<string>, salesperson: Option<string>, date: Option<string>)

  datatype ReportParams = ReportParams(prefix: MonthPrefix, salesperson: Option<string>, isAll: bool)

  datatype HttpError = HttpError(status: int, message: string)

  const MissingDate := "Missing/invalid query param(s): date"
  const BadDateFormat := "Invalid date format. Use DD-MM-YYYY or YYYY-MM-DD."

  /** `"" || /^(all|\*)$/i`. */
  predicate IsAllName(s: string)
  {
    s == "" || Lower(s) == "all" || s == "*"
  }

  /** `(personName ?? salesperson ?? "").trim()`: a present `personName`
      wins, even when empty. */
  function SalespersonRaw(q: SalesQuery): string
  {
    Trim(if q.personName.Some? then q.personName.value else if q.salesperson.Some? then q.salesperson.value else "")
  }

  /** `validateParams`. */
  function ValidateParams(q: SalesQuery): Result<ReportParams, HttpError>
  {
    var dateInput := Trim(if q.date.Some? then q.date.value else "");
    if dateInput == "" then Err(HttpError(400, MissingDate))
    else
      var parsed := ParseDateToPrefix(Some(dateInput));
      if parsed.None? then Err(HttpError(400, BadDateFormat))
      else
        var raw := SalespersonRaw(q);
        var isAll := IsAllName(raw);
        Ok(ReportParams(parsed.value, if isAll then None else Some(raw), isAll))
  }

  /** A blank date and an unparsable one are both refused with 400, each
      with its own message. */
  lemma ValidateParamsErrors(q: SalesQuery)
    ensures var r := ValidateParams(q);
      var date := Trim(if q.date.Some? then q.date.value else "");
      && (date == "" ==> r == Err(HttpError(400, MissingDate)))
      && (date != "" && ParseDateToPrefix(Some(date)).None? ==> r == Err(HttpError(400, BadDateFormat)))
      && (r.Err? ==> r.error.status == 400)
  {
  }

  /** The two refusals are told apart by their messages. */
  lemma DateMessagesDiffer()
    ensures MissingDate != BadDateFormat
  {
    assert |MissingDate| != |BadDateFormat|;
  }

  /** On success the month is the one the date parses to, and the
      salesperson filter is absent exactly when the (trimmed,
      `personName`-first) name is blank, "all" or "*", and is that name
      otherwise. */
  lemma ValidateParamsAccepts(q: SalesQuery)
    requires ValidateParams(q).Ok?
    ensures var p := ValidateParams(q).value;
      && q.date.Some? && Some(p.prefix) == ParseDateToPrefix(q.date)
      && (p.isAll <==> p.salesperson.None?)
      && (p.isAll <==> IsAllName(SalespersonRaw(q)))
      && (p.salesperson.Some? ==> p.salesperson.value == SalespersonRaw(q))
  {
    TrimIdempotent(q.date.value);
  }

  /** A present `personName` hides `salesperson`, even when it is empty. */
  lemma PersonNameFirst(q: SalesQuery, other: Option<string>)
    requires q.personName.Some?
    ensures ValidateParams(q) == ValidateParams(q.(salesperson := other))
  {
  }

  /** `/^(all|\*)$/i` character by character: the name means "no filter"
      exactly when it is empty, a lone `*`, or three letters that read
      "all" in any capitalisation. */
  lemma AllNameMeaning(s: string)
    ensures IsAllName(s) <==>
      || s == "" || s == "*"
      || (|s| == 3 && s[0] in {'a', 'A'} && s[1] in {'l', 'L'} && s[2] in {'l', 'L'})
  {
    if |s| == 3 && s[0] in {'a', 'A'} && s[1] in {'l', 'L'} && s[2] in {'l', 'L'} {
      assert Lower(s) == [LowerChar(s[0]), LowerChar(s[1]), LowerChar(s[2])];
    }
    if Lower(s) == "all" {
      assert |s| == 3;
      assert LowerChar(s[0]) == 'a' && LowerChar(s[1]) == 'l' && LowerChar(s[2]) == 'l';
    }
  }

  // --------------------------------------------------------------- paging

  /** `n || d` on a parsed number: NaN and 0 give the default. */
  function OrDefault(q: QueryInt, d: int): int
  {
    if q.Given? && q.parsed.Some? && q.parsed.value != 0 then q.parsed.value else d
  }

  /** `Math.max(1, parseInt(page, 10) || 1)`. */
  function ClampPage(page: QueryInt): int
  {
    Max(1, OrDefault(page, 1))
  }

  /** `Math.max(1, Math.min(cap, parseInt(limit, 10) || 25))`. */
  function ClampLimit(limit: QueryInt, cap: int): int
  {
    Max(1, Min(cap, OrDefault(limit, 25)))
  }

  /** The limit of `listInvoicesOnly`. */
  function InvoicesOnlyLimit(limit: QueryInt): int
  {
    ClampLimit(limit, 500)
  }

  /** The limit of `listPOs`: `limit ?? per_page`, so a present `limit`
      hides `per_page` even when it is not a number. */
  function PoLimit(limit: QueryInt, perPage: QueryInt): int
  {
    ClampLimit(if limit.Given? then limit else perPage, 1000)
  }

  function Skip(page: int, limit: int): int
  {
    (page - 1) * limit
  }

  /** `Math.max(1, Math.ceil(total / limit))`. */
  function PageCount(total: nat, limit: int): int
    requires limit >= 1
  {
    Max(1, CeilDiv(total, limit))
  }

  /** The clamps keep an in-range value and otherwise land in range: page
      at least 1, limit within [1, cap]; a missing, zero or non-numeric
      limit is 25. */
  lemma ClampsInRange(q: QueryInt, cap: int)
    requires cap >= 25
    ensures ClampPage(q) >= 1 && 1 <= ClampLimit(q, cap) <= cap
    ensures q.Given? && q.parsed.Some? && q.parsed.value >= 1 ==> ClampPage(q) == q.parsed.value
    ensures q.Given? && q.parsed.Some? && 1 <= q.parsed.value <= cap ==> ClampLimit(q, cap) == q.parsed.value
    ensures q.Given? && q.parsed.Some? && q.parsed.value > cap ==> ClampLimit(q, cap) == cap
    ensures (q.Absent? || q.parsed.None? || q.parsed.value == 0) ==> ClampLimit(q, cap) == 25 && ClampPage(q) == 1
  {
  }

  /** `per_page` is used only when `limit` is missing. */
  lemma PoLimitAlias(n: int, perPage: QueryInt)
    ensures PoLimit(Absent, Given(Some(n))) == ClampLimit(Given(Some(n)), 1000)
    ensures PoLimit(Given(None), perPage) == 25
  {
  }

  /** An item before index `c * limit` lies on one of the first `c` pages. */
  lemma PageOfItem(k: nat, c: nat, limit: int)
    requires limit >= 1 && k < c * limit
    ensures k / limit + 1 <= c
  {
    var q := k / limit;
    assert q * limit <= k;
    assert (c - q) * limit > 0;
  }

  /** Page p shows the items from index (p-1)*limit on; the page count
      covers every item, with no page left empty beyond the first. */
  lemma PagesCoverItems(total: nat, limit: int, page: int)
    requires limit >= 1 && page >= 1
    ensures var pages := PageCount(total, limit);
      && pages >= 1 && pages * limit >= total
      && (total > 0 ==> (pages - 1) * limit < total)
      && Skip(page + 1, limit) == Skip(page, limit) + limit && Skip(1, limit) == 0
      && (total > 0 ==> forall k :: 0 <= k < total ==> k / limit + 1 <= pages)
  {
    CeilDivBounds(total, limit);
    if total > 0 {
      forall k | 0 <= k < total
        ensures k / limit + 1 <= PageCount(total, limit)
      {
        PageOfItem(k, CeilDiv(total, limit), limit);
      }
    }
  }

  // ------------------------------------------------------------ buildFacet

  /** The page window `buildFacet` builds. */
  datatype Window = Window(skip: int, limit: int)

  /** `Number(x) || d` on a parsed number. */
  function NumberOr(x: Option<int>, d: int): int
  {
    if x.Some? && x.value != 0 then x.value else d
  }

  /** `buildFacet` as written: `skip` multiplies by the limit before it is
      clamped to at least 1. */
  function BuildFacetAsWritten(page: Option<int>, limit: Option<int>): Window
  {
    Window(Max(0, NumberOr(page, 1) - 1) * NumberOr(limit, 10), Max(1, NumberOr(limit, 10)))
  }

  /** A negative `limit` makes the as-written `skip` negative while the
      window's own limit is 1: page 2 with limit -5 skips -5. */
  lemma BuildFacetNegativeSkip()
    ensures BuildFacetAsWritten(Some(2), Some(-5)) == Window(-5, 1)
  {
  }

  /** `buildFacet` with `skip` computed from the clamped limit. */
  function BuildFacet(page: Option<int>, limit: Option<int>): (w: Window)
  {
    var lim := Max(1, NumberOr(limit, 10));
    Window(Max(0, NumberOr(page, 1) - 1) * lim, lim)
  }

  /** The window never skips a negative number of documents, its limit is
      at least 1 (10 when missing), successive pages tile the results, and
      for a positive limit it agrees with the as-written window. */
  lemma BuildFacetTiles(p: nat, limit: Option<int>)
    ensures var w := BuildFacet(Some(p + 1), limit);
      && w.skip >= 0 && w.limit >= 1
      && (limit.None? ==> w.limit == 10)
      && BuildFacet(Some(p + 2), limit).skip == w.skip + w.limit
      && BuildFacet(None, limit).skip == 0
      && (limit.None? || limit.value >= 0 ==> w == BuildFacetAsWritten(Some(p + 1), limit))
  {
  }
}
