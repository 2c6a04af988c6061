/** What the handlers of src/controllers share with the JavaScript runtime:
    the conversions `String(v)` and `Number(v)`, which decide how request
    values are read, and the error a handler passes to `next`, which the
    error middleware turns into a status. Numbers are integers; fractions,
    exponents and hexadecimal text are not read. */
module Conversions {
  import opened Values

  // ---------------------------------------------------------------- errors

  /** Why a handler fails with status 500: a `TypeError` from calling a
      string method on a non-string, a schema validation failure, a
      unique-index violation, or bcrypt refusing a non-string password. None
      of them sets `err.status`. */
  datatype InternalCause = TypeFailure | SchemaRejected | DuplicateKey | IllegalArguments

  /** The error passed to `next`: either a status set by the handler, or an
      internal failure that the handler's `err.status || 500` turns into 500. */
  datatype ApiError = Rejected(status: int, message: string) | Internal(cause: InternalCause)

  function StatusOf(e: ApiError): int
  {
    if e.Rejected? then e.status else 500
  }

  // ------------------------------------------------- JavaScript conversions

  /** `String(v)`. Arrays print their elements joined by commas, with
      `null` elements printed as nothing. */
  function StringOf(v: Value): string
    decreases v, 1
  {
    match v
    case Null => "null"
    case Bool(b) => if b then "true" else "false"
    case Num(n) => if n < 0 then "-" + NatToString(-n) else NatToString(n)
    case Str(s) => s
    case Arr(items) => StringOfItems(items)
    case Obj(_) => "[object Object]"
  }

  function StringOfItems(items: seq<Value>): string
    decreases items, 0
  {
    if items == [] then ""
    else
      var first := if items[0].Null? then "" else StringOf(items[0]);
      if |items| == 1 then first else first + "," + StringOfItems(items[1..])
  }

  /** A number as `Number` produces it, or `NaN`; `Blank` is a stored
      `null`, which `Number` never produces. */
  datatype Numeric = Blank | Finite(n: int) | NaN

  /** `Number(text)` for integer text: surrounding white space is ignored,
      empty text is 0, and an optional sign may precede the digits. */
  function NumberOfText(s: string): (r: Numeric)
    ensures !r.Blank?
  {
    var t := Trim(s);
    if t == "" then Finite(0)
    else if AllDigits(t) then Finite(DigitsValue(t))
    else if |t| > 1 && t[0] == '-' && AllDigits(t[1..]) then Finite(-(DigitsValue(t[1..]) as int))
    else if |t| > 1 && t[0] == '+' && AllDigits(t[1..]) then Finite(DigitsValue(t[1..]))
    else NaN
  }

  /** `Number(v)`: `null` is 0, booleans are 0 and 1, an array goes through
      its string form, an object is `NaN`. */
  function JsNumber(v: Value): (r: Numeric)
    ensures !r.Blank?
  {
    match v
    case Null => Finite(0)
    case Bool(b) => Finite(if b then 1 else 0)
    case Num(n) => Finite(n)
    case Str(s) => NumberOfText(s)
    case Arr(_) => NumberOfText(StringOf(v))
    case Obj(_) => NaN
  }

  /** A character that stops `Number` from reading trimmed text `t` as an
      integer: anything but a digit, except a sign in front of more text. */
  predicate NonNumeric(t: string, i: int)
    requires 0 <= i < |t|
  {
    !IsDigit(t[i]) && !(i == 0 && |t| > 1 && (t[0] == '-' || t[0] == '+'))
  }

  /** What `Number(text)` means: surrounding white space is ignored, blank
      text is 0, and the text is `NaN` exactly when some character is
      neither a digit nor a leading sign. */
  lemma NumberOfTextMeaning(s: string)
    ensures NumberOfText(s) == NumberOfText(Trim(s))
    ensures Trim(s) == "" ==> NumberOfText(s) == Finite(0)
    ensures var t := Trim(s);
      NumberOfText(s).NaN? <==> t != "" && exists i :: 0 <= i < |t| && NonNumeric(t, i)
  {
    TrimIdempotent(s);
    var t := Trim(s);
    if t != "" && AllDigits(t) {
      assert forall i :: 0 <= i < |t| ==> IsDigit(t[i]);
    } else if t != "" && |t| > 1 && (t[0] == '-' || t[0] == '+') && AllDigits(t[1..]) {
      assert forall i :: 1 <= i < |t| ==> t[i] == t[1..][i - 1];
    } else if t != "" {
      if |t| > 1 && (t[0] == '-' || t[0] == '+') {
        var j :| 0 <= j < |t[1..]| && !IsDigit(t[1..][j]);
        assert NonNumeric(t, j + 1);
      } else if !IsDigit(t[0]) {
        assert NonNumeric(t, 0);
      } else {
        var j :| 0 <= j < |t| && !IsDigit(t[j]);
        assert NonNumeric(t, j);
      }
    }
  }

  /** `Number` reads back the text `String` gives an integer. */
  lemma NumberOfTextRoundTrip(n: int)
    ensures NumberOfText(StringOf(Num(n))) == Finite(n)
  {
    if n < 0 {
      NegativeDigitsReadBack(-n);
    } else {
      DigitsReadBack(n);
    }
  }

  lemma DigitsReadBack(m: nat)
    ensures NumberOfText(NatToString(m)) == Finite(m)
  {
    var d := NatToString(m);
    NatToStringRoundTrip(m);
    assert IsDigit(d[0]) && IsDigit(d[|d| - 1]);
    TrimOfTrimmed(d);
  }

  lemma NegativeDigitsReadBack(m: nat)
    ensures NumberOfText("-" + NatToString(m)) == Finite(-(m as int))
  {
    var d := NatToString(m);
    var t := "-" + d;
    NatToStringRoundTrip(m);
    assert IsDigit(d[|d| - 1]) && t[|t| - 1] == d[|d| - 1];
    TrimOfTrimmed(t);
    assert t[1..] == d;
    assert !IsDigit(t[0]);
  }

  /** `Number(v)` agrees with `Number(String(v))` except for `null` and the
      booleans, which `Number` reads directly; in particular a one-element
      array reads as its element and an object as `NaN`. */
  lemma JsNumberMeaning(v: Value, n: int)
    ensures !v.Null? && !v.Bool? ==> JsNumber(v) == NumberOfText(StringOf(v))
    ensures JsNumber(Num(n)) == Finite(n) && JsNumber(Str(StringOf(Num(n)))) == Finite(n)
    ensures JsNumber(Arr([Num(n)])) == Finite(n) && JsNumber(Arr([])) == Finite(0)
    ensures JsNumber(Null) == Finite(0) && JsNumber(Bool(true)) == Finite(1) && JsNumber(Bool(false)) == Finite(0)
  {
    NumberOfTextRoundTrip(n);
    assert StringOf(Arr([Num(n)])) == StringOf(Num(n));
    if v.Num? {
      NumberOfTextRoundTrip(v.n);
    } else if v.Obj? {
      var t := StringOf(v);
      assert t == ['[', 'o', 'b', 'j', 'e', 'c', 't', ' ', 'O', 'b', 'j', 'e', 'c', 't', ']'];
      TrimOfTrimmed(t);
      assert !AllDigits(t) by {
        assert !IsDigit(t[0]);
      }
    }
  }
}
