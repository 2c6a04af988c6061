/** The hand-written product rules of src/validators/productValidator.js:
    the license consistency rule, the `stock` requirement that depends on
    the product type, the price check and the cleanup of legacy request
    fields. Joi's own field rules (types, patterns, bounds) are not part of
    this model. */
module ProductValidator {
  import opened Values
  import opened Conversions

  // ------------------------------------------------------------- license

  const SeatsMessage := "availableSeats must be > 0 when mode=seats and isLimited=true"
  const KeysMessage := "keysPool must be an array when mode=keys"

  /** `Number.isInteger(v) && v > 0`; numbers are integers here. */
  predicate PositiveInteger(v: Value)
  {
    v.Num? && v.n > 0
  }

  /** The custom `license logic` rule, applied to the license as Joi hands
      it over. */
  function LicenseRule(val: Record): Result<Record, string>
  {
    if Field(val, "mode") == Str("seats") && Truthy(Field(val, "isLimited")) && !PositiveInteger(Field(val, "availableSeats"))
    then Err(SeatsMessage)
    else if Field(val, "mode") == Str("keys") && !Field(val, "keysPool").Arr?
    then Err(KeysMessage)
    else Ok(val)
  }

  /** A limited seats license is refused unless it has a positive number of
      seats, a keys license unless its pool is an array; everything else
      passes unchanged. */
  lemma LicenseRuleCases(val: Record)
    ensures var r := LicenseRule(val);
      && (r == Err(SeatsMessage) <==>
            Field(val, "mode") == Str("seats") && Truthy(Field(val, "isLimited")) && !PositiveInteger(Field(val, "availableSeats")))
      && (r == Err(KeysMessage) <==> Field(val, "mode") == Str("keys") && !Field(val, "keysPool").Arr?)
      && (r.Ok? ==> r.value == val)
      && (Field(val, "mode") != Str("seats") && Field(val, "mode") != Str("keys") ==> r == Ok(val))
  {
    assert |SeatsMessage| != |KeysMessage|;
  }

  /** The license schema's defaults: mode "none", not limited, 0 seats, an
      empty key pool. */
  function LicenseDefaults(val: Record): (r: Record)
    ensures forall k :: k in val ==> k in r && r[k] == val[k]
  {
    var withMode := if "mode" in val then val else val["mode" := Str("none")];
    var withLimited := if "isLimited" in withMode then withMode else withMode["isLimited" := Bool(false)];
    var withSeats := if "availableSeats" in withLimited then withLimited else withLimited["availableSeats" := Num(0)];
    if "keysPool" in withSeats then withSeats else withSeats["keysPool" := Arr([])]
  }

  /** Once the defaults are in, a license whose pool is absent or an array
      never trips the keys rule, and an empty license passes as mode
      "none". */
  lemma KeysRuleAfterDefaults(val: Record)
    requires "keysPool" !in val || val["keysPool"].Arr?
    ensures LicenseRule(LicenseDefaults(val)) != Err(KeysMessage)
    ensures LicenseRule(LicenseDefaults(map[])).Ok?
  {
    var d := LicenseDefaults(val);
    assert Field(d, "keysPool").Arr?;
    var e := LicenseDefaults(map[]);
    assert Field(e, "mode") == Str("none");
  }

  // ---------------------------------------------------------------- stock

  datatype StockError = StockRequired | StockNotInteger | StockNegative

  /** `stock`: required for hardware and 0 by default for anything else,
      in both cases a non-negative integer. */
  function StockRule(productType: Value, stock: Option<Value>): Result<int, StockError>
  {
    if stock.None? then
      if productType == Str("hardware") then Err(StockRequired) else Ok(0)
    else if !stock.value.Num? then Err(StockNotInteger)
    else if stock.value.n < 0 then Err(StockNegative)
    else Ok(stock.value.n)
  }

  /** Only hardware needs a stock; a given stock is kept exactly when it is
      a non-negative integer, whatever the type. */
  lemma StockRuleCases(productType: Value, stock: Option<Value>)
    ensures var r := StockRule(productType, stock);
      && (r == Err(StockRequired) <==> stock.None? && productType == Str("hardware"))
      && (stock.None? && productType != Str("hardware") ==> r == Ok(0))
      && (stock.Some? ==> (r.Ok? <==> stock.value.Num? && stock.value.n >= 0))
      && (r.Ok? ==> r.value >= 0)
      && (stock.Some? && r.Ok? ==> stock.value == Num(r.value))
  {
  }

  // --------------------------------------------------------------- prices

  const PriceMessage := "Selling price (SRP) cannot be greater than MRP"

  /** `Number(req.body[k])`; a missing field is `undefined`, which is `NaN`. */
  function BodyNumber(body: Record, k: string): Numeric
  {
    if k in body then JsNumber(body[k]) else NaN
  }

  /** `validateProductPrices`: 400 when `Number(srp) > Number(mrp)`; every
      comparison with `NaN` is false, so it passes. */
  function ValidateProductPrices(body: Record): Option<ApiError>
  {
    var srp := BodyNumber(body, "srp");
    var mrp := BodyNumber(body, "mrp");
    if srp.Finite? && mrp.Finite? && srp.n > mrp.n then Some(Rejected(400, PriceMessage)) else None
  }

  /** The check fails exactly when both prices are numbers and the selling
      price exceeds the list price: equal prices pass, and so does a body
      that lacks either price or holds text that is not a number. */
  lemma PriceCheckCases(body: Record)
    ensures var r := ValidateProductPrices(body);
      var srp := BodyNumber(body, "srp");
      var mrp := BodyNumber(body, "mrp");
      && (r.Some? <==> srp.Finite? && mrp.Finite? && srp.n > mrp.n)
      && (r.Some? ==> r.value == Rejected(400, PriceMessage))
      && ("srp" !in body || "mrp" !in body ==> r.None?)
      && (srp.Finite? && mrp.Finite? && srp.n == mrp.n ==> r.None?)
  {
  }

  // ------------------------------------------------------------- preprocess

  /** The request fields only the old form sent. */
  const LegacyFields: set<string> :=
    {"licenseMode", "licenseIsLimited", "licenseAvailableSeats", "licenseKeysToAdd", "isFeatured"}

  /** `req.body.license = req.body.license || {}` followed by
      `license.mode = licenseMode`. Setting a property on a string, number
      or `true` throws in a module (strict mode); an array takes the property
      outside its elements, which the JSON value does not show. */
  function WithMode(license: Value, mode: Value): Result<Value, InternalCause>
  {
    var l := if Truthy(license) then license else Obj(map[]);
    match l
    case Obj(m) => Ok(Obj(m["mode" := mode]))
    case Arr(_) => Ok(l)
    case _ => Err(TypeFailure)
  }

  /** `preprocessProductBody`, as a value. */
  function Preprocessed(body: Record): Result<Record, InternalCause>
  {
    var lm := Field(body, "licenseMode");
    var withLicense :=
      if Truthy(lm) then
        var l := WithMode(Field(body, "license"), lm);
        if l.Err? then Err(l.error) else Ok(body["license" := l.value])
      else Ok(body);
    if withLicense.Err? then Err(withLicense.error)
    else
      var cleaned := withLicense.value - LegacyFields;
      if "subcategory" in cleaned && cleaned["subcategory"] == Str("") then Ok(cleaned["subcategory" := Null])
      else Ok(cleaned)
  }

  /** The cleaned body has none of the legacy fields, an empty subcategory
      becomes `null`, a truthy `licenseMode` lands in `license.mode` with
      the license's other fields kept, and every other field is untouched. */
  lemma PreprocessRules(body: Record)
    ensures var r := Preprocessed(body);
      r.Ok? ==>
        && (forall k :: k in LegacyFields ==> k !in r.value)
        && (Field(body, "subcategory") == Str("") && "subcategory" in body ==> r.value["subcategory"] == Null)
        && (forall k :: k in body && k !in LegacyFields && k != "license" && k != "subcategory" ==>
              k in r.value && r.value[k] == body[k])
        && (forall k :: k in r.value ==> k in body || k == "license")
        && (Truthy(Field(body, "licenseMode")) && Field(body, "license").Obj? ==>
              && r.value["license"] == Obj(Field(body, "license").fields["mode" := body["licenseMode"]]))
        && (Truthy(Field(body, "licenseMode")) && !Truthy(Field(body, "license")) ==>
              r.value["license"] == Obj(map["mode" := body["licenseMode"]]))
        && (!Truthy(Field(body, "licenseMode")) ==> Field(r.value, "license") == Field(body, "license"))
  {
  }

  /** Only a truthy `licenseMode` next to a license that is a string, a
      number or `true` makes the cleanup throw. */
  lemma PreprocessFails(body: Record)
    ensures Preprocessed(body).Err? <==>
      Truthy(Field(body, "licenseMode")) && Truthy(Field(body, "license"))
      && !Field(body, "license").Obj? && !Field(body, "license").Arr?
  {
  }

  /** Cleaning an already cleaned body changes nothing. */
  lemma PreprocessIdempotent(body: Record)
    requires Preprocessed(body).Ok?
    ensures Preprocessed(Preprocessed(body).value) == Preprocessed(body)
  {
    var r := Preprocessed(body).value;
    assert "licenseMode" !in r;
    assert r - LegacyFields == r;
  }

  /** The request body, which the middleware edits in place. */
  class RequestBody {
    var fields: Record

    constructor (fields: Record)
      ensures this.fields == fields
    {
      this.fields := fields;
    }

    /** `preprocessProductBody`: copies the legacy mode, deletes the legacy
        fields and normalises the subcategory. When the mode
        cannot be set the body is left as it was. */
    method Preprocess() returns (err: Option<InternalCause>)
      modifies this
      ensures var r := Preprocessed(old(fields));
        && (err.None? <==> r.Ok?)
        && (r.Ok? ==> fields == r.value)
        && (r.Err? ==> err == Some(r.error) && fields == old(fields))
    {
      var lm := Field(fields, "licenseMode");
      if Truthy(lm) {
        var l := WithMode(Field(fields, "license"), lm);
        if l.Err? {
          return Some(l.error);
        }
        fields := fields["license" := l.value];
      }
      fields := fields - LegacyFields;
      if "subcategory" in fields && fields["subcategory"] == Str("") {
        fields := fields["subcategory" := Null];
      }
      return None;
    }
  }
}
