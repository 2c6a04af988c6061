/** Sales members (src/models/SalesMember.js and
    src/controllers/salesMemberController.js): the admin endpoints that
    create, update and list the people who log into the sales portal.

    The collection is a sequence of stored members. Password hashing is an
    oracle `hash`, the clock a parameter `now`, and a fresh `_id` is given by
    the caller. Mongoose's schema validation and its unique indexes decide
    whether `save` succeeds; both are written out here. */
module SalesMembers {
  import opened Values
  import opened Conversions

  /** Mongoose's cast of a value assigned to a `Number` path: `null` and the
      empty string give `null`; an array is refused, and so is whatever
      `Number` reads as `NaN` (both shown as `NaN`, which validation
      refuses); anything else is the number `Number` reads. */
  function CastNumber(v: Value): (r: Numeric)
    ensures r.Blank? <==> v.Null? || v == Str("")
    ensures v.Arr? || v.Obj? ==> r.NaN?
    ensures !v.Null? && v != Str("") && !v.Arr? ==> r == JsNumber(v)
  {
    if v.Null? || v == Str("") then Blank else if v.Arr? then NaN else JsNumber(v)
  }

  /** Mongoose's cast of a value assigned to a `String` path: a string is
      kept, a number or boolean becomes its text, an object with a
      non-empty string `_id` becomes that id; an array, any other object and
      `null` give no string (a cast error, or a missing required value). */
  function CastString(v: Value): (r: Option<string>)
    ensures v.Str? || v.Num? || v.Bool? ==> r == Some(StringOf(v))
    ensures v.Null? || v.Arr? ==> r.None?
    ensures v.Obj? ==> (r.Some? <==> "_id" in v.fields && v.fields["_id"].Str? && v.fields["_id"].s != "")
  {
    match v
    case Str(s) => Some(s)
    case Num(_) => Some(StringOf(v))
    case Bool(_) => Some(StringOf(v))
    case Obj(fields) =>
      if "_id" in fields && fields["_id"].Str? && fields["_id"].s != "" then Some(fields["_id"].s) else None
    case _ => None
  }

  // ------------------------------------------------------------- the schema

  /** `/^\d{10}$/`. */
  predicate IsPhone(s: string)
  {
    |s| == 10 && AllDigits(s)
  }

  /** `/\S+@\S+\.\S+/`, unanchored: some non-space character, an `@`, at
      least one non-space character, a `.`, and a non-space character. */
  predicate EmailPattern(s: string)
  {
    exists at, dot | 0 <= at < |s| && 0 <= dot < |s| :: EmailAt(s, at, dot)
  }

  /** The `@` at `at` and the `.` at `dot` witness the email pattern. */
  predicate EmailAt(s: string, at: int, dot: int)
  {
    && 1 <= at && at + 1 < dot && dot + 1 < |s| && s[at] == '@' && s[dot] == '.'
    && !IsWs(s[at - 1]) && !IsWs(s[dot + 1])
    && forall k :: at < k < dot ==> !IsWs(s[k])
  }

  /** A stored member. `password` is the bcrypt hash; `null` numbers are
      `None`. */
  datatype Member = Member(
    id: nat,
    name: string,
    email: string,
    phone: string,
    password: string,
    topLine: Option<int>,
    monthlyTarget: Option<int>,
    isActive: bool,
    isAdmin: bool,
    createdAt: int,
    updatedAt: int)

  function NumberValue(n: Option<int>): Value
  {
    if n.Some? then Num(n.value) else Null
  }

  /** The document as `toObject()` or `lean()` hands it to a handler (the
      password only when it was selected). */
  function AsRecord(m: Member, withPassword: bool): (r: Record)
    ensures "password" in r <==> withPassword
    ensures "_id" in r && r["_id"] == Num(m.id)
    ensures "isAdmin" in r && r["isAdmin"] == Bool(m.isAdmin)
  {
    var base := map[
      "_id" := Num(m.id), "name" := Str(m.name), "email" := Str(m.email), "phone" := Str(m.phone),
      "topLine" := NumberValue(m.topLine), "monthlyTarget" := NumberValue(m.monthlyTarget),
      "isActive" := Bool(m.isActive), "isAdmin" := Bool(m.isAdmin),
      "createdAt" := Num(m.createdAt), "updatedAt" := Num(m.updatedAt)];
    if withPassword then base["password" := Str(m.password)] else base
  }

  /** What every stored member satisfies: the schema's `required`, `match`
      and `min` rules. */
  predicate WellFormed(m: Member)
  {
    && m.name != "" && EmailPattern(m.email) && IsPhone(m.phone)
    && (m.topLine.Some? ==> m.topLine.value >= 0)
    && (m.monthlyTarget.Some? ==> m.monthlyTarget.value >= 0)
  }

  /** The collection as its unique indexes keep it: no two members share an
      `_id`, a name, an email or a phone, and each is well formed. */
  predicate Consistent(ms: seq<Member>)
  {
    && (forall i :: 0 <= i < |ms| ==> WellFormed(ms[i]))
    && (forall i, j :: 0 <= i < j < |ms| ==>
          ms[i].id != ms[j].id && ms[i].name != ms[j].name
          && ms[i].email != ms[j].email && ms[i].phone != ms[j].phone)
  }

  /** A document being prepared for `save`: `newPassword` is the plain text
      the hashing hook will replace. */
  datatype Draft = Draft(
    name: string,
    email: string,
    phone: string,
    password: string,
    newPassword: Option<string>,
    topLine: Numeric,
    monthlyTarget: Numeric,
    isActive: bool,
    isAdmin: bool)

  predicate NumberAccepted(n: Numeric)
  {
    n.Blank? || (n.Finite? && n.n >= 0)
  }

  /** Schema validation: required strings are non-empty, email and phone
      match their patterns, a new password has at least 6 characters, the
      numbers are numbers and not negative. */
  predicate SchemaAccepts(d: Draft)
  {
    && d.name != "" && d.email != "" && EmailPattern(d.email) && IsPhone(d.phone)
    && (d.newPassword.Some? ==> |d.newPassword.value| >= 6)
    && NumberAccepted(d.topLine) && NumberAccepted(d.monthlyTarget)
  }

  /** No other member holds the draft's name, email or phone. */
  predicate UniqueAmong(d: Draft, others: seq<Member>)
  {
    forall m :: m in others ==> m.name != d.name && m.email != d.email && m.phone != d.phone
  }

  function StoredNumber(n: Numeric): Option<int>
  {
    if n.Finite? then Some(n.n) else None
  }

  /** `doc.save()`: validation, then the hashing hook, then the unique
      indexes. */
  function Save(d: Draft, id: nat, createdAt: int, others: seq<Member>, now: int, hash: string -> string): (r: Result<Member, ApiError>)
    ensures r.Ok? ==> WellFormed(r.value) && r.value.id == id
    ensures r.Err? ==> r.error.Internal?
    ensures r.Ok? ==> forall m :: m in others ==>
      m.name != r.value.name && m.email != r.value.email && m.phone != r.value.phone
  {
    if !SchemaAccepts(d) then Err(Internal(SchemaRejected))
    else if !UniqueAmong(d, others) then Err(Internal(DuplicateKey))
    else
      var pw := if d.newPassword.Some? then hash(d.newPassword.value) else d.password;
      Ok(Member(id, d.name, d.email, d.phone, pw, StoredNumber(d.topLine), StoredNumber(d.monthlyTarget),
                d.isActive, d.isAdmin, createdAt, now))
  }

  // ---------------------------------------------------------------- toPublic

  const PublicFields: set<string> :=
    {"_id", "name", "email", "phone", "monthlyTarget", "topLine", "isActive", "createdAt", "updatedAt"}

  /** `toPublic(doc)`: `null` for a missing document, else the listed fields
      it has (a field the document lacks is `undefined` and leaves the JSON). */
  function ToPublic(doc: Option<Record>): (r: Option<Record>)
    ensures r.None? <==> doc.None?
    ensures r.Some? ==> "password" !in r.value && "isAdmin" !in r.value
    ensures r.Some? ==> r.value.Keys == PublicFields * doc.value.Keys
    ensures r.Some? ==> forall k :: k in r.value ==> r.value[k] == doc.value[k]
  {
    if doc.None? then None
    else Some(map k | k in doc.value && k in PublicFields :: doc.value[k])
  }

  /** A stored member is shown with every public field and nothing else. */
  lemma ToPublicOfMember(m: Member, withPassword: bool)
    ensures var r := ToPublic(Some(AsRecord(m, withPassword)));
      && r.Some? && r.value.Keys == PublicFields
      && r.value["email"] == Str(m.email) && r.value["phone"] == Str(m.phone)
  {
    var rec := AsRecord(m, withPassword);
    assert forall k :: k in PublicFields ==> k in rec;
  }

  // ------------------------------------------------------------------ create

  /** The email path's `lowercase` and `trim` setters, which Mongoose runs
      on an assigned value and also on the value of a query filter. */
  function EmailSetters(s: string): string
  {
    Trim(Lower(s))
  }

  /** The email the pre-create lookup queries: the handler lower-cases the
      text, and the query cast applies the path's setters. */
  function LookupEmail(email: string): string
  {
    EmailSetters(Lower(email))
  }

  /** The setters give the same text in either order, and the lookup's key is
      the email `create` stores: the handler's `toLowerCase().trim()`,
      which the setters leave unchanged. */
  lemma LookupEmailIsStored(email: string)
    ensures Lower(Trim(email)) == EmailSetters(email)
    ensures LookupEmail(email) == Trim(Lower(email))
    ensures EmailSetters(Trim(Lower(email))) == Trim(Lower(email))
  {
    LowerTrimCommute(email);
    LowerIdempotent(email);
    LowerTrimCommute(Lower(email));
    TrimIdempotent(Lower(email));
  }

  /** `findOne({ $or: [{ email: key }, { phone }] })` finds a member. */
  predicate Taken(ms: seq<Member>, emailKey: string, phoneKey: string)
  {
    exists m :: m in ms && (m.email == emailKey || m.phone == phoneKey)
  }

  const NameRequired := "Name is required"
  const EmailRequired := "Email is required"
  const PhoneRequired := "Phone is required"
  const PasswordTooShort := "Password must be at least 6 characters"
  const AlreadyInUse := "Email or phone already in use"

  /** The guards of `addSalesMember` before any lookup, in order. */
  function CreateGuards(body: Record): Option<ApiError>
  {
    var name := Field(body, "name");
    var email := Field(body, "email");
    var phone := Field(body, "phone");
    var password := Field(body, "password");
    if name.Null? || (name.Str? && Trim(name.s) == "") then Some(Rejected(400, NameRequired))
    else if !name.Str? then Some(Internal(TypeFailure))
    else if !Truthy(email) then Some(Rejected(400, EmailRequired))
    else if !Truthy(phone) then Some(Rejected(400, PhoneRequired))
    else if !Truthy(password) || |StringOf(password)| < 6 then Some(Rejected(400, PasswordTooShort))
    else if !email.Str? then Some(Internal(TypeFailure))
    else None
  }

  /** `topLine = null` and `monthlyTarget = null` defaults, `''` as `null`. */
  function CreateNumber(body: Record, key: string): Numeric
  {
    var v := Field(body, key);
    if v == Str("") then Blank else CastNumber(v)
  }

  /** The password the handler passes on casts to a string. */
  predicate PasswordCasts(body: Record)
  {
    CastString(Field(body, "password")).Some?
  }

  /** The document `SalesMember.create` is given, after the casts. */
  function CreateDraft(body: Record): Draft
    requires CreateGuards(body).None? && PasswordCasts(body)
  {
    Draft(Trim(body["name"].s), Trim(Lower(body["email"].s)), Trim(StringOf(body["phone"])), "",
          CastString(body["password"]),
          CreateNumber(body, "topLine"), CreateNumber(body, "monthlyTarget"),
          if "isActive" in body then Truthy(body["isActive"]) else true, false)
  }

  /** `addSalesMember`: the guards, the duplicate lookup, then `create`,
      whose cast errors fail validation like its rules do. */
  function CreateOutcome(ms: seq<Member>, body: Record, id: nat, now: int, hash: string -> string): Result<Member, ApiError>
  {
    var guard := CreateGuards(body);
    if guard.Some? then Err(guard.value)
    else if Taken(ms, LookupEmail(body["email"].s), Trim(StringOf(body["phone"]))) then Err(Rejected(409, AlreadyInUse))
    else if !PasswordCasts(body) then Err(Internal(SchemaRejected))
    else Save(CreateDraft(body), id, now, ms, now, hash)
  }

  /** The 400s come in the order name, email, phone, password, each exactly
      when its own check fails and the earlier ones pass. */
  lemma CreateValidationOrder(ms: seq<Member>, body: Record, id: nat, now: int, hash: string -> string)
    ensures var r := CreateOutcome(ms, body, id, now, hash);
      var name := Field(body, "name");
      var nameBlank := name.Null? || (name.Str? && Trim(name.s) == "");
      && (r == Err(Rejected(400, NameRequired)) <==> nameBlank)
      && (r == Err(Rejected(400, EmailRequired)) <==> name.Str? && !nameBlank && !Truthy(Field(body, "email")))
      && (r == Err(Rejected(400, PhoneRequired)) <==>
            name.Str? && !nameBlank && Truthy(Field(body, "email")) && !Truthy(Field(body, "phone")))
      && (r == Err(Rejected(400, PasswordTooShort)) <==>
            name.Str? && !nameBlank && Truthy(Field(body, "email")) && Truthy(Field(body, "phone"))
            && (!Truthy(Field(body, "password")) || |StringOf(Field(body, "password"))| < 6))
  {
    assert NameRequired != EmailRequired && NameRequired != PhoneRequired && EmailRequired != PhoneRequired;
    assert |PasswordTooShort| != |NameRequired| && |PasswordTooShort| != |EmailRequired| && |PasswordTooShort| != |PhoneRequired|;
    assert |AlreadyInUse| != |NameRequired| && |AlreadyInUse| != |EmailRequired| && |AlreadyInUse| != |PhoneRequired|;
    assert |AlreadyInUse| != |PasswordTooShort|;
  }

  /** Once the guards pass, the create is refused with 409 exactly when a
      member already holds the normalised email or phone. */
  lemma CreateConflict(ms: seq<Member>, body: Record, id: nat, now: int, hash: string -> string)
    requires CreateGuards(body).None?
    ensures CreateOutcome(ms, body, id, now, hash) == Err(Rejected(409, AlreadyInUse))
      <==> Taken(ms, Trim(Lower(body["email"].s)), Trim(StringOf(body["phone"])))
  {
    LookupEmailIsStored(body["email"].s);
    var r := CreateOutcome(ms, body, id, now, hash);
    if Taken(ms, LookupEmail(body["email"].s), Trim(StringOf(body["phone"]))) {
      assert r == Err(Rejected(409, AlreadyInUse));
    } else if !PasswordCasts(body) {
      assert r == Err(Internal(SchemaRejected));
    } else {
      assert r == Save(CreateDraft(body), id, now, ms, now, hash);
    }
  }

  /** Past the lookup, Mongoose's casts refuse a password that is an array
      or a plain object, and a number field holding an array or an object:
      the create fails with a 500. */
  lemma CreateCastFailures(ms: seq<Member>, body: Record, id: nat, now: int, hash: string -> string)
    requires CreateGuards(body).None?
    requires !Taken(ms, LookupEmail(body["email"].s), Trim(StringOf(body["phone"])))
    ensures var password := body["password"];
      password.Arr? || (password.Obj? && "_id" !in password.fields) ==>
        CreateOutcome(ms, body, id, now, hash) == Err(Internal(SchemaRejected))
    ensures var top := Field(body, "topLine");
      var target := Field(body, "monthlyTarget");
      top.Arr? || top.Obj? || target.Arr? || target.Obj? ==>
        CreateOutcome(ms, body, id, now, hash).Err? && CreateOutcome(ms, body, id, now, hash).error.Internal?
  {
    if PasswordCasts(body) {
      var d := CreateDraft(body);
      assert CreateOutcome(ms, body, id, now, hash) == Save(d, id, now, ms, now, hash);
      if Field(body, "topLine").Arr? || Field(body, "topLine").Obj? || Field(body, "monthlyTarget").Arr? || Field(body, "monthlyTarget").Obj? {
        assert !SchemaAccepts(d);
      }
    }
  }

  /** A created member carries the trimmed name, the lowercased and trimmed
      email, the trimmed phone, the hashed password text, `isActive` as a
      boolean defaulting to true, and is no administrator. */
  lemma CreateNormalises(ms: seq<Member>, body: Record, id: nat, now: int, hash: string -> string)
    requires CreateGuards(body).None?
    ensures var r := CreateOutcome(ms, body, id, now, hash);
      var password := body["password"];
      r.Ok? ==>
        && r.value.name == Trim(body["name"].s)
        && r.value.email == Trim(Lower(body["email"].s))
        && r.value.phone == Trim(StringOf(body["phone"]))
        && PasswordCasts(body) && r.value.password == hash(CastString(password).value)
        && (password.Str? || password.Num? || password.Bool? ==> r.value.password == hash(StringOf(password)))
        && r.value.isActive == (if "isActive" in body then Truthy(body["isActive"]) else true)
        && !r.value.isAdmin && r.value.id == id
        && r.value.createdAt == now && r.value.updatedAt == now
  {
    var r := CreateOutcome(ms, body, id, now, hash);
    if !Taken(ms, LookupEmail(body["email"].s), Trim(StringOf(body["phone"]))) && PasswordCasts(body) {
      var d := CreateDraft(body);
      assert r == Save(d, id, now, ms, now, hash);
    } else {
      assert !r.Ok?;
    }
  }

  /** A created member's `topLine` and `monthlyTarget` are the numbers
      given, and `null` when missing, `null` or `''`. */
  lemma CreateNumbers(ms: seq<Member>, body: Record, id: nat, now: int, hash: string -> string)
    requires CreateGuards(body).None?
    ensures var r := CreateOutcome(ms, body, id, now, hash);
      var top := Field(body, "topLine");
      var target := Field(body, "monthlyTarget");
      r.Ok? ==>
        && (top == Null || top == Str("") ==> r.value.topLine.None?)
        && (target == Null || target == Str("") ==> r.value.monthlyTarget.None?)
        && (top.Num? ==> r.value.topLine == Some(top.n))
        && (target.Num? ==> r.value.monthlyTarget == Some(target.n))
  {
    var r := CreateOutcome(ms, body, id, now, hash);
    if !Taken(ms, LookupEmail(body["email"].s), Trim(StringOf(body["phone"]))) && PasswordCasts(body) {
      var d := CreateDraft(body);
      assert r == Save(d, id, now, ms, now, hash);
    } else {
      assert !r.Ok?;
    }
  }

  lemma CreateKeepsConsistent(ms: seq<Member>, body: Record, id: nat, now: int, hash: string -> string)
    requires Consistent(ms)
    requires forall m :: m in ms ==> m.id != id
    ensures var r := CreateOutcome(ms, body, id, now, hash);
      r.Ok? ==> Consistent(ms + [r.value])
  {
    if CreateGuards(body).None? && PasswordCasts(body) {
      var r := Save(CreateDraft(body), id, now, ms, now, hash);
      if r.Ok? {
        AppendKeepsConsistent(ms, r.value);
      }
    }
  }

  /** A well-formed member that shares no key with the collection can be
      appended to it. */
  lemma AppendKeepsConsistent(ms: seq<Member>, m: Member)
    requires Consistent(ms) && WellFormed(m)
    requires forall x :: x in ms ==> x.id != m.id && x.name != m.name && x.email != m.email && x.phone != m.phone
    ensures Consistent(ms + [m])
  {
    var ms' := ms + [m];
    forall i, j | 0 <= i < j < |ms'|
      ensures ms'[i].id != ms'[j].id && ms'[i].name != ms'[j].name
        && ms'[i].email != ms'[j].email && ms'[i].phone != ms'[j].phone
    {
      if j == |ms| {
        assert ms'[i] in ms;
      }
    }
  }

  /** The lookup agrees with the unique indexes: when it finds nothing,
      no stored member holds the email or phone the draft carries, so a
      create that gets past it is refused, if at all, by validation or for
      a name another member holds. */
  lemma CreateLookupMatchesIndexes(ms: seq<Member>, body: Record, id: nat, now: int, hash: string -> string)
    requires CreateGuards(body).None?
    requires !Taken(ms, LookupEmail(body["email"].s), Trim(StringOf(body["phone"])))
    ensures var r := CreateOutcome(ms, body, id, now, hash);
      || r.Ok?
      || r == Err(Internal(SchemaRejected))
      || (r == Err(Internal(DuplicateKey)) && exists m :: m in ms && m.name == Trim(body["name"].s))
  {
    var r := CreateOutcome(ms, body, id, now, hash);
    if !PasswordCasts(body) {
      assert r == Err(Internal(SchemaRejected));
    } else {
      var d := CreateDraft(body);
      assert r == Save(d, id, now, ms, now, hash);
      assert forall m :: m in ms ==> m.email != d.email && m.phone != d.phone by {
        LookupEmailIsStored(body["email"].s);
      }
      if SchemaAccepts(d) && !UniqueAmong(d, ms) {
        var m :| m in ms && (m.name == d.name || m.email == d.email || m.phone == d.phone);
        assert m.name == Trim(body["name"].s);
      }
    }
  }

  // ------------------------------------------------------------------ update

  function IndexOfId(ms: seq<Member>, id: nat): (r: Option<nat>)
    ensures r.Some? ==> r.value < |ms| && ms[r.value].id == id
    ensures r.None? ==> forall m :: m in ms ==> m.id != id
  {
    if ms == [] then None
    else if ms[0].id == id then Some(0)
    else
      var rest := IndexOfId(ms[1..], id);
      if rest.Some? then Some(rest.value + 1) else None
  }

  function Without(ms: seq<Member>, i: nat): seq<Member>
    requires i < |ms|
  {
    ms[..i] + ms[i + 1..]
  }

  function DraftOf(m: Member): Draft
  {
    Draft(m.name, m.email, m.phone, m.password, None,
          if m.topLine.Some? then Finite(m.topLine.value) else Blank,
          if m.monthlyTarget.Some? then Finite(m.monthlyTarget.value) else Blank,
          m.isActive, m.isAdmin)
  }

  const NotFound := "Sales member not found"
  const EmailInUse := "Email already in use"
  const PhoneInUse := "Phone already in use"
  const NewPasswordTooShort := "If changing password, minimum 6 characters"

  /** `monthlyTarget`/`topLine` on update: `''` is `null`, anything else is
      `Number(value)`. */
  function UpdateNumber(v: Value): Numeric
  {
    if v == Str("") then Blank else JsNumber(v)
  }

  /** The email step: a truthy email that differs from the stored one after
      lowercasing and trimming must be unused by the other members. */
  function EmailStep(d: Draft, body: Record, others: seq<Member>): Result<Draft, ApiError>
  {
    var email := Field(body, "email");
    if !Truthy(email) then Ok(d)
    else if !email.Str? then Err(Internal(TypeFailure))
    else
      var e := Trim(Lower(email.s));
      if e == d.email then Ok(d)
      else if exists m :: m in others && m.email == e then Err(Rejected(409, EmailInUse))
      else Ok(d.(email := e))
  }

  /** The phone step, on `String(phone).trim()`. */
  function PhoneStep(d: Draft, body: Record, others: seq<Member>): Result<Draft, ApiError>
  {
    var phone := Field(body, "phone");
    if !Truthy(phone) then Ok(d)
    else
      var p := Trim(StringOf(phone));
      if p == d.phone then Ok(d)
      else if exists m :: m in others && m.phone == p then Err(Rejected(409, PhoneInUse))
      else Ok(d.(phone := p))
  }

  /** The fields copied when present in the body (`!== undefined`). */
  function MergeFields(d: Draft, body: Record): Draft
  {
    d.(name := if "name" in body then Trim(StringOf(body["name"])) else d.name,
       monthlyTarget := if "monthlyTarget" in body then UpdateNumber(body["monthlyTarget"]) else d.monthlyTarget,
       topLine := if "topLine" in body then UpdateNumber(body["topLine"]) else d.topLine,
       isActive := if "isActive" in body then Truthy(body["isActive"]) else d.isActive)
  }

  /** The password step: a truthy password shorter than 6 characters is
      refused before `save`. */
  function PasswordStep(d: Draft, body: Record): Result<Draft, ApiError>
  {
    var password := Field(body, "password");
    if !Truthy(password) then Ok(d)
    else if |StringOf(password)| < 6 then Err(Rejected(400, NewPasswordTooShort))
    else Ok(d.(newPassword := Some(StringOf(password))))
  }

  /** `updateSalesMember`: find, email, phone, merge, password, save. */
  function UpdateOutcome(ms: seq<Member>, id: nat, body: Record, now: int, hash: string -> string): Result<Member, ApiError>
  {
    var i := IndexOfId(ms, id);
    if i.None? then Err(Rejected(404, NotFound))
    else
      var others := Without(ms, i.value);
      var e := EmailStep(DraftOf(ms[i.value]), body, others);
      if e.Err? then Err(e.error)
      else
        var p := PhoneStep(e.value, body, others);
        if p.Err? then Err(p.error)
        else
          var w := PasswordStep(MergeFields(p.value, body), body);
          if w.Err? then Err(w.error)
          else Save(w.value, id, ms[i.value].createdAt, others, now, hash)
  }

  /** 404 exactly for an unknown id. */
  lemma UpdateUnknownId(ms: seq<Member>, id: nat, body: Record, now: int, hash: string -> string)
    ensures UpdateOutcome(ms, id, body, now, hash) == Err(Rejected(404, NotFound))
      <==> forall m :: m in ms ==> m.id != id
  {
  }

  /** An update never changes the id, the creation time or the
      administrator flag, and stamps the update time. */
  lemma UpdateKeepsIdentity(ms: seq<Member>, id: nat, body: Record, now: int, hash: string -> string)
    ensures var r := UpdateOutcome(ms, id, body, now, hash);
      r.Ok? ==>
        var old_ := ms[IndexOfId(ms, id).value];
        && r.value.id == id && r.value.createdAt == old_.createdAt && r.value.isAdmin == old_.isAdmin
        && r.value.updatedAt == now
  {
  }

  /** A field the body leaves undefined (for email, phone and password:
      falsy) keeps its stored value. */
  lemma UpdateKeepsUndefinedFields(ms: seq<Member>, id: nat, body: Record, now: int, hash: string -> string)
    ensures var r := UpdateOutcome(ms, id, body, now, hash);
      r.Ok? ==>
        var old_ := ms[IndexOfId(ms, id).value];
        && (!Truthy(Field(body, "email")) ==> r.value.email == old_.email)
        && (!Truthy(Field(body, "phone")) ==> r.value.phone == old_.phone)
        && ("name" !in body ==> r.value.name == old_.name)
        && ("monthlyTarget" !in body ==> r.value.monthlyTarget == old_.monthlyTarget)
        && ("topLine" !in body ==> r.value.topLine == old_.topLine)
        && ("isActive" !in body ==> r.value.isActive == old_.isActive)
        && (!Truthy(Field(body, "password")) ==> r.value.password == old_.password)
  {
    var r := UpdateOutcome(ms, id, body, now, hash);
    var i := IndexOfId(ms, id);
    if i.Some? {
      var others := Without(ms, i.value);
      var d0 := DraftOf(ms[i.value]);
      var e := EmailStep(d0, body, others);
      if e.Ok? {
        assert e.value == d0.(email := e.value.email);
        var p := PhoneStep(e.value, body, others);
        if p.Ok? {
          assert p.value == e.value.(phone := p.value.phone);
          var w := PasswordStep(MergeFields(p.value, body), body);
          if w.Ok? {
            assert w.value == MergeFields(p.value, body).(newPassword := w.value.newPassword);
            assert r == Save(w.value, id, ms[i.value].createdAt, others, now, hash);
            SaveKeepsDraft(w.value, id, ms[i.value].createdAt, others, now, hash);
          }
        }
      }
    }
  }

  /** A saved draft is stored field for field. */
  lemma SaveKeepsDraft(d: Draft, id: nat, createdAt: int, others: seq<Member>, now: int, hash: string -> string)
    ensures var r := Save(d, id, createdAt, others, now, hash);
      r.Ok? ==>
        && r.value.name == d.name && r.value.email == d.email && r.value.phone == d.phone
        && r.value.isActive == d.isActive
        && r.value.topLine == StoredNumber(d.topLine) && r.value.monthlyTarget == StoredNumber(d.monthlyTarget)
        && (d.newPassword.None? ==> r.value.password == d.password)
  {
  }

  /** On update `''` clears a number, while `null` is `Number(null)`, which
      stores 0; a present field is otherwise read by `Number`. */
  lemma UpdateNumberRules(ms: seq<Member>, id: nat, body: Record, now: int, hash: string -> string)
    ensures var r := UpdateOutcome(ms, id, body, now, hash);
      r.Ok? ==>
        && (Field(body, "topLine") == Str("") && "topLine" in body ==> r.value.topLine.None?)
        && (Field(body, "topLine") == Null && "topLine" in body ==> r.value.topLine == Some(0))
        && ("topLine" in body && JsNumber(body["topLine"]).Finite? && body["topLine"] != Str("") ==>
              r.value.topLine == Some(JsNumber(body["topLine"]).n))
        && (Field(body, "monthlyTarget") == Str("") && "monthlyTarget" in body ==> r.value.monthlyTarget.None?)
        && (Field(body, "monthlyTarget") == Null && "monthlyTarget" in body ==> r.value.monthlyTarget == Some(0))
  {
  }

  /** A truthy password shorter than 6 characters always fails the update;
      when the member exists and the email and phone steps pass, the failure
      is exactly the 400 of the password check. */
  lemma UpdateShortPasswordRefused(ms: seq<Member>, id: nat, body: Record, now: int, hash: string -> string)
    requires Truthy(Field(body, "password")) && |StringOf(Field(body, "password"))| < 6
    ensures var r := UpdateOutcome(ms, id, body, now, hash);
      && r.Err?
      && (var i := IndexOfId(ms, id);
          i.Some? && EmailStep(DraftOf(ms[i.value]), body, Without(ms, i.value)).Ok?
          && PhoneStep(EmailStep(DraftOf(ms[i.value]), body, Without(ms, i.value)).value, body, Without(ms, i.value)).Ok?
          ==> r == Err(Rejected(400, NewPasswordTooShort)))
  {
  }

  /** The stored email changes only to the lowercased, trimmed request email
      and only when no other member holds it; likewise the phone. */
  lemma UpdateEmailPhoneUnique(ms: seq<Member>, id: nat, body: Record, now: int, hash: string -> string)
    ensures var r := UpdateOutcome(ms, id, body, now, hash);
      r.Ok? ==>
        var i := IndexOfId(ms, id).value;
        && (r.value.email == ms[i].email
            || (Field(body, "email").Str? && r.value.email == Trim(Lower(Field(body, "email").s))))
        && (r.value.phone == ms[i].phone || r.value.phone == Trim(StringOf(Field(body, "phone"))))
        && forall m :: m in Without(ms, i) ==> m.email != r.value.email && m.phone != r.value.phone
  {
    var r := UpdateOutcome(ms, id, body, now, hash);
    if r.Ok? {
      var i := IndexOfId(ms, id).value;
      var others := Without(ms, i);
      var e := EmailStep(DraftOf(ms[i]), body, others).value;
      var p := PhoneStep(e, body, others).value;
      var w := PasswordStep(MergeFields(p, body), body).value;
      assert r == Save(w, id, ms[i].createdAt, others, now, hash);
      assert w.email == p.email == e.email && w.phone == p.phone;
    }
  }

  lemma WithoutMembers(ms: seq<Member>, i: nat)
    requires i < |ms|
    ensures forall j :: 0 <= j < |ms| && j != i ==> ms[j] in Without(ms, i)
  {
    forall j | 0 <= j < |ms| && j != i
      ensures ms[j] in Without(ms, i)
    {
      if j < i {
        assert Without(ms, i)[j] == ms[j];
      } else {
        assert Without(ms, i)[j - 1] == ms[j];
      }
    }
  }

  /** An accepted update written back in place keeps the collection
      consistent. */
  lemma UpdateKeepsConsistent(ms: seq<Member>, id: nat, body: Record, now: int, hash: string -> string)
    requires Consistent(ms)
    ensures var r := UpdateOutcome(ms, id, body, now, hash);
      r.Ok? ==> Consistent(ms[IndexOfId(ms, id).value := r.value])
  {
    var r := UpdateOutcome(ms, id, body, now, hash);
    if r.Ok? {
      var i := IndexOfId(ms, id).value;
      var ms' := ms[i := r.value];
      WithoutMembers(ms, i);
      forall a, b | 0 <= a < b < |ms'|
        ensures ms'[a].id != ms'[b].id && ms'[a].name != ms'[b].name
          && ms'[a].email != ms'[b].email && ms'[a].phone != ms'[b].phone
      {
        if a == i {
          assert ms[b] in Without(ms, i);
        } else if b == i {
          assert ms[a] in Without(ms, i);
        }
      }
    }
  }

  /** The mutable document `findById(...).select('+password')` returns; the
      handler assigns its fields one by one and then saves it. */
  class MemberDoc {
    var name: string
    var email: string
    var phone: string
    var password: string
    var newPassword: Option<string>
    var topLine: Numeric
    var monthlyTarget: Numeric
    var isActive: bool
    var isAdmin: bool

    function Snapshot(): Draft
      reads this
    {
      Draft(name, email, phone, password, newPassword, topLine, monthlyTarget, isActive, isAdmin)
    }

    constructor (m: Member)
      ensures Snapshot() == DraftOf(m)
    {
      var d := DraftOf(m);
      name, email, phone, password, newPassword := d.name, d.email, d.phone, d.password, d.newPassword;
      topLine, monthlyTarget, isActive, isAdmin := d.topLine, d.monthlyTarget, d.isActive, d.isAdmin;
    }

    /** The `!== undefined` assignments of name, targets and status. */
    method MergeBody(body: Record)
      modifies this
      ensures Snapshot() == MergeFields(old(Snapshot()), body)
    {
      if "name" in body {
        name := Trim(StringOf(body["name"]));
      }
      if "monthlyTarget" in body {
        monthlyTarget := UpdateNumber(body["monthlyTarget"]);
      }
      if "topLine" in body {
        topLine := UpdateNumber(body["topLine"]);
      }
      if "isActive" in body {
        isActive := Truthy(body["isActive"]);
      }
    }

    /** The email block: check, then assign. */
    method ChangeEmail(body: Record, others: seq<Member>) returns (err: Option<ApiError>)
      modifies this
      ensures var e := EmailStep(old(Snapshot()), body, others);
        && (err.Some? <==> e.Err?)
        && (e.Err? ==> err.value == e.error)
        && (e.Ok? ==> Snapshot() == e.value)
    {
      var email := Field(body, "email");
      if Truthy(email) {
        if !email.Str? {
          return Some(Internal(TypeFailure));
        }
        var e := Trim(Lower(email.s));
        if e != this.email {
          if exists m :: m in others && m.email == e {
            return Some(Rejected(409, EmailInUse));
          }
          this.email := e;
        }
      }
      return None;
    }

    /** The phone block: check, then assign. */
    method ChangePhone(body: Record, others: seq<Member>) returns (err: Option<ApiError>)
      modifies this
      ensures var p := PhoneStep(old(Snapshot()), body, others);
        && (err.Some? <==> p.Err?)
        && (p.Err? ==> err.value == p.error)
        && (p.Ok? ==> Snapshot() == p.value)
    {
      var phone := Field(body, "phone");
      if Truthy(phone) {
        var p := Trim(StringOf(phone));
        if p != this.phone {
          if exists m :: m in others && m.phone == p {
            return Some(Rejected(409, PhoneInUse));
          }
          this.phone := p;
        }
      }
      return None;
    }

    /** The password block: a short password is refused, a long one waits
        for the hashing hook. */
    method ChangePassword(body: Record) returns (err: Option<ApiError>)
      modifies this
      ensures var w := PasswordStep(old(Snapshot()), body);
        && (err.Some? <==> w.Err?)
        && (w.Err? ==> err.value == w.error)
        && (w.Ok? ==> Snapshot() == w.value)
    {
      var password := Field(body, "password");
      if Truthy(password) {
        if |StringOf(password)| < 6 {
          return Some(Rejected(400, NewPasswordTooShort));
        }
        newPassword := Some(StringOf(password));
      }
      return None;
    }
  }

  /** The sales-member collection. */
  class SalesMemberStore {
    var members: seq<Member>

    ghost predicate Valid()
      reads this
    {
      Consistent(members)
    }

    constructor ()
      ensures members == [] && Valid()
    {
      members := [];
    }

    /** `addSalesMember`: on success the new member is appended; on any
        error the collection is unchanged. */
    method AddSalesMember(body: Record, id: nat, now: int, hash: string -> string) returns (r: Result<Member, ApiError>)
      requires Valid()
      requires forall m :: m in members ==> m.id != id
      modifies this
      ensures Valid()
      ensures r == CreateOutcome(old(members), body, id, now, hash)
      ensures members == if r.Ok? then old(members) + [r.value] else old(members)
    {
      var guard := CreateGuards(body);
      if guard.Some? {
        return Err(guard.value);
      }
      if Taken(members, LookupEmail(body["email"].s), Trim(StringOf(body["phone"]))) {
        return Err(Rejected(409, AlreadyInUse));
      }
      if !PasswordCasts(body) {
        return Err(Internal(SchemaRejected));
      }
      r := Save(CreateDraft(body), id, now, members, now, hash);
      CreateKeepsConsistent(members, body, id, now, hash);
      if r.Ok? {
        members := members + [r.value];
      }
    }

    /** `updateSalesMember`: the document's fields are assigned one by one;
        only a successful `save` writes it back, so every error leaves the
        collection unchanged. */
    method UpdateSalesMember(id: nat, body: Record, now: int, hash: string -> string) returns (r: Result<Member, ApiError>)
      requires Valid()
      modifies this
      ensures Valid()
      ensures r == UpdateOutcome(old(members), id, body, now, hash)
      ensures r.Ok? ==>
        (IndexOfId(old(members), id).Some? && members == old(members)[IndexOfId(old(members), id).value := r.value])
      ensures r.Err? ==> members == old(members)
    {
      var ms := members;
      var found := IndexOfId(ms, id);
      if found.None? {
        return Err(Rejected(404, NotFound));
      }
      var i := found.value;
      var others := Without(ms, i);
      var doc := new MemberDoc(ms[i]);
      var err := doc.ChangeEmail(body, others);
      if err.Some? {
        return Err(err.value);
      }
      err := doc.ChangePhone(body, others);
      if err.Some? {
        return Err(err.value);
      }
      doc.MergeBody(body);
      err := doc.ChangePassword(body);
      if err.Some? {
        return Err(err.value);
      }
      r := Save(doc.Snapshot(), id, ms[i].createdAt, others, now, hash);
      UpdateKeepsConsistent(ms, id, body, now, hash);
      if r.Ok? {
        members := ms[i := r.value];
      }
    }
  }

  // -------------------------------------------------------------------- list

  /** `Math.max(1, Number(page))` with `page = 1` by default: the number
      `Number` reads, raised to 1 when below; `NaN` stays `NaN`. */
  function ListPage(page: Option<Value>): (r: Numeric)
    ensures var n := JsNumber(if page.Some? then page.value else Num(1));
      && (r.NaN? <==> n.NaN?) && (r.Finite? <==> n.Finite?)
      && (r.Finite? ==> r.n >= 1 && (n.n >= 1 ==> r.n == n.n) && (n.n < 1 ==> r.n == 1))
  {
    var n := JsNumber(if page.Some? then page.value else Num(1));
    if n.Finite? then Finite(Max(1, n.n)) else NaN
  }

  /** `Math.max(1, Math.min(100, Number(limit)))` with `limit = 10` by
      default: the number `Number` reads, moved into [1, 100] when outside;
      `NaN` stays `NaN`. */
  function ListLimit(limit: Option<Value>): (r: Numeric)
    ensures var n := JsNumber(if limit.Some? then limit.value else Num(10));
      && (r.NaN? <==> n.NaN?) && (r.Finite? <==> n.Finite?)
      && (r.Finite? ==>
            1 <= r.n <= 100 && (1 <= n.n <= 100 ==> r.n == n.n) && (n.n < 1 ==> r.n == 1) && (n.n > 100 ==> r.n == 100))
  {
    var n := JsNumber(if limit.Some? then limit.value else Num(10));
    if n.Finite? then Finite(Max(1, Min(100, n.n))) else NaN
  }

  /** The query as the handler sees it: the defaults are page 1 and limit
      10; the text of an integer gives that page (at least 1) and that limit
      (within [1, 100]); text `Number` cannot read gives `NaN`, as there is
      no fallback. */
  lemma ListClamps(n: int, s: string)
    ensures ListPage(None) == Finite(1) && ListLimit(None) == Finite(10)
    ensures ListPage(Some(Str(StringOf(Num(n))))) == Finite(Max(1, n))
    ensures ListLimit(Some(Str(StringOf(Num(n))))) == Finite(Max(1, Min(100, n)))
    ensures ListPage(Some(Str(s))).NaN? <==> NumberOfText(s).NaN?
    ensures ListLimit(Some(Str(s))).NaN? <==> NumberOfText(s).NaN?
  {
    NumberOfTextRoundTrip(n);
  }

  /** The `isActive` query filter: only the strings "true" and "false"
      filter, anything else lists both. */
  function ActiveFilter(isActive: Option<Value>): (r: Option<bool>)
    ensures r.Some? <==> isActive == Some(Str("true")) || isActive == Some(Str("false"))
    ensures r.Some? ==> (r.value <==> isActive == Some(Str("true")))
  {
    if isActive == Some(Str("true")) then Some(true)
    else if isActive == Some(Str("false")) then Some(false)
    else None
  }
}
