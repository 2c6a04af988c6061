/** Sales-portal authentication: the login handler and the cookie lifetime
    of src/controllers/salesAuthController.js, and the two middlewares of
    src/middlewares/salesAuth.js that admit a request and gate it by role.

    bcrypt's comparison is the oracle `matches(plain, hash)`, and
    `jwt.verify` the oracle `verify(token)`, which yields the decoded payload
    or nothing when it throws. Signing is not modelled: a login answers with
    the payload it would sign. */
module SalesAuth {
  import opened Values
  import opened Conversions
  import opened SalesMembers

  // ------------------------------------------------------- token lifetime

  /** 30 days in milliseconds, the lifetime used for anything unreadable. */
  const DefaultExpiresMs: nat := 30 * 24 * 60 * 60 * 1000

  predicate IsUnit(c: char)
  {
    c == 'd' || c == 'h' || c == 'm'
  }

  function UnitMs(c: char): nat
    requires IsUnit(c)
  {
    if c == 'd' then 24 * 60 * 60 * 1000 else if c == 'h' then 60 * 60 * 1000 else 60 * 1000
  }

  /** `/^(\d+)([dhm])$/`: one or more digits, then one unit letter. */
  predicate ExpiresShape(t: string)
  {
    |t| >= 2 && AllDigits(t[..|t| - 1]) && IsUnit(t[|t| - 1])
  }

  /** `parseExpiresToMs`. */
  function ParseExpiresToMs(t: string): nat
  {
    if ExpiresShape(t) then DigitsValue(t[..|t| - 1]) * UnitMs(t[|t| - 1]) else DefaultExpiresMs
  }

  /** A count and a unit are read back as the count times the unit's length
      in milliseconds. */
  lemma ParseExpiresRoundTrip(n: nat, unit: char)
    requires IsUnit(unit)
    ensures ParseExpiresToMs(NatToString(n) + [unit]) == n * UnitMs(unit)
  {
    var t := NatToString(n) + [unit];
    assert t[..|t| - 1] == NatToString(n);
    NatToStringRoundTrip(n);
  }

  /** Text of any other shape gives the 30-day default; every lifetime is a
      whole number of minutes, and "30d" is the default itself. */
  lemma ParseExpiresDefault(t: string)
    ensures !ExpiresShape(t) ==> ParseExpiresToMs(t) == DefaultExpiresMs
    ensures ParseExpiresToMs(t) % 60000 == 0
    ensures ParseExpiresToMs("30d") == DefaultExpiresMs == 2592000000
  {
    if ExpiresShape(t) {
      var n := DigitsValue(t[..|t| - 1]);
      var u := UnitMs(t[|t| - 1]);
      assert u == 60000 * (u / 60000);
      assert n * u == 60000 * (n * (u / 60000));
    }
    ParseExpiresRoundTrip(30, 'd');
    assert NatToString(30) + ['d'] == "30d" by {
      assert NatToString(30) == NatToString(3) + [DigitChar(0)];
    }
  }

  /** `COOKIE_MAX_AGE`: the lifetime of `JWT_EXPIRES_IN`, "30d" when it is
      unset or empty. */
  function CookieMaxAge(env: Option<string>): nat
  {
    ParseExpiresToMs(if env.Some? && env.value != "" then env.value else "30d")
  }

  // --------------------------------------------------------------- sanitize

  /** The record without its `password` field. */
  function WithoutPassword(r: Record): (s: Record)
    ensures "password" !in s
    ensures forall k :: k in s <==> k in r && k != "password"
    ensures forall k :: k in s ==> s[k] == r[k]
  {
    map k | k in r && k != "password" :: r[k]
  }

  /** A plain JavaScript object whose fields can be deleted in place. */
  class PlainObject {
    var fields: Record

    constructor (fields: Record)
      ensures this.fields == fields
    {
      this.fields := fields;
    }
  }

  /** What `sanitizeSalesMember` may be handed: a Mongoose document, whose
      `toObject()` makes a copy, or an object without `toObject`. */
  datatype Doc = MongooseDoc(data: Record) | Plain(obj: PlainObject)

  /** `sanitizeSalesMember`: `null` for a missing document; otherwise the
      document's fields without `password`. A Mongoose document is copied
      first and left as it was; a plain object loses its `password` in
      place. */
  method SanitizeSalesMember(doc: Option<Doc>) returns (u: Option<Record>)
    modifies if doc.Some? && doc.value.Plain? then {doc.value.obj} else {}
    ensures doc.None? ==> u.None?
    ensures doc.Some? && doc.value.MongooseDoc? ==> u == Some(WithoutPassword(doc.value.data))
    ensures doc.Some? && doc.value.Plain? ==>
      u == Some(WithoutPassword(old(doc.value.obj.fields))) && doc.value.obj.fields == u.value
  {
    if doc.None? {
      return None;
    }
    match doc.value
    case MongooseDoc(data) =>
      var copy := data;
      u := Some(WithoutPassword(copy));
    case Plain(obj) =>
      obj.fields := WithoutPassword(obj.fields);
      u := Some(obj.fields);
  }

  // ------------------------------------------------------------------ login

  /** The `findOne` query the login builds. */
  datatype LoginQuery = ByPhone(phone: string) | ByEmail(email: string)

  /** The query chain: a string phone that trims to ten digits; else a
      string email with text, trimmed and lowercased; else a string
      identifier with text, read as a phone when it is ten digits and as an
      email otherwise; else nothing. */
  function LoginQueryOf(body: Record): Option<LoginQuery>
  {
    var phone := Field(body, "phone");
    var email := Field(body, "email");
    var identifier := Field(body, "identifier");
    if phone.Str? && IsPhone(Trim(phone.s)) then Some(ByPhone(Trim(phone.s)))
    else if email.Str? && Trim(email.s) != "" then Some(ByEmail(Lower(Trim(email.s))))
    else if identifier.Str? && Trim(identifier.s) != "" then
      var id := Trim(identifier.s);
      if IsPhone(id) then Some(ByPhone(id)) else Some(ByEmail(Lower(id)))
    else None
  }

  /** The chain's choice: no query exactly when none of the three fields
      offers usable text; a phone query always carries ten digits and an
      email query always lowercased text without surrounding white space;
      a usable phone wins over email and identifier, and a non-blank email
      over the identifier. */
  lemma LoginQueryChoice(body: Record)
    ensures var q := LoginQueryOf(body);
      var phone := Field(body, "phone");
      var email := Field(body, "email");
      var identifier := Field(body, "identifier");
      && (q.None? <==>
            && !(phone.Str? && IsPhone(Trim(phone.s)))
            && !(email.Str? && Trim(email.s) != "")
            && !(identifier.Str? && Trim(identifier.s) != ""))
      && (q.Some? && q.value.ByPhone? ==> IsPhone(q.value.phone))
      && (q.Some? && q.value.ByEmail? ==> q.value.email != "" && Lower(q.value.email) == q.value.email)
      && (phone.Str? && IsPhone(Trim(phone.s)) ==> q == Some(ByPhone(Trim(phone.s))))
      && (!(phone.Str? && IsPhone(Trim(phone.s))) && email.Str? && Trim(email.s) != "" ==>
            q == Some(ByEmail(Lower(Trim(email.s)))))
  {
    var q := LoginQueryOf(body);
    if q.Some? && q.value.ByEmail? {
      var t := if Field(body, "email").Str? && Trim(Field(body, "email").s) != "" then Trim(Field(body, "email").s)
               else Trim(Field(body, "identifier").s);
      assert q.value.email == Lower(t);
      LowerIdempotent(t);
    }
  }

  /** `findOne(query)`: the first member the query matches. */
  function FindOne(ms: seq<Member>, q: LoginQuery): (r: Option<Member>)
    ensures r.Some? ==> r.value in ms
    ensures r.None? <==> forall m :: m in ms ==> !Matches(m, q)
    ensures r.Some? ==> Matches(r.value, q)
  {
    if ms == [] then None
    else if Matches(ms[0], q) then Some(ms[0])
    else FindOne(ms[1..], q)
  }

  predicate Matches(m: Member, q: LoginQuery)
  {
    match q
    case ByPhone(p) => m.phone == p
    case ByEmail(e) => m.email == e
  }

  const PasswordRequired := "Password is required"
  const ProvideIdentifier := "Provide email or phone along with password"
  const InvalidCredentials := "Invalid credentials"
  const AccountInactive := "Account is inactive. Contact admin."

  /** A successful login: the payload that is signed into the cookie, and
      the sanitized user that is returned. */
  datatype LoginSuccess = LoginSuccess(payload: Record, user: Record)

  /** `{ sub, role, type: "sales" }`. */
  function TokenPayload(m: Member): Record
  {
    map["sub" := Str(NatToString(m.id)), "role" := Str(if m.isAdmin then "admin" else "sales"), "type" := Str("sales")]
  }

  /** `loginSales`, as a value. */
  function LoginOutcome(body: Record, ms: seq<Member>, matches: (string, string) -> bool): Result<LoginSuccess, ApiError>
  {
    var password := Field(body, "password");
    if !Truthy(password) then Err(Rejected(400, PasswordRequired))
    else
      var q := LoginQueryOf(body);
      if q.None? then Err(Rejected(400, ProvideIdentifier))
      else
        var user := FindOne(ms, q.value);
        if user.None? then Err(Rejected(401, InvalidCredentials))
        else if !user.value.isActive then Err(Rejected(403, AccountInactive))
        else if !password.Str? then Err(Internal(IllegalArguments))
        else if !matches(password.s, user.value.password) then Err(Rejected(401, InvalidCredentials))
        else Ok(LoginSuccess(TokenPayload(user.value), WithoutPassword(AsRecord(user.value, true))))
  }

  /** `loginSales`: the query is built by reassigning one variable through
      the branch chain, then the member is looked up and checked. */
  method LoginSales(body: Record, ms: seq<Member>, matches: (string, string) -> bool)
    returns (r: Result<LoginSuccess, ApiError>)
    ensures r == LoginOutcome(body, ms, matches)
  {
    var password := Field(body, "password");
    if !Truthy(password) {
      return Err(Rejected(400, PasswordRequired));
    }
    var phone := Field(body, "phone");
    var email := Field(body, "email");
    var identifier := Field(body, "identifier");
    var query: Option<LoginQuery> := None;
    if phone.Str? && IsPhone(Trim(phone.s)) {
      query := Some(ByPhone(Trim(phone.s)));
    } else if email.Str? && Trim(email.s) != "" {
      query := Some(ByEmail(Lower(Trim(email.s))));
    } else if identifier.Str? && Trim(identifier.s) != "" {
      var id := Trim(identifier.s);
      query := if IsPhone(id) then Some(ByPhone(id)) else Some(ByEmail(Lower(id)));
    } else {
      return Err(Rejected(400, ProvideIdentifier));
    }
    var user := FindOne(ms, query.value);
    if user.None? {
      return Err(Rejected(401, InvalidCredentials));
    }
    if !user.value.isActive {
      return Err(Rejected(403, AccountInactive));
    }
    if !password.Str? {
      return Err(Internal(IllegalArguments));
    }
    var ok := matches(password.s, user.value.password);
    if !ok {
      return Err(Rejected(401, InvalidCredentials));
    }
    var role := if user.value.isAdmin then "admin" else "sales";
    var payload := map["sub" := Str(NatToString(user.value.id)), "role" := Str(role), "type" := Str("sales")];
    r := Ok(LoginSuccess(payload, WithoutPassword(AsRecord(user.value, true))));
  }

  /** The order of the refusals: a missing password first and whatever the
      store holds, then an unusable identifier, an unknown member, an
      inactive account whatever the password, and a wrong password last. A
      login succeeds exactly when every check passes. */
  lemma LoginRefusals(body: Record, ms: seq<Member>, matches: (string, string) -> bool)
    ensures var r := LoginOutcome(body, ms, matches);
      var password := Field(body, "password");
      var q := LoginQueryOf(body);
      var user := if q.Some? then FindOne(ms, q.value) else None;
      && (!Truthy(password) ==> r == Err(Rejected(400, PasswordRequired)))
      && (Truthy(password) && q.None? ==> r == Err(Rejected(400, ProvideIdentifier)))
      && (Truthy(password) && q.Some? && user.None? ==> r == Err(Rejected(401, InvalidCredentials)))
      && (Truthy(password) && user.Some? && !user.value.isActive ==> r == Err(Rejected(403, AccountInactive)))
      && ((Truthy(password) && user.Some? && user.value.isActive && password.Str?
            && !matches(password.s, user.value.password)) ==> r == Err(Rejected(401, InvalidCredentials)))
      && (r.Ok? <==> password.Str? && password.s != "" && user.Some? && user.value.isActive
                     && matches(password.s, user.value.password))
  {
  }

  /** A wrong password and an unknown member give the same answer, so the
      response does not reveal which accounts exist. */
  lemma UnknownAndWrongPasswordAlike(body: Record, ms: seq<Member>, matches: (string, string) -> bool)
    requires Field(body, "password").Str? && Field(body, "password").s != ""
    requires LoginQueryOf(body).Some?
    requires var user := FindOne(ms, LoginQueryOf(body).value);
      user.None? || (user.value.isActive && !matches(Field(body, "password").s, user.value.password))
    ensures LoginOutcome(body, ms, matches) == Err(Rejected(401, InvalidCredentials))
  {
  }

  /** A successful login signs the member's id, the role "admin" exactly
      for an administrator and "sales" otherwise, and the type "sales"; the
      returned user carries every stored field but the password hash. */
  lemma LoginPayload(body: Record, ms: seq<Member>, matches: (string, string) -> bool)
    ensures var r := LoginOutcome(body, ms, matches);
      r.Ok? ==>
        var m := FindOne(ms, LoginQueryOf(body).value).value;
        && m in ms && m.isActive
        && r.value.payload == TokenPayload(m)
        && r.value.payload["type"] == Str("sales")
        && (r.value.payload["role"] == Str("admin") <==> m.isAdmin)
        && (r.value.payload["role"] == Str("sales") <==> !m.isAdmin)
        && r.value.payload["sub"] == Str(NatToString(m.id))
        && "password" !in r.value.user
        && r.value.user.Keys == AsRecord(m, false).Keys
  {
    var r := LoginOutcome(body, ms, matches);
    if r.Ok? {
      var m := FindOne(ms, LoginQueryOf(body).value).value;
      assert "admin" != "sales";
      var full := AsRecord(m, true);
      assert full.Keys == AsRecord(m, false).Keys + {"password"};
    }
  }

  // ------------------------------------------------------------- middleware

  /** `header.startsWith("Bearer ")`. */
  predicate IsBearer(h: string)
  {
    |h| >= 7 && h[..7] == "Bearer "
  }

  /** The text up to the first space. */
  function UpToSpace(s: string): (r: string)
    ensures |r| <= |s| && r == s[..|r|]
    ensures forall i :: 0 <= i < |r| ==> r[i] != ' '
    ensures |r| < |s| ==> s[|r|] == ' '
  {
    if s == [] || s[0] == ' ' then [] else [s[0]] + UpToSpace(s[1..])
  }

  /** `header.split(" ")[1]` for a header that starts with "Bearer ". */
  function BearerToken(h: string): string
    requires IsBearer(h)
  {
    UpToSpace(h[7..])
  }

  /** The token `requireSalesAuth` ends up with: the `accessTokenSales`
      cookie, replaced by the Bearer token only when the cookie is absent or
      empty. Nothing (or empty text) means no token. */
  function SelectToken(cookie: Option<string>, authorization: Option<string>): Option<string>
  {
    if (cookie.None? || cookie.value == "") && authorization.Some? && IsBearer(authorization.value)
    then Some(BearerToken(authorization.value))
    else cookie
  }

  predicate HasToken(t: Option<string>)
  {
    t.Some? && t.value != ""
  }

  /** Why a request is refused; the status is 401 in every case, since the
      catch block overwrites the 403 of the wrong domain. */
  datatype AuthFailure = NotAuthenticated | TokenRejected | WrongAuthDomain | Forbidden

  datatype AuthError = AuthError(status: int, reason: AuthFailure)

  /** `requireSalesAuth`, as a value: the decoded payload, or the error. */
  function AuthOutcome(cookie: Option<string>, authorization: Option<string>, verify: string -> Option<Record>): Result<Record, AuthError>
  {
    var token := SelectToken(cookie, authorization);
    if !HasToken(token) then Err(AuthError(401, NotAuthenticated))
    else
      var decoded := verify(token.value);
      if decoded.None? then Err(AuthError(401, TokenRejected))
      else if Field(decoded.value, "type") != Str("sales") then Err(AuthError(401, WrongAuthDomain))
      else Ok(decoded.value)
  }

  /** An incoming request: its cookie and header, and the `user` the
      middleware attaches. */
  class Request {
    const cookie: Option<string>
    const authorization: Option<string>
    var user: Option<Record>

    constructor (cookie: Option<string>, authorization: Option<string>)
      ensures this.cookie == cookie && this.authorization == authorization && user.None?
    {
      this.cookie := cookie;
      this.authorization := authorization;
      user := None;
    }
  }

  /** `requireSalesAuth`: picks the token, verifies it and, on success,
      attaches the decoded payload to the request; on failure the request
      is left as it was. */
  method RequireSalesAuth(req: Request, verify: string -> Option<Record>) returns (err: Option<AuthError>)
    modifies req
    ensures var o := AuthOutcome(req.cookie, req.authorization, verify);
      && (err.None? <==> o.Ok?)
      && (o.Err? ==> err == Some(o.error) && req.user == old(req.user))
      && (o.Ok? ==> req.user == Some(o.value))
  {
    var token := req.cookie;
    if (token.None? || token.value == "") && req.authorization.Some? && IsBearer(req.authorization.value) {
      token := Some(BearerToken(req.authorization.value));
    }
    if token.None? || token.value == "" {
      return Some(AuthError(401, NotAuthenticated));
    }
    var decoded := verify(token.value);
    if decoded.None? {
      return Some(AuthError(401, TokenRejected));
    }
    if Field(decoded.value, "type") != Str("sales") {
      var e := AuthError(403, WrongAuthDomain);
      e := e.(status := 401);
      return Some(e);
    }
    req.user := decoded;
    return None;
  }

  /** Every refusal has status 401; a cookie that holds text makes the
      header irrelevant; without such a cookie only a header starting with
      "Bearer " can supply a token; and the payload is admitted exactly when
      it verifies and its type is "sales". */
  lemma AuthRules(cookie: Option<string>, authorization: Option<string>, other: Option<string>, verify: string -> Option<Record>)
    ensures var o := AuthOutcome(cookie, authorization, verify);
      && (o.Err? ==> o.error.status == 401)
      && (HasToken(cookie) ==> o == AuthOutcome(cookie, other, verify))
      && (!HasToken(cookie) && (authorization.None? || !IsBearer(authorization.value)) ==>
            o == Err(AuthError(401, NotAuthenticated)))
      && (o.Ok? <==> (var t := SelectToken(cookie, authorization);
                      HasToken(t) && verify(t.value).Some? && Field(verify(t.value).value, "type") == Str("sales")))
  {
  }

  /** The Bearer token is the text after "Bearer " up to the next space,
      so a header of "Bearer " and a token without spaces yields that token. */
  lemma BearerSecondPart(t: string)
    requires forall i :: 0 <= i < |t| ==> t[i] != ' '
    ensures IsBearer("Bearer " + t) && BearerToken("Bearer " + t) == t
    ensures SelectToken(None, Some("Bearer " + t)) == Some(t)
  {
    var h := "Bearer " + t;
    assert h[..7] == "Bearer ";
    assert h[7..] == t;
    UpToSpaceWithoutSpace(t);
  }

  lemma {:induction false} UpToSpaceWithoutSpace(t: string)
    requires forall i :: 0 <= i < |t| ==> t[i] != ' '
    ensures UpToSpace(t) == t
  {
    if t != [] {
      UpToSpaceWithoutSpace(t[1..]);
    }
  }

  /** `requireSalesRole(...roles)`: the user's role must be truthy and one
      of the roles. */
  function RequireSalesRole(user: Option<Record>, roles: seq<Value>): (r: Option<AuthError>)
    ensures r.Some? ==> r.value.status == 403
  {
    if user.Some? && Truthy(Field(user.value, "role")) && Field(user.value, "role") in roles then None
    else Some(AuthError(403, Forbidden))
  }

  /** A request passes the gate exactly when it has a user whose truthy
      role is listed; with no roles listed nothing passes. */
  lemma RoleGate(user: Option<Record>, roles: seq<Value>)
    ensures RequireSalesRole(user, roles).None? <==>
      (user.Some? && Truthy(Field(user.value, "role")) && exists i :: 0 <= i < |roles| && roles[i] == Field(user.value, "role"))
    ensures roles == [] ==> RequireSalesRole(user, roles).Some?
  {
  }

  /** A login's payload, once signed and verified, is admitted by
      `requireSalesAuth`; it passes `requireSalesRole("admin")` exactly for
      an administrator and `requireSalesRole("sales", "admin")` always. */
  lemma LoginThenGate(body: Record, ms: seq<Member>, matches: (string, string) -> bool,
                      token: string, verify: string -> Option<Record>)
    requires LoginOutcome(body, ms, matches).Ok?
    requires token != "" && verify(token) == Some(LoginOutcome(body, ms, matches).value.payload)
    ensures var p := LoginOutcome(body, ms, matches).value.payload;
      var m := FindOne(ms, LoginQueryOf(body).value).value;
      && AuthOutcome(Some(token), None, verify) == Ok(p)
      && (RequireSalesRole(Some(p), [Str("admin")]).None? <==> m.isAdmin)
      && RequireSalesRole(Some(p), [Str("sales"), Str("admin")]).None?
  {
    LoginPayload(body, ms, matches);
    PayloadGates(FindOne(ms, LoginQueryOf(body).value).value, token, verify);
  }

  /** The payload signed for a member, verified back, is admitted and gated
      by the member's administrator flag. */
  lemma PayloadGates(m: Member, token: string, verify: string -> Option<Record>)
    requires token != "" && verify(token) == Some(TokenPayload(m))
    ensures var p := TokenPayload(m);
      && AuthOutcome(Some(token), None, verify) == Ok(p)
      && (RequireSalesRole(Some(p), [Str("admin")]).None? <==> m.isAdmin)
      && RequireSalesRole(Some(p), [Str("sales"), Str("admin")]).None?
  {
    var p := TokenPayload(m);
    assert Field(p, "type") == Str("sales");
    assert Field(p, "role") == Str(if m.isAdmin then "admin" else "sales");
    assert Str("sales") != Str("admin");
  }
}
