/**
 * The five endpoints of the backend. Each upstream call is a parameter: the identity
 * provider's `createUser`, its password sign-in endpoint, and the exchange-rate service's
 * `/currencies` and `/latest` endpoints. A `*Reply` function is the endpoint's decision table;
 * the `Handle*` methods write the same reply through `res.status(...).json(...)`.
 */
module Handlers {
  import opened Options
  import opened JsValues
  import opened JsStrings
  import opened Http
  import opened Auth

  /** The outcome of `await r.json()`. */
  datatype JsonBody = Parsed(value: Value) | Malformed(message: string)

  /** The outcome of `await fetch(...)`: a thrown network error, or a response and its body. */
  datatype FetchOutcome = Threw(message: string) | Replied(ok: bool, json: JsonBody)

  /** The fields of the identity provider's user record that the gateway returns. */
  datatype UserRecord = UserRecord(uid: string, email: Value, displayName: Value)

  /** The outcome of `await auth.createUser({ email, password, displayName })`. */
  datatype CreateOutcome = Created(user: UserRecord) | CreateFailed(message: string)

  const CredentialsRequired := "email and password required"
  const SignInAfterCreateFailed := "Created but failed to sign in"
  const InvalidCredentials := "Invalid credentials"
  const CurrenciesError := "Frankfurter currencies error"
  const ConversionError := "Frankfurter conversion error"
  const ConversionArgumentsRequired := "valor, de and para are required"
  const ConversionUnavailable := "Invalid currency or conversion not available"
  const EntriesOfNullish := "Cannot convert undefined or null to object"

  /** `(req.body || {})[key]`, the destructuring at the top of `/signup` and `/login`. */
  function BodyField(body: Value, key: string): (field: Value)
    ensures Falsy(body) ==> field == Undefined
    ensures body.Obj? ==> field == Lookup(body.members, key)
    ensures body.Bool? || body.Num? ==> field == Undefined
    ensures !body.Obj? && key != [] && !('0' <= key[0] <= '9') && key != "length" ==> field == Undefined
  {
    if key != [] && !('0' <= key[0] <= '9') then NotAnIndex(key); Get(Or(body, Obj([])), key)
    else Get(Or(body, Obj([])), key)
  }

  /** Both credentials are present (neither is falsy). */
  predicate HasCredentials(body: Value)
    ensures HasCredentials(body) <==>
              body.Obj? && !Falsy(Lookup(body.members, "email")) && !Falsy(Lookup(body.members, "password"))
  {
    NotAnIndex("email");
    NotAnIndex("password");
    !Falsy(BodyField(body, "email")) && !Falsy(BodyField(body, "password"))
  }

  /** The success body of `/signup`. */
  function SignupBody(user: UserRecord, tokens: Value): Value
    requires !Nullish(tokens)
  {
    Obj([("uid", Str(user.uid)),
         ("email", user.email),
         ("displayName", Or(user.displayName, Null)),
         ("idToken", Get(tokens, "idToken")),
         ("refreshToken", Get(tokens, "refreshToken"))])
  }

  lemma SignupBodyMembers(user: UserRecord, tokens: Value)
    requires !Nullish(tokens)
    ensures var b := SignupBody(user, tokens);
            && b.Obj? && |b.members| == 5
            && Member(b, "uid") == Str(user.uid)
            && Member(b, "email") == user.email
            && Member(b, "displayName") == (if Falsy(user.displayName) then Null else user.displayName)
            && Member(b, "idToken") == Get(tokens, "idToken")
            && Member(b, "refreshToken") == Get(tokens, "refreshToken")
  {
    var b := SignupBody(user, tokens);
    LookupAt(b.members, 0, "uid");
    LookupAt(b.members, 1, "email");
    LookupAt(b.members, 2, "displayName");
    LookupAt(b.members, 3, "idToken");
    LookupAt(b.members, 4, "refreshToken");
  }

  /**
   * `POST /signup`: create the user, then sign in with the same credentials. Every fault
   * thrown inside the handler is caught and answered with 400.
   */
  function SignupReply(body: Value,
                       createUser: (Value, Value, Value) -> CreateOutcome,
                       signIn: (Value, Value) -> FetchOutcome): (r: Reply)
    ensures r.status in {200, 400, 500}
    ensures !HasCredentials(body) ==> r == Reply(400, ErrorBody(CredentialsRequired))
    ensures var created := createUser(BodyField(body, "email"), BodyField(body, "password"),
                                      BodyField(body, "displayName"));
            HasCredentials(body) && created.CreateFailed? ==> r.status == 400
    ensures var signed := signIn(BodyField(body, "email"), BodyField(body, "password"));
            r.status == 500 ==>
              && HasCredentials(body)
              && signed.Replied? && !signed.ok && signed.json.Parsed?
              && r.body == ErrorWithDetails(SignInAfterCreateFailed, signed.json.value)
    ensures var created := createUser(BodyField(body, "email"), BodyField(body, "password"),
                                      BodyField(body, "displayName"));
            var signed := signIn(BodyField(body, "email"), BodyField(body, "password"));
            HasCredentials(body) && created.Created? && signed.Replied? && !signed.ok &&
            signed.json.Parsed? ==>
              r == Reply(500, ErrorWithDetails(SignInAfterCreateFailed, signed.json.value))
    ensures var created := createUser(BodyField(body, "email"), BodyField(body, "password"),
                                      BodyField(body, "displayName"));
            var signed := signIn(BodyField(body, "email"), BodyField(body, "password"));
            r.status == 200 <==>
              && HasCredentials(body)
              && created.Created?
              && signed.Replied? && signed.ok && signed.json.Parsed?
              && !Nullish(signed.json.value)
    ensures var created := createUser(BodyField(body, "email"), BodyField(body, "password"),
                                      BodyField(body, "displayName"));
            var signed := signIn(BodyField(body, "email"), BodyField(body, "password"));
            r.status == 200 ==>
              && r.body.Obj? && |r.body.members| == 5
              && Member(r.body, "uid") == Str(created.user.uid)
              && Member(r.body, "email") == created.user.email
              && Member(r.body, "displayName") ==
                   (if Falsy(created.user.displayName) then Null else created.user.displayName)
              && Member(r.body, "idToken") == Get(signed.json.value, "idToken")
              && Member(r.body, "refreshToken") == Get(signed.json.value, "refreshToken")
  {
    var email, password := BodyField(body, "email"), BodyField(body, "password");
    if Falsy(email) || Falsy(password) then Reply(400, ErrorBody(CredentialsRequired))
    else
      match createUser(email, password, BodyField(body, "displayName"))
      case CreateFailed(m) => Reply(400, ErrorBody(CaughtMessage(m, "Signup failed")))
      case Created(user) =>
        match signIn(email, password)
        case Threw(m) => Reply(400, ErrorBody(CaughtMessage(m, "Signup failed")))
        case Replied(ok, Malformed(m)) => Reply(400, ErrorBody(CaughtMessage(m, "Signup failed")))
        case Replied(ok, Parsed(tokens)) =>
          if !ok then Reply(500, ErrorWithDetails(SignInAfterCreateFailed, tokens))
          else if Nullish(tokens) then
            Reply(400, ErrorBody(CaughtMessage(ReadError(tokens, "idToken"), "Signup failed")))
          else
            SignupBodyMembers(user, tokens);
            Reply(200, SignupBody(user, tokens))
  }

  /** Missing credentials are answered before either upstream call is made. */
  lemma SignupValidatesFirst(body: Value,
                             c1: (Value, Value, Value) -> CreateOutcome, s1: (Value, Value) -> FetchOutcome,
                             c2: (Value, Value, Value) -> CreateOutcome, s2: (Value, Value) -> FetchOutcome)
    requires !HasCredentials(body)
    ensures SignupReply(body, c1, s1) == SignupReply(body, c2, s2)
  {
  }

  /** When the user cannot be created, sign-in is never attempted. */
  lemma SignupStopsAtCreateFailure(body: Value, createUser: (Value, Value, Value) -> CreateOutcome,
                                   s1: (Value, Value) -> FetchOutcome, s2: (Value, Value) -> FetchOutcome)
    requires createUser(BodyField(body, "email"), BodyField(body, "password"),
                        BodyField(body, "displayName")).CreateFailed?
    ensures SignupReply(body, createUser, s1) == SignupReply(body, createUser, s2)
  {
  }

  /** The success body of `/login`: exactly the three session fields of the provider's payload. */
  function SessionBody(data: Value): Value
    requires !Nullish(data)
  {
    Obj([("idToken", Get(data, "idToken")),
         ("refreshToken", Get(data, "refreshToken")),
         ("expiresIn", Get(data, "expiresIn"))])
  }

  lemma SessionBodyMembers(data: Value)
    requires !Nullish(data)
    ensures var b := SessionBody(data);
            && b.Obj? && |b.members| == 3
            && Member(b, "idToken") == Get(data, "idToken")
            && Member(b, "refreshToken") == Get(data, "refreshToken")
            && Member(b, "expiresIn") == Get(data, "expiresIn")
  {
    var b := SessionBody(data);
    LookupAt(b.members, 0, "idToken");
    LookupAt(b.members, 1, "refreshToken");
    LookupAt(b.members, 2, "expiresIn");
  }

  /** `POST /login`: sign in with the password endpoint; faults thrown inside are answered with 500. */
  function LoginReply(body: Value, signIn: (Value, Value) -> FetchOutcome): (r: Reply)
    ensures r.status in {200, 400, 401, 500}
    ensures !HasCredentials(body) <==> r == Reply(400, ErrorBody(CredentialsRequired))
    ensures r.status == 400 ==> !HasCredentials(body)
    ensures var signed := signIn(BodyField(body, "email"), BodyField(body, "password"));
            r.status == 401 <==>
              HasCredentials(body) && signed.Replied? && !signed.ok && signed.json.Parsed?
    ensures var signed := signIn(BodyField(body, "email"), BodyField(body, "password"));
            r.status == 401 ==> r.body == ErrorWithDetails(InvalidCredentials, signed.json.value)
    ensures var signed := signIn(BodyField(body, "email"), BodyField(body, "password"));
            HasCredentials(body) && (signed.Threw? || (signed.Replied? && signed.json.Malformed?)) ==>
              r.status == 500
    ensures var signed := signIn(BodyField(body, "email"), BodyField(body, "password"));
            r.status == 200 <==>
              HasCredentials(body) && signed.Replied? && signed.ok && signed.json.Parsed? &&
              !Nullish(signed.json.value)
    ensures var signed := signIn(BodyField(body, "email"), BodyField(body, "password"));
            r.status == 200 ==>
              && r.body.Obj? && |r.body.members| == 3
              && Member(r.body, "idToken") == Get(signed.json.value, "idToken")
              && Member(r.body, "refreshToken") == Get(signed.json.value, "refreshToken")
              && Member(r.body, "expiresIn") == Get(signed.json.value, "expiresIn")
  {
    var email, password := BodyField(body, "email"), BodyField(body, "password");
    if Falsy(email) || Falsy(password) then Reply(400, ErrorBody(CredentialsRequired))
    else
      match signIn(email, password)
      case Threw(m) => Reply(500, ErrorBody(CaughtMessage(m, "Login failed")))
      case Replied(ok, Malformed(m)) => Reply(500, ErrorBody(CaughtMessage(m, "Login failed")))
      case Replied(ok, Parsed(data)) =>
        if !ok then Reply(401, ErrorWithDetails(InvalidCredentials, data))
        else if Nullish(data) then
          Reply(500, ErrorBody(CaughtMessage(ReadError(data, "idToken"), "Login failed")))
        else
          SessionBodyMembers(data);
          Reply(200, SessionBody(data))
  }

  /** Missing credentials are answered before the sign-in endpoint is called. */
  lemma LoginValidatesFirst(body: Value, s1: (Value, Value) -> FetchOutcome, s2: (Value, Value) -> FetchOutcome)
    requires !HasCredentials(body)
    ensures LoginReply(body, s1) == LoginReply(body, s2)
  {
  }

  /** `Object.entries(data).map(([code, name]) => ({ code, name }))` */
  function CurrencyList(entries: seq<(string, Value)>): (list: seq<Value>)
    ensures |list| == |entries|
    ensures forall i :: 0 <= i < |entries| ==>
              list[i].Obj? && Member(list[i], "code") == Str(entries[i].0) &&
              Member(list[i], "name") == entries[i].1 && |list[i].members| == 2
    decreases |entries|
  {
    if entries == [] then []
    else
      var item := Obj([("code", Str(entries[0].0)), ("name", entries[0].1)]);
      var rest := CurrencyList(entries[1..]);
      LookupAt(item.members, 1, "name");
      assert forall i :: 1 <= i < |entries| ==> ([item] + rest)[i] == rest[i - 1] && entries[i] == entries[1..][i - 1];
      [item] + rest
  }

  /** Reading the codes back off the list gives the provider's keys, in the provider's order. */
  function Codes(list: seq<Value>): seq<Value> {
    seq(|list|, i requires 0 <= i < |list| => Member(list[i], "code"))
  }

  lemma CurrencyListKeepsOrder(entries: seq<(string, Value)>)
    ensures Codes(CurrencyList(entries)) == seq(|entries|, i requires 0 <= i < |entries| => Str(entries[i].0))
  {
    var list := CurrencyList(entries);
    assert forall i :: 0 <= i < |entries| ==> Codes(list)[i] == Str(entries[i].0);
  }

  /** `GET /getCurrencyInfo` once authorized: list the provider's currencies. */
  function CurrencyInfoReply(fetched: FetchOutcome): (r: Reply)
    ensures r.status in {200, 500, 502}
    ensures fetched.Threw? ==> r.status == 500
    ensures r.status == 502 <==> fetched.Replied? && !fetched.ok
    ensures r.status == 200 <==>
              fetched.Replied? && fetched.ok && fetched.json.Parsed? && !Nullish(fetched.json.value)
    ensures r.status == 200 ==>
              var entries := Entries(fetched.json.value).value;
              r.body.Arr? && |r.body.items| == |entries| &&
              forall i :: 0 <= i < |entries| ==>
                r.body.items[i].Obj? && |r.body.items[i].members| == 2 &&
                Member(r.body.items[i], "code") == Str(entries[i].0) &&
                Member(r.body.items[i], "name") == entries[i].1
  {
    match fetched
    case Threw(m) => Reply(500, ErrorBody(CaughtMessage(m, "Failed to fetch currencies")))
    case Replied(ok, json) =>
      if !ok then Reply(502, ErrorBody(CurrenciesError))
      else match json
        case Malformed(m) => Reply(500, ErrorBody(CaughtMessage(m, "Failed to fetch currencies")))
        case Parsed(data) =>
          match Entries(data)
          case None => Reply(500, ErrorBody(EntriesOfNullish))
          case Some(entries) => Reply(200, Arr(CurrencyList(entries)))
  }

  /** `String(req.query.x || '')` */
  function QueryText(param: Option<string>): (text: string)
    ensures Str(text) == Or(StringOrUndefined(param), Str(""))
    ensures text == "" <==> param.None? || param.value == ""
  {
    match param
    case None => ""
    case Some(s) => s
  }

  /** `valorConvertido / valor` for a finite, non-zero `valor` (exact, without IEEE rounding). */
  function Divide(a: Number, b: Number): (q: Number)
    requires b.Finite? && b.value != 0.0
    ensures a.Finite? ==> q.Finite? && q.value * b.value == a.value
    ensures a == NaN ==> q == NaN
    ensures a.Infinity? ==> q.Infinity?
  {
    match a
    case Finite(x) => Finite(x / b.value)
    case NaN => NaN
    case Infinity(neg) => Infinity(neg != (b.value < 0.0))
  }

  /** The arguments of `/converterMoeda` are usable: a finite amount and two non-empty codes. */
  predicate ValidConversion(valor: Number, de: string, para: string)
    ensures ValidConversion(valor, de, para) <==> valor.Finite? && !Falsy(Str(de)) && !Falsy(Str(para))
  {
    IsFinite(valor) && de != "" && para != ""
  }

  /** `data?.rates?.[para]` */
  function ConvertedValue(data: Value, para: string): (converted: Value)
    ensures Nullish(data) ==> converted == Undefined
    ensures data.Obj? && Nullish(Lookup(data.members, "rates")) ==> converted == Undefined
    ensures data.Obj? && Lookup(data.members, "rates").Obj? ==>
              converted == Lookup(Lookup(data.members, "rates").members, para)
    ensures !data.Obj? ==> converted == Undefined
    ensures data.Obj? && !Nullish(Lookup(data.members, "rates")) ==>
              converted == Get(Lookup(data.members, "rates"), para)
  {
    NotAnIndex("rates");
    OptionalGet(OptionalGet(data, "rates"), para)
  }

  /** `valor ? valorConvertido / valor : null` for a finite amount. */
  function Rate(valor: Number, converted: Number): (taxa: Value)
    requires IsFinite(valor)
    ensures taxa == Null <==> valor == Finite(0.0)
    ensures valor.value != 0.0 ==> taxa == Num(Divide(converted, valor))
  {
    if valor.value != 0.0 then Num(Divide(converted, valor)) else Null
  }

  /** The success body of `/converterMoeda`; `taxa` is null when the amount is zero. */
  function ConversionBody(valor: Number, de: string, para: string, converted: Number, date: Value): Value
    requires IsFinite(valor)
  {
    Obj([("de", Str(de)), ("para", Str(para)), ("taxa", Rate(valor, converted)),
         ("valorConvertido", Num(converted)), ("date", date)])
  }

  lemma ConversionBodyMembers(valor: Number, de: string, para: string, converted: Number, date: Value)
    requires IsFinite(valor)
    ensures var b := ConversionBody(valor, de, para, converted, date);
            && b.Obj? && |b.members| == 5
            && Member(b, "de") == Str(de)
            && Member(b, "para") == Str(para)
            && Member(b, "valorConvertido") == Num(converted)
            && (Member(b, "taxa") == Null <==> valor == Finite(0.0))
            && (valor.value != 0.0 ==> Member(b, "taxa") == Num(Divide(converted, valor)))
            && Member(b, "date") == date
  {
    var b := ConversionBody(valor, de, para, converted, date);
    LookupAt(b.members, 0, "de");
    LookupAt(b.members, 1, "para");
    LookupAt(b.members, 2, "taxa");
    LookupAt(b.members, 3, "valorConvertido");
    LookupAt(b.members, 4, "date");
  }

  /**
   * The part of `GET /converterMoeda` after validation: `fetched` is the `/latest` call made
   * with the amount and the two upper-cased codes.
   */
  function RatesReply(valor: Number, de: string, para: string, fetched: FetchOutcome): (r: Reply)
    requires ValidConversion(valor, de, para)
    ensures r.status in {200, 400, 500, 502}
    ensures fetched.Threw? || (fetched.Replied? && fetched.ok && fetched.json.Malformed?) ==> r.status == 500
    ensures r.status == 502 <==> fetched.Replied? && !fetched.ok
    ensures fetched.Replied? && fetched.ok && fetched.json.Parsed? &&
            !ConvertedValue(fetched.json.value, para).Num? ==>
              r == Reply(400, ErrorBody(ConversionUnavailable))
    ensures r.status == 200 <==>
              fetched.Replied? && fetched.ok && fetched.json.Parsed? &&
              ConvertedValue(fetched.json.value, para).Num?
    ensures r.status == 200 ==>
              && !Nullish(fetched.json.value)
              && r.body.Obj? && |r.body.members| == 5
              && Member(r.body, "de") == Str(de)
              && Member(r.body, "para") == Str(para)
              && Member(r.body, "valorConvertido") == ConvertedValue(fetched.json.value, para)
              && (Member(r.body, "taxa") == Null <==> valor == Finite(0.0))
              && (valor.value != 0.0 ==>
                    Member(r.body, "taxa") == Num(Divide(ConvertedValue(fetched.json.value, para).n, valor)))
              && Member(r.body, "date") == Get(fetched.json.value, "date")
  {
    match fetched
    case Threw(m) => Reply(500, ErrorBody(CaughtMessage(m, "Conversion failed")))
    case Replied(ok, json) =>
      if !ok then Reply(502, ErrorBody(ConversionError))
      else match json
        case Malformed(m) => Reply(500, ErrorBody(CaughtMessage(m, "Conversion failed")))
        case Parsed(data) =>
          var converted := ConvertedValue(data, para);
          if !converted.Num? then Reply(400, ErrorBody(ConversionUnavailable))
          else
            ConversionBodyMembers(valor, de, para, converted.n, Get(data, "date"));
            Reply(200, ConversionBody(valor, de, para, converted.n, Get(data, "date")))
  }

  /**
   * `GET /converterMoeda` once authorized. `toNumber` is JavaScript's `Number(...)` applied to the
   * `valor` parameter; `fetchLatest` is the `/latest` endpoint called with amount, from and to.
   */
  function ConverterReply(query: Query, toNumber: Option<string> -> Number,
                          fetchLatest: (Number, string, string) -> FetchOutcome): (r: Reply)
    ensures r.status in {200, 400, 500, 502}
    ensures var valor, de, para := toNumber(query.valor), ToUpperCase(QueryText(query.de)),
                                   ToUpperCase(QueryText(query.para));
            !ValidConversion(valor, de, para) ==> r == Reply(400, ErrorBody(ConversionArgumentsRequired))
    ensures var valor, de, para := toNumber(query.valor), ToUpperCase(QueryText(query.de)),
                                   ToUpperCase(QueryText(query.para));
            ValidConversion(valor, de, para) ==> r == RatesReply(valor, de, para, fetchLatest(valor, de, para))
    ensures r.status == 200 ==>
              && Member(r.body, "de") == Str(ToUpperCase(QueryText(query.de)))
              && Member(r.body, "para") == Str(ToUpperCase(QueryText(query.para)))
              && (Member(r.body, "taxa") == Null <==> toNumber(query.valor) == Finite(0.0))
  {
    var valor := toNumber(query.valor);
    var de := ToUpperCase(QueryText(query.de));
    var para := ToUpperCase(QueryText(query.para));
    if !ValidConversion(valor, de, para) then Reply(400, ErrorBody(ConversionArgumentsRequired))
    else RatesReply(valor, de, para, fetchLatest(valor, de, para))
  }

  /** An unusable amount or an empty code is answered before the rate service is called. */
  lemma ConverterValidatesFirst(query: Query, toNumber: Option<string> -> Number,
                                f1: (Number, string, string) -> FetchOutcome,
                                f2: (Number, string, string) -> FetchOutcome)
    requires !ValidConversion(toNumber(query.valor), ToUpperCase(QueryText(query.de)),
                              ToUpperCase(QueryText(query.para)))
    ensures ConverterReply(query, toNumber, f1) == ConverterReply(query, toNumber, f2)
  {
  }

  /** Upper-casing is settled once: the same codes in either case give the same reply. */
  lemma ConverterIgnoresCase(query: Query, toNumber: Option<string> -> Number,
                             fetchLatest: (Number, string, string) -> FetchOutcome)
    ensures var upper := Query(query.valor, Some(ToUpperCase(QueryText(query.de))),
                               Some(ToUpperCase(QueryText(query.para))));
            ConverterReply(upper, toNumber, fetchLatest) == ConverterReply(query, toNumber, fetchLatest)
  {
    ToUpperCaseIdempotent(QueryText(query.de));
    ToUpperCaseIdempotent(QueryText(query.para));
  }

  /** A protected route: `requireAuth` first, then the handler when it lets the request through. */
  function Guarded(decision: Decision, handler: Reply): (r: Reply)
    ensures decision.Deny? ==> r == decision.reply
    ensures decision.Admit? ==> r == handler
  {
    match decision
    case Deny(reply) => reply
    case Admit(_) => handler
  }

  /** `app.get('/getCurrencyInfo', requireAuth, ...)` */
  function CurrencyInfoRoute(header: Option<string>, verify: string -> Verification,
                             fetched: FetchOutcome): (r: Reply)
    ensures Authorize(header, verify).Deny? ==> r.status == 401
    ensures Authorize(header, verify).Admit? ==> r == CurrencyInfoReply(fetched)
  {
    Guarded(Authorize(header, verify), CurrencyInfoReply(fetched))
  }

  /** `app.get('/converterMoeda', requireAuth, ...)` */
  function ConverterRoute(header: Option<string>, verify: string -> Verification, query: Query,
                          toNumber: Option<string> -> Number,
                          fetchLatest: (Number, string, string) -> FetchOutcome): (r: Reply)
    ensures Authorize(header, verify).Deny? ==> r.status == 401
    ensures Authorize(header, verify).Admit? ==> r == ConverterReply(query, toNumber, fetchLatest)
  {
    Guarded(Authorize(header, verify), ConverterReply(query, toNumber, fetchLatest))
  }

  /** A protected request that `requireAuth` refuses gets 401, whatever the rate service would say. */
  lemma ProtectedRoutesRefuseFirst(header: Option<string>, verify: string -> Verification,
                                   f1: FetchOutcome, f2: FetchOutcome, query: Query,
                                   toNumber: Option<string> -> Number,
                                   g1: (Number, string, string) -> FetchOutcome,
                                   g2: (Number, string, string) -> FetchOutcome)
    requires Authorize(header, verify).Deny?
    ensures CurrencyInfoRoute(header, verify, f1).status == 401
    ensures CurrencyInfoRoute(header, verify, f1) == CurrencyInfoRoute(header, verify, f2)
    ensures ConverterRoute(header, verify, query, toNumber, g1).status == 401
    ensures ConverterRoute(header, verify, query, toNumber, g1) ==
            ConverterRoute(header, verify, query, toNumber, g2)
  {
  }

  /** The `/signup` handler, writing its reply through `res`. */
  method HandleSignup(req: Request, res: Response,
                      createUser: (Value, Value, Value) -> CreateOutcome,
                      signIn: (Value, Value) -> FetchOutcome)
    requires res.Pristine()
    modifies res
    ensures res.Outcome() == Some(SignupReply(req.body, createUser, signIn))
  {
    var body := Or(req.body, Obj([]));
    var email, password, displayName := Get(body, "email"), Get(body, "password"), Get(body, "displayName");
    if Falsy(email) || Falsy(password) {
      res.Status(400);
      res.Json(ErrorBody(CredentialsRequired));
      return;
    }
    var created := createUser(email, password, displayName);
    if created.CreateFailed? {
      res.Status(400);
      res.Json(ErrorBody(CaughtMessage(created.message, "Signup failed")));
      return;
    }
    var signRes := signIn(email, password);
    if signRes.Threw? {
      res.Status(400);
      res.Json(ErrorBody(CaughtMessage(signRes.message, "Signup failed")));
      return;
    }
    if signRes.json.Malformed? {
      res.Status(400);
      res.Json(ErrorBody(CaughtMessage(signRes.json.message, "Signup failed")));
      return;
    }
    var tokens := signRes.json.value;
    if !signRes.ok {
      res.Status(500);
      res.Json(ErrorWithDetails(SignInAfterCreateFailed, tokens));
      return;
    }
    if Nullish(tokens) {
      res.Status(400);
      res.Json(ErrorBody(CaughtMessage(ReadError(tokens, "idToken"), "Signup failed")));
      return;
    }
    res.Json(SignupBody(created.user, tokens));
  }

  /** The `/login` handler, writing its reply through `res`. */
  method HandleLogin(req: Request, res: Response, signIn: (Value, Value) -> FetchOutcome)
    requires res.Pristine()
    modifies res
    ensures res.Outcome() == Some(LoginReply(req.body, signIn))
  {
    var body := Or(req.body, Obj([]));
    var email, password := Get(body, "email"), Get(body, "password");
    if Falsy(email) || Falsy(password) {
      res.Status(400);
      res.Json(ErrorBody(CredentialsRequired));
      return;
    }
    var signRes := signIn(email, password);
    if signRes.Threw? {
      res.Status(500);
      res.Json(ErrorBody(CaughtMessage(signRes.message, "Login failed")));
      return;
    }
    if signRes.json.Malformed? {
      res.Status(500);
      res.Json(ErrorBody(CaughtMessage(signRes.json.message, "Login failed")));
      return;
    }
    var data := signRes.json.value;
    if !signRes.ok {
      res.Status(401);
      res.Json(ErrorWithDetails(InvalidCredentials, data));
      return;
    }
    if Nullish(data) {
      res.Status(500);
      res.Json(ErrorBody(CaughtMessage(ReadError(data, "idToken"), "Login failed")));
      return;
    }
    res.Json(SessionBody(data));
  }

  /** The `/getCurrencyInfo` handler proper, after `requireAuth`. */
  method HandleCurrencyInfo(res: Response, fetched: FetchOutcome)
    requires res.Pristine()
    modifies res
    ensures res.Outcome() == Some(CurrencyInfoReply(fetched))
  {
    if fetched.Threw? {
      res.Status(500);
      res.Json(ErrorBody(CaughtMessage(fetched.message, "Failed to fetch currencies")));
      return;
    }
    if !fetched.ok {
      res.Status(502);
      res.Json(ErrorBody(CurrenciesError));
      return;
    }
    if fetched.json.Malformed? {
      res.Status(500);
      res.Json(ErrorBody(CaughtMessage(fetched.json.message, "Failed to fetch currencies")));
      return;
    }
    var entries := Entries(fetched.json.value);
    if entries.None? {
      res.Status(500);
      res.Json(ErrorBody(EntriesOfNullish));
      return;
    }
    res.Json(Arr(CurrencyList(entries.value)));
  }

  /** The `/converterMoeda` handler proper, after `requireAuth`. */
  method HandleConverter(req: Request, res: Response, toNumber: Option<string> -> Number,
                         fetchLatest: (Number, string, string) -> FetchOutcome)
    requires res.Pristine()
    modifies res
    ensures res.Outcome() == Some(ConverterReply(req.query, toNumber, fetchLatest))
  {
    var valor := toNumber(req.query.valor);
    var de := ToUpperCase(QueryText(req.query.de));
    var para := ToUpperCase(QueryText(req.query.para));
    if !IsFinite(valor) || de == "" || para == "" {
      res.Status(400);
      res.Json(ErrorBody(ConversionArgumentsRequired));
      return;
    }
    var r := fetchLatest(valor, de, para);
    if r.Threw? {
      res.Status(500);
      res.Json(ErrorBody(CaughtMessage(r.message, "Conversion failed")));
      return;
    }
    if !r.ok {
      res.Status(502);
      res.Json(ErrorBody(ConversionError));
      return;
    }
    if r.json.Malformed? {
      res.Status(500);
      res.Json(ErrorBody(CaughtMessage(r.json.message, "Conversion failed")));
      return;
    }
    var data := r.json.value;
    var converted := ConvertedValue(data, para);
    if !converted.Num? {
      res.Status(400);
      res.Json(ErrorBody(ConversionUnavailable));
      return;
    }
    var taxa := if valor.value != 0.0 then Num(Divide(converted.n, valor)) else Null;
    res.Json(Obj([("de", Str(de)), ("para", Str(para)), ("taxa", taxa),
                  ("valorConvertido", converted), ("date", Get(data, "date"))]));
  }

  /** The `/health` handler: no dependency and no failure path. */
  method HandleHealth(res: Response)
    requires res.Pristine()
    modifies res
    ensures res.Outcome() == Some(Reply(200, Obj([("ok", Bool(true))])))
  {
    res.Json(Obj([("ok", Bool(true))]));
  }

  /** `/getCurrencyInfo` end to end: `requireAuth`, then the handler only if `next` was called. */
  method ServeCurrencyInfo(req: Request, res: Response, verify: string -> Verification, fetched: FetchOutcome)
    requires res.Pristine()
    modifies req`user, res
    ensures res.Outcome() == Some(CurrencyInfoRoute(req.authorization, verify, fetched))
    ensures Authorize(req.authorization, verify).Admit? ==>
              req.user == Some(Authorize(req.authorization, verify).identity)
    ensures Authorize(req.authorization, verify).Deny? ==> req.user == old(req.user)
  {
    var next := new Next();
    RequireAuth(req, res, next, verify);
    if next.calls == 1 {
      HandleCurrencyInfo(res, fetched);
    }
  }

  /** `/converterMoeda` end to end: `requireAuth`, then the handler only if `next` was called. */
  method ServeConverter(req: Request, res: Response, verify: string -> Verification,
                        toNumber: Option<string> -> Number,
                        fetchLatest: (Number, string, string) -> FetchOutcome)
    requires res.Pristine()
    modifies req`user, res
    ensures res.Outcome() == Some(ConverterRoute(req.authorization, verify, req.query, toNumber, fetchLatest))
    ensures Authorize(req.authorization, verify).Admit? ==>
              req.user == Some(Authorize(req.authorization, verify).identity)
    ensures Authorize(req.authorization, verify).Deny? ==> req.user == old(req.user)
  {
    var next := new Next();
    RequireAuth(req, res, next, verify);
    if next.calls == 1 {
      HandleConverter(req, res, toNumber, fetchLatest);
    }
  }
}
