/**
 * The concrete request/response pairs the backend's test suite exercises, stated over the model.
 */
module Scenarios {
  import opened Options
  import opened JsValues
  import opened Http
  import opened Auth
  import opened Handlers

  /** `Authorization: Bearer valid` with a verifier that accepts it reaches the handler as `test-uid`. */
  lemma ValidBearerAdmitted(verify: string -> Verification)
    requires verify("valid") == Verified(Obj([("uid", Str("test-uid"))]))
    ensures Authorize(Some("Bearer valid"), verify) == Admit(Obj([("uid", Str("test-uid"))]))
  {
    assert "Bearer valid" == "Bearer " + "valid";
    assert ' ' !in "valid";
    BearerTokenIff(Some("Bearer valid"), "valid");
  }

  /** `/getCurrencyInfo` lists `{USD: "US Dollar", BRL: "Brazilian Real"}` in that order. */
  lemma CurrencyInfoListsInOrder()
    ensures CurrencyInfoReply(Replied(true, Parsed(Obj([("USD", Str("US Dollar")), ("BRL", Str("Brazilian Real"))]))))
            == Reply(200, Arr([Obj([("code", Str("USD")), ("name", Str("US Dollar"))]),
                               Obj([("code", Str("BRL")), ("name", Str("Brazilian Real"))])]))
  {
  }

  /** The rate service's reply to `amount=1&from=USD&to=BRL` in the tests. */
  function LatestUsdBrl(): Value {
    Obj([("amount", Num(Finite(1.0))), ("base", Str("USD")), ("date", Str("2025-09-19")),
         ("rates", Obj([("BRL", Num(Finite(5.33)))]))])
  }

  /** `/converterMoeda?valor=1&de=USD&para=BRL` answers 200 with rate 5.33 and the provider's date. */
  lemma ConverterUsdBrl(toNumber: Option<string> -> Number, fetchLatest: (Number, string, string) -> FetchOutcome)
    requires toNumber(Some("1")) == Finite(1.0)
    requires fetchLatest(Finite(1.0), "USD", "BRL") == Replied(true, Parsed(LatestUsdBrl()))
    ensures ConverterReply(Query(Some("1"), Some("USD"), Some("BRL")), toNumber, fetchLatest)
            == Reply(200, Obj([("de", Str("USD")), ("para", Str("BRL")), ("taxa", Num(Finite(5.33))),
                               ("valorConvertido", Num(Finite(5.33))), ("date", Str("2025-09-19"))]))
  {
    UpperCaseCodes();
    ConverterForwards(Query(Some("1"), Some("USD"), Some("BRL")), toNumber, fetchLatest, Finite(1.0), "USD", "BRL");
    RatesUsdBrl();
  }

  /** The currency codes of the scenarios, upper-cased. */
  lemma UpperCaseCodes()
    ensures JsStrings.ToUpperCase("USD") == "USD" && JsStrings.ToUpperCase("BRL") == "BRL"
    ensures JsStrings.ToUpperCase("usd") == "USD" && JsStrings.ToUpperCase("brl") == "BRL"
  {
    assert JsStrings.ToUpperCase("USD") == "USD";
    assert JsStrings.ToUpperCase("BRL") == "BRL";
    assert JsStrings.ToUpperCase("usd") == "USD";
    assert JsStrings.ToUpperCase("brl") == "BRL";
  }

  /** Valid arguments are answered by the rate-service step on the upper-cased codes. */
  lemma ConverterForwards(query: Query, toNumber: Option<string> -> Number,
                          fetchLatest: (Number, string, string) -> FetchOutcome,
                          valor: Number, de: string, para: string)
    requires toNumber(query.valor) == valor
    requires JsStrings.ToUpperCase(QueryText(query.de)) == de
    requires JsStrings.ToUpperCase(QueryText(query.para)) == para
    requires ValidConversion(valor, de, para)
    ensures ConverterReply(query, toNumber, fetchLatest) == RatesReply(valor, de, para, fetchLatest(valor, de, para))
  {
  }

  /** The rate service's reply, turned into the conversion body. */
  lemma RatesUsdBrl()
    ensures RatesReply(Finite(1.0), "USD", "BRL", Replied(true, Parsed(LatestUsdBrl())))
            == Reply(200, Obj([("de", Str("USD")), ("para", Str("BRL")), ("taxa", Num(Finite(5.33))),
                               ("valorConvertido", Num(Finite(5.33))), ("date", Str("2025-09-19"))]))
  {
    var data := LatestUsdBrl();
    LookupAt(data.members, 2, "date");
    LookupAt(data.members, 3, "rates");
    assert ConvertedValue(data, "BRL") == Num(Finite(5.33));
    assert Divide(Finite(5.33), Finite(1.0)) == Finite(5.33);
  }

  /** With `valor=0` the conversion still succeeds, and `taxa` is null. */
  lemma ConverterZeroAmount(toNumber: Option<string> -> Number, fetchLatest: (Number, string, string) -> FetchOutcome)
    requires toNumber(Some("0")) == Finite(0.0)
    requires fetchLatest(Finite(0.0), "USD", "BRL") == Replied(true, Parsed(LatestUsdBrl()))
    ensures var r := ConverterReply(Query(Some("0"), Some("usd"), Some("brl")), toNumber, fetchLatest);
            r.status == 200 && Member(r.body, "taxa") == Null &&
            Member(r.body, "valorConvertido") == Num(Finite(5.33))
  {
    UpperCaseCodes();
    ConverterForwards(Query(Some("0"), Some("usd"), Some("brl")), toNumber, fetchLatest, Finite(0.0), "USD", "BRL");
    RatesZeroAmount();
  }

  /** The rate service's reply for a zero amount: a number was found, so 200, with a null `taxa`. */
  lemma RatesZeroAmount()
    ensures var r := RatesReply(Finite(0.0), "USD", "BRL", Replied(true, Parsed(LatestUsdBrl())));
            r.status == 200 && Member(r.body, "taxa") == Null &&
            Member(r.body, "valorConvertido") == Num(Finite(5.33))
  {
    var data := LatestUsdBrl();
    LookupAt(data.members, 3, "rates");
    assert ConvertedValue(data, "BRL") == Num(Finite(5.33));
  }

  /** Signing up with an empty email is refused with 400. */
  lemma SignupEmptyEmail(createUser: (Value, Value, Value) -> CreateOutcome, signIn: (Value, Value) -> FetchOutcome)
    ensures SignupReply(Obj([("email", Str(""))]), createUser, signIn).status == 400
  {
  }

  /** Signing up returns the new uid, a null display name and the minted tokens. */
  lemma SignupReturnsTokens(createUser: (Value, Value, Value) -> CreateOutcome, signIn: (Value, Value) -> FetchOutcome)
    requires createUser(Str("a@b.com"), Str("123456"), Undefined) ==
             Created(UserRecord("uid_a@b.com", Str("a@b.com"), Null))
    requires signIn(Str("a@b.com"), Str("123456")) ==
             Replied(true, Parsed(Obj([("idToken", Str("fake-id-token")), ("refreshToken", Str("fake-refresh")),
                                       ("expiresIn", Str("3600"))])))
    ensures SignupReply(Obj([("email", Str("a@b.com")), ("password", Str("123456"))]), createUser, signIn)
            == Reply(200, Obj([("uid", Str("uid_a@b.com")), ("email", Str("a@b.com")), ("displayName", Null),
                               ("idToken", Str("fake-id-token")), ("refreshToken", Str("fake-refresh"))]))
  {
  }

  /** A rejected password is answered 401 with the provider's payload as details. */
  lemma LoginInvalidPassword(signIn: (Value, Value) -> FetchOutcome)
    requires signIn(Str("a@b.com"), Str("bad")) ==
             Replied(false, Parsed(Obj([("error", Obj([("message", Str("INVALID_PASSWORD"))]))])))
    ensures var r := LoginReply(Obj([("email", Str("a@b.com")), ("password", Str("bad"))]), signIn);
            r.status == 401 &&
            Member(r.body, "details") == Obj([("error", Obj([("message", Str("INVALID_PASSWORD"))]))])
  {
  }

  /** A successful sign-in returns exactly the provider's session fields. */
  lemma LoginReturnsTokens(signIn: (Value, Value) -> FetchOutcome)
    requires signIn(Str("a@b.com"), Str("123456")) ==
             Replied(true, Parsed(Obj([("idToken", Str("fake-id-token")), ("refreshToken", Str("fake-refresh")),
                                       ("expiresIn", Str("3600"))])))
    ensures LoginReply(Obj([("email", Str("a@b.com")), ("password", Str("123456"))]), signIn)
            == Reply(200, Obj([("idToken", Str("fake-id-token")), ("refreshToken", Str("fake-refresh")),
                               ("expiresIn", Str("3600"))]))
  {
  }
}
