# Currency converter gateway — Dafny model

This project models the core of a small currency-converter application:

- the **backend** (`backend/server.js`), an Express gateway. It offers `/signup` and `/login`, which go
  through the identity provider. It offers `/getCurrencyInfo` and `/converterMoeda`, which go to the
  Frankfurter exchange-rate service and are guarded by the `requireAuth` bearer-token middleware. It also
  offers `/health`;
- the **frontend route guard** (`app/src/router/index.js`): a table of three routes and a `beforeEach` hook
  that sends visitors without a stored token to `login` when the target route has `meta.requiresAuth`, and
  signed-in visitors away from `login`.

Modules:

- `Options`: the Some/None datatype.
- `JsValues`: the slice of JavaScript that the gateway relies on. It covers JSON-shaped values, truthiness
  (`!x`, `x || y`), property access `v[key]` and optional chaining `v?.[key]` (own properties, including
  array and string indices), and `Object.entries`.
- `JsStrings`: `split(' ')` (with its inverse `Join` and both round trips) and `toUpperCase`.
- `Http`: the reply a handler sends, and the `Request`, `Response` and `Next` classes. `Response` models
  `res.status(...).json(...)`. `Next` counts calls of the middleware callback.
- `Auth`: `requireAuth` as a decision function `Authorize`, and as the imperative `RequireAuth` that sets
  `req.user` and calls `next`.
- `Handlers`: one decision function per endpoint (`SignupReply`, `LoginReply`, `CurrencyInfoReply`,
  `ConverterReply`), the protected-route composition, and the imperative `Handle*`/`Serve*` methods. Each
  method is proved to send exactly the reply its decision function gives.
- `Router`: the route table and the guard `BeforeEach`. Includes the no-redirect-loop property.
- `Scenarios`: the request/response pairs that the backend's test suite exercises.

Every upstream collaborator is a parameter, not an ambient global:

- the token verifier `verify: string -> Verification`;
- `createUser` and the password sign-in endpoint;
- the `/currencies` response and the `/latest` endpoint;
- JavaScript's `Number(...)` on the `valor` query parameter.

Because of this, "the verifier receives exactly the second field", "sign-in uses the same credentials" and
"the rate service receives upper-cased codes" are stated directly. "No upstream call is made before
validation" is stated as: the reply does not depend on those parameters.

Details of the code's behaviour that the model keeps:

- The header is split on every space, not just the first one. So `Bearer a b` verifies `a`.
- Error messages are the English strings of `server.js`. The tests expect Portuguese ones.
- In `/signup`, a sign-in call that throws, or whose body is not JSON, ends in the handler's `catch`. That
  gives 400. Only a parsed non-ok sign-in response gives 500.
- A thrown error in `/converterMoeda` gives 500.

## Model

| member | source | states |
|---|---|---|
| `JsValues.Falsy` | backend/server.js:28 | `!v` holds exactly for undefined, null, false, 0, NaN and the empty string; every array and object is truthy |
| `JsValues.Or` | backend/server.js:41 | `a \|\| b` gives `b` exactly when `a` is falsy, and the result is truthy iff one operand is |
| `JsValues.IndexKey` | backend/server.js:130 | a property key names the slot below the length whose decimal spelling equals the key, and no slot when there is no such index |
| `JsValues.Lookup` | backend/server.js:41 | an object's property is the value of the first member with that key, undefined when no member has it |
| `JsValues.Get` | backend/server.js:94-96 | property access on an object reads its first member with that key; on an array or string, `length` is the length and the decimal spelling of an index reads that element or character; every other key, and any key on a boolean or number, reads undefined |
| `JsValues.OptionalGet` | backend/server.js:130 | `v?.[key]` is undefined on undefined/null, a boolean or a number; on an object it reads the first member with that key; on an array or string `length` is the length, the decimal spelling of an index reads that element or character, and every other key reads undefined |
| `JsValues.Entries` | backend/server.js:110 | `Object.entries` throws exactly on undefined/null; on an object it is its members in order; on an array, index/element pairs in index order; on a string, index/character pairs in index order; on a boolean or number, no entries |
| `JsValues.EntriesReadBack` | backend/server.js:110 | every entry of an array or string reads back through property access under its own key |
| `JsStrings.Split` | backend/server.js:27 | `split(' ')` yields at least one field and no field contains the separator |
| `JsStrings.JoinSplit` | backend/server.js:27 | joining the fields with the separator gives the header back: splitting loses nothing |
| `JsStrings.SplitJoin` | backend/server.js:27 | splitting a join of separator-free fields gives the fields back |
| `JsStrings.SplitField` | backend/server.js:27 | a separator-free word followed by a space becomes a field of its own |
| `JsStrings.ToUpperCase` | backend/server.js:119-120 | upper-casing keeps the length, turns each ASCII lower-case letter into its upper-case letter (code minus 32) and keeps every other character |
| `JsStrings.ToUpperCaseIdempotent` | backend/server.js:119-120 | upper-casing twice equals upper-casing once |
| `Http.CaughtMessage` | backend/server.js:69 | a caught error's reply message is its own message when non-empty, and exactly the handler's non-empty fallback when the message is empty |
| `Http.Response.Outcome` | backend/server.js:29 | a reply exists exactly when a body has been sent |
| `Http.Response.Status` | backend/server.js:29 | `res.status(code)` sets the status and sends nothing |
| `Http.Response.Json` | backend/server.js:29 | `res.json(body)` sends the body once, keeping the status set before it |
| `Http.Next.Invoke` | backend/server.js:33 | calling `next` increments its call count by one |
| `Auth.HeaderText` | backend/server.js:26 | the header text is the header itself, `header \|\| ''`, and it is empty exactly when the header is absent or empty |
| `Auth.BearerToken` | backend/server.js:26-28 | an accepted token is non-empty and contains no space |
| `Auth.BearerTokenIff` | backend/server.js:26-28 | a header yields token t iff it is `Bearer t`, or starts with `Bearer t` plus a space, with t non-empty and space-free (both directions) |
| `Auth.Authorize` | backend/server.js:24-37 | every refusal is 401; a header without a token is refused with the missing-token body; admission happens iff the verifier accepts exactly the parsed token, and the identity is what it decoded |
| `Auth.AbsentHeaderRefused` | backend/server.js:26-29 | a request without an Authorization header gets 401 |
| `Auth.DoubleSpaceRefused` | backend/server.js:27-29 | `Bearer  x` (double space) leaves an empty token and gets 401 |
| `Auth.OtherSchemeRefused` | backend/server.js:28-29 | a scheme other than exactly `Bearer` gets 401 |
| `Auth.ExtraFieldsIgnored` | backend/server.js:27-31 | `Bearer t rest` yields token t and is decided exactly as `Bearer t` |
| `Auth.NoTokenNoVerification` | backend/server.js:28-31 | when no token is parsed, the verifier's behaviour cannot affect the reply |
| `Auth.RequireAuth` | backend/server.js:24-37 | on refusal it sends the 401 reply, leaves `req.user` alone and never calls `next`; on success it sets `req.user` to the decoded identity, calls `next` exactly once and sends nothing; it changes no other request field |
| `Handlers.HasCredentials` | backend/server.js:41-42 | both credentials are present exactly when the body is an object whose `email` and `password` members are both truthy |
| `Handlers.BodyField` | backend/server.js:41 | a field of `req.body \|\| {}` is undefined when the body is falsy, a boolean or a number, and the object's member with that key when the body is an object; any other body (an array or a string) gives undefined for every key that is not `length` and does not start with a digit, such as `email` and `password` |
| `Handlers.SignupBodyMembers` | backend/server.js:61-67 | the signup body is an object with exactly five members and carries uid, email, displayName (null when falsy) and both tokens from the sign-in payload |
| `Handlers.SignupReply` | backend/server.js:39-71 | status is 200, 400 or 500; missing credentials give 400; a failed createUser gives 400; 500 exactly for a parsed non-ok sign-in after a successful createUser, with that payload as details; 200 exactly when creation and sign-in both succeed, with exactly five members: the user's fields and the tokens |
| `Handlers.SignupValidatesFirst` | backend/server.js:41-46 | with missing credentials the reply does not depend on createUser or sign-in |
| `Handlers.SignupStopsAtCreateFailure` | backend/server.js:46-48 | when createUser fails the reply does not depend on sign-in |
| `Handlers.SessionBodyMembers` | backend/server.js:93-97 | the login body has exactly three members, idToken, refreshToken and expiresIn, copied from the payload |
| `Handlers.LoginReply` | backend/server.js:73-101 | status is 200, 400, 401 or 500; 400 exactly when credentials are missing, with the credentials-required body; 401 iff sign-in answered non-ok with a parsed payload, which becomes details; a thrown fetch or unparsable body gives 500; 200 gives exactly the three session fields |
| `Handlers.LoginValidatesFirst` | backend/server.js:75-80 | with missing credentials the reply does not depend on sign-in |
| `Handlers.CurrencyList` | backend/server.js:110 | the list has one `{code, name}` object per entry, same length and same order, code being the key and name the value |
| `Handlers.CurrencyListKeepsOrder` | backend/server.js:110 | reading the codes back off the list gives the provider's keys in the provider's order |
| `Handlers.CurrencyInfoReply` | backend/server.js:105-114 | status is 200, 500 or 502; a thrown fetch gives 500; 502 iff the provider answered non-ok; 200 iff the payload parsed to a non-null value, and then the body lists its entries in order, each as an object with exactly the two members code and name |
| `Handlers.QueryText` | backend/server.js:119-120 | the query text is the parameter itself, `x \|\| ''`, and it is empty exactly when the parameter is absent or empty |
| `Handlers.ConvertedValue` | backend/server.js:130 | `data?.rates?.[para]` is undefined when the data or its rates are undefined or null, as it is when the data is not an object; when the data is an object with non-null rates it is property access `para` on those rates (a member of a rates object, undefined on a boolean or number) |
| `Handlers.ValidConversion` | backend/server.js:121 | the converter's arguments pass exactly when the amount is a finite number and both codes are truthy strings |
| `Handlers.Divide` | backend/server.js:135 | dividing a finite amount by a finite non-zero amount gives the finite q with q times the divisor equal to the amount; NaN stays NaN and an infinity stays infinite |
| `Handlers.ConversionBodyMembers` | backend/server.js:135-136 | the conversion body has exactly five members, carrying de, para, the converted value and the provider's date; taxa is null iff the amount is zero, and otherwise the quotient of the converted value by the amount |
| `Handlers.Rate` | backend/server.js:135 | `valor ? valorConvertido / valor : null` is null exactly for a zero amount and otherwise the quotient |
| `Handlers.RatesReply` | backend/server.js:126-139 | status is 200, 400, 500 or 502; 502 iff the provider answered non-ok; a non-number `rates[para]` gives 400; 200 iff a number was found, and then the body has exactly five members, with date passed through verbatim and taxa null iff the amount is zero, else the converted value divided by the amount |
| `Handlers.ConverterReply` | backend/server.js:116-140 | a non-finite amount or an empty code gives 400; otherwise the rate service is asked with the amount and the upper-cased codes; a 200 body carries the upper-cased codes and a null taxa iff the amount is zero |
| `Handlers.ConverterValidatesFirst` | backend/server.js:118-126 | invalid input is answered without depending on the rate service |
| `Handlers.ConverterIgnoresCase` | backend/server.js:119-120 | codes given in any case produce the same reply as their upper-cased form |
| `Handlers.CurrencyInfoRoute` | backend/server.js:105 | `/getCurrencyInfo` answers 401 whenever `requireAuth` refuses, else the handler's reply |
| `Handlers.ConverterRoute` | backend/server.js:116 | `/converterMoeda` answers 401 whenever `requireAuth` refuses, else the handler's reply |
| `Handlers.ProtectedRoutesRefuseFirst` | backend/server.js:24-37 | a refused protected request gets 401 whatever the rate service would have said |
| `Handlers.HandleSignup` | backend/server.js:39-71 | the imperative handler sends exactly `SignupReply` |
| `Handlers.HandleLogin` | backend/server.js:73-101 | the imperative handler sends exactly `LoginReply` |
| `Handlers.HandleCurrencyInfo` | backend/server.js:106-113 | the imperative handler sends exactly `CurrencyInfoReply` |
| `Handlers.HandleConverter` | backend/server.js:117-139 | the imperative handler sends exactly `ConverterReply` |
| `Handlers.HandleHealth` | backend/server.js:142 | `/health` always sends 200 `{ok: true}` |
| `Handlers.ServeCurrencyInfo` | backend/server.js:105 | middleware then handler, the handler running only if `next` was called, sends exactly `CurrencyInfoRoute`; `req.user` becomes the decoded identity on admission and is left alone on refusal |
| `Handlers.ServeConverter` | backend/server.js:116 | middleware then handler, the handler running only if `next` was called, sends exactly `ConverterRoute`; `req.user` becomes the decoded identity on admission and is left alone on refusal |
| `Router.Resolve` | app/src/router/index.js:6-23 | a name resolves iff a route of the table carries it, and then to that route's own location (its name and its `requiresAuth` meta) |
| `Router.BeforeEach` | app/src/router/index.js:26-36 | redirect to login iff the target requires auth and there is no token; redirect to home iff the target is login and there is a token; a redirect always names a route of the table |
| `Router.ProceedIff` | app/src/router/index.js:29-35 | the guard proceeds iff the target is open to the visitor and is not login for a signed-in visitor |
| `Router.IgnoresOrigin` | app/src/router/index.js:26-35 | the decision does not depend on `from` |
| `Router.NoRedirectLoop` | app/src/router/index.js:6-33 | the target of any redirect is in the table and the guard proceeds there with the same token |
| `Router.SignupNeverRedirected` | app/src/router/index.js:18-35 | the signup route is never redirected, whatever the token |
| `Router.TableRedirects` | app/src/router/index.js:6-33 | among the table's routes only home redirects to login (without a token) and only login to home (with one) |
| `Scenarios.ValidBearerAdmitted` | backend/__tests__/frankfurter.test.js:58-68 | `Bearer valid` with an accepting verifier admits the decoded identity |
| `Scenarios.CurrencyInfoListsInOrder` | backend/__tests__/frankfurter.test.js:58-68 | USD then BRL come back as `[{USD, US Dollar}, {BRL, Brazilian Real}]` |
| `Scenarios.ConverterUsdBrl` | backend/__tests__/frankfurter.test.js:70-83 | valor=1, USD to BRL at 5.33 gives 200 with taxa 5.33 and the provider's date |
| `Scenarios.RatesUsdBrl` | backend/__tests__/frankfurter.test.js:70-83 | the provider's `/latest` payload becomes the expected conversion body |
| `Scenarios.ConverterZeroAmount` | backend/server.js:135 | valor=0 with lower-case codes still succeeds, with taxa null |
| `Scenarios.RatesZeroAmount` | backend/server.js:130-136 | the rate service's payload for a zero amount gives 200 with the converted value and taxa null |
| `Scenarios.SignupEmptyEmail` | backend/__tests__/auth.test.js:55-59 | an empty email gets 400 |
| `Scenarios.SignupReturnsTokens` | backend/__tests__/auth.test.js:45-53 | with the suite's mocked createUser and sign-in payload, `a@b.com` gets uid `uid_a@b.com`, null displayName and the tokens `fake-id-token` and `fake-refresh` |
| `Scenarios.LoginReturnsTokens` | backend/__tests__/auth.test.js:61-68 | a successful sign-in returns exactly idToken, refreshToken and expiresIn |
| `Scenarios.LoginInvalidPassword` | backend/__tests__/auth.test.js:70-81 | an INVALID_PASSWORD rejection gets 401 with the payload as details |

## Left out

- Express wiring is not modelled: CORS, the JSON body parser, `app.listen`, logging, and dispatching a
  path to its handler (an unknown path's 404). These are framework plumbing.
- Firebase Admin initialisation is not modelled. The real `verifyIdToken` and `createUser` are foreign
  calls. They appear only as parameters that resolve or throw.
- `fetch` itself is not modelled: no URLs, no API key, no `encodeURIComponent`. Each call is a parameter
  that throws or answers with an ok flag and a body, which parses or does not.
- `Number(req.query.valor)` is a parameter, `toNumber`. `Number.isFinite` is the `Finite` case of
  `Number`.
- `Handlers.Divide`: uses exact rational division. IEEE-754 rounding and overflow to Infinity are not
  modelled, because the gateway only forwards the quotient.
- `JsStrings.ToUpperCase`: maps only the ASCII letters a–z. Full Unicode case mapping is not modelled,
  including mappings that change length, such as `ß` to `SS`.
- Query parameters are strings or absent. Repeated or nested parameters, which Express turns into arrays or
  objects that `String(...)` then joins, are not modelled.
- `JsValues.Get`: a string's `length` and its index keys count Unicode scalar values, because Dafny strings
  are sequences of them; JavaScript counts UTF-16 code units, so a character outside the Basic
  Multilingual Plane has length 2 there and 1 here. `Object.entries` on a string differs the same way. The
  gateway never reads the length or an index of a string it receives.
- Property access covers own properties only. Inherited prototype members are not modelled. No key the
  gateway reads can name one, since currency codes are upper-cased and the prototype members' names are
  not.
- An object's members are kept in JavaScript's enumeration order. The reordering that `JSON.parse` applies
  to integer-like keys is taken as already done.
- Objects are taken to have distinct keys. `JSON.parse` keeps the last of several equal keys; `Lookup`
  reads the first, which agrees only because a parsed object has each key once.
- JSON serialisation of the reply is not modelled: members whose value is `undefined` are dropped on the
  wire.
- `Http.Response.Json`: requires that no body was sent yet. Express throws on a second send, and no handler
  sends twice.
- Async sequencing, a hung upstream call and request concurrency are not modelled. Requests share no state.
- Frontend: vue-router's history, lazy component imports and `localStorage` are not modelled. The stored
  token is an optional string, and the guard receives it as a parameter. A truthy non-boolean
  `meta.requiresAuth` is reduced to `true`. Symbol route names are not modelled.
- The exact text of error messages carries no proved property, because the code and its tests disagree on
  it.
