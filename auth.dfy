/**
 * The `requireAuth` middleware of the backend: it reads `Authorization: Bearer <token>`,
 * asks the identity provider to verify the token, and either answers 401 or attaches
 * the decoded identity to the request and passes it on.
 */
module Auth {
  import opened Options
  import opened JsValues
  import opened JsStrings
  import opened Http

  /** What the identity provider's `verifyIdToken` does with a token: resolve or throw. */
  datatype Verification = Verified(decoded: Value) | Rejected(message: string)

  /** The middleware's decision: pass the request on with an identity, or answer it. */
  datatype Decision = Admit(identity: Value) | Deny(reply: Reply)

  const MissingToken := "Missing Authorization Bearer token"
  const InvalidToken := "Invalid or expired token"

  /** `req.headers.authorization || ''` */
  function HeaderText(header: Option<string>): (text: string)
    ensures Str(text) == Or(StringOrUndefined(header), Str(""))
    ensures text == "" <==> header.None? || header.value == ""
  {
    match header
    case None => ""
    case Some(h) => h
  }

  /**
   * `const [scheme, token] = header.split(' ')` followed by the check
   * `scheme !== 'Bearer' || !token`: the token, or None when the header is refused.
   */
  function BearerToken(header: Option<string>): (token: Option<string>)
    ensures token.Some? ==> token.value != "" && ' ' !in token.value
  {
    var fields := Split(HeaderText(header), ' ');
    if fields[0] == "Bearer" && |fields| > 1 && fields[1] != "" then Some(fields[1]) else None
  }

  /**
   * A header yields token `t` exactly when it reads "Bearer ", then `t` (non-empty, no space),
   * then either nothing or a space and anything at all: later fields are ignored.
   */
  lemma BearerTokenIff(header: Option<string>, t: string)
    ensures BearerToken(header) == Some(t) <==>
              t != "" && ' ' !in t &&
              (HeaderText(header) == "Bearer " + t || "Bearer " + t + " " <= HeaderText(header))
  {
    var text := HeaderText(header);
    var fields := Split(text, ' ');
    if BearerToken(header) == Some(t) {
      JoinSplit(text, ' ');
      assert fields == [fields[0]] + fields[1..];
      if |fields| == 2 {
        assert text == "Bearer" + [' '] + t;
      } else {
        var rest := Join(fields[2..], ' ');
        assert Join(fields[1..], ' ') == t + [' '] + rest;
        assert text == "Bearer " + t + " " + rest;
      }
    }
    if t != "" && ' ' !in t {
      var more: string := [];
      if text == "Bearer " + t {
        SplitJoin(["Bearer", t], ' ');
        assert Join(["Bearer", t], ' ') == text;
      } else if "Bearer " + t + " " <= text {
        var rest := text[|"Bearer " + t + " "|..];
        assert text == "Bearer" + [' '] + (t + [' '] + rest);
        SplitField("Bearer", t + [' '] + rest, ' ');
        SplitField(t, rest, ' ');
      }
    }
  }

  /** `requireAuth` as a decision: every refusal is a 401, the verifier sees exactly the token. */
  function Authorize(header: Option<string>, verify: string -> Verification): (d: Decision)
    ensures d.Deny? ==> d.reply.status == 401
    ensures BearerToken(header).None? ==> d == Deny(Reply(401, ErrorBody(MissingToken)))
    ensures d.Admit? <==> BearerToken(header).Some? && verify(BearerToken(header).value).Verified?
    ensures d.Admit? ==> d.identity == verify(BearerToken(header).value).decoded
  {
    match BearerToken(header)
    case None => Deny(Reply(401, ErrorBody(MissingToken)))
    case Some(token) =>
      match verify(token)
      case Verified(decoded) => Admit(decoded)
      case Rejected(_) => Deny(Reply(401, ErrorBody(InvalidToken)))
  }

  /** A request without an Authorization header is refused before the verifier is consulted. */
  lemma AbsentHeaderRefused(verify: string -> Verification)
    ensures Authorize(None, verify) == Deny(Reply(401, ErrorBody(MissingToken)))
  {
  }

  /** A doubled space after the scheme leaves an empty second field, which is refused. */
  lemma DoubleSpaceRefused(rest: string, verify: string -> Verification)
    ensures Authorize(Some("Bearer  " + rest), verify) == Deny(Reply(401, ErrorBody(MissingToken)))
  {
    var text := "Bearer  " + rest;
    assert text[7] == ' ';
    if BearerToken(Some(text)).Some? {
      BearerTokenIff(Some(text), BearerToken(Some(text)).value);
      assert false;
    }
  }

  /** Any scheme other than exactly "Bearer" (case included) is refused. */
  lemma OtherSchemeRefused(scheme: string, t: string, verify: string -> Verification)
    requires scheme != "Bearer" && ' ' !in scheme
    ensures Authorize(Some(scheme + " " + t), verify).Deny?
    ensures Authorize(Some(scheme + " " + t), verify).reply.status == 401
  {
    SplitField(scheme, t, ' ');
  }

  /** Fields after the token are ignored: "Bearer a b" is verified as "a". */
  lemma ExtraFieldsIgnored(t: string, rest: string, verify: string -> Verification)
    requires t != "" && ' ' !in t
    ensures BearerToken(Some("Bearer " + t + " " + rest)) == Some(t)
    ensures Authorize(Some("Bearer " + t + " " + rest), verify) == Authorize(Some("Bearer " + t), verify)
  {
    BearerTokenIff(Some("Bearer " + t + " " + rest), t);
    BearerTokenIff(Some("Bearer " + t), t);
  }

  /** Whatever the verifier says, a header that yields no token gets the same 401. */
  lemma NoTokenNoVerification(header: Option<string>, v1: string -> Verification, v2: string -> Verification)
    requires BearerToken(header).None?
    ensures Authorize(header, v1) == Authorize(header, v2)
  {
  }

  /**
   * `requireAuth(req, res, next)`: on a refusal it answers and never calls `next`; on success
   * it sets `req.user` to the decoded identity, calls `next` exactly once and leaves `res` alone.
   */
  method RequireAuth(req: Request, res: Response, next: Next, verify: string -> Verification)
    requires res.Pristine()
    modifies req`user, res, next
    ensures Authorize(req.authorization, verify).Admit? ==>
              && req.user == Some(Authorize(req.authorization, verify).identity)
              && next.calls == old(next.calls) + 1
              && res.Pristine()
    ensures Authorize(req.authorization, verify).Deny? ==>
              && res.Outcome() == Some(Authorize(req.authorization, verify).reply)
              && req.user == old(req.user)
              && next.calls == old(next.calls)
  {
    var header := HeaderText(req.authorization);
    var fields := Split(header, ' ');
    var scheme := fields[0];
    var token := if |fields| > 1 then fields[1] else "";
    if scheme != "Bearer" || token == "" {
      res.Status(401);
      res.Json(ErrorBody(MissingToken));
      return;
    }
    match verify(token)
    case Rejected(_) =>
      res.Status(401);
      res.Json(ErrorBody(InvalidToken));
    case Verified(decoded) =>
      req.user := Some(decoded);
      next.Invoke();
  }
}
