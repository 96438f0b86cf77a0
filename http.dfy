/**
 * The request and response objects an Express handler sees, reduced to what the gateway
 * reads and writes, and the `next` callback through which middleware passes a request on.
 */
module Http {
  import opened Options
  import opened JsValues

  /** What a handler has sent: the status line and the JSON body. */
  datatype Reply = Reply(status: nat, body: Value)

  /** The query string of `/converterMoeda`; an absent parameter is None. */
  datatype Query = Query(valor: Option<string>, de: Option<string>, para: Option<string>)

  /** `{ error: message }`, the body of every failure reply. */
  function ErrorBody(message: string): Value {
    Obj([("error", Str(message))])
  }

  /** `{ error: message, details }`, a failure reply that forwards an upstream payload. */
  function ErrorWithDetails(message: string, details: Value): Value {
    Obj([("error", Str(message)), ("details", details)])
  }

  /** The member `key` of a reply body (undefined when the body is not an object). */
  function Member(body: Value, key: string): Value {
    if body.Obj? then Lookup(body.members, key) else Undefined
  }

  /** `e.message || fallback` inside a `catch (e)`; an error without a message has message "". */
  function CaughtMessage(message: string, fallback: string): (m: string)
    requires fallback != ""
    ensures m != ""
    ensures message != "" ==> m == message
    ensures message == "" ==> m == fallback
  {
    if message == "" then fallback else message
  }

  /** The message of the TypeError thrown by `v.key` on undefined or null. */
  function ReadError(v: Value, key: string): string
    requires Nullish(v)
  {
    "Cannot read properties of " + (if v.Null? then "null" else "undefined") + " (reading '" + key + "')"
  }

  /** An inbound request: the Authorization header, the parsed JSON body, the query, and `req.user`. */
  class Request {
    const authorization: Option<string>
    const body: Value
    const query: Query
    var user: Option<Value>

    constructor (authorization: Option<string>, body: Value, query: Query)
      ensures this.authorization == authorization && this.body == body && this.query == query
      ensures user == None
    {
      this.authorization := authorization;
      this.body := body;
      this.query := query;
      user := None;
    }
  }

  /** An outgoing response: Express starts every response with status 200 and no body. */
  class Response {
    var statusCode: nat
    var sent: Option<Value>

    constructor ()
      ensures Pristine()
    {
      statusCode := 200;
      sent := None;
    }

    /** Nothing has been written to the response yet. */
    predicate Pristine()
      reads this
    {
      statusCode == 200 && sent == None
    }

    /** The reply the client receives, once a body has been sent. */
    function Outcome(): (r: Option<Reply>)
      reads this
      ensures r.Some? <==> sent.Some?
    {
      if sent.Some? then Some(Reply(statusCode, sent.value)) else None
    }

    /** `res.status(code)` */
    method Status(code: nat)
      modifies this
      ensures statusCode == code && sent == old(sent)
    {
      statusCode := code;
    }

    /** `res.json(body)`; Express refuses a second body once one has been sent. */
    method Json(body: Value)
      requires sent == None
      modifies this
      ensures sent == Some(body) && statusCode == old(statusCode)
    {
      sent := Some(body);
    }
  }

  /** The `next` callback handed to middleware; `calls` counts its invocations. */
  class Next {
    var calls: nat

    constructor ()
      ensures calls == 0
    {
      calls := 0;
    }

    method Invoke()
      modifies this
      ensures calls == old(calls) + 1
    {
      calls := calls + 1;
    }
  }
}
