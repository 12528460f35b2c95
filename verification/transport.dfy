/**
 The JSON-RPC-over-HTTP vocabulary both clients share, and the daemon
 client's response classification (`checkAndParse` followed by the success
 callback of `apiCall`).

 The network is abstract: an `Exchange` is what one `fetch` produced (no
 response at all, or a status with a body that parsed as JSON or did not).
 */
module Transport {
  import opened JsValues

  /** The `jsonrpc` member of every request envelope. */
  const JsonRpcVersion := "2.0"

  /** The message of the daemon client's error for a non-2xx reply without an `error`. */
  const ProtocolErrorMessage := "Protocol error with unknown response signature"

  /** The JSON-RPC request body; `params` is `None` when it is `undefined` (and so omitted). */
  datatype Envelope = Envelope(jsonrpc: string, id: int, methodName: string, params: Option<Json>)

  /** One HTTP POST. */
  datatype Request = Request(url: string, headers: map<string, string>, body: Envelope)

  /** What one request produced: no response, or a status and a body (`None` when not JSON). */
  datatype Exchange = NoResponse | Response(status: int, body: Option<Json>)

  /** Why a call's promise rejected. */
  datatype Reason =
    | NetworkFailure                   // `fetch` itself rejected
    | InvalidJson                      // `response.json()` rejected
    | TypeError                        // a property of `null` was read
    | NewError(message: Option<Json>)  // `new Error(message)`
    | ErrorValue(value: Json)          // the raw error value, passed to `reject` unchanged

  /** How a call's promise settled: resolved with a value (maybe `undefined`) or rejected. */
  datatype Outcome = Resolved(value: Option<Json>) | Rejected(reason: Reason)

  /** A sequence of HTTP requests issued, and the outcome the caller observes. */
  datatype Call = Call(sent: seq<Request>, outcome: Outcome)

  /** The URL of a call: `base + "?m=" + methodName`. */
  function EndpointUrl(base: string, methodName: string): (url: string)
    ensures |url| == |base| + 3 + |methodName|
    ensures url[..|base|] == base
    ensures url[|base|..|base| + 3] == "?m="
    ensures url[|base| + 3..] == methodName
  {
    base + "?m=" + methodName
  }

  /** The method is recovered from the URL once the base is known. */
  lemma EndpointUrlInjective(base: string, m1: string, m2: string)
    requires EndpointUrl(base, m1) == EndpointUrl(base, m2)
    ensures m1 == m2
  {
    assert m1 == EndpointUrl(base, m1)[|base| + 3..];
  }

  predicate IsSuccessStatus(status: int)
  {
    200 <= status < 300
  }

  /** The result of `checkAndParse`: the parsed body, or the rejection it produces. */
  datatype Parsed = Parsed(json: Json) | ParseFailed(reason: Reason)

  /**
   `checkAndParse`: a 2xx reply yields its parsed body; any other status is a
   rejection built from the body's `error` member.
   */
  function CheckAndParse(status: int, body: Option<Json>): (r: Parsed)
    ensures r.Parsed? <==> IsSuccessStatus(status) && body.Some?
    ensures r.Parsed? ==> r.json == body.value
    ensures body.None? ==> r == ParseFailed(InvalidJson)
    ensures !IsSuccessStatus(status) && body == Some(JNull) ==> r == ParseFailed(TypeError)
    ensures !IsSuccessStatus(status) && body.Some? && !body.value.JNull? ==>
      var error := Prop(body.value, "error");
      && (Truthy(error) && IsObjectLike(error.value) ==>
            r == ParseFailed(NewError(Prop(error.value, "message"))))
      && (Truthy(error) && !IsObjectLike(error.value) ==> r == ParseFailed(NewError(error)))
      && (!Truthy(error) ==> r == ParseFailed(NewError(Some(JStr(ProtocolErrorMessage)))))
  {
    match body
    case None => ParseFailed(InvalidJson)
    case Some(json) =>
      if IsSuccessStatus(status) then Parsed(json)
      else if json.JNull? then ParseFailed(TypeError)
      else
        var error := Prop(json, "error");
        if Truthy(error) then
          var message := if IsObjectLike(error.value) then Prop(error.value, "message") else error;
          ParseFailed(NewError(message))
        else
          ParseFailed(NewError(Some(JStr(ProtocolErrorMessage))))
  }

  /** JavaScript's `a || b` on values. */
  function Or(a: Option<Json>, b: Option<Json>): Option<Json>
  {
    if Truthy(a) then a else b
  }

  /** The `error` member of a truthy `result`, if any. */
  function ResultError(body: Json): Option<Json>
    requires !body.JNull?
  {
    var result := Prop(body, "result");
    if result.Some? && !result.value.JNull? then Prop(result.value, "error") else None
  }

  /**
   The success callback of `apiCall`: `const error = response.error ||
   (response.result && response.result.error)`; reject with `error` when it
   is truthy, otherwise resolve with `response.result`.
   */
  function Settle(body: Json): (o: Outcome)
    ensures body.JNull? ==> o == Rejected(TypeError)
    ensures !body.JNull? ==> (o.Rejected? <==> Truthy(Prop(body, "error")) || Truthy(ResultError(body)))
    ensures o.Resolved? ==> o.value == Prop(body, "result")
    ensures o.Rejected? && !body.JNull? && Truthy(Prop(body, "error")) ==>
      o.reason == ErrorValue(Prop(body, "error").value)
    ensures o.Rejected? && !body.JNull? && !Truthy(Prop(body, "error")) ==>
      o.reason == ErrorValue(ResultError(body).value)
  {
    if body.JNull? then Rejected(TypeError)
    else
      var result := Prop(body, "result");
      var error := Or(Prop(body, "error"), if Truthy(result) then Prop(result.value, "error") else result);
      if Truthy(error) then Rejected(ErrorValue(error.value)) else Resolved(result)
  }

  /**
   The whole daemon call after the request is sent: `fetch(...)
   .then(checkAndParse).then(settle).catch(reject)`.
   */
  function DaemonOutcome(ex: Exchange): (o: Outcome)
    ensures ex.Response? && !IsSuccessStatus(ex.status) ==> o.Rejected?
    ensures o.Resolved? ==>
      && ex.Response? && IsSuccessStatus(ex.status) && ex.body.Some? && !ex.body.value.JNull?
      && o.value == Prop(ex.body.value, "result")
  {
    match ex
    case NoResponse => Rejected(NetworkFailure)
    case Response(status, body) =>
      match CheckAndParse(status, body)
      case ParseFailed(reason) => Rejected(reason)
      case Parsed(json) => Settle(json)
  }

  /**
   A 2xx reply fails exactly when its `error` or its `result.error` is
   truthy; otherwise it resolves with `result` unchanged, `undefined` when
   the reply carries neither member.
   */
  lemma SuccessReplyClassification(status: int, json: Json)
    requires IsSuccessStatus(status) && !json.JNull?
    ensures var o := DaemonOutcome(Response(status, Some(json)));
      && (o.Rejected? <==> Truthy(Prop(json, "error")) || Truthy(ResultError(json)))
      && (o.Resolved? ==> o.value == Prop(json, "result"))
      && (Prop(json, "error").None? && Prop(json, "result").None? ==> o == Resolved(None))
  {
  }

  /** The daemon convention of an error inside a success envelope is a failure. */
  lemma ErrorInsideResultRejects(status: int, message: Json)
    requires IsSuccessStatus(status)
    ensures var inner := JObj(map["error" := message]);
      Truthy(Some(message)) ==>
        DaemonOutcome(Response(status, Some(JObj(map["result" := inner])))) == Rejected(ErrorValue(message))
  {
    var inner := JObj(map["error" := message]);
    var body := JObj(map["result" := inner]);
    assert Prop(body, "error") == None;
    assert Prop(body, "result") == Some(inner);
  }
}
