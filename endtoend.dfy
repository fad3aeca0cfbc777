/**
 * A call that goes through the server and back: the client's request is encoded,
 * answered by on_query, the reply encoded and interpreted by the client.
 */
module EndToEnd {
  import opened Wrappers
  import opened Strings
  import opened JsonValue
  import opened Errors
  import opened Uuid
  import opened Codec
  import opened Proto
  import opened Server
  import opened Client

  /**
   * What the caller of Client::call sees for a handler outcome. An RpcError comes back
   * as the same kind with the server's what() as its message, so the label appears
   * twice; its data comes back when non-empty and as {} otherwise. Any other exception
   * comes back as an InternalError.
   */
  function ClientView(outcome: Result<Json, Fault>): Result<Json, Fault> {
    match outcome
    case Success(v) => Success(v)
    case Failure(Raised(e)) =>
      Failure(Raised(NewError(e.kind, e.what, if IsEmpty(e.data) then EmptyObject() else e.data)))
    case Failure(Uncaught(description)) =>
      Failure(Raised(NewError(Internal, Prefix(Internal) + description, EmptyObject())))
  }

  /** The reply the server sends for the call's request: there always is one. */
  ghost function ServerReply(d: Dispatcher, name: string, params: Json, id: string): (reply: Json)
    requires IsUuidV4(id)
    reads d
    ensures HandleQuery(d, Some(EncodeJson(Call(name, params, id, None).sent))) == Some(reply)
    ensures reply == ResponseFor(d.Dispatch(name, ServerParams(params)), id)
  {
    AnswersBuiltRequest(d, name, params, id, id);
    ResponseFor(d.Dispatch(name, ServerParams(params)), id)
  }

  /** The client reads the server's response to its own id as ClientView describes. */
  lemma {:induction false} ClientReadsResponse(outcome: Result<Json, Fault>, id: string)
    ensures InterpretResponse(ResponseFor(outcome, id), id) == ClientView(outcome)
  {
    match outcome
    case Success(v) =>
      AcceptsOkResponse(v, id);
    case Failure(Raised(e)) =>
      RaisesErrorResponse(e.GetCode(), e.what, id, e.data);
      KindOfCodeInvertsCode(e.kind);
    case Failure(Uncaught(description)) =>
      RaisesErrorResponse(Code(Internal), Prefix(Internal) + description, id, EmptyObject());
  }

  /**
   * A call through a server returns what the handler returned, or raises the
   * handler's error as ClientView describes it; the handler sees ServerParams.
   */
  lemma {:induction false} CallThroughServer(d: Dispatcher, name: string, params: Json, id: string)
    requires IsUuidV4(id)
    ensures Call(name, params, id, Some(Success(EncodeJson(ServerReply(d, name, params, id))))).outcome
         == ClientView(d.Dispatch(name, ServerParams(params)))
  {
    var response := ServerReply(d, name, params, id);
    DecodeEncode(response);
    ClientReadsResponse(d.Dispatch(name, ServerParams(params)), id);
  }

  /**
   * The echo handler of the example server: the "message" member of its params, or
   * InvalidParams when there is none.
   */
  function Echo(params: Json): Result<Json, Fault> {
    if Contains(params, "message") then Success(params.obj["message"])
    else Failure(Raised(NewError(InvalidParams, "Missing 'message' parameter", EmptyObject())))
  }

  /** Scenario: call("echo", {"message": "hi"}) on the example server returns "hi". */
  lemma EchoScenario(d: Dispatcher, id: string)
    requires IsUuidV4(id)
    requires "echo" in d.methods && forall p :: d.methods["echo"](p) == Echo(p)
    ensures var params := JObject(map["message" := JString("hi")]);
            Call("echo", params, id, Some(Success(EncodeJson(ServerReply(d, "echo", params, id))))).outcome
              == Success(JString("hi"))
  {
    CallThroughServer(d, "echo", JObject(map["message" := JString("hi")]), id);
  }

  /**
   * Scenario: calling the example server's echo without a "message" member raises
   * InvalidParams, code -32602, with the handler's message under the label twice.
   */
  lemma EchoWithoutMessageScenario(d: Dispatcher, params: Json, id: string)
    requires IsUuidV4(id)
    requires "echo" in d.methods && forall p :: d.methods["echo"](p) == Echo(p)
    requires !Contains(params, "message")
    ensures var r := Call("echo", params, id, Some(Success(EncodeJson(ServerReply(d, "echo", params, id))))).outcome;
            && r == Failure(Raised(NewError(InvalidParams, "Invalid params: Missing 'message' parameter", EmptyObject())))
            && r.error.error.GetCode() == -32602
  {
    CallThroughServer(d, "echo", params, id);
    EchoWithoutMessageView(params);
  }

  /** The caller's view of echo's InvalidParams error. */
  lemma EchoWithoutMessageView(params: Json)
    requires !Contains(ServerParams(params), "message")
    ensures ClientView(Echo(ServerParams(params)))
         == Failure(Raised(NewError(InvalidParams, "Invalid params: Missing 'message' parameter", EmptyObject())))
  {
    assert Prefix(InvalidParams) + "Missing 'message' parameter" == "Invalid params: Missing 'message' parameter";
  }

  /** Scenario: calling a method the server does not have raises MethodNotFound, code -32601. */
  lemma UnknownMethodScenario(d: Dispatcher, name: string, params: Json, id: string)
    requires IsUuidV4(id) && name !in d.methods
    ensures var r := Call(name, params, id, Some(Success(EncodeJson(ServerReply(d, name, params, id))))).outcome;
            && r.Failure? && r.error.Raised?
            && r.error.error.kind == MethodNotFound && r.error.error.GetCode() == -32601
            && IsInfix("Method '" + name + "' not found", r.error.error.what)
  {
    CallThroughServer(d, name, params, id);
    var e := d.Dispatch(name, ServerParams(params)).error.error;
    var r := NewError(e.kind, e.what, if IsEmpty(e.data) then EmptyObject() else e.data);
    var k: nat :| k <= |e.what| && IsPrefix("Method '" + name + "' not found", e.what[k..]);
    assert r.what == Prefix(MethodNotFound) + e.what;
    assert r.what[|Prefix(MethodNotFound)| + k..] == e.what[k..];
  }

  /** Scenario: a server that never replies makes the call raise a TimeoutError, code -32002. */
  lemma NoReplyScenario(name: string, params: Json, id: string)
    requires IsUuidV4(id)
    ensures var r := Call(name, params, id, None).outcome;
            r.Failure? && r.error.Raised? && r.error.error.kind == Timeout && r.error.error.GetCode() == -32002
  {
  }
}
