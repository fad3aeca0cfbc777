/**
 * The server side: DispatcherBase with its name -> handler map, and the decision
 * that on_query makes for one incoming query. The transport is left out: a query is
 * its optional payload, and the reply on_query sends is the returned response object
 * (None when it sends nothing).
 */
module Server {
  import opened Wrappers
  import opened Strings
  import opened JsonValue
  import opened Errors
  import opened Codec
  import opened Proto
  import opened Uuid

  /** A method handler: from params to a result, or to the exception it throws. */
  type Handler = Json -> Result<Json, Fault>

  /** The error dispatch throws for a name that is not registered. */
  function MethodNotFoundFor(name: string): (e: RpcError)
    ensures e.kind == MethodNotFound && e.GetCode() == -32601 && IsEmpty(e.data)
    ensures IsInfix("Method '" + name + "' not found", e.what)
  {
    var detail := "Method '" + name + "' not found";
    InfixAt(Prefix(MethodNotFound), detail, "");
    assert Prefix(MethodNotFound) + detail + "" == Prefix(MethodNotFound) + detail;
    NewErrorNoData(MethodNotFound, detail)
  }

  class Dispatcher {
    /** methods_: the registered handlers. */
    var methods: map<string, Handler>

    constructor ()
      ensures methods == map[]
    {
      methods := map[];
    }

    /** register_method: the name now maps to `handler`; the last registration wins and nothing else changes. */
    method RegisterMethod(name: string, handler: Handler)
      modifies this
      ensures methods == old(methods)[name := handler]
      ensures old(methods).Keys <= methods.Keys && name in methods
      ensures forall p :: Dispatch(name, p) == handler(p)
      ensures forall n, p :: n != name ==> Dispatch(n, p) == old(Dispatch(n, p))
    {
      methods := methods[name := handler];
    }

    /** dispatch: the registered handler's outcome unchanged, or MethodNotFound naming the method. */
    function Dispatch(name: string, params: Json): (r: Result<Json, Fault>)
      reads this
      ensures name in methods ==> r == methods[name](params)
      ensures name !in methods ==> r == Failure(Raised(MethodNotFoundFor(name)))
      ensures name !in methods ==>
                && r.Failure? && r.error.Raised? && r.error.error.kind == MethodNotFound
                && IsInfix("Method '" + name + "' not found", r.error.error.what)
    {
      if name in methods then methods[name](params) else Failure(Raised(MethodNotFoundFor(name)))
    }
  }

  /** The checks on_query makes before it dispatches. */
  predicate IsWellFormedRequest(request: Json) {
    && Contains(request, "jsonrpc") && request.obj["jsonrpc"] == JString(JsonRpcVersion)
    && Contains(request, "method")
    && Contains(request, "id")
  }

  /** The params passed to the handler: the request's params, or {} when it has none. */
  function ParamsOf(request: Json): (params: Json)
    ensures Contains(request, "params") ==> params == request.obj["params"]
    ensures !Contains(request, "params") ==> params == EmptyObject()
  {
    if Contains(request, "params") then request.obj["params"] else EmptyObject()
  }

  /**
   * The response to a dispatched call: the result, the RpcError's code, what() and
   * data, or Internal error for any other exception.
   */
  function ResponseFor(outcome: Result<Json, Fault>, id: string): (r: Json)
    ensures IsResponse(r) && r.obj["id"] == JString(id)
    ensures ("result" in r.obj) <==> outcome.Success?
    ensures outcome.Success? ==> r == MakeResponseOk(outcome.value, id)
    ensures outcome.Failure? && outcome.error.Raised? ==>
              var e := outcome.error.error;
              && r.obj["error"].obj["code"] == JInt(e.GetCode())
              && r.obj["error"].obj["message"] == JString(e.what)
              && ("data" in r.obj["error"].obj <==> !IsEmpty(e.data))
              && ("data" in r.obj["error"].obj ==> r.obj["error"].obj["data"] == e.data)
    ensures outcome.Failure? && outcome.error.Uncaught? ==>
              r == MakeResponseErr(Code(Internal), Prefix(Internal) + outcome.error.description, id)
  {
    match outcome
    case Success(result) => MakeResponseOk(result, id)
    case Failure(Raised(e)) => MakeResponseErrWithData(e.GetCode(), e.what, id, e.data)
    case Failure(Uncaught(description)) => MakeResponseErr(-32603, "Internal error: " + description, id)
  }

  /** What on_query does with a decoded request. */
  function AnswerRequest(d: Dispatcher, request: Json): (reply: Option<Json>)
    reads d
    ensures reply.Some? ==> IsResponse(reply.value)
    ensures !IsWellFormedRequest(request) && !Contains(request, "id") ==>
              reply == Some(MakeResponseErr(-32600, "Invalid Request", "null"))
    ensures !IsWellFormedRequest(request) && Contains(request, "id") ==>
              if request.obj["id"].JString?
              then reply == Some(MakeResponseErr(-32600, "Invalid Request", request.obj["id"].s))
              else reply.None?
    ensures IsWellFormedRequest(request) ==>
              (reply.Some? <==> request.obj["method"].JString? && request.obj["id"].JString?)
    ensures IsWellFormedRequest(request) && reply.Some? ==>
              && reply.value.obj["id"] == request.obj["id"]
              && reply.value == ResponseFor(d.Dispatch(request.obj["method"].s, ParamsOf(request)), request.obj["id"].s)
  {
    if !IsWellFormedRequest(request) then
      if !Contains(request, "id") then Some(MakeResponseErr(-32600, "Invalid Request", "null"))
      else if request.obj["id"].JString? then Some(MakeResponseErr(-32600, "Invalid Request", request.obj["id"].s))
      else None
    else if !request.obj["method"].JString? || !request.obj["id"].JString? then None
    else
      var id := request.obj["id"].s;
      Some(ResponseFor(d.Dispatch(request.obj["method"].s, ParamsOf(request)), id))
  }

  /**
   * on_query: a query without payload and a payload that does not decode get no
   * reply; otherwise the reply is AnswerRequest's, and it is a response object.
   */
  function HandleQuery(d: Dispatcher, payload: Option<Wire>): (reply: Option<Json>)
    reads d
    ensures payload.None? ==> reply.None?
    ensures payload.Some? && DecodeJson(payload.value).Failure? ==> reply.None?
    ensures payload.Some? && DecodeJson(payload.value).Success? ==>
              reply == AnswerRequest(d, DecodeJson(payload.value).value)
    ensures reply.Some? ==> IsResponse(reply.value)
  {
    match payload
    case None => None
    case Some(w) =>
      match DecodeJson(w)
      case Failure(_) => None
      case Success(request) => AnswerRequest(d, request)
  }

  /** The params the handler sees for a call's params: those, or {} when they were empty and so not sent. */
  function ServerParams(params: Json): (p: Json)
    ensures !IsEmpty(params) ==> p == params
    ensures IsEmpty(params) ==> p == EmptyObject()
  {
    if IsEmpty(params) then EmptyObject() else params
  }

  /**
   * Every request make_request builds passes on_query's checks: the encoded request
   * is answered with the outcome of dispatching its method on its params, or on {}
   * when the params were empty and so left out.
   */
  lemma {:induction false} AnswersBuiltRequest(d: Dispatcher, name: string, params: Json, id: string, generated: string)
    requires IsUuidV4(generated)
    ensures var request := MakeRequest(name, params, id, generated);
            HandleQuery(d, Some(EncodeJson(request)))
              == Some(ResponseFor(d.Dispatch(name, ServerParams(params)),
                                  request.obj["id"].s))
  {
    var request := MakeRequest(name, params, id, generated);
    DecodeEncode(request);
    assert HandleQuery(d, Some(EncodeJson(request))) == AnswerRequest(d, request);
    assert IsWellFormedRequest(request);
    assert request.obj["method"] == JString(name) && request.obj["id"].JString?;
    assert ParamsOf(request) == ServerParams(params);
  }
}
