/**
 * Client::call from building the request to interpreting the reply. The transport
 * query is left out: `reply` is what the reply channel yields first (None when no
 * reply arrives, Failure when the transport reports an error reply, Success with the
 * payload otherwise), and `id` is the identifier gen_uuid produced for the call.
 */
module Client {
  import opened Wrappers
  import opened JsonValue
  import opened Errors
  import opened Uuid
  import opened Codec
  import opened Proto

  /** The description of the type_error the JSON library throws on a failed conversion; its exact text is not modelled. */
  const TypeError: string := "type_error"

  /** static_cast to a 32-bit int: the value modulo 2^32, in the signed range. */
  function Wrap32(i: int): (r: Int32)
    ensures (r - i) % 0x1_0000_0000 == 0
    ensures -0x8000_0000 <= i < 0x8000_0000 ==> r == i
  {
    (i + 0x8000_0000) % 0x1_0000_0000 - 0x8000_0000
  }

  /** `int code = j`: a number narrows to int, a boolean gives 1 or 0, anything else throws. */
  function ToInt32(j: Json): (r: Option<Int32>)
    ensures r.Some? <==> j.JInt? || j.JBool?
    ensures j.JInt? ==> r == Some(Wrap32(j.i))
  {
    match j
    case JInt(i) => Some(Wrap32(i))
    case JBool(b) => Some(if b then 1 else 0)
    case _ => None
  }

  /** The response envelope check: version 2.0 and the id that was sent. */
  predicate IsMatchingEnvelope(response: Json, id: string) {
    && Contains(response, "jsonrpc") && response.obj["jsonrpc"] == JString(JsonRpcVersion)
    && Contains(response, "id") && response.obj["id"] == JString(id)
  }

  /**
   * The exception thrown for a response's error member: the kind its code maps to,
   * with the message and the data ({} when absent). A member that is not an object,
   * or whose code or message has the wrong type, makes the library throw instead.
   */
  function ErrorFromWire(error: Json): (f: Fault)
    ensures f.Raised? <==>
              && error.JObject?
              && "code" in error.obj && ToInt32(error.obj["code"]).Some?
              && "message" in error.obj && error.obj["message"].JString?
    ensures f.Raised? ==>
              var code := ToInt32(error.obj["code"]).value;
              && f.error.kind == KindOfCode(code)
              && (Code(f.error.kind) == code || f.error.kind == Server)
              && f.error.what == Prefix(f.error.kind) + error.obj["message"].s
              && f.error.data == (if "data" in error.obj then error.obj["data"] else EmptyObject())
    ensures f.Uncaught? ==> f.description == TypeError
  {
    if !error.JObject? then Uncaught(TypeError)
    else
      var code := if "code" in error.obj then ToInt32(error.obj["code"]) else None;
      if code.None? then Uncaught(TypeError)
      else if !("message" in error.obj && error.obj["message"].JString?) then Uncaught(TypeError)
      else
        var data := if "data" in error.obj then error.obj["data"] else EmptyObject();
        Raised(NewError(KindOfCode(code.value), error.obj["message"].s, data))
  }

  function InvalidResponseError(): RpcError {
    NewErrorNoData(InvalidRequest, "Invalid JSON-RPC response")
  }

  function MissingResultError(): RpcError {
    NewErrorNoData(InvalidRequest, "Response missing result field")
  }

  /**
   * The checks call makes on a decoded response: the envelope first, then error,
   * then result. A result comes back only from a matching envelope with a result
   * and no error.
   */
  function InterpretResponse(response: Json, id: string): (r: Result<Json, Fault>)
    ensures r.Success? <==> IsMatchingEnvelope(response, id) && "error" !in response.obj && "result" in response.obj
    ensures r.Success? ==> r.value == response.obj["result"]
    ensures !IsMatchingEnvelope(response, id) ==> r == Failure(Raised(InvalidResponseError()))
    ensures IsMatchingEnvelope(response, id) && "error" in response.obj ==>
              r == Failure(ErrorFromWire(response.obj["error"]))
    ensures IsMatchingEnvelope(response, id) && "error" !in response.obj && "result" !in response.obj ==>
              r == Failure(Raised(MissingResultError()))
  {
    if !IsMatchingEnvelope(response, id) then Failure(Raised(InvalidResponseError()))
    else if "error" in response.obj then Failure(ErrorFromWire(response.obj["error"]))
    else if "result" !in response.obj then Failure(Raised(MissingResultError()))
    else Success(response.obj["result"])
  }

  /** No reply is a Timeout, an error reply a Connection error, an undecodable payload decode_json's ParseError. */
  function CallOutcome(id: string, reply: Option<Result<Wire, string>>): (r: Result<Json, Fault>)
    ensures reply.None? ==> r == Failure(Raised(NewErrorNoData(Timeout, "No reply received within timeout")))
    ensures reply.Some? && reply.value.Failure? ==>
              r == Failure(Raised(NewErrorNoData(Connection, "Received error reply")))
    ensures reply.Some? && reply.value.Success? && DecodeJson(reply.value.value).Failure? ==>
              r == Failure(Raised(DecodeJson(reply.value.value).error))
    ensures reply.Some? && reply.value.Success? && DecodeJson(reply.value.value).Success? ==>
              r == InterpretResponse(DecodeJson(reply.value.value).value, id)
  {
    match reply
    case None => Failure(Raised(NewErrorNoData(Timeout, "No reply received within timeout")))
    case Some(Failure(_)) => Failure(Raised(NewErrorNoData(Connection, "Received error reply")))
    case Some(Success(payload)) =>
      match DecodeJson(payload)
      case Failure(e) => Failure(Raised(e))
      case Success(response) => InterpretResponse(response, id)
  }

  /** One call: the request it sends and the outcome it returns or throws. */
  datatype Exchange = Exchange(sent: Json, outcome: Result<Json, Fault>)

  /** Client::call: the request carries the generated id verbatim, and the reply is checked against that id. */
  function Call(name: string, params: Json, id: string, reply: Option<Result<Wire, string>>): (x: Exchange)
    requires IsUuidV4(id)
    ensures forall other | IsUuidV4(other) :: x.sent == MakeRequest(name, params, id, other)
    ensures x.sent.JObject? && "id" in x.sent.obj && x.sent.obj["id"] == JString(id)
    ensures x.outcome == CallOutcome(id, reply)
  {
    Exchange(MakeRequest(name, params, id, id), CallOutcome(id, reply))
  }

  /** A success response to the call's own id gives back its result unchanged. */
  lemma AcceptsOkResponse(result: Json, id: string)
    ensures InterpretResponse(MakeResponseOk(result, id), id) == Success(result)
  {
  }

  /**
   * An error response to the call's own id raises the kind its code maps to, with
   * the message carried over and the data, or {} when the response has none.
   */
  lemma RaisesErrorResponse(code: Int32, message: string, id: string, data: Json)
    ensures InterpretResponse(MakeResponseErrWithData(code, message, id, data), id)
         == Failure(Raised(NewError(KindOfCode(code), message, if IsEmpty(data) then EmptyObject() else data)))
  {
  }

  /** When a response carries both error and result, the error is raised. */
  lemma ErrorWinsOverResult(response: Json, id: string)
    requires IsMatchingEnvelope(response, id) && "error" in response.obj && "result" in response.obj
    ensures InterpretResponse(response, id).Failure?
  {
  }

  /** A response for another id is rejected even when it carries a result. */
  lemma RejectsForeignId(result: Json, sentId: string, otherId: string)
    requires sentId != otherId
    ensures InterpretResponse(MakeResponseOk(result, otherId), sentId) == Failure(Raised(InvalidResponseError()))
  {
  }

  /**
   * A code outside the table, such as -99999, raises a ServerError that keeps the
   * message but reports code -32000: the original code is not kept.
   */
  lemma UnknownCodeBecomesServerError(message: string, id: string)
    ensures var r := InterpretResponse(MakeResponseErr(-99999, message, id), id);
            && r.Failure? && r.error.Raised?
            && r.error.error.kind == Server && r.error.error.GetCode() == -32000
            && r.error.error.what == "Server error: " + message
  {
  }
}
