/**
 * Envelope construction: make_request and its variants, make_response_ok and the
 * two make_response_err overloads. Each builds a JSON object key by key and has no
 * other effect. The identifier that make_request generates for an empty id is the
 * parameter `generated`, a string gen_uuid produced.
 */
module Proto {
  import opened JsonValue
  import opened Errors
  import opened Uuid

  const JsonRpcVersion: string := "2.0"

  /** A response object: version 2.0, an id, exactly one of result and error, and a well-typed error. */
  predicate IsResponse(r: Json) {
    && r.JObject?
    && "jsonrpc" in r.obj && r.obj["jsonrpc"] == JString(JsonRpcVersion)
    && "id" in r.obj
    && (("result" in r.obj) != ("error" in r.obj))
    && ("error" in r.obj ==>
          && r.obj["error"].JObject?
          && "code" in r.obj["error"].obj && r.obj["error"].obj["code"].JInt?
          && "message" in r.obj["error"].obj && r.obj["error"].obj["message"].JString?)
  }

  /** make_request: params only when non-empty, the given id when non-empty, else a generated one. */
  function MakeRequest(name: string, params: Json, id: string, generated: string): (r: Json)
    requires IsUuidV4(generated)
    ensures r.JObject?
    ensures r.obj.Keys == {"jsonrpc", "method", "id"} + (if IsEmpty(params) then {} else {"params"})
    ensures r.obj["jsonrpc"] == JString(JsonRpcVersion) && r.obj["method"] == JString(name)
    ensures "params" in r.obj ==> r.obj["params"] == params
    ensures id != "" ==> r.obj["id"] == JString(id)
    ensures id == "" ==> r.obj["id"].JString? && IsUuidV4(r.obj["id"].s)
    ensures r.obj["id"].JString? && r.obj["id"].s != ""
  {
    var base := map["jsonrpc" := JString(JsonRpcVersion), "method" := JString(name)];
    var withParams := if IsEmpty(params) then base else base["params" := params];
    var requestId := if id == "" then generated else id;
    JObject(withParams["id" := JString(requestId)])
  }

  /** make_request_kwargs: make_request with the keyword object as params. */
  function MakeRequestKwargs(name: string, kwargs: Json, id: string, generated: string): (r: Json)
    requires IsUuidV4(generated)
    ensures r == MakeRequest(name, kwargs, id, generated)
  {
    MakeRequest(name, kwargs, id, generated)
  }

  /**
   * make_request_args: the positional arguments, in order, become a params array;
   * the second parameter is always the id.
   */
  function MakeRequestArgs(name: string, id: string, args: seq<Json>, generated: string): (r: Json)
    requires IsUuidV4(generated)
    ensures r.JObject? && "method" in r.obj && "id" in r.obj && r.obj["method"] == JString(name)
    ensures ("params" in r.obj) <==> |args| > 0
    ensures "params" in r.obj ==> r.obj["params"].JArray? && r.obj["params"].elems == args
    ensures id != "" ==> r.obj["id"] == JString(id)
  {
    MakeRequest(name, JArray(args), id, generated)
  }

  /** make_response_ok: exactly jsonrpc, result and id, with the result unchanged. */
  function MakeResponseOk(result: Json, id: string): (r: Json)
    ensures IsResponse(r)
    ensures r.obj.Keys == {"jsonrpc", "result", "id"}
    ensures r.obj["result"] == result && r.obj["id"] == JString(id)
  {
    JObject(map["jsonrpc" := JString(JsonRpcVersion), "result" := result, "id" := JString(id)])
  }

  /** make_response_err (three arguments): an error holding only code and message. */
  function MakeResponseErr(code: Int32, message: string, id: string): (r: Json)
    ensures IsResponse(r)
    ensures r.obj.Keys == {"jsonrpc", "error", "id"} && r.obj["id"] == JString(id)
    ensures r.obj["error"].obj.Keys == {"code", "message"}
    ensures r.obj["error"].obj["code"] == JInt(code) && r.obj["error"].obj["message"] == JString(message)
  {
    var error := map["code" := JInt(code), "message" := JString(message)];
    JObject(map["jsonrpc" := JString(JsonRpcVersion), "error" := JObject(error), "id" := JString(id)])
  }

  /** make_response_err (four arguments): as above, plus data under error when data is non-empty. */
  function MakeResponseErrWithData(code: Int32, message: string, id: string, data: Json): (r: Json)
    ensures IsResponse(r)
    ensures r.obj.Keys == {"jsonrpc", "error", "id"} && r.obj["id"] == JString(id)
    ensures r.obj["error"].obj.Keys == {"code", "message"} + (if IsEmpty(data) then {} else {"data"})
    ensures r.obj["error"].obj["code"] == JInt(code) && r.obj["error"].obj["message"] == JString(message)
    ensures "data" in r.obj["error"].obj ==> r.obj["error"].obj["data"] == data
  {
    var error := map["code" := JInt(code), "message" := JString(message)];
    var withData := if IsEmpty(data) then error else error["data" := data];
    JObject(map["jsonrpc" := JString(JsonRpcVersion), "error" := JObject(withData), "id" := JString(id)])
  }

  /** With empty data the four-argument form is the three-argument form. */
  lemma EmptyDataIsOmitted(code: Int32, message: string, id: string, data: Json)
    requires IsEmpty(data)
    ensures MakeResponseErrWithData(code, message, id, data) == MakeResponseErr(code, message, id)
  {
  }

  /** With the default params {} and id "", a request holds only jsonrpc, method and the generated id. */
  lemma DefaultRequest(name: string, generated: string)
    requires IsUuidV4(generated)
    ensures MakeRequest(name, EmptyObject(), "", generated)
         == JObject(map["jsonrpc" := JString("2.0"), "method" := JString(name), "id" := JString(generated)])
  {
  }

  /**
   * A call written make_request_args(m, "param1", 42, true), meant to pass three
   * parameters, sends "param1" as the id and only [42, true] as params.
   */
  lemma SecondArgumentIsId(generated: string)
    requires IsUuidV4(generated)
    ensures var r := MakeRequestArgs("test_method", "param1", [JInt(42), JBool(true)], generated);
            r.obj["id"] == JString("param1") && r.obj["params"] == JArray([JInt(42), JBool(true)])
  {
  }
}
