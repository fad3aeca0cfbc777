# zenoh-cpp-rpc: the JSON-RPC 2.0 layer, modelled in Dafny

zenoh-cpp-rpc carries JSON-RPC 2.0 calls over Zenoh queries. This project models the
protocol layer above the transport:

- the envelope builders (`make_request`, `make_request_kwargs`, `make_request_args`,
  `make_response_ok`, both `make_response_err` overloads);
- the identifier generator `gen_uuid`;
- the wire codec `encode_json` / `decode_json` and the encoding selection;
- the eight-kind `RpcError` hierarchy;
- `DispatcherBase` with its method map;
- the decision `on_query` makes for each incoming query;
- the reply interpretation of `Client::call`.

The Request and Response objects are those of sections 4 and 5 of the JSON-RPC 2.0
Specification, with the error codes of its section 5.1.

Files, one module each:

| file | module | models |
|---|---|---|
| wrappers.dfy | Wrappers | Option, Result |
| strings.dfy | Strings | prefix / substring predicates |
| json.dfy | JsonValue | the nlohmann::json value tree, `empty()`, `contains()` |
| errors.dfy | Errors | include/zenoh_rpc/errors.hpp, the code table |
| uuid.dfy | Uuid | `gen_uuid` |
| codec.dfy | Codec | `encode_json`, `decode_json`, `EncodingType`, `get_encoding`, `get_encoding_funcs` |
| proto.dfy | Proto | the envelope builders |
| server.dfy | Server | `DispatcherBase`, `on_query` |
| client.dfy | Client | `Client::call` |
| endtoend.dfy | EndToEnd | a call through the server and back |

How the model represents the C++ code:

- **Exceptions** become results. A handler or the JSON library may throw. That is
  `Fault = Raised(RpcError) | Uncaught(description)`: an `RpcError`, or any other
  `std::exception` with its `what()`.
- **Errors.** An error is `RpcError(kind, what, data)`. `what` is the constructed
  message, label included. `GetCode()` gives the kind's fixed code.
- **Handlers** are total functions `Json -> Result<Json, Fault>`.
- **The dispatcher** is a class whose one field, `methods`, is the name → handler map.
  `RegisterMethod` updates it in place. `Dispatch` is a read-only function of it.
- **on_query** is `HandleQuery`. It takes the dispatcher and the query's optional
  payload and returns the reply object, or `None` when no reply is sent. So each query
  gets at most one reply, given that encoding the response and sending it never fail
  (see "Left out").
- **Client::call** is `Call`. The transport's first reply is a parameter: `None` means
  nothing arrived, `Failure` means an error reply, `Success` carries a payload. The
  identifier `gen_uuid` produced is also a parameter. `Call` returns the request it
  sends and the outcome it returns or throws.
- **The wire** is a sequence of JSON lexical tokens. `EncodeJson` writes a value.
  `DecodeJson` parses one value and rejects anything after it. A later duplicate key
  wins, as in nlohmann. `decode(encode(v)) == v` is proved for every value, not only
  for envelopes.
- **gen_uuid** is a method with the source's five counted loops. Its random generator
  is the parameter `draws`: the 31 values the two distributions return.

Where the code and its description disagree, the model follows the code:

- A payload that does not decode gets no reply from the server. The exception reaches
  the outer `catch` at src/jsonrpc_server.cpp:103. It is not answered with an
  Invalid Request error.
- The same holds for a request whose `method` or `id` is not a string. In the
  rejection branch, an `id` that is present but not a string gets no reply either.
- An error code outside the table comes back to the caller as a `ServerError` that
  reports -32000. The original code is not kept (`UnknownCodeBecomesServerError`).
- The server sends an RpcError's `what()`, label included, as the message. The client
  builds the same kind from it, so the caller's `what()` holds the label twice
  (`EndToEnd.ClientView`).
- Identifiers are only ever strings. A numeric `id` makes the server throw.
- `errors.hpp` declares only one-argument constructors, yet the client, the server and
  the tests use `get_code()`, `get_data()` and `(message, data)` constructors. The
  model has all three. Codes come from the client's switch and from
  test_error_handling.cpp. Data is `{}` when not given.

## Model

| member | source | states |
|---|---|---|
| Errors.NewError | include/zenoh_rpc/errors.hpp:13-51 | what() is the kind's fixed label followed by the given message; the kind's code and the given data are kept |
| Errors.NewErrorNoData | test_error_handling.cpp:20-27 | an error constructed without data has empty data |
| Errors.KindOfCode | src/jsonrpc_client.cpp:110-129 | a wire code maps to the kind whose code it is, and every other code maps to Server |
| Errors.KindOfCodeInvertsCode | test_error_handling.cpp:76-105 | each kind's code maps back to that kind, so the client switch and the code table agree |
| Errors.CodesDistinctAndReserved | test_error_handling.cpp:80-102 | the eight codes are pairwise distinct and lie in -32768..-32000 |
| Errors.WhatDeterminesError | include/zenoh_rpc/errors.hpp:10-50 | two errors with equal what() have the same kind and the same original message: the labels are distinct and none is a prefix of another |
| Uuid.GenUuid | src/jsonrpc_proto.cpp:9-38 | the loops produce exactly the draws' hex digits in the layout xxxxxxxx-xxxx-4xxx-yxxx-xxxxxxxxxxxx, which has the version-4 shape |
| Uuid.UuidTextIsUuidV4 | src/jsonrpc_proto.cpp:15-37 | every generated identifier is 36 characters with dashes at 8, 13, 18, 23, '4' at 14, one of 8 9 a b at 19, lower-case hex elsewhere |
| Uuid.UuidTextInjective | src/jsonrpc_proto.cpp:17-36 | different draws give different identifiers |
| Uuid.UuidV4IsGenerated | src/jsonrpc_proto.cpp:15-37 | every text of the version-4 shape is produced by some valid draws, so the shape is exactly the set of identifiers the generator can produce |
| Codec.EncodeJson | src/jsonrpc_proto.cpp:102-104 | every encoding is non-empty and starts with a token that can open a value |
| Codec.ParseValue | src/jsonrpc_proto.cpp:106-108 | a successful parse consumes at least one token |
| Codec.DecodeJson | src/jsonrpc_proto.cpp:106-112 | decoding fails only with a ParseError whose what() starts "Parse error: Failed to parse JSON: " |
| Codec.ParseEncoded | src/jsonrpc_proto.cpp:102-112 | the parser reads back exactly the encoded value and leaves what follows it |
| Codec.DecodeEncode | include/zenoh_rpc/jsonrpc_proto.hpp:145-163 | decode_json(encode_json(v)) == v for every value |
| Codec.MalformedIsParseError | include/zenoh_rpc/jsonrpc_proto.hpp:154-163 | an empty payload or one starting with a closing token fails with a ParseError |
| Codec.GetEncoding | src/jsonrpc_proto.cpp:79-81 | the media type is always application/json |
| Codec.EncodingFuncs | src/jsonrpc_proto.cpp:83-100 | both JSON and MSGPACK select the pair dump() / json::parse (not encode_json / decode_json): the decoder fails with the library's diagnostic, not a ParseError, accepts exactly what decode_json accepts, and the pair round-trips |
| Proto.MakeRequest | src/jsonrpc_proto.cpp:40-54 | keys are exactly jsonrpc "2.0", method, id, and params iff params is non-empty (null, [] and {} are left out); a non-empty id is used verbatim, an empty one is replaced by a version-4 UUID, so the id is never empty |
| Proto.MakeRequestKwargs | src/jsonrpc_proto.cpp:56-58 | the keyword form is make_request with the keyword object as params |
| Proto.MakeRequestArgs | include/zenoh_rpc/jsonrpc_proto.hpp:60-65 | params is the argument list in order, present iff there is at least one argument; the second parameter is the id |
| Proto.MakeResponseOk | src/jsonrpc_proto.cpp:60-66 | keys are exactly jsonrpc, result, id; result is the input; the object is a well-formed response with no error |
| Proto.MakeResponseErr | src/jsonrpc_proto.cpp:68-77 | keys are exactly jsonrpc, error, id; error holds exactly code and message, no data and no result |
| Proto.MakeResponseErrWithData | include/zenoh_rpc/jsonrpc_proto.hpp:102-113 | as the three-argument form, plus data under error exactly when data is non-empty, unchanged |
| Proto.EmptyDataIsOmitted | test_error_handling.cpp:68-71 | with empty data the four-argument form equals the three-argument form |
| Proto.DefaultRequest | include/zenoh_rpc/jsonrpc_proto.hpp:47 | with the default params {} and id "" the request holds only jsonrpc, method and the generated id |
| Proto.SecondArgumentIsId | tests/test_parameter_handling.cpp:11-13 | make_request_args(m, "param1", 42, true) sends "param1" as the id and [42, true] as params |
| Server.MethodNotFoundFor | src/jsonrpc_server.cpp:33-35 | the error for an unknown name is MethodNotFound, code -32601, no data, and its message contains "Method '" + name + "' not found" |
| Server.Dispatcher.constructor | include/zenoh_rpc/jsonrpc_server.hpp:68-70 | a new dispatcher has no methods |
| Server.Dispatcher.RegisterMethod | src/jsonrpc_server.cpp:17-19 | the name now dispatches to the new handler (last write wins), every other name dispatches as before, and no name is removed |
| Server.Dispatcher.Dispatch | src/jsonrpc_server.cpp:31-37 | a registered name returns its handler's outcome unchanged; an unknown name raises exactly MethodNotFoundFor(name), with empty data and the method's name in the message; the map is only read |
| Server.ParamsOf | src/jsonrpc_server.cpp:85 | the handler gets the request's params, or {} when there are none |
| Server.ResponseFor | src/jsonrpc_server.cpp:88-101 | a result becomes a success response; an RpcError keeps its code, what() and non-empty data; any other exception becomes -32603 "Internal error: " + what() without data; the reply carries the request id |
| Server.AnswerRequest | src/jsonrpc_server.cpp:74-101 | a request missing jsonrpc "2.0", method or id gets -32600 "Invalid Request" with its string id or "null", or no reply for a non-string id; a well-formed request is answered iff method and id are strings, with its own id and the dispatch outcome; every reply is a well-formed response |
| Server.HandleQuery | src/jsonrpc_server.cpp:59-106 | no payload and an undecodable payload get no reply; otherwise the decoded request is answered as AnswerRequest says; at most one reply |
| Server.AnswersBuiltRequest | src/jsonrpc_server.cpp:72-92 | every encoded make_request output passes the checks and is answered with the dispatch of its method on its params, or on {} when they were left out |
| Client.Wrap32 | src/jsonrpc_client.cpp:105 | narrowing to int keeps the value modulo 2^32 and keeps every value already in range |
| Client.ToInt32 | src/jsonrpc_client.cpp:105 | the code converts from a number or a boolean and from nothing else |
| Client.ErrorFromWire | src/jsonrpc_client.cpp:103-129 | an error object with a convertible code and a string message raises the kind its code maps to, with the message after the label and data or {}; anything else throws a library type_error |
| Client.InterpretResponse | src/jsonrpc_client.cpp:96-137 | a result comes back iff the envelope has version 2.0 and the sent id, no error and a result, and then unchanged; a bad envelope raises "Invalid JSON-RPC response" before error or result is looked at; error comes before result; neither raises "Response missing result field" |
| Client.CallOutcome | src/jsonrpc_client.cpp:78-94 | no reply raises TimeoutError, an error reply raises ConnectionError, an undecodable payload raises decode_json's ParseError, and a decoded one is interpreted against the sent id |
| Client.Call | src/jsonrpc_client.cpp:62-68 | the request sent is make_request with the generated id used verbatim, whatever make_request would have generated |
| Client.AcceptsOkResponse | src/jsonrpc_client.cpp:132-137 | a success response for the sent id returns its result unchanged |
| Client.RaisesErrorResponse | src/jsonrpc_client.cpp:103-129 | an error response for the sent id raises the kind of its code with the message carried over and the data, or {} when it was left out |
| Client.ErrorWinsOverResult | src/jsonrpc_client.cpp:103-133 | a response holding both error and result raises |
| Client.RejectsForeignId | src/jsonrpc_client.cpp:96-100 | a response for another id raises "Invalid JSON-RPC response" even when it holds a result |
| Client.UnknownCodeBecomesServerError | src/jsonrpc_client.cpp:127-128 | code -99999 raises a ServerError reporting -32000 with the message kept |
| EndToEnd.ServerReply | src/jsonrpc_server.cpp:59-106 | the server always replies to a request the client built, with the response for dispatching on the sent params |
| EndToEnd.ClientReadsResponse | src/jsonrpc_client.cpp:103-137 | the client reads every server response to its own id as the handler outcome, with the label of an RpcError doubled and an uncaught failure turned into InternalError |
| EndToEnd.CallThroughServer | src/jsonrpc_client.cpp:62-138 | a call answered by the server returns the handler's result, or raises its error as ClientView describes |
| EndToEnd.EchoScenario | examples/server_example.cpp:10-30 | on the example server, whose echo returns params["message"], calling echo with {"message": "hi"} returns "hi" |
| EndToEnd.EchoWithoutMessageScenario | examples/server_example.cpp:22-30 | on the example server, calling echo with params that have no "message" member raises InvalidParams, code -32602, with "Missing 'message' parameter" under the label twice |
| EndToEnd.UnknownMethodScenario | src/jsonrpc_server.cpp:31-37 | calling an unregistered method raises MethodNotFound with code -32601 and the method's name in the message |
| EndToEnd.NoReplyScenario | src/jsonrpc_client.cpp:78-82 | a call without reply raises TimeoutError with code -32002 |

## Left out

- The Zenoh transport: sessions, the queryable and querier, the FIFO channel,
  `query.reply`, the timeout value and the `while (true)` loop of `run_server`. A query
  is its payload and a reply is the returned object.
- Client and server construction and session ownership.
- All logging to `std::cout` and `std::cerr`.
- Concurrency. The source registers methods before serving and does not lock the map.
- Character-level JSON text. The wire is a token sequence, so escaping, whitespace and
  the order in which `dump()` writes object keys (sorted, in nlohmann) are not modelled.
- Floating-point numbers. The integer limits of nlohmann's parser (64-bit) are also
  left out: integers are unbounded until the client narrows a code to 32 bits.
- The random generator behind `gen_uuid` (static `mt19937` state). Its draws are the
  parameter of `GenUuid`, and `MakeRequest` takes the identifier gen_uuid produced.
- The text of nlohmann's own exception messages. A failed conversion is
  `Uncaught("type_error")`, and the parser's diagnostics are short descriptions.
- The `default:` branch of `get_encoding_funcs`. It cannot be reached with the two
  values of `EncodingType`.
- The default constructors of the error classes and their default messages. Their
  bodies are not part of this model.
- `validate_request`, `validate_response`, `make_request_list`,
  `encode_msgpack` / `decode_msgpack` and `SessionMode`. They are used by tests but
  are not part of this model. `Proto.IsResponse` describes the response shape that
  every reply has.
- ResponseFor, HandleQuery and Call: strings are sequences of Unicode characters
  and encoding is total, so `dump()` throwing on invalid UTF-8 is not modelled. Neither
  is a `query.reply` that throws. On the server, either failure inside the inner `try`
  of `on_query` (src/jsonrpc_server.cpp:88-101) would lead to an Internal error reply
  instead of the success response, or to a second reply attempt. "At most one reply"
  holds only under this abstraction. On the client, a request that fails to encode
  throws before anything is sent. A handler exception that does not derive from
  `std::exception` escapes both catches, and `Fault` cannot express it.
- Handlers are pure functions of their params. Side effects of a handler are not modelled.
