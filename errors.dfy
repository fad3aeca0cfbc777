/**
 * The RpcError hierarchy: eight error kinds, each with a fixed JSON-RPC code and a
 * fixed label that its constructor puts in front of the message.
 */
module Errors {
  import opened Strings
  import opened JsonValue

  /** The range of a C++ `int`. */
  type Int32 = x: int | -0x8000_0000 <= x < 0x8000_0000

  datatype ErrorKind =
    | Parse
    | InvalidRequest
    | MethodNotFound
    | InvalidParams
    | Internal
    | Server
    | Connection
    | Timeout

  /** The code each kind reports through get_code(). */
  function Code(k: ErrorKind): Int32 {
    match k
    case Parse => -32700
    case InvalidRequest => -32600
    case MethodNotFound => -32601
    case InvalidParams => -32602
    case Internal => -32603
    case Server => -32000
    case Connection => -32001
    case Timeout => -32002
  }

  /** The label each kind's constructor puts in front of the message. */
  function Prefix(k: ErrorKind): string {
    match k
    case Parse => "Parse error: "
    case InvalidRequest => "Invalid request: "
    case MethodNotFound => "Method not found: "
    case InvalidParams => "Invalid params: "
    case Internal => "Internal error: "
    case Server => "Server error: "
    case Connection => "Connection error: "
    case Timeout => "Timeout error: "
  }

  /** An exception object: its kind (the C++ class), what() and get_data(). */
  datatype RpcError = RpcError(kind: ErrorKind, what: string, data: Json) {
    function GetCode(): Int32 {
      Code(kind)
    }
  }

  /** Any exception a handler or the JSON library may throw: an RpcError or some other std::exception. */
  datatype Fault = Raised(error: RpcError) | Uncaught(description: string)

  /** Constructing an error of kind `kind` from `message` and `data`. */
  function NewError(kind: ErrorKind, message: string, data: Json): (e: RpcError)
    ensures e.kind == kind && e.GetCode() == Code(kind) && e.data == data
    ensures IsPrefix(Prefix(kind), e.what) && e.what[|Prefix(kind)|..] == message
  {
    RpcError(kind, Prefix(kind) + message, data)
  }

  /** An error built without data: its data is empty. */
  function NewErrorNoData(kind: ErrorKind, message: string): (e: RpcError)
    ensures IsEmpty(e.data) && e.kind == kind
  {
    NewError(kind, message, EmptyObject())
  }

  /**
   * The client's switch from a wire code to an error kind: a reserved code gives the
   * kind that reports it, any other code gives Server.
   */
  function KindOfCode(code: int): (k: ErrorKind)
    ensures Code(k) == code || (k == Server && forall k' :: Code(k') != code)
  {
    if code == -32700 then Parse
    else if code == -32600 then InvalidRequest
    else if code == -32601 then MethodNotFound
    else if code == -32602 then InvalidParams
    else if code == -32603 then Internal
    else if code == -32000 then Server
    else if code == -32001 then Connection
    else if code == -32002 then Timeout
    else Server
  }

  /** Every kind survives the trip code -> wire -> kind. */
  lemma KindOfCodeInvertsCode(k: ErrorKind)
    ensures KindOfCode(Code(k)) == k
  {
  }

  /** Codes are pairwise distinct and lie in the range that JSON-RPC 2.0 reserves. */
  lemma CodesDistinctAndReserved(k1: ErrorKind, k2: ErrorKind)
    ensures Code(k1) == Code(k2) ==> k1 == k2
    ensures -32768 <= Code(k1) <= -32000
  {
    KindOfCodeInvertsCode(k1);
    KindOfCodeInvertsCode(k2);
  }

  /** No label is a prefix of another: two different labels differ at some common position. */
  lemma PrefixesDiverge(k1: ErrorKind, k2: ErrorKind) returns (i: nat)
    requires k1 != k2
    ensures i < |Prefix(k1)| && i < |Prefix(k2)| && Prefix(k1)[i] != Prefix(k2)[i]
  {
    if Prefix(k1)[0] != Prefix(k2)[0] {
      i := 0;
    } else if Prefix(k1)[2] != Prefix(k2)[2] {
      i := 2;
    } else {
      i := 8;
    }
  }

  /**
   * what() determines the kind and the original message: the labels are pairwise
   * distinct and none is a prefix of another.
   */
  lemma {:induction false} WhatDeterminesError(k1: ErrorKind, m1: string, k2: ErrorKind, m2: string)
    requires NewError(k1, m1, JNull).what == NewError(k2, m2, JNull).what
    ensures k1 == k2 && m1 == m2
  {
    var w := Prefix(k1) + m1;
    if k1 != k2 {
      var i := PrefixesDiverge(k1, k2);
      assert false;
    }
    assert m1 == w[|Prefix(k1)|..];
  }
}
