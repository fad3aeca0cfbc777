/**
 * The wire encoding: encode_json / decode_json and the encoding selection.
 *
 * The wire is modelled one level above characters, as a sequence of JSON lexical
 * tokens; commas and colons carry no information in that form and are not tokens.
 * decode_json turns every syntax error into a ParseError whose message starts with
 * "Failed to parse JSON: ". The pair that get_encoding_funcs selects is the library's
 * own dump() / json::parse, whose failure is a library exception and not a ParseError,
 * and the MSGPACK selection falls back to that JSON pair.
 */
module Codec {
  import opened Wrappers
  import opened Strings
  import opened JsonValue
  import opened Errors

  datatype Token =
    | TNull
    | TTrue
    | TFalse
    | TNum(n: int)
    | TStr(s: string)
    | TBeginArray
    | TEndArray
    | TBeginObject
    | TEndObject

  type Wire = seq<Token>

  predicate StartsValue(t: Token) {
    t != TEndArray && t != TEndObject
  }

  // ---------------------------------------------------------------- encoding

  /** Some key of a non-empty object: the order in which members are written. */
  ghost function PickKey(m: map<string, Json>): (k: string)
    requires m != map[]
    ensures k in m
  {
    var k :| k in m; k
  }

  /** data.dump(), as tokens. */
  ghost function EncodeJson(v: Json): (w: Wire)
    ensures |w| > 0 && StartsValue(w[0])
    decreases v
  {
    match v
    case JNull => [TNull]
    case JBool(b) => if b then [TTrue] else [TFalse]
    case JInt(n) => [TNum(n)]
    case JString(s) => [TStr(s)]
    case JArray(es) => [TBeginArray] + EncodeElements(es) + [TEndArray]
    case JObject(m) => [TBeginObject] + EncodeMembers(m, v) + [TEndObject]
  }

  ghost function EncodeElements(es: seq<Json>): Wire
    decreases es
  {
    if es == [] then [] else EncodeJson(es[0]) + EncodeElements(es[1..])
  }

  /** The members of `m`, each a key token followed by its value; `whole` is the object they belong to. */
  ghost function EncodeMembers(m: map<string, Json>, whole: Json): Wire
    requires forall k :: k in m ==> m[k] < whole
    decreases whole, |m|
  {
    if m == map[] then []
    else
      var k := PickKey(m);
      [TStr(k)] + EncodeJson(m[k]) + EncodeMembers(m - {k}, whole)
  }

  // ---------------------------------------------------------------- decoding

  /** One value at the start of `w`, and what follows it. */
  function ParseValue(w: Wire): (r: Result<(Json, Wire), string>)
    ensures r.Success? ==> |r.value.1| < |w|
    decreases |w|, 0
  {
    if w == [] then Failure("syntax error: unexpected end of input")
    else
      match w[0]
      case TNull => Success((JNull, w[1..]))
      case TTrue => Success((JBool(true), w[1..]))
      case TFalse => Success((JBool(false), w[1..]))
      case TNum(n) => Success((JInt(n), w[1..]))
      case TStr(s) => Success((JString(s), w[1..]))
      case TBeginArray =>
        (match ParseElements(w[1..])
         case Failure(e) => Failure(e)
         case Success((es, rest)) => Success((JArray(es), rest)))
      case TBeginObject =>
        (match ParseMembers(w[1..])
         case Failure(e) => Failure(e)
         case Success((m, rest)) => Success((JObject(m), rest)))
      case TEndArray => Failure("syntax error: unexpected ']'")
      case TEndObject => Failure("syntax error: unexpected '}'")
  }

  /** The elements of an array up to and including its closing token. */
  function ParseElements(w: Wire): (r: Result<(seq<Json>, Wire), string>)
    ensures r.Success? ==> |r.value.1| < |w|
    decreases |w|, 1
  {
    if w == [] then Failure("syntax error: unexpected end of input")
    else if w[0] == TEndArray then Success(([], w[1..]))
    else
      match ParseValue(w)
      case Failure(e) => Failure(e)
      case Success((v, rest)) =>
        match ParseElements(rest)
        case Failure(e) => Failure(e)
        case Success((vs, rest')) => Success(([v] + vs, rest'))
  }

  /** The members of an object up to and including its closing token; a later duplicate key wins. */
  function ParseMembers(w: Wire): (r: Result<(map<string, Json>, Wire), string>)
    ensures r.Success? ==> |r.value.1| < |w|
    decreases |w|, 1
  {
    if w == [] then Failure("syntax error: unexpected end of input")
    else if w[0] == TEndObject then Success((map[], w[1..]))
    else if !w[0].TStr? then Failure("syntax error: expected object key")
    else
      match ParseValue(w[1..])
      case Failure(e) => Failure(e)
      case Success((v, rest)) =>
        match ParseMembers(rest)
        case Failure(e) => Failure(e)
        case Success((m, rest')) => Success((map[w[0].s := v] + m, rest'))
  }

  /** json::parse: one value and nothing after it. */
  function ParseDocument(w: Wire): Result<Json, string> {
    match ParseValue(w)
    case Failure(e) => Failure(e)
    case Success((v, rest)) =>
      if rest == [] then Success(v) else Failure("syntax error: unexpected trailing input")
  }

  /** What decode_json puts in front of the parser's diagnostic. */
  const ParseFailureLabel: string := "Failed to parse JSON: "

  /** decode_json: a parse failure becomes a ParseError carrying the parser's diagnostic. */
  function DecodeJson(w: Wire): (r: Result<Json, RpcError>)
    ensures r.Failure? ==> r.error.kind == Parse && IsPrefix(Prefix(Parse) + ParseFailureLabel, r.error.what)
    ensures r.Success? <==> ParseDocument(w).Success?
  {
    match ParseDocument(w)
    case Success(v) => Success(v)
    case Failure(diagnostic) =>
      PrefixOfConcat(Prefix(Parse) + ParseFailureLabel, diagnostic);
      Failure(NewErrorNoData(Parse, ParseFailureLabel + diagnostic))
  }

  // ---------------------------------------------------------------- round trip

  lemma {:induction false} ParseEncoded(v: Json, rest: Wire)
    ensures ParseValue(EncodeJson(v) + rest) == Success((v, rest))
    decreases v
  {
    var w := EncodeJson(v) + rest;
    match v
    case JNull =>
    case JBool(b) =>
    case JInt(n) =>
    case JString(s) =>
    case JArray(es) =>
      ParseEncodedElements(es, rest);
      assert w[1..] == EncodeElements(es) + [TEndArray] + rest;
    case JObject(m) =>
      ParseEncodedMembers(m, v, rest);
      assert w[1..] == EncodeMembers(m, v) + [TEndObject] + rest;
  }

  lemma {:induction false} ParseEncodedElements(es: seq<Json>, rest: Wire)
    ensures ParseElements(EncodeElements(es) + [TEndArray] + rest) == Success((es, rest))
    decreases es
  {
    var w := EncodeElements(es) + [TEndArray] + rest;
    if es != [] {
      var tail := EncodeElements(es[1..]) + [TEndArray] + rest;
      assert w == EncodeJson(es[0]) + tail;
      ParseEncoded(es[0], tail);
      ParseEncodedElements(es[1..], rest);
      assert [es[0]] + es[1..] == es;
    }
  }

  lemma {:induction false} ParseEncodedMembers(m: map<string, Json>, whole: Json, rest: Wire)
    requires forall k :: k in m ==> m[k] < whole
    ensures ParseMembers(EncodeMembers(m, whole) + [TEndObject] + rest) == Success((m, rest))
    decreases whole, |m|
  {
    var w := EncodeMembers(m, whole) + [TEndObject] + rest;
    if m != map[] {
      var k := PickKey(m);
      var m' := m - {k};
      var tail := EncodeMembers(m', whole) + [TEndObject] + rest;
      assert w == [TStr(k)] + (EncodeJson(m[k]) + tail);
      ParseEncoded(m[k], tail);
      RemoveKeyShrinks(m, k);
      ParseEncodedMembers(m', whole, rest);
      ParseMembersStep(w, k, m[k], tail, m', rest);
      RestoreKey(m, k);
    }
  }

  lemma ParseMembersStep(w: Wire, k: string, v: Json, tail: Wire, m: map<string, Json>, rest: Wire)
    requires w != [] && w[0] == TStr(k)
    requires ParseValue(w[1..]) == Success((v, tail))
    requires ParseMembers(tail) == Success((m, rest))
    ensures ParseMembers(w) == Success((map[k := v] + m, rest))
  {
  }

  lemma RemoveKeyShrinks(m: map<string, Json>, k: string)
    requires k in m
    ensures |m - {k}| < |m|
  {
    assert (m - {k}).Keys == m.Keys - {k};
  }

  lemma RestoreKey(m: map<string, Json>, k: string)
    requires k in m
    ensures map[k := m[k]] + (m - {k}) == m
  {
  }

  /** decode_json(encode_json(v)) == v for every value. */
  lemma DecodeEncode(v: Json)
    ensures DecodeJson(EncodeJson(v)) == Success(v)
  {
    ParseEncoded(v, []);
    assert EncodeJson(v) + [] == EncodeJson(v);
  }

  /** Malformed payloads exist and fail with the ParseError of decode_json, never another kind. */
  lemma MalformedIsParseError(w: Wire)
    requires w == [] || w[0] == TEndArray || w[0] == TEndObject
    ensures DecodeJson(w).Failure? && DecodeJson(w).error.kind == Parse
  {
  }

  // ---------------------------------------------------------------- encoding selection

  /** EncodingType: exactly the two values JSON and MSGPACK. */
  datatype EncodingType = JSON | MSGPACK

  /** get_encoding: always the JSON media type. */
  function GetEncoding(): (mime: string)
    ensures mime == "application/json"
  {
    "application/json"
  }

  /**
   * get_encoding_funcs: both types select dump() and the bare json::parse. The decoder
   * fails with the library's diagnostic, not with decode_json's ParseError, and it
   * accepts exactly what decode_json accepts; the pair round-trips.
   */
  ghost function EncodingFuncs(t: EncodingType): (codec: (Json -> Wire, Wire -> Result<Json, string>))
    ensures forall v :: codec.0(v) == EncodeJson(v)
    ensures forall w :: codec.1(w) == ParseDocument(w)
    ensures forall w :: codec.1(w).Success? <==> DecodeJson(w).Success?
    ensures forall v :: codec.1(codec.0(v)) == Success(v)
  {
    forall v ensures ParseDocument(EncodeJson(v)) == Success(v) {
      DecodeEncode(v);
    }
    match t
    case JSON => (EncodeJson, ParseDocument)
    case MSGPACK => (EncodeJson, ParseDocument)
  }
}
