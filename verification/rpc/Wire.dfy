/**
 JSON messages of the request/response protocol. Object fields and message types the protocol
 knows are constructors; every other name is carried as text.
 */
module Wire {
  import opened Options

  type RequestId = nat
  type Peer = nat

  datatype Tag =
    | McpCall | McpResponse | McpError
    | A2aCall | A2aResponse | A2aError
    | OtherTag(name: string)
  {
    /** One of the six types the protocol itself uses. */
    predicate Reserved() {
      !OtherTag?
    }
  }

  datatype Field =
    | Type | RequestIdField | Service | Method | Params | Result | Error | Payload | FromPeer
    | OtherField(name: string)

  datatype Json =
    | Null
    | Bool(b: bool)
    | Num(n: int)
    | Uuid(id: RequestId)
    | TypeName(tag: Tag)
    | Text(s: string)
    | PeerName(peer: Peer)
    | Arr(items: seq<Json>)
    | Obj(fields: map<Field, Json>)

  type Data = map<Field, Json>

  function Get(d: Data, f: Field): Option<Json> {
    if f in d then Some(d[f]) else None
  }

  /** A field set to a value, or absent when the value is `undefined`. */
  function Put(d: Data, f: Field, v: Option<Json>): Data {
    match v
    case Some(j) => d[f := j]
    case None => d - {f}
  }

  function TagOf(d: Data): Option<Tag> {
    match Get(d, Type)
    case Some(TypeName(t)) => Some(t)
    case _ => None
  }

  /** The id a message is correlated by. */
  function RequestOf(d: Data): Option<RequestId> {
    match Get(d, RequestIdField)
    case Some(Uuid(r)) => Some(r)
    case _ => None
  }

  predicate HasTag(d: Data, t: Tag) {
    TagOf(d) == Some(t)
  }

  predicate IsReply(d: Data) {
    HasTag(d, McpResponse) || HasTag(d, A2aResponse)
  }

  predicate IsFault(d: Data) {
    HasTag(d, McpError) || HasTag(d, A2aError)
  }

  predicate IsCall(d: Data) {
    HasTag(d, McpCall) || HasTag(d, A2aCall)
  }

  // What the two ends build.

  function McpCallData(service: string, operation: string, params: Data, r: RequestId): Data {
    map[Type := TypeName(McpCall), Service := Text(service), Method := Text(operation),
        Params := Obj(params), RequestIdField := Uuid(r)]
  }

  function A2aCallData(payload: Data, self: Peer, r: RequestId): Data {
    map[Type := TypeName(A2aCall), Payload := Obj(payload), FromPeer := PeerName(self), RequestIdField := Uuid(r)]
  }

  function McpReplyData(result: Option<Json>, requestId: Option<Json>): Data {
    Put(Put(map[Type := TypeName(McpResponse)], Result, result), RequestIdField, requestId)
  }

  function McpFaultData(error: string, requestId: Option<Json>): Data {
    Put(map[Type := TypeName(McpError), Error := Text(error)], RequestIdField, requestId)
  }

  /** The result is spread over the tag, so its own `type`, if any, wins; the request id comes last. */
  function A2aReplyData(result: Data, requestId: Option<Json>): Data {
    Put(map[Type := TypeName(A2aResponse)] + result, RequestIdField, requestId)
  }

  function A2aFaultData(error: string, requestId: Option<Json>): Data {
    Put(map[Type := TypeName(A2aError), Error := Text(error)], RequestIdField, requestId)
  }
}
