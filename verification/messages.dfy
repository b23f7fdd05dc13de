/**
 * The message set of the tunnel protocol and its numeric wire tags.
 *
 * Each variant stands for one Go message struct. The JSON encoding the
 * source delegates to `encoding/json` is not modelled as text: it is a
 * `JsonCodec`, a marshal/unmarshal pair passed in by the caller, and
 * `Sound` is the round-trip assumption made about it.
 */
module Messages {
  import opened Wire
  import opened Optional

  /** One service a client asks the server to expose: its name and the public port. */
  datatype ServiceBody = ServiceBody(name: string, remotePort: int)

  /**
   * The protocol messages. `DataHeader` is the bare `BinDataRequest` (only its
   * JSON header); `Data` is `BinDataRequestWrapper`, the header plus the raw
   * payload. `Unrecognized` stands for any other value put on a send queue.
   * The `time.Time` fields of ServiceRequest and HearBeatRequest are not modelled.
   */
  datatype Message =
    | ServiceRequest(id: string, services: seq<ServiceBody>)
    | ServiceResponse(id: string, success: bool, text: string)
    | ConnectRequest(id: string, name: string, ip: string)
    | ConnectResponse(id: string, name: string, success: bool)
    | DataHeader(id: string, name: string)
    | Data(id: string, name: string, content: seq<Byte>)
    | CloseRequest(id: string, name: string)
    | HeartbeatRequest
    | HeartbeatResponse(cid: string)
    | Unrecognized

  /** The tag shared by both data forms. */
  const DataTag: int := 5

  /** `ParseMessageType`: the wire tag of a message, -1 for a value it does not know. */
  function MessageType(m: Message): (t: int)
    ensures t == -1 <==> m.Unrecognized?
    ensures t == -1 || 1 <= t <= 8
    ensures t == DataTag <==> m.Data? || m.DataHeader?
  {
    match m
    case ServiceRequest(_, _) => 1
    case ServiceResponse(_, _, _) => 2
    case ConnectRequest(_, _, _) => 3
    case ConnectResponse(_, _, _) => 4
    case DataHeader(_, _) => 5
    case Data(_, _, _) => 5
    case CloseRequest(_, _) => 6
    case HeartbeatRequest => 7
    case HeartbeatResponse(_) => 8
    case Unrecognized => -1
  }

  /** Two messages with the same tag are the same variant, except that tag 5 covers both data forms. */
  lemma TagDeterminesVariant(m: Message, m': Message)
    requires MessageType(m) == MessageType(m') != DataTag
    ensures m.ServiceRequest? == m'.ServiceRequest?
    ensures m.ServiceResponse? == m'.ServiceResponse?
    ensures m.ConnectRequest? == m'.ConnectRequest?
    ensures m.ConnectResponse? == m'.ConnectResponse?
    ensures m.CloseRequest? == m'.CloseRequest?
    ensures m.HeartbeatRequest? == m'.HeartbeatRequest?
    ensures m.HeartbeatResponse? == m'.HeartbeatResponse?
    ensures m.Unrecognized? == m'.Unrecognized?
  {
  }

  /** Messages whose entire value is sent as JSON: all but the payload-carrying `Data` and `Unrecognized`. */
  predicate IsJsonMessage(m: Message) {
    !m.Data? && !m.Unrecognized?
  }

  /**
   * The JSON library as two functions: `marshal` is `json.Marshal`, and
   * `unmarshal(t, b)` is `json.Unmarshal(b, &x)` where `x` has the Go type
   * that tag `t` names (tag 5 names the header `BinDataRequest`).
   */
  datatype JsonCodec = JsonCodec(
    marshal: Message -> seq<Byte>,
    unmarshal: (int, seq<Byte>) -> Option<Message>)

  /** The assumption about the JSON library: unmarshalling what was marshalled gives the value back. */
  ghost predicate Sound(js: JsonCodec) {
    forall m :: IsJsonMessage(m) ==> js.unmarshal(MessageType(m), js.marshal(m)) == Some(m)
  }

  /**
   * `json.Unmarshal` into the struct that tag `t` names. Go can only fill in a
   * value of that struct type, so a codec answer of another variant counts as
   * a decode failure.
   */
  function Unmarshal(js: JsonCodec, t: int, body: seq<Byte>): (r: Option<Message>)
    ensures r.Some? ==> MessageType(r.value) == t && IsJsonMessage(r.value)
  {
    match js.unmarshal(t, body)
    case Some(m) => if MessageType(m) == t && IsJsonMessage(m) then Some(m) else None
    case None => None
  }

  /** Under the JSON assumption, every JSON message comes back from its own encoding. */
  lemma UnmarshalMarshal(js: JsonCodec, m: Message)
    requires Sound(js)
    requires IsJsonMessage(m)
    ensures Unmarshal(js, MessageType(m), js.marshal(m)) == Some(m)
  {
  }
}
