/**
 * The frame codec: `ReadMessageWait`, `WriteMessage`, `WriteDataMessage`,
 * `WriteMessageByType` and `ParseMessage`.
 *
 * A frame is one type byte, a little-endian `int32` length and that many body
 * bytes. A data frame (tag 5) has a second header inside its body: the JSON
 * length and the payload length, then the JSON `{id, name}` header, then the
 * raw payload. The connection is a finite byte sequence; a read consumes a
 * prefix of it and returns the rest.
 */
module Codec {
  import opened Wire
  import opened Optional
  import opened Messages

  /** A decoded frame: its type byte, its body and the declared body length. */
  datatype RawMessage = RawMessage(typ: Byte, body: seq<Byte>, length: int)

  /**
   * Why a frame could not be read: the type byte, the length or the body ran
   * past the end of the connection, or the length is outside the permitted range.
   */
  datatype ReadError = NoTypeByte | ShortLength | PackageSizeLimit | ShortBody

  datatype ReadResult = Read(raw: RawMessage, rest: seq<Byte>) | ReadFailed(err: ReadError)

  /** The range of body lengths a reader accepts: 0 up to and including 100 MiB. */
  predicate LengthAllowed(n: int) {
    0 <= n <= MaxFrameLength
  }

  /** `ReadMessageWait`: read one frame from the front of the connection. */
  function ReadMessageWait(s: seq<Byte>): (r: ReadResult)
    ensures r.Read? <==>
      |s| >= 5 && LengthAllowed(GetInt32(s[1..5])) && |s| >= 5 + GetInt32(s[1..5])
    ensures r == ReadFailed(PackageSizeLimit) <==> |s| >= 5 && !LengthAllowed(GetInt32(s[1..5]))
    ensures r.Read? ==>
      && r.raw.length == |r.raw.body|
      && LengthAllowed(r.raw.length)
      && s == [r.raw.typ] + PutInt32(r.raw.length) + r.raw.body + r.rest
    ensures r.Read? ==> |r.rest| <= |s| - 5
  {
    if |s| < 1 then ReadFailed(NoTypeByte)
    else
      var typ := s[0];
      if |s| < 5 then ReadFailed(ShortLength)
      else
        var length := GetInt32(s[1..5]);
        if length < 0 || length > MaxFrameLength then ReadFailed(PackageSizeLimit)
        else if |s| < 5 + length then ReadFailed(ShortBody)
        else
          var body := s[5..5 + length];
          Int32Canonical(s[1..5]);
          assert s == [typ] + PutInt32(length) + body + s[5 + length..];
          Read(RawMessage(typ, body, length), s[5 + length..])
  }

  /**
   * `WriteMessage`: a non-data frame. The type is Go's `int8` tag written as a
   * byte (so -1 goes out as 255), the length is `int32(len(json))`.
   */
  function WriteMessage(js: JsonCodec, typ: int, m: Message): (frame: seq<Byte>)
    ensures |frame| == 5 + |js.marshal(m)|
    ensures frame[0] == typ % 256
    ensures GetInt32(frame[1..5]) == ToInt32(|js.marshal(m)|)
    ensures frame[5..] == js.marshal(m)
  {
    var json := js.marshal(m);
    var length := ToInt32(|json|);
    Int32RoundTrip(length);
    [typ % 256] + PutInt32(length) + json
  }

  /**
   * `WriteDataMessage`: the data frame for a JSON header and a payload. The
   * lengths are `int32` values computed with `int32` arithmetic, so a total
   * beyond 2^31 - 1 wraps; readers then reject the frame.
   */
  function WriteDataMessage(js: JsonCodec, typ: int, header: Message, content: seq<Byte>): (frame: seq<Byte>)
    ensures |frame| == 13 + |js.marshal(header)| + |content|
    ensures frame[0] == typ % 256
    ensures GetInt32(frame[1..5]) == ToInt32(|js.marshal(header)| + |content| + 8)
    ensures GetInt32(frame[5..9]) == ToInt32(|js.marshal(header)|)
    ensures GetInt32(frame[9..13]) == ToInt32(|content|)
    ensures frame[13..13 + |js.marshal(header)|] == js.marshal(header)
    ensures frame[13 + |js.marshal(header)|..] == content
  {
    var json := js.marshal(header);
    var head := DataFrameHead(typ, |json|, |content|);
    var frame := head + (json + content);
    assert frame[..13] == head;
    assert frame[13..] == json + content;
    assert frame[1..5] == head[1..5] && frame[5..9] == head[5..9] && frame[9..13] == head[9..13];
    frame
  }

  /**
   * The first 13 bytes of a data frame: the tag and the three `int32` lengths,
   * the total being the wrapped sum of the wrapped parts and 8.
   */
  function DataFrameHead(typ: int, jsonSize: nat, binSize: nat): (head: seq<Byte>)
    ensures |head| == 13 && head[0] == typ % 256
    ensures GetInt32(head[1..5]) == ToInt32(jsonSize + binSize + 8)
    ensures GetInt32(head[5..9]) == ToInt32(jsonSize)
    ensures GetInt32(head[9..13]) == ToInt32(binSize)
  {
    var jsonLen := ToInt32(jsonSize);
    var binLen := ToInt32(binSize);
    var total := ToInt32(ToInt32(jsonLen + binLen) + 8);
    Int32SumWraps(jsonSize, binSize, 8);
    Int32RoundTrip(total);
    Int32RoundTrip(jsonLen);
    Int32RoundTrip(binLen);
    var head := [typ % 256] + PutInt32(total) + PutInt32(jsonLen) + PutInt32(binLen);
    assert head[1..5] == PutInt32(total) && head[5..9] == PutInt32(jsonLen) && head[9..13] == PutInt32(binLen);
    head
  }

  /**
   * `WriteMessageByType`: tag 5 goes through the data writer, which asserts the
   * value is a `BinDataRequestWrapper`; any other value with tag 5 makes that
   * type assertion panic (`None`).
   */
  function WriteMessageByType(js: JsonCodec, typ: int, m: Message): (r: Option<seq<Byte>>)
    ensures r.None? <==> typ == DataTag && !m.Data?
    ensures typ != DataTag ==> r == Some(WriteMessage(js, typ, m))
  {
    if typ == DataTag then
      if m.Data? then Some(WriteDataMessage(js, typ, DataHeader(m.id, m.name), m.content)) else None
    else
      Some(WriteMessage(js, typ, m))
  }

  /** What the writer pump puts on the wire for one queued message: its tag, then the frame for that tag. */
  function WriterFrame(js: JsonCodec, m: Message): (r: Option<seq<Byte>>)
    ensures r.None? <==> m.DataHeader?
    ensures r.Some? ==> |r.value| >= 5 && r.value[0] == MessageType(m) % 256
  {
    WriteMessageByType(js, MessageType(m), m)
  }

  /** Why a frame did not parse: a tag outside 1..8, or a body that does not decode. */
  datatype ParseError = NoType | Malformed

  /** `Panicked` is a Go runtime panic inside the parser: `make` with a negative length. */
  datatype ParseResult = Parsed(msg: Message) | Rejected(err: ParseError) | Panicked

  /**
   * `bytes.Buffer.Read` into a fresh `make([]byte, n)`: an empty buffer with
   * n > 0 reports end of input; otherwise as many bytes as are left (at most
   * n) are copied and the remainder of the n-byte slice stays zero.
   */
  function BufferRead(buf: seq<Byte>, n: nat): (r: Option<(seq<Byte>, seq<Byte>)>)
    ensures r.None? <==> |buf| == 0 && n > 0
    ensures r.Some? ==> |r.value.0| == n
    ensures r.Some? ==> |buf| >= n ==> r.value.0 + r.value.1 == buf
    ensures r.Some? ==> |buf| < n ==>
      r.value.0 == buf + Zeros(n - |buf|) && r.value.1 == []
  {
    if |buf| == 0 then
      if n == 0 then Some(([], buf)) else None
    else if |buf| >= n then
      Some((buf[..n], buf[n..]))
    else
      Some((buf + Zeros(n - |buf|), []))
  }

  /** `ParseMessage` case 5: the two `int32` sub-lengths, the JSON header, then the payload. */
  function ParseData(js: JsonCodec, body: seq<Byte>): (r: ParseResult)
    ensures |body| < 8 ==> r == Rejected(Malformed)
    ensures r.Parsed? ==> r.msg.Data? && |body| >= 8 && |r.msg.content| == GetInt32(body[4..8])
    ensures r.Panicked? ==> |body| >= 8 && (GetInt32(body[0..4]) < 0 || GetInt32(body[4..8]) < 0)
  {
    if |body| < 4 then Rejected(Malformed)
    else
      var jsonLen := GetInt32(body[0..4]);
      if |body| < 8 then Rejected(Malformed)
      else
        var binLen := GetInt32(body[4..8]);
        if jsonLen < 0 then Panicked
        else
          match BufferRead(body[8..], jsonLen)
          case None => Rejected(Malformed)
          case Some((jsonBuf, rest)) =>
            match Unmarshal(js, DataTag, jsonBuf)
            case None => Rejected(Malformed)
            case Some(header) =>
              if binLen < 0 then Panicked
              else
                match BufferRead(rest, binLen)
                case None => Rejected(Malformed)
                case Some((binBuf, _)) => Parsed(Data(header.id, header.name, binBuf))
  }

  /** `ParseMessage`: the message a frame carries, chosen by its type byte. */
  function ParseMessage(js: JsonCodec, raw: RawMessage): (r: ParseResult)
    ensures (raw.typ < 1 || raw.typ > 8) <==> r == Rejected(NoType)
    ensures r.Parsed? ==> MessageType(r.msg) == raw.typ
    ensures r.Parsed? ==> (r.msg.Data? <==> raw.typ == DataTag)
    ensures r.Panicked? ==> raw.typ == DataTag
    ensures 1 <= raw.typ <= 8 && raw.typ != DataTag ==>
      (r.Parsed? <==> Unmarshal(js, raw.typ, raw.body).Some?)
  {
    if raw.typ == DataTag then ParseData(js, raw.body)
    else if 1 <= raw.typ <= 8 then
      match Unmarshal(js, raw.typ, raw.body)
      case Some(m) => Parsed(m)
      case None => Rejected(Malformed)
    else Rejected(NoType)
  }

  /** The body a data frame carries: the two sub-lengths, the header JSON, the payload. */
  function DataBody(json: seq<Byte>, content: seq<Byte>): seq<Byte> {
    PutInt32(|json|) + PutInt32(|content|) + json + content
  }

  /** A message fits in a frame when its declared body length stays within the package size limit. */
  predicate FitsInFrame(js: JsonCodec, m: Message) {
    if m.Data? then |js.marshal(DataHeader(m.id, m.name))| + |m.content| + 8 <= MaxFrameLength
    else |js.marshal(m)| <= MaxFrameLength
  }

  /** Reading a written non-data frame gives back its type byte and exactly the JSON bytes, and leaves the rest of the stream. */
  lemma ReadWriteMessage(js: JsonCodec, typ: int, m: Message, rest: seq<Byte>)
    requires |js.marshal(m)| <= MaxFrameLength
    ensures ReadMessageWait(WriteMessage(js, typ, m) + rest)
         == Read(RawMessage(typ % 256, js.marshal(m), |js.marshal(m)|), rest)
  {
    var json := js.marshal(m);
    var s := WriteMessage(js, typ, m) + rest;
    assert s[1..5] == WriteMessage(js, typ, m)[1..5];
    assert s[5..5 + |json|] == json;
    assert s[5 + |json|..] == rest;
  }

  /** Reading a written data frame gives back tag, the declared total and the whole data body, and leaves the rest. */
  lemma ReadWriteData(js: JsonCodec, typ: int, header: Message, content: seq<Byte>, rest: seq<Byte>)
    requires |js.marshal(header)| + |content| + 8 <= MaxFrameLength
    ensures ReadMessageWait(WriteDataMessage(js, typ, header, content) + rest)
         == Read(RawMessage(typ % 256, DataBody(js.marshal(header), content),
                            |js.marshal(header)| + |content| + 8), rest)
  {
    var json := js.marshal(header);
    var frame := WriteDataMessage(js, typ, header, content);
    var s := frame + rest;
    var n := |json| + |content| + 8;
    assert s[1..5] == frame[1..5];
    var body := DataBody(json, content);
    Int32Canonical(frame[5..9]);
    Int32Canonical(frame[9..13]);
    assert frame[5..9] == PutInt32(|json|);
    assert frame[9..13] == PutInt32(|content|);
    assert frame[5..] == frame[5..9] + frame[9..13] + frame[13..13 + |json|] + frame[13 + |json|..];
    assert s[5..5 + n] == body;
    assert s[5 + n..] == rest;
  }

  /** A data body as the writer lays it out parses back to the same id, name and byte-identical payload. */
  lemma {:induction false} ParseDataBody(js: JsonCodec, id: string, name: string, content: seq<Byte>)
    requires Sound(js)
    requires |js.marshal(DataHeader(id, name))| + |content| + 8 <= MaxFrameLength
    ensures ParseData(js, DataBody(js.marshal(DataHeader(id, name)), content)) == Parsed(Data(id, name, content))
  {
    var json := js.marshal(DataHeader(id, name));
    var body := DataBody(json, content);
    assert body[0..4] == PutInt32(|json|);
    assert body[4..8] == PutInt32(|content|);
    Int32RoundTripExact(|json|);
    Int32RoundTripExact(|content|);
    assert body[8..] == json + content;
    UnmarshalMarshal(js, DataHeader(id, name));
    if |json + content| == 0 {
      assert BufferRead(body[8..], |json|) == Some(([], []));
    } else {
      assert BufferRead(body[8..], |json|) == Some((json, content));
    }
    if |content| == 0 {
      assert BufferRead(content, 0) == Some(([], content));
    } else {
      assert content[..|content|] == content && content[|content|..] == [];
      assert BufferRead(content, |content|) == Some((content, []));
    }
  }

  /**
   * The wire round trip: any message the writer can frame and that fits the
   * size limit is read back as one frame, parses to the same message, and
   * leaves the following bytes untouched.
   */
  lemma {:induction false} WireRoundTrip(js: JsonCodec, m: Message, rest: seq<Byte>)
    requires Sound(js)
    requires !m.DataHeader? && !m.Unrecognized?
    requires FitsInFrame(js, m)
    ensures WriterFrame(js, m).Some?
    ensures ReadMessageWait(WriterFrame(js, m).value + rest).Read?
    ensures ReadMessageWait(WriterFrame(js, m).value + rest).rest == rest
    ensures ParseMessage(js, ReadMessageWait(WriterFrame(js, m).value + rest).raw) == Parsed(m)
  {
    if m.Data? {
      assert WriterFrame(js, m) == Some(WriteDataMessage(js, DataTag, DataHeader(m.id, m.name), m.content));
      DataRoundTrip(js, m.id, m.name, m.content, rest);
    } else {
      JsonRoundTrip(js, m, rest);
    }
  }

  /** `WireRoundTrip` for a data frame. */
  lemma DataRoundTrip(js: JsonCodec, id: string, name: string, content: seq<Byte>, rest: seq<Byte>)
    requires Sound(js) && |js.marshal(DataHeader(id, name))| + |content| + 8 <= MaxFrameLength
    ensures var frame := WriteDataMessage(js, DataTag, DataHeader(id, name), content);
      ReadMessageWait(frame + rest).Read? && ReadMessageWait(frame + rest).rest == rest &&
      ParseMessage(js, ReadMessageWait(frame + rest).raw) == Parsed(Data(id, name, content))
  {
    var json := js.marshal(DataHeader(id, name));
    var body := DataBody(json, content);
    DataFrameReads(js, id, name, content, rest);
    ParseDataBody(js, id, name, content);
    assert ParseMessage(js, RawMessage(DataTag, body, |json| + |content| + 8)) == ParseData(js, body);
  }

  /** A written data frame reads back with tag 5. */
  lemma DataFrameReads(js: JsonCodec, id: string, name: string, content: seq<Byte>, rest: seq<Byte>)
    requires |js.marshal(DataHeader(id, name))| + |content| + 8 <= MaxFrameLength
    ensures ReadMessageWait(WriteDataMessage(js, DataTag, DataHeader(id, name), content) + rest)
      == Read(RawMessage(DataTag, DataBody(js.marshal(DataHeader(id, name)), content),
                         |js.marshal(DataHeader(id, name))| + |content| + 8), rest)
  {
    assert DataTag % 256 == DataTag;
    ReadWriteData(js, DataTag, DataHeader(id, name), content, rest);
  }

  /** `WireRoundTrip` for a frame whose body is the JSON of the message. */
  lemma JsonRoundTrip(js: JsonCodec, m: Message, rest: seq<Byte>)
    requires Sound(js) && !m.Data? && !m.DataHeader? && !m.Unrecognized? && FitsInFrame(js, m)
    ensures WriterFrame(js, m).Some?
    ensures ReadMessageWait(WriterFrame(js, m).value + rest).Read?
    ensures ReadMessageWait(WriterFrame(js, m).value + rest).rest == rest
    ensures ParseMessage(js, ReadMessageWait(WriterFrame(js, m).value + rest).raw) == Parsed(m)
  {
    ReadWriteMessage(js, MessageType(m), m, rest);
    UnmarshalMarshal(js, m);
  }

  /** A value the tag table does not know goes out with type byte 255, which every reader's parser refuses. */
  lemma UnrecognizedIsRefused(js: JsonCodec, rest: seq<Byte>)
    requires |js.marshal(Unrecognized)| <= MaxFrameLength
    ensures WriterFrame(js, Unrecognized).Some?
    ensures WriterFrame(js, Unrecognized).value[0] == 255
    ensures ReadMessageWait(WriterFrame(js, Unrecognized).value + rest).Read?
    ensures ParseMessage(js, ReadMessageWait(WriterFrame(js, Unrecognized).value + rest).raw) == Rejected(NoType)
  {
    ReadWriteMessage(js, -1, Unrecognized, rest);
  }

  /**
   * Payload handling of a data body: the payload is exactly `binLen` bytes,
   * taken from right after the header when the body holds them all, with
   * anything beyond ignored.
   */
  lemma {:induction false} DataTrailingIgnored(js: JsonCodec, body: seq<Byte>, extra: seq<Byte>)
    requires |body| >= 8
    requires GetInt32(body[0..4]) >= 0 && GetInt32(body[4..8]) >= 0
    requires |body| == 8 + GetInt32(body[0..4]) + GetInt32(body[4..8])
    ensures ParseData(js, body + extra) == ParseData(js, body)
    ensures ParseData(js, body).Parsed? ==>
      ParseData(js, body).msg.content == body[8 + GetInt32(body[0..4])..]
  {
    var b := body + extra;
    var jl := GetInt32(body[0..4]);
    var bl := GetInt32(body[4..8]);
    assert b[0..4] == body[0..4] && b[4..8] == body[4..8];
    var tail := body[8..];
    assert b[8..] == tail + extra;
    var json := tail[..jl];
    var payload := tail[jl..];
    assert tail == json + payload;
    if |tail| == 0 {
      assert BufferRead(tail, jl) == Some(([], []));
      assert bl == 0;
      if |extra| == 0 {
        assert b == body;
      } else {
        assert BufferRead(tail + extra, jl) == Some(([], extra));
        assert BufferRead(extra, 0) == Some(([], extra));
        assert BufferRead([], 0) == Some(([], []));
      }
    } else {
      assert BufferRead(tail, jl) == Some((json, payload));
      assert (tail + extra)[..jl] == json && (tail + extra)[jl..] == payload + extra;
      assert BufferRead(tail + extra, jl) == Some((json, payload + extra));
      if |payload| == 0 {
        assert BufferRead(payload, bl) == Some(([], []));
        if |extra| > 0 {
          assert BufferRead(payload + extra, bl) == Some(([], payload + extra));
        } else {
          assert payload + extra == payload;
        }
      } else {
        assert payload[..bl] == payload && payload[bl..] == [];
        assert BufferRead(payload, bl) == Some((payload, []));
        assert BufferRead(payload + extra, bl) == Some((payload, extra));
      }
    }
  }

  /**
   * A data body that ends early: when the header decodes but fewer than
   * `binLen` payload bytes follow it, a non-empty remainder is padded with
   * zeros up to `binLen`, and an empty remainder is a read error.
   */
  lemma {:induction false} DataShortPayload(js: JsonCodec, body: seq<Byte>, header: Message)
    requires |body| >= 8
    requires GetInt32(body[0..4]) >= 0 && GetInt32(body[4..8]) >= 0
    requires |body| >= 8 + GetInt32(body[0..4])
    requires Unmarshal(js, DataTag, body[8..8 + GetInt32(body[0..4])]) == Some(header)
    requires |body| < 8 + GetInt32(body[0..4]) + GetInt32(body[4..8])
    ensures |body| == 8 + GetInt32(body[0..4]) ==> ParseData(js, body) == Rejected(Malformed)
    ensures |body| > 8 + GetInt32(body[0..4]) ==>
      ParseData(js, body) == Parsed(Data(header.id, header.name,
        body[8 + GetInt32(body[0..4])..] + Zeros(8 + GetInt32(body[0..4]) + GetInt32(body[4..8]) - |body|)))
  {
    var jl := GetInt32(body[0..4]);
    var tail := body[8..];
    assert tail[..jl] == body[8..8 + jl];
    assert tail[jl..] == body[8 + jl..];
    assert BufferRead(tail, jl) == Some((tail[..jl], tail[jl..]));
  }
}
