# bean protocol engine in Dafny

A model of the protocol engine of **bean**, a reverse-tunnel relay written in
Go. The relay has two parts:

- The **client** runs next to private services. It logs in to the **server**
  over one control connection and asks it to open public ports.
- The **server** accepts connections on those public ports. For each
  accepted connection, called a stream, it tells the client with a
  `ConnectRequest`.
- The client dials the matching local service. From then on both sides
  relay the stream's bytes as data frames over the control connection.

The repository holds two copies of the engine:

- the package version: `common`, `server/`, `client/`;
- an older version at the root: `data`, `server.go`, `client.go`.

Both copies are modelled, and the lemmas show where they behave differently.

## Layout

| file | module | what it holds |
|---|---|---|
| `optional.dfy` | `Optional` | `Option` |
| `wire.dfy` | `Wire` | bytes; Go's `int32` conversion, including wrap-around; little-endian `int32` encoding |
| `messages.dfy` | `Messages` | the message variants; `ParseMessageType`'s tag table; the JSON library as a parameter |
| `codec.dfy` | `Codec` | `ReadMessageWait`, `WriteMessage`, `WriteDataMessage`, `WriteMessageByType`, `ParseMessage`, and their round trips |
| `reader.dfy` | `Reader` | the read pumps `MessageReader`/`CReadMessage` and the older server's `ReadMessage`; the writer pump's byte stream |
| `lifecycle.dfy` | `Lifecycle` | the `Closed` flag and the two queues; `Close`/`Clear`; sockets as handles; the `Effects` of a step |
| `server.dfy` | `Server` | the `server` package: handshake gate, `ProcessSvrRequest`, accept loop, `OpenSvr`, `ReadClientMessage`, `Close` |
| `server_legacy.dfy` | `LegacyServer` | what `server.go` does differently |
| `client.dfy` | `Client` | the `client` package: `LoginToServer`, `RunClient`, `TransportMessage`, `createPortSvr`, `ReadSvrMessage`, `ReadLocalSvrMessage`, `Close`/`Clear` |
| `client_legacy.dfy` | `LegacyClient` | what `client.go` does differently |
| `tunnel.dfy` | `Tunnel` | both ends together: the login is admitted, ids agree, streams are released and relayed |

## How the model is built

- **The two codecs.** `common/common.go` and `data/data.go` contain the same
  codec, line for line, so one module (`Codec`) models both. The table below
  cites both files.
- **Legacy operations modelled once.** These parts of `server.go` and
  `client.go` are the same code as their package counterparts, so they are
  modelled once, in `Server` and `Client`:
  - `server.go`: the handshake, `ProcessSvrRequest`, the accept loop, `OpenSvr` and `Close`;
  - `client.go`: `createPortSvr`, the non-data branches of `TransportMessage`, `Close` and `Clear`;
  - `CReadMessage` is `MessageReader`.
- **Steps are pure transitions.** Each step maps a state and the outcomes of
  its I/O to a next state and its `Effects`:
  - the messages put on the send queue, in order;
  - the sockets closed;
  - the bytes written to sockets;
  - the pumps started.
- **I/O outcomes are inputs.**
  - Bind, dial and write outcomes are parameters. Each event carries its
    own outcomes, so two dials of one service can differ and give different
    sockets.
  - A server stream pump is two events. At its start it looks its stream up
    in the registry and keeps the socket it finds (`StartPump`). At its end it
    sends the reads it made, plus the bytes of the failing read, then a
    `CloseRequest`, and deletes its stream id from whatever the registry
    holds by then (`EndPump`). Other events can come in between, such as the
    client closing the stream. A client local pump is one event, at its end,
    carrying the socket it was started with.
  - A run is any sequence of events. The model does not check that a pump's
    events follow a `ConnectResponse`, so the run lemmas hold for every
    interleaving the goroutines can produce, and for more.
- **Go panics are outcomes.** The following panics are explicit results;
  "## Left out" names the ones that are not:
  - in the parser, `make` with a negative length gives `Panicked`;
  - on the server, dereferencing a missing map entry gives `Crash`;
  - in the package client, closing a nil connection is recovered by
    `TransportMessage`, which raises `RestartSign`;
  - closing a queue twice gives `ClosePanicked`;
  - in the older pump, a delete under a missing service would panic with the
    session lock held, and the recovery would then block on that lock in
    `Close`; that pump gives `Crash` too.
- **Integer widths.** Lengths are Go `int32` values: `ToInt32` keeps the low
  32 bits, two's complement. The data frame's total is therefore computed
  with wrap-around, exactly as the writer computes it.

## Behaviour worth knowing

- **Login reply.** Both clients ignore the `success` flag of the login reply
  and take its id (`Tunnel.ReplyAccepted`).
- **Failed login.** The package client's `RunClient` starts the reader,
  writer and dispatch loops whatever the login did (`Client.RunClient`). The
  older client returns before starting them (`LegacyClient.RunClient`).
- **Frames that do not parse.** `MessageReader` skips them. The older
  server's `ReadMessage` ends the session at the first one
  (`Reader.UnknownTagSkippedOrEnds`).
- **Data frames on the package client.** After every data frame the package
  client closes the stream, forgets it and sends a `CloseRequest`, whether
  or not the write worked. A second frame on the same stream then finds no
  stream, sends two `CloseRequest`s and restarts the client
  (`Client.SecondDataFrameRestarts`). The older client closes a stream only
  when the write fails (`LegacyClient.DataPathsCompared`).
- **End of a stream.** The older client's local pump sends its
  `CloseRequest` twice. The package server's pump also forwards the bytes of
  the failing read as one more data frame (`LegacyServer.PumpsCompared`).
- **Client closes first.** When the client closes a stream while the
  server's pump is still reading it, the pump's next read fails. The pump
  still forwards what it read and then sends its own `CloseRequest`
  (`Server.ClientCloseDuringPump`, `LegacyServer.ClientCloseDuringPump`).
- **Server write failure.** A failed write to a public stream closes that
  socket. No `CloseRequest` is sent and the registry entry stays
  (`Server.OpenSvr`).
- **Second `Close`.** `Close` guards only the queues. A second call closes
  every held socket again (`Server.Close`, `Client.Close`).

## Model

| member | source | states |
|---|---|---|
| Wire.ToInt32 | common/common.go:192-194 | Go's `int32(x)`: the result is in `int32` range, differs from x by a multiple of 2^32, and equals x when x already fits |
| Wire.Int32RoundTrip | common/common.go:154-155 | reading back the four little-endian bytes written for a length gives the writer's `int32` conversion of it |
| Wire.Int32Canonical | data/data.go:132-133 | any four bytes read as a little-endian `int32` are written back as the same four bytes |
| Wire.Int32SumWraps | data/data.go:170-172 | the wrapped total `int32(int32(jsonLen+binLen)+8)` is the exact sum of the lengths and 8, wrapped once |
| Messages.MessageType | common/common.go:321-344 | `ParseMessageType`: -1 exactly for a value it does not know; tags 1..8 otherwise; 5 exactly for the two data forms |
| Messages.TagDeterminesVariant | data/data.go:299-323 | two messages with the same tag other than 5 are the same variant |
| Messages.Unmarshal | common/common.go:246-315 | a decoded message is always of the variant the tag names |
| Codec.ReadMessageWait | common/common.go:146-176 | a frame reads iff the type byte and four length bytes arrive, the length is between 0 and 104857600 inclusive, and that many body bytes follow; "package size limit" iff the length is out of range; on success the input is exactly type byte, length, body of `length` bytes, rest; the older copy at data/data.go:124-155 is the same |
| Codec.WriteMessage | common/common.go:220-241 | a non-data frame is the type byte, the LE32 `int32` count of JSON bytes, then exactly the JSON bytes |
| Codec.WriteDataMessage | common/common.go:187-217 | a data frame is the tag, LE32 of the wrapped total jsonLen+binLen+8, LE32 jsonLen, LE32 binLen, the header JSON, then exactly the payload |
| Codec.WriteMessageByType | common/common.go:179-186 | tag 5 goes to the data writer and fails (panics) for anything but a full data message; every other tag goes to `WriteMessage` |
| Codec.WriterFrame | common/common.go:51-52 | the writer pump frames every value except the bare data header; each frame starts with the value's tag as a byte |
| Codec.BufferRead | common/common.go:276-277 | `bytes.Buffer.Read` into n fresh bytes: end of input only for an empty buffer with n > 0; otherwise n bytes, zero-padded when fewer remain |
| Codec.ParseData | common/common.go:263-303 | a data body under 8 bytes is malformed; a parsed payload is exactly binLen bytes; a panic happens only with a negative sub-length |
| Codec.ParseMessage | common/common.go:244-319 | "notype" exactly for tags outside 1..8; a parsed message carries the frame's tag; tags other than 5 parse iff the JSON decodes |
| Codec.ReadWriteMessage | data/data.go:198-220 | reading a written non-data frame gives its type byte and exactly its JSON bytes, and leaves the following bytes |
| Codec.ReadWriteData | data/data.go:165-196 | reading a written data frame gives its tag, the declared total and the whole data body, and leaves the following bytes |
| Codec.ParseDataBody | data/data.go:241-281 | a data body as the writer lays it out parses back to the same id, name and byte-identical payload, the empty payload included |
| Codec.WireRoundTrip | common/common.go:179-303 | every message the writer can frame and that fits in a frame reads back, parses to itself, and leaves the following bytes untouched |
| Codec.UnrecognizedIsRefused | common/common.go:316-344 | an unknown value goes out with type byte 255 and every reader's parser refuses it with "notype" |
| Codec.DataTrailingIgnored | common/common.go:288-297 | bytes after a complete data body do not change what it parses to; the payload is the bytes right after the header |
| Codec.DataShortPayload | data/data.go:266-271 | when fewer than binLen payload bytes follow the header, a non-empty remainder is zero-padded to binLen bytes and an empty one is an error |
| Reader.MessageReader | common/common.go:60-83 | forwards exactly the messages of the frames that parse, in arrival order, up to the first frame that cannot be read; skips the others; ends closed at a read failure and crashed at a parser panic; the older copy at client.go:129-152 is the same |
| Reader.LegacyReadMessage | server.go:73-100 | the older server forwards the parsed prefix, one message per frame, and ends the session at the first frame that does not read or parse |
| Reader.ParsedMessagesMembership | common/common.go:75-81 | a message is forwarded iff some frame parsed to it |
| Reader.RejectedFrameSkipped | common/common.go:75-79 | removing a frame that fails to parse changes neither what `MessageReader` forwards nor how it ends |
| Reader.LegacyForwardsPrefix | server.go:83-87 | the older server forwards a prefix of what `MessageReader` forwards, and the same messages when no frame before the stop fails to parse |
| Reader.PumpsPreserveOrder | common/common.go:41-58 | the frames the writer pump sends for a queue read back one outcome per message, in queue order, each parsing to its message |
| Reader.SendOrderPreserved | common/common.go:41-83 | the reader on the far side forwards exactly the queue the writer sent, in order, and closes at the end of the connection |
| Reader.DeliveredQueueForwarded | common/common.go:64-81 | frames that all parsed, followed by a failed read, are forwarded in full before the pump closes |
| Reader.UnknownTagSkippedOrEnds | server.go:83-87 | a frame with a tag outside 1..8 followed by a good frame: `MessageReader` forwards the good message, the older server forwards nothing |
| Reader.WriterStream | common/common.go:41-58 | the writer pump puts one frame per queued message on the connection, in queue order, each at least the 5 header bytes, as long as no bare data header is queued |
| Reader.RejectedThenParsed | client.go:144-150 | a rejected frame then a parsed one: the skipping reader forwards the message, the stopping reader nothing |
| Lifecycle.Open | server/server.go:27-28 | new queues have the given capacity and the flag is down |
| Lifecycle.Close | data/data.go:43-50 | `ConnWrapper.Close` closes both queues and raises the flag when the flag is down, and does nothing when it is up |
| Lifecycle.CloseIdempotent | server/control.go:34-41 | only the first `Close` closes the queues; a second finds the flag up and changes nothing |
| Lifecycle.CloseIsSafe | client/control.go:34-41 | `Close` on a coherent endpoint never closes a queue twice and leaves it closed and coherent |
| Lifecycle.Clear | client/control.go:28-32 | `Clear` makes queues of capacity 100 and lowers the flag |
| Lifecycle.ClearReopens | client.go:58-62 | after `Clear`, the next `Close` closes the new queues |
| Server.NewSession | server/server.go:24-29 | a new session has no listeners, its flag down, and queues of capacity 100 |
| Server.Handshake | server/server.go:30-44 | the session is admitted iff the first frame reads, has type 1 and decodes as a `ServiceRequest`; it then takes the request's id and services; otherwise it is closed with no listeners; the older copy at server.go:33-47 is the same |
| Server.Close | server/control.go:34-55 | `BeanServer.Close` on a coherent session never panics; it leaves the flag up, sends nothing, keeps the id, the connection and the whole registry, and closes the control connection, every listener and every registered stream |
| Server.FirstFailure | server/control.go:76-83 | the position of the first failed bind: every earlier bind worked |
| Server.ProcessSvrRequest | server/control.go:69-90 | exactly one `ServiceResponse` with the request id, success iff every bind worked, and the matching text; every service bound before the failure is registered under its name, a repeated name holding its last bind; no other name is added and other entries are kept; the older copy at server.go:156-177 is the same |
| Server.BoundNamesPresent | server/control.go:84-87 | every service bound so far is registered under its name |
| Server.BoundLastWins | server/control.go:84-87 | a name requested twice holds the listener of its last bind |
| Server.BoundOnlyRequested | server.go:171-174 | only names already present or requested so far are registered |
| Server.BoundKeepsOthers | server.go:171-174 | a name no bind used keeps its listener |
| Server.Accept | server/control.go:93-110 | an accepted connection is registered under its id in its service's stream map and one `ConnectRequest` with that id, name and address goes out; every other stream and listener is kept; the older copy at server.go:180-197 is the same |
| Server.Unregister | server/control.go:134-136 | removing a stream unregisters exactly that stream and keeps every listener |
| Server.UnregisterAbsent | server/control.go:177-179 | deleting a stream that is not registered changes nothing |
| Server.OpenSvr | server/control.go:116-168 | `ConnectResponse` starts a pump. `CloseRequest` drops and closes a registered stream and is silent otherwise. A data frame is written to its stream, closing it on a failed write with the entry kept, is answered with `CloseRequest` for an unknown id, and crashes for an unknown service. A heartbeat is answered with the session id. Nothing else changes; the older copy at server.go:102-154 is the same |
| Server.ReadClientMessage | server/control.go:170-221 | a pump with no event between its start and its end sends every read, the failing one included, as a data frame, then one `CloseRequest`, and drops and closes the stream. An unknown stream gets only the `CloseRequest`; an unknown service crashes |
| Server.StartPump | server/control.go:170-190 | the pump looks its stream up once, at its start: it crashes iff the service is unknown, ends at once with one `CloseRequest` iff the stream id is unknown, and otherwise goes on with the registry untouched |
| Server.EndPump | server/control.go:171-221 | a pump holding its socket sends every read, the failing one included, then one `CloseRequest`, closes exactly that socket and deletes its stream id from the registry as it is by then |
| Server.PumpUninterrupted | server/control.go:170-221 | a start followed directly by an end is the whole pump on a fixed registry |
| Server.ClientCloseDuringPump | server/control.go:129-139 | a stream the client closes while its pump is still reading: the run does not crash, the stream ends unregistered with its socket closed, and the client gets the announcement, the read data, the empty failing read and one `CloseRequest` |
| Server.Apply | server/control.go:93-223 | one event of the accept loops, the `OpenSvr` dispatch or a stream pump keeps every listener, on its socket, and the session id; a stream is newly registered only by an accept that sends its `ConnectRequest` |
| Server.Run | server/control.go:116-168 | across any run that does not crash, no listener is added or removed and nothing but the stream maps changes |
| Server.RunKeepsAnnounced | server/control.go:99-110 | after any run that does not crash, every registered stream has been announced to the client by a `ConnectRequest` |
| LegacyServer.ReadClientMessage | server.go:203-237 | the older pump crashes iff the stream is not registered; otherwise it sends each successful read as a data frame, then one `CloseRequest`, and drops and closes the stream |
| LegacyServer.StartPump | server.go:203-204 | the older pump looks its stream up first, outside any recovery: it crashes iff the stream is not registered, and otherwise changes nothing |
| LegacyServer.EndPump | server.go:205-237 | an older pump holding its socket sends each successful read, then one `CloseRequest`, closes that socket and deletes its stream id from the registry as it is by then; it crashes iff the service is gone |
| LegacyServer.PumpUninterrupted | server.go:203-237 | a start followed directly by an end is the whole older pump on a fixed registry |
| LegacyServer.ClientCloseDuringPump | server.go:115-125 | a stream the client closes while the older pump is still reading: the run does not crash, and the client gets the announcement, the read data and one `CloseRequest` |
| LegacyServer.Apply | server.go:102-237 | one event on the older server keeps every listener, on its socket, and the session id; a pump event never registers a stream; every other event is as on the package server |
| LegacyServer.Run | server.go:102-154 | across any run that does not crash, no listener is added, removed or moved to another socket, and the session id and connection stay |
| LegacyServer.RunKeepsAnnounced | server.go:178-199 | after any run that does not crash, every registered stream of the older server has been announced |
| LegacyServer.PumpsCompared | server.go:213-237 | on a registered stream the package pump sends exactly one data frame more, the failing read's bytes; on an unknown stream the package pump answers while the older one crashes |
| Client.NewClient | client/client.go:19-31 | a new client has no streams or services, queues of capacity 10 and the flag down |
| Client.Bodies | client/control.go:157-164 | the login lists every configured service as name and public port, in configuration order |
| Client.RecordLastWins | client/control.go:157-164 | a name configured twice holds its last item |
| Client.RecordKeepsOthers | client/control.go:162 | a known service no item names keeps its entry |
| Client.RecordOnlyConfigured | client.go:190-197 | only names already known or configured are recorded |
| Client.LoginToServer | client/control.go:151-192 | the login sends a type-1 `ServiceRequest` of the configured services and records the configuration. It succeeds iff the write works and the reply reads, has type 2 and decodes; the client then takes the reply's id, whatever its success flag. Every failure raises `RestartSign` and keeps the old id |
| Client.LoginRecordsConfig | client/control.go:151-164 | after any login each configured name holds its last item, other names are kept, and nothing else is added |
| Client.RunClient | client/control.go:95-113 | a failed dial raises `CloseSign` on the first start and `RestartSign` on a restart; after a successful dial the pumps start whatever the login did |
| Client.CreatePortSvr | client/control.go:194-214 | a failed dial sends `CloseRequest` and changes nothing; a successful one sends `ConnectResponse{success:true}`, registers the stream and starts its pump |
| Client.ReadSvrMessage | client/control.go:258-286 | a data frame for a held stream is written, then the stream is dropped and closed and one `CloseRequest` is sent, whatever the write did; an unknown stream gets two `CloseRequest`s and `RestartSign` |
| Client.DropProxy | client/control.go:140-145 | a `CloseRequest` closes and forgets a held stream and is silent otherwise |
| Client.Transport | client/control.go:115-150 | one wake-up of `TransportMessage`: a tick sends a heartbeat, and each message goes to its handler. A `CloseRequest` sends nothing and forgets the stream. Other messages change nothing. Only the stream map ever changes |
| Client.ReadLocalSvrMessage | client/control.go:216-256 | the local pump sends each successful read as a data frame, then one `CloseRequest`, and forgets and closes the stream |
| Client.Close | client/control.go:34-50 | on a coherent client it never panics; it leaves the flag up, sends nothing, keeps the stream map, and closes exactly the control connection and the local streams; the older copy at client.go:63-82 is the same |
| Client.ClearClient | client/control.go:28-32 | `Clear` makes fresh queues and lowers the flag, keeping streams, services and id |
| Client.TransportKeepsAcked | client/control.go:194-213 | a stream is registered only with a successful `ConnectResponse` sent for it |
| Client.RunKeepsAcked | client/control.go:115-150 | across any run of events, each dial with its own outcome, every held local stream was acknowledged to the server |
| Client.DialsPerStream | client/control.go:194-213 | each stream is dialled on its own: a refused dial then an accepted one for the same service send a `CloseRequest` and a `ConnectResponse`, and only the second stream is held, on its own socket |
| Client.Apply | client/control.go:115-150 | a dispatch wake-up or the end of a local pump changes only the stream map |
| Client.Run | client/control.go:115-150 | a run of dispatch wake-ups and local pump ends changes only the stream map: id, configuration, control connection and queues stay as the login left them |
| Client.SecondDataFrameRestarts | client/control.go:258-286 | the first data frame of a stream closes it, so a second one finds no stream, sends two `CloseRequest`s and raises `RestartSign` |
| LegacyClient.RunClient | client.go:172-227 | the older client starts its pumps iff the dial and the login both worked; otherwise the same signals and state as the package client |
| LegacyClient.ReadSvrMessage | client.go:322-346 | an unknown stream gets one `CloseRequest`; a held stream gets the payload, and only a failed write sends `CloseRequest` and drops and closes it |
| LegacyClient.Transport | client.go:229-264 | the older dispatch differs from the package dispatch only for data frames |
| LegacyClient.ReadLocalSvrMessage | client.go:288-320 | the older local pump sends each successful read as a data frame, then `CloseRequest` twice, and forgets and closes the stream |
| LegacyClient.RunKeepsAcked | client.go:266-286 | the older client also holds only acknowledged streams, each dial with its own outcome |
| LegacyClient.Apply | client.go:229-320 | one event on the older client raises no signal and changes only the stream map |
| LegacyClient.Run | client.go:229-264 | a run on the older client never ends early and changes only the stream map |
| LegacyClient.DataPathsCompared | client.go:333-345 | on a working write the package client drops the stream and sends `CloseRequest`, while the older client keeps it and sends nothing |
| Tunnel.LoginAdmitted | server/server.go:30-44 | the frame the client's login writes passes the server's gate, and the session takes the client's request id and services |
| Tunnel.ReplyAccepted | client/control.go:171-190 | the server's `ServiceResponse` for the session completes the login, whatever its success flag, and the client's id becomes the session id |
| Tunnel.DialFailureReleasesStream | client/control.go:196-204 | when the client cannot dial, its `CloseRequest` makes the server drop the announced stream and close the public socket |
| Tunnel.LegacyClientWritesInOrder | client.go:333 | the older client writes every data frame of a held stream to the local socket, in order, and sends nothing back |
| Tunnel.StreamRelayed | server/control.go:205-221 | with the older client, every read of a public stream reaches the local socket in order, and the pump's `CloseRequest` makes the client drop and close the local stream |

## Left out

- Sockets, listeners and dialling are not modelled as I/O. Their outcomes are parameters: bind and dial results, write success, read chunks, and the bytes of a connection.
- Goroutines, channels and `sync.Mutex` are not modelled. A server stream pump is two events, its start and its end; a client local pump is one event, at its end. The reads in between are not separate events, so a data frame a pump forwards is not interleaved with other events. The queues are sequences of sent messages. The "queue closed" panic on a send is not modelled, and neither is blocking on a full queue.
- `encoding/json` is a parameter (`JsonCodec`) with an assumed round trip (`Sound`). The `time.Time` fields of `ServiceRequest` and `HearBeatRequest` are left out of the messages.
- `RandStringRunes` is not modelled: stream and request ids are parameters. `IsCaredNetError` only affects logging.
- Configuration loading (`InitConfig`, reading `config/client.json`), the `main`/`Run` supervisor loops, the 15-second restart delay and the 10-second ticker are not modelled. A tick is an event.
- Chunk sizes (512, 2048, 32 KiB) are not modelled. A pump's reads are given as a sequence of byte chunks.
- Reader.WriterStream: the writer pump stopping at the first failed write is not modelled. A bare data header on the queue fails the type assertion in `WriteMessageByType`, and that panic in the writer goroutine ends the process; `WriterStream` stops there and does not model the panic. No step of the model queues a bare data header.
- `fmt`/`log` output is not modelled.
- LegacyServer.EndPump: a pump whose service is gone is a `Crash`. In the code, the recovery blocks for ever on the session lock its own delete still holds. The model does not show that every later step taking that lock, and every later `Close`, would block as well. No step removes a listener, so the case never arises in a run.
- Server.Apply: an accepted connection for a name with no listener is a no-op, because accept loops exist only for bound listeners.
- Server.Accept: ids are not checked for freshness. An id already in the map is overwritten, as Go's map assignment does.
- Codec.WriteMessage: a frame whose JSON exceeds the `int32` range is written with the wrapped length, as the code does. The round-trip lemmas require the message to fit in 104857600 bytes.
