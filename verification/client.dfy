/**
 * The client side (`BeanClient` in the `client` package): the login
 * handshake, the dial decision of `RunClient`, the `TransportMessage`
 * dispatch over `ProxyMap`, the local stream pump and `Close`/`Clear`.
 *
 * Dialling, writing and the random request id are inputs: `dialed` is the
 * socket one dial opened (or `None` when it failed), and `writeOk` is the
 * outcome of a write.
 */
module Client {
  import opened Optional
  import opened Wire
  import opened Messages
  import opened Codec
  import opened Lifecycle

  /** One configured service: its name, the public port to ask for, the local address to dial. */
  datatype ServiceItem = ServiceItem(name: string, remotePort: int, localAddr: string)

  /** The client: session id, control connection, services by name, local streams by stream id, queues. */
  datatype BeanClient = BeanClient(
    id: string,
    conn: Option<Handle>,
    serviceConfig: map<string, ServiceItem>,
    proxies: map<string, Handle>,
    life: Life)

  /** The signals to the supervising loop: none, `RestartSign`, or `CloseSign` (exit). */
  datatype Signal = NoSignal | RestartSign | CloseSign

  /** The result of a client step: the next state, its effects and the signal it raised. */
  datatype Step = Step(client: BeanClient, fx: Effects, signal: Signal)

  /** `NewClientApplication`: empty maps, queues of capacity 10, not closed. */
  function NewClient(): (c: BeanClient)
    ensures c.proxies == map[] && c.serviceConfig == map[] && c.conn.None?
    ensures !c.life.closed && Coherent(c.life)
    ensures c.life.readCh.capacity == ClientQueueCapacity && c.life.sendCh.capacity == ClientQueueCapacity
  {
    BeanClient("", None, map[], map[], Open(ClientQueueCapacity))
  }

  /** The services a login asks for: name and public port of each configured service, in order. */
  function Bodies(config: seq<ServiceItem>): (bodies: seq<ServiceBody>)
    ensures |bodies| == |config|
    ensures forall i :: 0 <= i < |config| ==> bodies[i] == ServiceBody(config[i].name, config[i].remotePort)
  {
    seq(|config|, i requires 0 <= i < |config| => ServiceBody(config[i].name, config[i].remotePort))
  }

  /** `ServiceConfig[item.Name] = item` for the first `i` configured services, in order. */
  function Record(known: map<string, ServiceItem>, config: seq<ServiceItem>, i: nat): map<string, ServiceItem>
    requires i <= |config|
  {
    if i == 0 then known
    else Record(known, config, i - 1)[config[i - 1].name := config[i - 1]]
  }

  /** The `j`-th configured service is the last of the first `i` with its name. */
  predicate LastConfigured(config: seq<ServiceItem>, i: nat, j: nat)
    requires j < i <= |config|
  {
    forall l :: j < l < i ==> config[l].name != config[j].name
  }

  /** The last item configured under a name is the one recorded for it. */
  lemma {:induction false} RecordLastAt(known: map<string, ServiceItem>, config: seq<ServiceItem>, i: nat, j: nat)
    requires i <= |config| && j < i && LastConfigured(config, i, j)
    ensures config[j].name in Record(known, config, i) && Record(known, config, i)[config[j].name] == config[j]
  {
    if j < i - 1 {
      assert config[i - 1].name != config[j].name;
      RecordLastAt(known, config, i - 1, j);
    }
  }

  /** Every configured name maps to the last item with that name. */
  lemma RecordLastWins(known: map<string, ServiceItem>, config: seq<ServiceItem>, i: nat)
    requires i <= |config|
    ensures forall j :: 0 <= j < i && LastConfigured(config, i, j) ==>
      config[j].name in Record(known, config, i) && Record(known, config, i)[config[j].name] == config[j]
  {
    forall j | 0 <= j < i && LastConfigured(config, i, j)
      ensures config[j].name in Record(known, config, i) && Record(known, config, i)[config[j].name] == config[j]
    {
      RecordLastAt(known, config, i, j);
    }
  }

  /** A name no configured service uses keeps what it had. */
  lemma {:induction false} RecordKeepsOthers(known: map<string, ServiceItem>, config: seq<ServiceItem>, i: nat)
    requires i <= |config|
    ensures forall n :: n in known && (forall j :: 0 <= j < i ==> config[j].name != n) ==>
      n in Record(known, config, i) && Record(known, config, i)[n] == known[n]
  {
    if i > 0 {
      RecordKeepsOthers(known, config, i - 1);
    }
  }

  /** Only names already known or configured are recorded. */
  lemma {:induction false} RecordOnlyConfigured(known: map<string, ServiceItem>, config: seq<ServiceItem>, i: nat)
    requires i <= |config|
    ensures forall n :: n in Record(known, config, i) ==>
      n in known || exists j :: 0 <= j < i && config[j].name == n
  {
    if i > 0 {
      RecordOnlyConfigured(known, config, i - 1);
    }
  }

  /** The outcome of a login attempt. */
  datatype Login = Login(client: BeanClient, request: Message, frame: seq<Byte>, signal: Signal)

  /**
   * `LoginToServer`: record the configuration, send a type-1 `ServiceRequest`
   * listing every configured service in order under the fresh id `reqId`,
   * then take the reply. A failed write, a reply that does not read, has a type
   * other than 2 or whose body is not a `ServiceResponse` raises `RestartSign`.
   * Otherwise the client takes the response's id; its success flag is not
   * looked at.
   */
  function LoginToServer(js: JsonCodec, c: BeanClient, config: seq<ServiceItem>, reqId: string,
                         writeOk: bool, reply: seq<Byte>): (r: Login)
    ensures r.request == ServiceRequest(reqId, Bodies(config))
    ensures r.frame == WriteMessage(js, 1, r.request)
    ensures r.client.serviceConfig == Record(c.serviceConfig, config, |config|)
    ensures r.client.proxies == c.proxies && r.client.conn == c.conn && r.client.life == c.life
    ensures r.signal != CloseSign
    ensures r.signal == NoSignal <==>
      writeOk && ReadMessageWait(reply).Read? && ReadMessageWait(reply).raw.typ == 2
      && Unmarshal(js, 2, ReadMessageWait(reply).raw.body).Some?
    ensures r.signal == NoSignal ==> r.client.id == Unmarshal(js, 2, ReadMessageWait(reply).raw.body).value.id
    ensures r.signal != NoSignal ==> r.client.id == c.id
  {
    var request := ServiceRequest(reqId, Bodies(config));
    var frame := WriteMessage(js, 1, request);
    var c1 := c.(serviceConfig := Record(c.serviceConfig, config, |config|));
    if !writeOk then Login(c1, request, frame, RestartSign)
    else
      match ReadMessageWait(reply)
      case ReadFailed(_) => Login(c1, request, frame, RestartSign)
      case Read(raw, _) =>
        if raw.typ != 2 then Login(c1, request, frame, RestartSign)
        else
          match Unmarshal(js, 2, raw.body)
          case None => Login(c1, request, frame, RestartSign)
          case Some(resp) => Login(c1.(id := resp.id), request, frame, NoSignal)
  }

  /**
   * After a login, whatever its outcome, every configured service is
   * recorded under its name, a name configured twice holds its last item,
   * and every other recorded service is kept.
   */
  lemma LoginRecordsConfig(js: JsonCodec, c: BeanClient, config: seq<ServiceItem>, reqId: string,
                           writeOk: bool, reply: seq<Byte>)
    ensures var known := LoginToServer(js, c, config, reqId, writeOk, reply).client.serviceConfig;
      forall j :: 0 <= j < |config| && LastConfigured(config, |config|, j) ==>
        config[j].name in known && known[config[j].name] == config[j]
    ensures var known := LoginToServer(js, c, config, reqId, writeOk, reply).client.serviceConfig;
      forall n :: n in c.serviceConfig && (forall j :: 0 <= j < |config| ==> config[j].name != n) ==>
        n in known && known[n] == c.serviceConfig[n]
    ensures var known := LoginToServer(js, c, config, reqId, writeOk, reply).client.serviceConfig;
      forall n :: n in known ==> n in c.serviceConfig || exists j :: 0 <= j < |config| && config[j].name == n
  {
    RecordLastWins(c.serviceConfig, config, |config|);
    RecordKeepsOthers(c.serviceConfig, config, |config|);
    RecordOnlyConfigured(c.serviceConfig, config, |config|);
  }

  /** The outcome of `RunClient`: the state, the bytes sent, the signal raised and whether the pumps started. */
  datatype Startup = Startup(client: BeanClient, sent: seq<Byte>, signal: Signal, pumpsStarted: bool)

  /**
   * `RunClient`: dial the server; a failed dial raises `CloseSign` on the
   * first start and `RestartSign` on a restart. After a successful dial the
   * client logs in and then starts the writer, reader and dispatch loops
   * whether or not the login worked.
   */
  function RunClient(js: JsonCodec, c: BeanClient, restart: bool, dialed: Option<Handle>, config: seq<ServiceItem>,
                     reqId: string, writeOk: bool, reply: seq<Byte>): (r: Startup)
    ensures dialed.None? ==> r == Startup(c, [], if restart then RestartSign else CloseSign, false)
    ensures dialed.Some? ==> r.pumpsStarted && r.client.conn == dialed
    ensures dialed.Some? ==>
      var login := LoginToServer(js, c.(conn := dialed), config, reqId, writeOk, reply);
      r.signal == login.signal && r.client == login.client && r.sent == login.frame
  {
    match dialed
    case None => Startup(c, [], if restart then RestartSign else CloseSign, false)
    case Some(h) =>
      var login := LoginToServer(js, c.(conn := Some(h)), config, reqId, writeOk, reply);
      Startup(login.client, login.frame, login.signal, true)
  }

  /**
   * `createPortSvr`: dial the service's configured local address (Go's zero
   * value "" for a name without configuration); `dialed` is what that dial
   * gave. On failure the server
   * is told to close the stream; on success it gets a `ConnectResponse`, the
   * stream is registered under its id and its local pump starts.
   */
  function CreatePortSvr(c: BeanClient, id: string, name: string, ip: string, dialed: Option<Handle>): (r: Step)
    ensures r.signal == NoSignal
    ensures dialed.None? ==> r == Step(c, Sent([CloseRequest(id, name)]), NoSignal)
    ensures dialed.Some? ==>
      r.client == c.(proxies := c.proxies[id := dialed.value]) &&
      r.fx.sent == [ConnectResponse(id, name, true)] && r.fx.closed == {} &&
      r.fx.started == [ConnectRequest(id, name, ip)]
  {
    match dialed
    case None => Step(c, Sent([CloseRequest(id, name)]), NoSignal)
    case Some(h) =>
      Step(c.(proxies := c.proxies[id := h]), Effects([ConnectResponse(id, name, true)], {}, [], [ConnectRequest(id, name, ip)]), NoSignal)
  }

  /**
   * `ReadSvrMessage`: a data frame for a registered stream is written to the
   * local socket, and then, whatever the write did, the deferred cleanup sends
   * one `CloseRequest`, closes the socket and forgets the stream. For an
   * unknown stream two `CloseRequest`s go out (the branch and the deferred
   * cleanup) and closing the nil socket panics; `TransportMessage` recovers
   * and raises `RestartSign`.
   */
  function ReadSvrMessage(c: BeanClient, id: string, name: string, content: seq<Byte>): (r: Step)
    ensures id in c.proxies ==>
      r.signal == NoSignal && r.client == c.(proxies := c.proxies - {id}) &&
      r.fx.sent == [CloseRequest(id, name)] && r.fx.closed == {c.proxies[id]} &&
      r.fx.writes == [Write(c.proxies[id], content)]
    ensures id !in c.proxies ==>
      r == Step(c, Sent([CloseRequest(id, name), CloseRequest(id, name)]), RestartSign)
  {
    if id in c.proxies then
      var h := c.proxies[id];
      Step(c.(proxies := c.proxies - {id}), Effects([CloseRequest(id, name)], {h}, [Write(h, content)], []), NoSignal)
    else Step(c, Sent([CloseRequest(id, name), CloseRequest(id, name)]), RestartSign)
  }

  /** The stream with id `id` closed and forgotten, if the client holds it. */
  function DropProxy(c: BeanClient, id: string): (r: Step)
    ensures id in c.proxies ==> r == Step(c.(proxies := c.proxies - {id}), Effects([], {c.proxies[id]}, [], []), NoSignal)
    ensures id !in c.proxies ==> r == Step(c, NoEffects, NoSignal)
  {
    if id in c.proxies then Step(c.(proxies := c.proxies - {id}), Effects([], {c.proxies[id]}, [], []), NoSignal)
    else Step(c, NoEffects, NoSignal)
  }

  /** What wakes up `TransportMessage`: the 10-second ticker, or a message from the server. */
  datatype Wake = Tick | Inbound(m: Message)

  /**
   * `TransportMessage`, one wake-up. A tick sends a heartbeat; a
   * `ConnectRequest` dials the service, with outcome `dialed`; a data frame goes to `ReadSvrMessage`;
   * a `CloseRequest` drops the stream with that id if there is one and sends
   * nothing; anything else is ignored.
   */
  function Transport(c: BeanClient, w: Wake, dialed: Option<Handle>): (r: Step)
    ensures w.Tick? ==> r == Step(c, Sent([HeartbeatRequest]), NoSignal)
    ensures w.Inbound? && w.m.ConnectRequest? ==> r == CreatePortSvr(c, w.m.id, w.m.name, w.m.ip, dialed)
    ensures w.Inbound? && w.m.Data? ==> r == ReadSvrMessage(c, w.m.id, w.m.name, w.m.content)
    ensures w.Inbound? && w.m.CloseRequest? ==>
      r.fx.sent == [] && r.signal == NoSignal && r.client.proxies == c.proxies - {w.m.id}
    ensures w.Inbound? && !(w.m.ConnectRequest? || w.m.Data? || w.m.CloseRequest?) ==> r == Step(c, NoEffects, NoSignal)
    ensures r.client == c.(proxies := r.client.proxies)
  {
    match w
    case Tick => Step(c, Sent([HeartbeatRequest]), NoSignal)
    case Inbound(m) =>
      match m
      case ConnectRequest(id, name, ip) => CreatePortSvr(c, id, name, ip, dialed)
      case Data(id, name, content) => ReadSvrMessage(c, id, name, content)
      case CloseRequest(id, _) =>
        assert id !in c.proxies ==> c.proxies - {id} == c.proxies;
        DropProxy(c, id)
      case _ => Step(c, NoEffects, NoSignal)
  }

  /**
   * The local pump `ReadLocalSvrMessage`, from start to end: every read of
   * the local socket that worked goes to the server as a data frame; at the
   * failing read, whose bytes are dropped, the deferred cleanup sends one
   * `CloseRequest`, forgets the stream and closes the socket.
   */
  function ReadLocalSvrMessage(c: BeanClient, id: string, name: string, conn: Handle, chunks: seq<seq<Byte>>): (r: Step)
    ensures r.signal == NoSignal
    ensures r.client == c.(proxies := c.proxies - {id})
    ensures r.fx.sent == DataFrames(id, name, chunks) + [CloseRequest(id, name)]
    ensures r.fx.closed == {conn}
  {
    Step(c.(proxies := c.proxies - {id}), Effects(DataFrames(id, name, chunks) + [CloseRequest(id, name)], {conn}, [], []), NoSignal)
  }

  /** Every socket the client holds: the control connection, if dialled, and the local streams. */
  function HeldSockets(c: BeanClient): set<Handle> {
    (if c.conn.Some? then {c.conn.value} else {}) + (set id | id in c.proxies :: c.proxies[id])
  }

  /**
   * `Close`: close the queues if `Closed` is still false, then the control
   * connection and every local stream. `ProxyMap` keeps its entries.
   * `None` is a panic from closing a queue twice, which a coherent client never hits.
   */
  function Close(c: BeanClient): (r: Option<Step>)
    ensures Coherent(c.life) ==> r.Some?
    ensures r.Some? ==> r.value.client == c.(life := r.value.client.life) && r.value.client.life.closed
    ensures r.Some? ==> r.value.fx.sent == [] && r.value.signal == NoSignal
    ensures r.Some? ==> forall id :: id in c.proxies ==> c.proxies[id] in r.value.fx.closed
    ensures r.Some? && c.conn.Some? ==> c.conn.value in r.value.fx.closed
    ensures r.Some? ==> forall h :: h in r.value.fx.closed ==>
      c.conn == Some(h) || exists id :: id in c.proxies && c.proxies[id] == h
  {
    match Lifecycle.Close(c.life)
    case ClosePanicked => None
    case _ => Some(Step(c.(life := AfterClose(c.life)), Effects([], HeldSockets(c), [], []), NoSignal))
  }

  /** `Clear`: fresh queues of capacity 100 and `Closed` lowered; streams, services and id are kept. */
  function ClearClient(c: BeanClient): (r: BeanClient)
    ensures r == c.(life := r.life)
    ensures !r.life.closed && Coherent(r.life)
    ensures r.life.readCh.capacity == SessionQueueCapacity && r.life.sendCh.capacity == SessionQueueCapacity
  {
    c.(life := Clear(c.life))
  }

  /** The stream ids for which the server was sent a successful `ConnectResponse`, in a message log. */
  function Acknowledged(log: seq<Message>): set<string> {
    set i | 0 <= i < |log| && log[i].ConnectResponse? && log[i].success :: log[i].id
  }

  /** Every local stream the client holds was acknowledged to the server. */
  predicate Acked(c: BeanClient, log: seq<Message>) {
    forall id | id in c.proxies :: id in Acknowledged(log)
  }

  lemma AcknowledgedGrow(log: seq<Message>, more: seq<Message>)
    ensures Acknowledged(log) <= Acknowledged(log + more)
    ensures forall i :: 0 <= i < |more| && more[i].ConnectResponse? && more[i].success ==>
      more[i].id in Acknowledged(log + more)
  {
    forall id | id in Acknowledged(log) ensures id in Acknowledged(log + more) {
      var i :| 0 <= i < |log| && log[i].ConnectResponse? && log[i].success && id == log[i].id;
      assert (log + more)[i] == log[i];
    }
    forall i | 0 <= i < |more| && more[i].ConnectResponse? && more[i].success
      ensures more[i].id in Acknowledged(log + more)
    {
      assert (log + more)[|log| + i] == more[i];
    }
  }

  /** A dispatch step keeps every held local stream acknowledged. */
  lemma TransportKeepsAcked(c: BeanClient, w: Wake, dialed: Option<Handle>, log: seq<Message>)
    requires Acked(c, log)
    ensures Acked(Transport(c, w, dialed).client, log + Transport(c, w, dialed).fx.sent)
  {
    var r := Transport(c, w, dialed);
    AcknowledgedGrow(log, r.fx.sent);
    if w.Inbound? && w.m.ConnectRequest? && dialed.Some? {
      assert r.fx.sent[0] == ConnectResponse(w.m.id, w.m.name, true);
    }
  }

  /** What can happen to a logged-in client. */
  datatype Event =
    | Woke(w: Wake, dialed: Option<Handle>)                                     // `TransportMessage` wakes up; `dialed` is the dial a `ConnectRequest` makes
    | LocalEnded(id: string, name: string, conn: Handle, chunks: seq<seq<Byte>>)  // a local pump runs to its end

  /** One event: a dispatch wake-up, or the end of a local pump. Either changes only the stream map. */
  function Apply(c: BeanClient, e: Event): (r: Step)
    ensures r.client == c.(proxies := r.client.proxies)
  {
    match e
    case Woke(w, dialed) => Transport(c, w, dialed)
    case LocalEnded(id, name, conn, chunks) => ReadLocalSvrMessage(c, id, name, conn, chunks)
  }

  /**
   * A run of events, in order, ending early when a step raises a signal (the
   * dispatch loop is over). Every dial has its own outcome. A run changes
   * only the stream map: the id, the configuration, the control connection
   * and the queues stay as the login left them.
   */
  function Run(c: BeanClient, events: seq<Event>): (r: Step)
    ensures r.client == c.(proxies := r.client.proxies)
    decreases |events|
  {
    if |events| == 0 then Step(c, NoEffects, NoSignal)
    else
      var r1 := Apply(c, events[0]);
      if r1.signal != NoSignal then r1
      else
        var r2 := Run(r1.client, events[1..]);
        Step(r2.client, Then(r1.fx, r2.fx), r2.signal)
  }

  /** One event keeps every held local stream acknowledged. */
  lemma ApplyKeepsAcked(c: BeanClient, e: Event, log: seq<Message>)
    requires Acked(c, log)
    ensures Acked(Apply(c, e).client, log + Apply(c, e).fx.sent)
  {
    match e
    case Woke(w, dialed) => TransportKeepsAcked(c, w, dialed, log);
    case LocalEnded(id, name, conn, chunks) => AcknowledgedGrow(log, Apply(c, e).fx.sent);
  }

  /**
   * A client never holds a local stream the server was not told it accepted:
   * if every held stream was acknowledged before a run of events, every
   * stream held after it was acknowledged in the log so far.
   */
  lemma {:induction false} RunKeepsAcked(c: BeanClient, events: seq<Event>, log: seq<Message>)
    requires Acked(c, log)
    ensures Acked(Run(c, events).client, log + Run(c, events).fx.sent)
    decreases |events|
  {
    if |events| == 0 {
      assert log + [] == log;
    } else {
      var r1 := Apply(c, events[0]);
      ApplyKeepsAcked(c, events[0], log);
      if r1.signal == NoSignal {
        RunKeepsAcked(r1.client, events[1..], log + r1.fx.sent);
        var r2 := Run(r1.client, events[1..]);
        assert log + r1.fx.sent + r2.fx.sent == log + (r1.fx.sent + r2.fx.sent);
      }
    }
  }

  /**
   * Each stream is dialled on its own: a service that refuses one stream and
   * accepts the next gets a `CloseRequest` for the first, a `ConnectResponse`
   * for the second, and holds only the second, on its own socket.
   */
  lemma DialsPerStream(c: BeanClient, name: string, id1: string, id2: string, ip: string, h: Handle)
    ensures var r := Run(c, [Woke(Inbound(ConnectRequest(id1, name, ip)), None), Woke(Inbound(ConnectRequest(id2, name, ip)), Some(h))]);
      r.signal == NoSignal && r.client.proxies == c.proxies[id2 := h] &&
      r.fx.sent == [CloseRequest(id1, name), ConnectResponse(id2, name, true)]
  {
    var e1 := Woke(Inbound(ConnectRequest(id1, name, ip)), None);
    var e2 := Woke(Inbound(ConnectRequest(id2, name, ip)), Some(h));
    var es := [e1, e2];
    var r1 := Apply(c, e1);
    assert r1 == Step(c, Sent([CloseRequest(id1, name)]), NoSignal);
    var r2 := Apply(c, e2);
    assert r2.signal == NoSignal && r2.client.proxies == c.proxies[id2 := h] && r2.fx.sent == [ConnectResponse(id2, name, true)];
    assert Run(r2.client, []) == Step(r2.client, NoEffects, NoSignal);
    assert es[1..] == [e2] && [e2][1..] == [];
    assert Run(c, [e2]) == Step(r2.client, Then(r2.fx, NoEffects), NoSignal);
    assert Run(c, es) == Step(r2.client, Then(r1.fx, Then(r2.fx, NoEffects)), NoSignal);
  }

  /**
   * A second data frame on one stream restarts the client: the first frame
   * closes the stream, so the second finds no stream, sends two
   * `CloseRequest`s and raises `RestartSign`.
   */
  lemma SecondDataFrameRestarts(c: BeanClient, id: string, name: string, a: seq<Byte>, b: seq<Byte>,
                                dialed: Option<Handle>)
    requires id in c.proxies
    ensures var first := Transport(c, Inbound(Data(id, name, a)), dialed);
      first.signal == NoSignal &&
      Transport(first.client, Inbound(Data(id, name, b)), dialed)
        == Step(first.client, Sent([CloseRequest(id, name), CloseRequest(id, name)]), RestartSign)
  {
  }
}
