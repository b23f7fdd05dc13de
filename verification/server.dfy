/**
 * The server side of one control connection (`BeanServer` in the `server`
 * package; `ConnWrapper` of the older root server has the same fields and
 * the same handshake, provisioning, accept and dispatch code).
 *
 * The registry is `Listener`: for each service name, the public listening
 * socket and the public streams accepted on it, keyed by a stream id. Every
 * step is a pure transition from a session and the outcome of the I/O it
 * performs to the next session and its effects.
 */
module Server {
  import opened Optional
  import opened Wire
  import opened Messages
  import opened Codec
  import opened Lifecycle

  /** A bound public port: its listening socket and the public streams accepted on it, by stream id. */
  datatype Listener = Listener(socket: Handle, clients: map<string, Handle>)

  /** One client session: its id, control connection, requested services, registry and queues. */
  datatype Session = Session(
    id: string,
    conn: Handle,
    services: seq<ServiceBody>,
    listeners: map<string, Listener>,
    life: Life)

  /**
   * The result of a step: the next session and its effects, or a `Crash`
   * after which the session makes no further progress. A crash is a panic
   * that ends the server process, or, in the older pump, a recovery that
   * blocks for ever on the session lock.
   */
  datatype Step = Next(session: Session, fx: Effects) | Crash(fx: Effects)

  /** The response text when every service was bound. */
  const StartedText: string := "服务启动成功."

  /** The response text when a bind failed. */
  const PortTakenText: string := "服务启动失败，端口被占用."

  /** The session built for an accepted control connection: no listeners, open queues of capacity 100. */
  function NewSession(conn: Handle): (s: Session)
    ensures s.conn == conn && s.listeners == map[]
    ensures !s.life.closed && Coherent(s.life)
    ensures s.life.readCh.capacity == SessionQueueCapacity && s.life.sendCh.capacity == SessionQueueCapacity
  {
    Session("", conn, [], map[], Open(SessionQueueCapacity))
  }

  /** Whether stream `id` of service `name` is registered. */
  predicate Registered(s: Session, name: string, id: string) {
    name in s.listeners && id in s.listeners[name].clients
  }

  /** `t` holds the listeners of `s`, on the same sockets: only their stream maps may differ. */
  predicate SameListeners(s: Session, t: Session) {
    t.listeners.Keys == s.listeners.Keys &&
    forall n :: n in s.listeners ==> t.listeners[n].socket == s.listeners[n].socket
  }

  /** Every socket the session holds: the control connection, the listeners and the accepted streams. */
  function HeldSockets(s: Session): set<Handle> {
    {s.conn}
    + (set n | n in s.listeners :: s.listeners[n].socket)
    + (set n, id | n in s.listeners && id in s.listeners[n].clients :: s.listeners[n].clients[id])
  }

  /**
   * `Close`: close the queues if `Closed` is still false, then close every
   * accepted stream, every listener and the control connection. The
   * registry itself is left in place.
   */
  function Close(s: Session): (r: Step)
    ensures Coherent(s.life) ==> r.Next?
    ensures r.Next? ==> r.session.life.closed && r.session.listeners == s.listeners
    ensures r.Next? ==> r.session.id == s.id && r.session.conn == s.conn
    ensures r.Next? ==> r.fx.sent == [] && s.conn in r.fx.closed
    ensures r.Next? ==> forall n, id :: Registered(s, n, id) ==> s.listeners[n].clients[id] in r.fx.closed
    ensures r.Next? ==> forall n :: n in s.listeners ==> s.listeners[n].socket in r.fx.closed
  {
    match Lifecycle.Close(s.life)
    case ClosePanicked => Crash(NoEffects)
    case _ => Next(s.(life := AfterClose(s.life)), Effects([], HeldSockets(s), [], []))
  }

  /** The outcome of the handshake on a new control connection. */
  datatype Gate =
    | Admitted(session: Session, rest: seq<Byte>)
    | Refused(session: Session, fx: Effects)

  /**
   * The handshake gate of `Run`: the first frame must read, carry type 1 and
   * hold a `ServiceRequest` in JSON. Otherwise the new session is closed and
   * no goroutine starts. On success the session takes its id from the request.
   */
  function Handshake(js: JsonCodec, conn: Handle, input: seq<Byte>): (g: Gate)
    ensures g.Admitted? <==>
      ReadMessageWait(input).Read? && ReadMessageWait(input).raw.typ == 1
      && Unmarshal(js, 1, ReadMessageWait(input).raw.body).Some?
    ensures g.Admitted? ==>
      var req := Unmarshal(js, 1, ReadMessageWait(input).raw.body).value;
      g.session == NewSession(conn).(id := req.id, services := req.services)
      && g.rest == ReadMessageWait(input).rest
    ensures g.Refused? ==>
      g.session.life.closed && g.session.listeners == map[] && g.fx.closed == {conn} && g.fx.sent == []
  {
    var blank := NewSession(conn);
    match ReadMessageWait(input)
    case ReadFailed(_) => Refused(Close(blank).session, Close(blank).fx)
    case Read(raw, rest) =>
      if raw.typ != 1 then Refused(Close(blank).session, Close(blank).fx)
      else
        match Unmarshal(js, 1, raw.body)
        case None => Refused(Close(blank).session, Close(blank).fx)
        case Some(req) => Admitted(blank.(id := req.id, services := req.services), rest)
  }

  /** The position of the first failed bind, or the number of binds when all succeeded. */
  function FirstFailure(binds: seq<Option<Handle>>): (k: nat)
    ensures k <= |binds|
    ensures forall i :: 0 <= i < k ==> binds[i].Some?
    ensures k < |binds| ==> binds[k].None?
  {
    if |binds| == 0 || binds[0].None? then 0 else 1 + FirstFailure(binds[1..])
  }

  /**
   * `ProcessSvrRequest`: bind the requested services in order, registering
   * each under its name, and stop at the first bind that fails. Listeners
   * bound before the failure stay registered. Exactly one `ServiceResponse`
   * goes out, carrying the request id and telling whether every bind worked.
   * `binds[i]` is the outcome of `net.Listen` for the i-th service.
   */
  method ProcessSvrRequest(s: Session, binds: seq<Option<Handle>>) returns (s': Session, fx: Effects)
    requires |binds| == |s.services|
    ensures var k := FirstFailure(binds);
      fx == Sent([ServiceResponse(s.id, k == |binds|, if k == |binds| then StartedText else PortTakenText)])
    ensures var k := FirstFailure(binds);
      forall i :: 0 <= i < k ==> s.services[i].name in s'.listeners
    ensures var k := FirstFailure(binds);
      forall i :: 0 <= i < k && LastOfName(s.services, k, i) ==>
        s'.listeners[s.services[i].name] == Listener(binds[i].value, map[])
    ensures var k := FirstFailure(binds);
      forall n :: n in s'.listeners ==>
        n in s.listeners || exists i :: 0 <= i < k && s.services[i].name == n
    ensures var k := FirstFailure(binds);
      forall n :: n in s.listeners && (forall i :: 0 <= i < k ==> s.services[i].name != n) ==>
        n in s'.listeners && s'.listeners[n] == s.listeners[n]
    ensures s' == s.(listeners := s'.listeners)
  {
    ghost var k := FirstFailure(binds);
    var listeners := s.listeners;
    var i := 0;
    while i < |s.services| && binds[i].Some?
      invariant 0 <= i <= k
      invariant listeners == Bound(s.listeners, s.services, binds, i)
    {
      listeners := listeners[s.services[i].name := Listener(binds[i].value, map[])];
      i := i + 1;
    }
    s' := s.(listeners := listeners);
    var success := i == |s.services|;
    var text := if success then StartedText else PortTakenText;
    fx := Sent([ServiceResponse(s.id, success, text)]);
    BoundNamesPresent(s.listeners, s.services, binds, k);
    BoundLastWins(s.listeners, s.services, binds, k);
    BoundOnlyRequested(s.listeners, s.services, binds, k);
    BoundKeepsOthers(s.listeners, s.services, binds, k);
  }

  /** The registry after binding the first `i` services, each successfully, in order. */
  function Bound(base: map<string, Listener>, services: seq<ServiceBody>, binds: seq<Option<Handle>>, i: nat)
    : map<string, Listener>
    requires i <= |services| && i <= |binds|
    requires forall j :: 0 <= j < i ==> binds[j].Some?
  {
    if i == 0 then base
    else Bound(base, services, binds, i - 1)[services[i - 1].name := Listener(binds[i - 1].value, map[])]
  }

  /** Every service bound so far is registered under its name. */
  lemma {:induction false} BoundNamesPresent(base: map<string, Listener>, services: seq<ServiceBody>,
                                             binds: seq<Option<Handle>>, i: nat)
    requires i <= |services| && i <= |binds|
    requires forall j :: 0 <= j < i ==> binds[j].Some?
    ensures forall j :: 0 <= j < i ==> services[j].name in Bound(base, services, binds, i)
  {
    if i > 0 {
      BoundNamesPresent(base, services, binds, i - 1);
    }
  }

  /** The `j`-th service is the last of the first `i` to use its name. */
  predicate LastOfName(services: seq<ServiceBody>, i: nat, j: nat)
    requires j < i <= |services|
  {
    forall l :: j < l < i ==> services[l].name != services[j].name
  }

  /** The last bind of a name so far is the one registered under it. */
  lemma {:induction false} BoundLastAt(base: map<string, Listener>, services: seq<ServiceBody>,
                                       binds: seq<Option<Handle>>, i: nat, j: nat)
    requires i <= |services| && i <= |binds|
    requires forall k :: 0 <= k < i ==> binds[k].Some?
    requires j < i && LastOfName(services, i, j)
    ensures services[j].name in Bound(base, services, binds, i)
    ensures Bound(base, services, binds, i)[services[j].name] == Listener(binds[j].value, map[])
  {
    if j < i - 1 {
      assert services[i - 1].name != services[j].name;
      BoundLastAt(base, services, binds, i - 1, j);
    }
  }

  /** A name requested more than once holds the listener of its last successful bind. */
  lemma BoundLastWins(base: map<string, Listener>, services: seq<ServiceBody>,
                      binds: seq<Option<Handle>>, i: nat)
    requires i <= |services| && i <= |binds|
    requires forall j :: 0 <= j < i ==> binds[j].Some?
    ensures forall j :: 0 <= j < i && LastOfName(services, i, j) ==>
      services[j].name in Bound(base, services, binds, i) &&
      Bound(base, services, binds, i)[services[j].name] == Listener(binds[j].value, map[])
  {
    forall j | 0 <= j < i && LastOfName(services, i, j)
      ensures services[j].name in Bound(base, services, binds, i)
      ensures Bound(base, services, binds, i)[services[j].name] == Listener(binds[j].value, map[])
    {
      BoundLastAt(base, services, binds, i, j);
    }
  }

  /** Only names that were already registered or were bound so far are registered. */
  lemma {:induction false} BoundOnlyRequested(base: map<string, Listener>, services: seq<ServiceBody>,
                                              binds: seq<Option<Handle>>, i: nat)
    requires i <= |services| && i <= |binds|
    requires forall j :: 0 <= j < i ==> binds[j].Some?
    ensures forall n :: n in Bound(base, services, binds, i) ==>
      n in base || exists j :: 0 <= j < i && services[j].name == n
  {
    if i > 0 {
      BoundOnlyRequested(base, services, binds, i - 1);
    }
  }

  /** A registered name that no bind so far used keeps its listener. */
  lemma {:induction false} BoundKeepsOthers(base: map<string, Listener>, services: seq<ServiceBody>,
                                            binds: seq<Option<Handle>>, i: nat)
    requires i <= |services| && i <= |binds|
    requires forall j :: 0 <= j < i ==> binds[j].Some?
    ensures forall n :: n in base && (forall j :: 0 <= j < i ==> services[j].name != n) ==>
      n in Bound(base, services, binds, i) && Bound(base, services, binds, i)[n] == base[n]
  {
    if i > 0 {
      BoundKeepsOthers(base, services, binds, i - 1);
    }
  }

  /**
   * The accept loop of a bound listener: a public connection is registered
   * under a fresh id in its service's stream map, and a `ConnectRequest`
   * naming the id and the service goes to the client.
   */
  function Accept(s: Session, name: string, id: string, conn: Handle, ip: string): (r: Step)
    requires name in s.listeners
    ensures r.Next? && r.fx == Sent([ConnectRequest(id, name, ip)])
    ensures Registered(r.session, name, id) && r.session.listeners[name].clients[id] == conn
    ensures r.session.listeners.Keys == s.listeners.Keys
    ensures r.session.listeners[name].socket == s.listeners[name].socket
    ensures SameListeners(s, r.session)
    ensures forall n, other :: Registered(s, n, other) && (n, other) != (name, id) ==>
      Registered(r.session, n, other) && r.session.listeners[n].clients[other] == s.listeners[n].clients[other]
    ensures forall n, other :: Registered(r.session, n, other) ==> Registered(s, n, other) || (n, other) == (name, id)
    ensures r.session == s.(listeners := r.session.listeners)
  {
    var l := s.listeners[name];
    Next(s.(listeners := s.listeners[name := l.(clients := l.clients[id := conn])]), Sent([ConnectRequest(id, name, ip)]))
  }

  /** The registry with stream `id` of service `name` removed. */
  function Unregister(s: Session, name: string, id: string): (s': Session)
    requires name in s.listeners
    ensures s'.listeners.Keys == s.listeners.Keys
    ensures SameListeners(s, s')
    ensures !Registered(s', name, id)
    ensures forall n, other :: Registered(s', n, other) <==> Registered(s, n, other) && (n, other) != (name, id)
    ensures s' == s.(listeners := s'.listeners)
  {
    var l := s.listeners[name];
    s.(listeners := s.listeners[name := l.(clients := l.clients - {id})])
  }

  /** Deleting a stream that is not registered changes nothing. */
  lemma UnregisterAbsent(s: Session, name: string, id: string)
    requires name in s.listeners && !Registered(s, name, id)
    ensures Unregister(s, name, id) == s
  {
    var l := s.listeners[name];
    assert l.clients - {id} == l.clients;
    assert s.listeners[name := l] == s.listeners;
  }

  /**
   * `OpenSvr`, one message from the client. A `ConnectResponse` starts the
   * stream pump; a `CloseRequest` drops and closes the stream if it is
   * registered and is ignored otherwise; a data frame is written to its
   * stream, answered with a `CloseRequest` when the stream is unknown, and
   * takes the process down when the service name is unknown (a nil map entry
   * is dereferenced); a heartbeat is answered with the session id.
   * `writeOk` is the outcome of writing the payload to the public stream.
   */
  function OpenSvr(s: Session, m: Message, writeOk: bool): (r: Step)
    ensures r.Crash? <==> m.Data? && m.name !in s.listeners
    ensures r.Next? ==> r.session.listeners.Keys == s.listeners.Keys && r.session.id == s.id
    ensures r.Next? ==> SameListeners(s, r.session)
    ensures r.Next? ==> forall n, id :: Registered(r.session, n, id) ==> Registered(s, n, id)
    ensures m.CloseRequest? ==> r.Next? && r.fx.sent == [] && (Registered(s, m.name, m.id) <==> r.fx.closed != {})
    ensures m.CloseRequest? && Registered(s, m.name, m.id) ==>
      r.session == Unregister(s, m.name, m.id) && r.fx.closed == {s.listeners[m.name].clients[m.id]}
    ensures m.CloseRequest? && !Registered(s, m.name, m.id) ==> r == Next(s, NoEffects)
    ensures m.Data? && m.name in s.listeners && m.id !in s.listeners[m.name].clients ==>
      r == Next(s, Sent([CloseRequest(m.id, m.name)]))
    ensures m.Data? && Registered(s, m.name, m.id) ==>
      r.Next? && r.session == s && r.fx.sent == [] &&
      r.fx.writes == [Write(s.listeners[m.name].clients[m.id], m.content)] &&
      (r.fx.closed == {} <==> writeOk)
    ensures m.HeartbeatRequest? ==> r == Next(s, Sent([HeartbeatResponse(s.id)]))
    ensures m.ConnectResponse? ==> r == Next(s, Effects([], {}, [], [m]))
    ensures !(m.CloseRequest? || m.Data? || m.HeartbeatRequest? || m.ConnectResponse?) ==> r == Next(s, NoEffects)
  {
    match m
    case ConnectResponse(_, _, _) => Next(s, Effects([], {}, [], [m]))
    case CloseRequest(id, name) =>
      if Registered(s, name, id) then
        Next(Unregister(s, name, id), Effects([], {s.listeners[name].clients[id]}, [], []))
      else Next(s, NoEffects)
    case Data(id, name, content) =>
      if name !in s.listeners then Crash(NoEffects)
      else if id !in s.listeners[name].clients then Next(s, Sent([CloseRequest(id, name)]))
      else
        var conn := s.listeners[name].clients[id];
        Next(s, Effects([], if writeOk then {} else {conn}, [Write(conn, content)], []))
    case HeartbeatRequest => Next(s, Sent([HeartbeatResponse(s.id)]))
    case _ => Next(s, NoEffects)
  }

  /**
   * The stream pump `ReadClientMessage` started by a `ConnectResponse`, from
   * start to end: `chunks` are the reads of the public stream that worked and
   * `last` is what the failing read returned. Every read, the failing one
   * included, goes to the client as a data frame; then one `CloseRequest` is
   * sent and the stream is dropped. An unknown stream gets only the
   * `CloseRequest`; an unknown service panics twice (the second time in the
   * deferred cleanup), which ends the process.
   */
  function ReadClientMessage(s: Session, id: string, name: string, chunks: seq<seq<Byte>>, last: seq<Byte>): (r: Step)
    ensures r.Crash? <==> name !in s.listeners
    ensures r.Crash? ==> r.fx == Sent([CloseRequest(id, name)])
    ensures r.Next? ==> r.session == Unregister(s, name, id)
    ensures r.Next? ==> |r.fx.sent| >= 1 && r.fx.sent[|r.fx.sent| - 1] == CloseRequest(id, name)
    ensures Registered(s, name, id) ==>
      r.Next? && r.fx.sent[..|r.fx.sent| - 1] == DataFrames(id, name, chunks + [last]) &&
      r.fx.closed == {s.listeners[name].clients[id]}
    ensures name in s.listeners && !Registered(s, name, id) ==> r == Next(s, Sent([CloseRequest(id, name)]))
  {
    if name !in s.listeners then Crash(Sent([CloseRequest(id, name)]))
    else if id !in s.listeners[name].clients then
      UnregisterAbsent(s, name, id);
      Next(s, Sent([CloseRequest(id, name)]))
    else
      var conn := s.listeners[name].clients[id];
      var sent := DataFrames(id, name, chunks + [last]) + [CloseRequest(id, name)];
      assert sent[..|sent| - 1] == DataFrames(id, name, chunks + [last]);
      Next(Unregister(s, name, id), Effects(sent, {conn}, [], []))
  }

  /**
   * The start of the stream pump `ReadClientMessage` that `OpenSvr` spawns for
   * a `ConnectResponse`. The stream is looked up once, here, and the pump keeps
   * its socket to the end. An unknown stream ends the pump at once: the
   * deferred cleanup sends a `CloseRequest` and its delete finds nothing. An
   * unknown service dereferences nil, and so does the deferred cleanup, which
   * ends the process.
   */
  function StartPump(s: Session, id: string, name: string): (r: Step)
    ensures r.Crash? <==> name !in s.listeners
    ensures r.Crash? ==> r.fx == Sent([CloseRequest(id, name)])
    ensures r.Next? ==> r.session == s && r.fx.closed == {} && r.fx.writes == []
    ensures r.Next? ==> (r.fx.sent == [] <==> Registered(s, name, id))
    ensures r.Next? && !Registered(s, name, id) ==> r.fx.sent == [CloseRequest(id, name)]
  {
    if name !in s.listeners then Crash(Sent([CloseRequest(id, name)]))
    else if id !in s.listeners[name].clients then Next(s, Sent([CloseRequest(id, name)]))
    else Next(s, NoEffects)
  }

  /**
   * The rest of a pump whose start found the socket `conn`: every read, the
   * failing one included, goes to the client as a data frame; then the socket
   * is closed, one `CloseRequest` is sent, and the stream id is deleted from
   * the service's map, whatever that map holds by now (the client may have
   * closed the stream meanwhile). The service itself is always still bound,
   * since no step removes a listener; were it gone, the deferred delete would
   * dereference nil and end the process.
   */
  function EndPump(s: Session, id: string, name: string, conn: Handle, chunks: seq<seq<Byte>>, last: seq<Byte>): (r: Step)
    ensures r.Crash? <==> name !in s.listeners
    ensures r.fx.sent == DataFrames(id, name, chunks + [last]) + [CloseRequest(id, name)]
    ensures r.fx.closed == {conn} && r.fx.writes == [] && r.fx.started == []
    ensures r.Next? ==> r.session == Unregister(s, name, id)
  {
    var fx := Effects(DataFrames(id, name, chunks + [last]) + [CloseRequest(id, name)], {conn}, [], []);
    if name !in s.listeners then Crash(fx) else Next(Unregister(s, name, id), fx)
  }

  /**
   * A pump with no other event between its start and its end is the whole
   * pump `ReadClientMessage` on a fixed registry.
   */
  lemma PumpUninterrupted(s: Session, id: string, name: string, chunks: seq<seq<Byte>>, last: seq<Byte>)
    ensures Registered(s, name, id) ==>
      var a := StartPump(s, id, name);
      a.Next? && a.fx == NoEffects &&
      EndPump(a.session, id, name, s.listeners[name].clients[id], chunks, last) == ReadClientMessage(s, id, name, chunks, last)
    ensures !Registered(s, name, id) ==> StartPump(s, id, name) == ReadClientMessage(s, id, name, chunks, last)
  {
  }

  /** What can happen to a provisioned session. */
  datatype Event =
    | Accepted(name: string, id: string, conn: Handle, ip: string)      // a public connection arrives
    | Received(m: Message, writeOk: bool)                               // `OpenSvr` takes a message from the client
    | PumpStarted(id: string, name: string)                             // a stream pump looks its stream up
    | PumpEnded(id: string, name: string, conn: Handle, chunks: seq<seq<Byte>>, last: seq<Byte>)
                                                                        // a pump holding `conn` runs to its end

  /**
   * One event. Accept loops exist only for bound listeners, so a connection
   * for a name without a listener does not arrive and changes nothing.
   */
  function Apply(s: Session, e: Event): (r: Step)
    ensures r.Next? ==> r.session.listeners.Keys == s.listeners.Keys
    ensures r.Next? ==> SameListeners(s, r.session)
    ensures r.Next? ==> r.session == s.(listeners := r.session.listeners)
    ensures r.Next? ==> forall n, id :: Registered(r.session, n, id) && !Registered(s, n, id) ==>
      e.Accepted? && (n, id) == (e.name, e.id) && ConnectRequest(id, n, e.ip) in r.fx.sent
  {
    match e
    case Accepted(name, id, conn, ip) => if name in s.listeners then Accept(s, name, id, conn, ip) else Next(s, NoEffects)
    case Received(m, writeOk) => OpenSvr(s, m, writeOk)
    case PumpStarted(id, name) => StartPump(s, id, name)
    case PumpEnded(id, name, conn, chunks, last) => EndPump(s, id, name, conn, chunks, last)
  }

  /**
   * A run of events, in order, stopping at a crash. After provisioning no run
   * adds or removes a listener or changes anything but the stream maps.
   */
  function Run(s: Session, events: seq<Event>): (r: Step)
    ensures r.Next? ==> r.session.listeners.Keys == s.listeners.Keys
    ensures r.Next? ==> SameListeners(s, r.session)
    ensures r.Next? ==> r.session == s.(listeners := r.session.listeners)
    decreases |events|
  {
    if |events| == 0 then Next(s, NoEffects)
    else
      match Apply(s, events[0])
      case Crash(fx) => Crash(fx)
      case Next(s1, fx) =>
        match Run(s1, events[1..])
        case Next(s2, fx2) => Next(s2, Then(fx, fx2))
        case Crash(fx2) => Crash(Then(fx, fx2))
  }

  /** A run whose first event and the rest both go on: the effects of the first, then those of the rest. */
  lemma RunCons(s: Session, e: Event, rest: seq<Event>)
    requires Apply(s, e).Next? && Run(Apply(s, e).session, rest).Next?
    ensures var r1 := Apply(s, e); var r2 := Run(r1.session, rest);
      Run(s, [e] + rest) == Next(r2.session, Then(r1.fx, r2.fx))
  {
    assert ([e] + rest)[0] == e;
    assert ([e] + rest)[1..] == rest;
  }

  /** The events of a stream the client closes while the server's pump is still reading it. */
  function ClosedByClient(name: string, id: string, conn: Handle, ip: string, chunk: seq<Byte>): (es: seq<Event>)
    ensures |es| == 5 && es[0] == Accepted(name, id, conn, ip) && es[4].PumpEnded?
  {
    [Accepted(name, id, conn, ip)] + ([Received(ConnectResponse(id, name, true), true)] + ([PumpStarted(id, name)] +
     ([Received(CloseRequest(id, name), true)] + [PumpEnded(id, name, conn, [chunk], [])])))
  }

  /** The last two events of `ClosedByClient`: the client's close, then the end of the pump. */
  lemma CloseThenPumpEnds(s1: Session, name: string, id: string, conn: Handle, chunk: seq<Byte>)
    requires Registered(s1, name, id) && s1.listeners[name].clients[id] == conn
    ensures var r := Run(s1, [Received(CloseRequest(id, name), true)] + [PumpEnded(id, name, conn, [chunk], [])]);
      r.Next? && !Registered(r.session, name, id) && r.fx.closed == {conn} &&
      r.fx.sent == [Data(id, name, chunk), Data(id, name, []), CloseRequest(id, name)]
  {
    var s4 := Unregister(s1, name, id);
    var e4 := PumpEnded(id, name, conn, [chunk], []);
    var r4 := EndPump(s4, id, name, conn, [chunk], []);
    assert Run(s4, [e4]) == r4 by {
      assert [e4][1..] == [];
    }
    assert DataFrames(id, name, [chunk] + [[]]) == [Data(id, name, chunk), Data(id, name, [])];
    RunCons(s1, Received(CloseRequest(id, name), true), [e4]);
  }

  /**
   * A client closing a stream before the server's pump ends is an ordinary
   * run: the close drops the stream and closes its socket, the pump's next
   * read then fails, and the pump still forwards what it read, then the
   * empty failing read, then its `CloseRequest`.
   */
  lemma ClientCloseDuringPump(s: Session, name: string, id: string, conn: Handle, ip: string, chunk: seq<Byte>)
    requires name in s.listeners
    ensures var r := Run(s, ClosedByClient(name, id, conn, ip, chunk));
      r.Next? && !Registered(r.session, name, id) && conn in r.fx.closed &&
      r.fx.sent == [ConnectRequest(id, name, ip), Data(id, name, chunk), Data(id, name, []), CloseRequest(id, name)]
  {
    var a := Accept(s, name, id, conn, ip);
    var s1 := a.session;
    var t3 := [Received(CloseRequest(id, name), true)] + [PumpEnded(id, name, conn, [chunk], [])];
    CloseThenPumpEnds(s1, name, id, conn, chunk);
    var r3 := Run(s1, t3);
    var t2 := [PumpStarted(id, name)] + t3;
    RunCons(s1, PumpStarted(id, name), t3);
    var r2 := Run(s1, t2);
    assert r2.Next? && r2.session == r3.session && r2.fx.sent == r3.fx.sent && r2.fx.closed == r3.fx.closed;
    var t1 := [Received(ConnectResponse(id, name, true), true)] + t2;
    RunCons(s1, Received(ConnectResponse(id, name, true), true), t2);
    var r1 := Run(s1, t1);
    assert r1.Next? && r1.session == r3.session && r1.fx.sent == r3.fx.sent && r1.fx.closed == r3.fx.closed;
    RunCons(s, Accepted(name, id, conn, ip), t1);
    assert ClosedByClient(name, id, conn, ip, chunk) == [Accepted(name, id, conn, ip)] + t1;
    var r := Run(s, [Accepted(name, id, conn, ip)] + t1);
    assert r.session == r3.session && r.fx.closed == r3.fx.closed;
    assert r.fx.sent == [ConnectRequest(id, name, ip)] + r3.fx.sent;
    PrependOne(ConnectRequest(id, name, ip), Data(id, name, chunk), Data(id, name, []), CloseRequest(id, name));
    assert !Registered(r.session, name, id) && conn in r.fx.closed;
    assert Run(s, ClosedByClient(name, id, conn, ip, chunk)) == r;
  }

  lemma PrependOne(a: Message, b: Message, c: Message, d: Message)
    ensures [a] + [b, c, d] == [a, b, c, d]
  {
  }

  /** The (service, stream id) pairs announced to the client by `ConnectRequest` in a message log. */
  function Announcements(log: seq<Message>): set<(string, string)> {
    set i | 0 <= i < |log| && log[i].ConnectRequest? :: (log[i].name, log[i].id)
  }

  /** Every registered stream has been announced to the client. */
  predicate Announced(s: Session, log: seq<Message>) {
    forall n, id | n in s.listeners && id in s.listeners[n].clients :: (n, id) in Announcements(log)
  }

  lemma AnnouncementsGrow(log: seq<Message>, more: seq<Message>)
    ensures Announcements(log) <= Announcements(log + more)
    ensures forall i :: 0 <= i < |more| && more[i].ConnectRequest? ==>
      (more[i].name, more[i].id) in Announcements(log + more)
  {
    forall p | p in Announcements(log) ensures p in Announcements(log + more) {
      var i :| 0 <= i < |log| && log[i].ConnectRequest? && p == (log[i].name, log[i].id);
      assert (log + more)[i] == log[i];
    }
    forall i | 0 <= i < |more| && more[i].ConnectRequest?
      ensures (more[i].name, more[i].id) in Announcements(log + more)
    {
      assert (log + more)[|log| + i] == more[i];
    }
  }

  /** One event keeps every registered stream announced. */
  lemma ApplyKeepsAnnounced(s: Session, e: Event, log: seq<Message>)
    requires Announced(s, log)
    requires Apply(s, e).Next?
    ensures Announced(Apply(s, e).session, log + Apply(s, e).fx.sent)
  {
    var r := Apply(s, e);
    AnnouncementsGrow(log, r.fx.sent);
    if e.Accepted? && e.name in s.listeners {
      assert r.fx.sent[0] == ConnectRequest(e.id, e.name, e.ip);
    }
  }

  /**
   * A server never holds a public stream the client was not told about: if
   * every registered stream was announced before a run of events, every
   * stream registered after it was announced in the log so far.
   */
  lemma {:induction false} RunKeepsAnnounced(s: Session, events: seq<Event>, log: seq<Message>)
    requires Announced(s, log)
    ensures var r := Run(s, events); r.Next? ==> Announced(r.session, log + r.fx.sent)
    decreases |events|
  {
    if |events| == 0 {
      assert log + [] == log;
    } else if Apply(s, events[0]).Next? {
      var r1 := Apply(s, events[0]);
      ApplyKeepsAnnounced(s, events[0], log);
      RunKeepsAnnounced(r1.session, events[1..], log + r1.fx.sent);
      var r2 := Run(r1.session, events[1..]);
      assert log + r1.fx.sent + r2.fx.sent == log + (r1.fx.sent + r2.fx.sent);
    }
  }
}
