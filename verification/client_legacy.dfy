/**
 * The older root client (client.go over the `data` package). Its handshake
 * steps, `createPortSvr`, the `CloseRequest` and ticker branches of
 * `TransportMessage`, `Close` and `Clear` are the same as the `client`
 * package's and are modelled once, in module `Client`. What differs: the
 * reader, writer and dispatch loops start only after a successful login;
 * a data frame closes its stream only when the write fails; and the local
 * pump sends its `CloseRequest` twice.
 */
module LegacyClient {
  import opened Optional
  import opened Wire
  import opened Messages
  import opened Lifecycle
  import opened Client

  /**
   * `RunClient` of the older client: as in the package, except that any
   * failure of the login returns before the loops start.
   */
  function RunClient(js: JsonCodec, c: BeanClient, restart: bool, dialed: Option<Handle>, config: seq<ServiceItem>,
                     reqId: string, writeOk: bool, reply: seq<Byte>): (r: Startup)
    ensures dialed.None? ==> r == Startup(c, [], if restart then RestartSign else CloseSign, false)
    ensures dialed.Some? ==> (r.pumpsStarted <==> r.signal == NoSignal)
    ensures r.signal != NoSignal || r.pumpsStarted
    ensures var p := Client.RunClient(js, c, restart, dialed, config, reqId, writeOk, reply);
      r.client == p.client && r.sent == p.sent && r.signal == p.signal
  {
    var p := Client.RunClient(js, c, restart, dialed, config, reqId, writeOk, reply);
    Startup(p.client, p.sent, p.signal, dialed.Some? && p.signal == NoSignal)
  }

  /**
   * `ReadSvrMessage` of the older client: an unknown stream gets one
   * `CloseRequest` and nothing else. A registered stream gets the payload;
   * only when that write fails is a `CloseRequest` sent and the stream closed
   * and forgotten.
   */
  function ReadSvrMessage(c: BeanClient, id: string, name: string, content: seq<Byte>, writeOk: bool): (r: Step)
    ensures r.signal == NoSignal
    ensures id !in c.proxies ==> r == Step(c, Sent([CloseRequest(id, name)]), NoSignal)
    ensures id in c.proxies && writeOk ==>
      r == Step(c, Effects([], {}, [Write(c.proxies[id], content)], []), NoSignal)
    ensures id in c.proxies && !writeOk ==>
      r.client == c.(proxies := c.proxies - {id}) && r.fx.sent == [CloseRequest(id, name)] &&
      r.fx.closed == {c.proxies[id]} && r.fx.writes == [Write(c.proxies[id], content)]
  {
    if id !in c.proxies then Step(c, Sent([CloseRequest(id, name)]), NoSignal)
    else
      var h := c.proxies[id];
      if writeOk then Step(c, Effects([], {}, [Write(h, content)], []), NoSignal)
      else Step(c.(proxies := c.proxies - {id}), Effects([CloseRequest(id, name)], {h}, [Write(h, content)], []), NoSignal)
  }

  /** `TransportMessage` of the older client: as in the package, except for data frames. */
  function Transport(c: BeanClient, w: Wake, dialed: Option<Handle>, writeOk: bool): (r: Step)
    ensures r.signal == NoSignal
    ensures r.client == c.(proxies := r.client.proxies)
    ensures w.Inbound? && w.m.Data? ==> r == ReadSvrMessage(c, w.m.id, w.m.name, w.m.content, writeOk)
    ensures !(w.Inbound? && w.m.Data?) ==> r == Client.Transport(c, w, dialed)
  {
    match w
    case Inbound(Data(id, name, content)) => ReadSvrMessage(c, id, name, content, writeOk)
    case _ => Client.Transport(c, w, dialed)
  }

  /**
   * The older local pump, from start to end: every read that worked goes out
   * as a data frame; at the failing read, whose bytes are dropped, a
   * `CloseRequest` is sent, the stream is forgotten and closed, and the same
   * `CloseRequest` is sent a second time.
   */
  function ReadLocalSvrMessage(c: BeanClient, id: string, name: string, conn: Handle, chunks: seq<seq<Byte>>): (r: Step)
    ensures r.signal == NoSignal
    ensures r.client == c.(proxies := c.proxies - {id})
    ensures r.fx.sent == DataFrames(id, name, chunks) + [CloseRequest(id, name), CloseRequest(id, name)]
    ensures r.fx.closed == {conn}
  {
    Step(c.(proxies := c.proxies - {id}),
         Effects(DataFrames(id, name, chunks) + [CloseRequest(id, name), CloseRequest(id, name)], {conn}, [], []),
         NoSignal)
  }

  /**
   * What can happen to a logged-in older client: a wake-up with the outcome
   * of the dial a `ConnectRequest` makes and of the write a data frame makes,
   * or the end of a local pump.
   */
  datatype Event =
    | Woke(w: Wake, dialed: Option<Handle>, writeOk: bool)
    | LocalEnded(id: string, name: string, conn: Handle, chunks: seq<seq<Byte>>)

  /** One event on the older client; it raises no signal and changes only the stream map. */
  function Apply(c: BeanClient, e: Event): (r: Step)
    ensures r.signal == NoSignal
    ensures r.client == c.(proxies := r.client.proxies)
  {
    match e
    case Woke(w, dialed, writeOk) => Transport(c, w, dialed, writeOk)
    case LocalEnded(id, name, conn, chunks) => ReadLocalSvrMessage(c, id, name, conn, chunks)
  }

  /**
   * A run of events on the older client. No step raises a signal, so the run
   * never ends early, and it changes only the stream map.
   */
  function Run(c: BeanClient, events: seq<Event>): (r: Step)
    ensures r.signal == NoSignal
    ensures r.client == c.(proxies := r.client.proxies)
    decreases |events|
  {
    if |events| == 0 then Step(c, NoEffects, NoSignal)
    else
      var r1 := Apply(c, events[0]);
      var r2 := Run(r1.client, events[1..]);
      Step(r2.client, Then(r1.fx, r2.fx), r2.signal)
  }

  /** The older client also never holds a local stream the server was not told it accepted. */
  lemma {:induction false} RunKeepsAcked(c: BeanClient, events: seq<Event>, log: seq<Message>)
    requires Acked(c, log)
    ensures Acked(Run(c, events).client, log + Run(c, events).fx.sent)
    decreases |events|
  {
    if |events| == 0 {
      assert log + [] == log;
    } else {
      var r1 := Apply(c, events[0]);
      if events[0].Woke? && !(events[0].w.Inbound? && events[0].w.m.Data?) {
        TransportKeepsAcked(c, events[0].w, events[0].dialed, log);
      } else {
        AcknowledgedGrow(log, r1.fx.sent);
      }
      RunKeepsAcked(r1.client, events[1..], log + r1.fx.sent);
      var r2 := Run(r1.client, events[1..]);
      assert log + r1.fx.sent + r2.fx.sent == log + (r1.fx.sent + r2.fx.sent);
    }
  }

  /**
   * The two clients on a data frame for a registered stream whose write
   * works: the package client closes and forgets the stream and tells the
   * server to close it; the older client keeps it and sends nothing.
   */
  lemma DataPathsCompared(c: BeanClient, id: string, name: string, content: seq<Byte>)
    requires id in c.proxies
    ensures var p := Client.ReadSvrMessage(c, id, name, content);
      id !in p.client.proxies && p.fx.sent == [CloseRequest(id, name)]
    ensures var q := ReadSvrMessage(c, id, name, content, true);
      q.client == c && q.fx.sent == [] && q.fx.closed == {}
  {
  }
}
