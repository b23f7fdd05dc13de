/**
 * The two ends together: what one side sends, the other side accepts and
 * acts on. These lemmas connect the client's and the server's transitions
 * through the messages they exchange.
 */
module Tunnel {
  import opened Optional
  import opened Wire
  import opened Messages
  import opened Codec
  import opened Lifecycle
  import Server
  import Client
  import LegacyClient

  /**
   * The server admits the client's login: the frame `LoginToServer` writes
   * passes the handshake gate, and the new session takes the client's request
   * id and the configured services in order.
   */
  lemma LoginAdmitted(js: JsonCodec, conn: Handle, c: Client.BeanClient, config: seq<Client.ServiceItem>,
                      reqId: string, writeOk: bool, reply: seq<Byte>, rest: seq<Byte>)
    requires Sound(js)
    requires |js.marshal(ServiceRequest(reqId, Client.Bodies(config)))| <= MaxFrameLength
    ensures var login := Client.LoginToServer(js, c, config, reqId, writeOk, reply);
      Server.Handshake(js, conn, login.frame + rest)
        == Server.Admitted(Server.NewSession(conn).(id := reqId, services := Client.Bodies(config)), rest)
  {
    var request := ServiceRequest(reqId, Client.Bodies(config));
    ReadWriteMessage(js, 1, request, rest);
    UnmarshalMarshal(js, request);
  }

  /**
   * The client accepts the server's provisioning reply, whatever it reports:
   * a `ServiceResponse` carrying the session id, written by the server's
   * writer, ends the login without a signal, and the client's id becomes the
   * session id, which is its own request id.
   */
  lemma ReplyAccepted(js: JsonCodec, c: Client.BeanClient, config: seq<Client.ServiceItem>, reqId: string,
                      success: bool, text: string, more: seq<Byte>)
    requires Sound(js)
    requires |js.marshal(ServiceResponse(reqId, success, text))| <= MaxFrameLength
    ensures var reply := WriteMessage(js, 2, ServiceResponse(reqId, success, text)) + more;
      var login := Client.LoginToServer(js, c, config, reqId, true, reply);
      login.signal == Client.NoSignal && login.client.id == reqId
  {
    var resp := ServiceResponse(reqId, success, text);
    ReadWriteMessage(js, 2, resp, more);
    UnmarshalMarshal(js, resp);
  }

  /**
   * A public connection the client cannot serve is released: the server
   * announces the new stream, the client fails to dial the local service and
   * asks the server to close the stream, and the server then drops it and
   * closes the public socket.
   */
  lemma DialFailureReleasesStream(s: Server.Session, name: string, id: string, h: Handle, ip: string,
                                  c: Client.BeanClient)
    requires name in s.listeners
    ensures var a := Server.Accept(s, name, id, h, ip);
      var answer := Client.Transport(c, Client.Inbound(a.fx.sent[0]), None);
      answer.fx.sent == [CloseRequest(id, name)] && answer.client == c &&
      var back := Server.OpenSvr(a.session, answer.fx.sent[0], true);
      back.Next? && !Server.Registered(back.session, name, id) && back.fx.closed == {h} &&
      back.session.listeners.Keys == s.listeners.Keys
  {
  }

  /** The events of the older client receiving a run of messages; data writes all succeed. */
  function Deliver(ms: seq<Message>): (es: seq<LegacyClient.Event>)
    ensures |es| == |ms|
    ensures forall i :: 0 <= i < |ms| ==> es[i] == LegacyClient.Woke(Client.Inbound(ms[i]), None, true)
  {
    seq(|ms|, i requires 0 <= i < |ms| => LegacyClient.Woke(Client.Inbound(ms[i]), None, true))
  }

  /** The writes of a run of chunks to one socket, in order. */
  function Writes(h: Handle, chunks: seq<seq<Byte>>): (ws: seq<Write>)
    ensures |ws| == |chunks|
    ensures forall i :: 0 <= i < |chunks| ==> ws[i] == Write(h, chunks[i])
  {
    seq(|chunks|, i requires 0 <= i < |chunks| => Write(h, chunks[i]))
  }

  /**
   * The older client writes every data frame of a stream it holds to the
   * local socket, in order, and sends nothing back while the writes work.
   */
  lemma {:induction false} LegacyClientWritesInOrder(c: Client.BeanClient, id: string, name: string,
                                                     chunks: seq<seq<Byte>>)
    requires id in c.proxies
    ensures var r := LegacyClient.Run(c, Deliver(DataFrames(id, name, chunks)));
      r.client == c && r.fx.writes == Writes(c.proxies[id], chunks) && r.fx.sent == [] && r.fx.closed == {}
    decreases |chunks|
  {
    var es := Deliver(DataFrames(id, name, chunks));
    if |chunks| > 0 {
      var tail := chunks[1..];
      assert es[1..] == Deliver(DataFrames(id, name, tail)) by {
        assert forall i :: 0 <= i < |tail| ==> tail[i] == chunks[i + 1];
      }
      LegacyClientWritesInOrder(c, id, name, tail);
      assert Writes(c.proxies[id], chunks) == [Write(c.proxies[id], chunks[0])] + Writes(c.proxies[id], tail);
    }
  }

  /**
   * A public stream served end to end by the server's pump and the older
   * client: every read of the public socket, the failing one included,
   * reaches the local socket in order, and the pump's closing `CloseRequest`
   * makes the client drop and close its local stream.
   */
  lemma StreamRelayed(s: Server.Session, name: string, id: string, chunks: seq<seq<Byte>>, last: seq<Byte>,
                      c: Client.BeanClient)
    requires Server.Registered(s, name, id)
    requires id in c.proxies
    ensures var p := Server.ReadClientMessage(s, id, name, chunks, last);
      var r := LegacyClient.Run(c, Deliver(p.fx.sent));
      p.Next? && r.fx.writes == Writes(c.proxies[id], chunks + [last]) &&
      id !in r.client.proxies && r.fx.closed == {c.proxies[id]} && r.fx.sent == []
  {
    var p := Server.ReadClientMessage(s, id, name, chunks, last);
    var frames := p.fx.sent[..|p.fx.sent| - 1];
    assert p.fx.sent == frames + [CloseRequest(id, name)];
    assert frames == DataFrames(id, name, chunks + [last]);
    LegacyClientWritesInOrder(c, id, name, chunks + [last]);
    RunAppend(c, Deliver(frames), Deliver([CloseRequest(id, name)]));
    assert Deliver(p.fx.sent) == Deliver(frames) + Deliver([CloseRequest(id, name)]);
  }

  /** Running two batches of events is running the first, then the second from where the first left off. */
  lemma {:induction false} RunAppend(c: Client.BeanClient, a: seq<LegacyClient.Event>, b: seq<LegacyClient.Event>)
    ensures var ra := LegacyClient.Run(c, a);
      var rb := LegacyClient.Run(ra.client, b);
      LegacyClient.Run(c, a + b) == Client.Step(rb.client, Then(ra.fx, rb.fx), rb.signal)
    decreases |a|
  {
    if |a| == 0 {
      assert a + b == b;
      var rb := LegacyClient.Run(c, b);
      assert Then(NoEffects, rb.fx) == rb.fx;
    } else {
      assert (a + b)[0] == a[0];
      assert (a + b)[1..] == a[1..] + b;
      var r1 := LegacyClient.Apply(c, a[0]);
      RunAppend(r1.client, a[1..], b);
      var ra' := LegacyClient.Run(r1.client, a[1..]);
      var rb := LegacyClient.Run(ra'.client, b);
      ThenAssoc(r1.fx, ra'.fx, rb.fx);
    }
  }

  lemma ThenAssoc(a: Effects, b: Effects, c: Effects)
    ensures Then(Then(a, b), c) == Then(a, Then(b, c))
  {
    assert (a.sent + b.sent) + c.sent == a.sent + (b.sent + c.sent);
    assert (a.writes + b.writes) + c.writes == a.writes + (b.writes + c.writes);
    assert (a.started + b.started) + c.started == a.started + (b.started + c.started);
  }
}
