/**
 * The older root server (server.go over the `data` package). Its handshake,
 * `ProcessSvrRequest`, accept loop, `OpenSvr` and `Close` are the same code as
 * the `server` package's and are modelled once, in module `Server`. What
 * differs is the read side: `ReadMessage` ends the session at the first frame
 * that does not parse (module `Reader`, `LegacyReadMessage`), and the stream
 * pump `ReadClientMessage` below.
 */
module LegacyServer {
  import opened Wire
  import opened Messages
  import opened Lifecycle
  import opened Server

  /**
   * The older stream pump, from start to end. The stream is looked up before
   * anything else, so an unknown service or stream id dereferences nil and
   * ends the process. Otherwise each read that worked goes to the client as a
   * data frame; at the failing read, whose bytes are dropped, one
   * `CloseRequest` is sent and the stream is dropped and closed.
   */
  function ReadClientMessage(s: Session, id: string, name: string, chunks: seq<seq<Byte>>): (r: Step)
    ensures r.Crash? <==> !Registered(s, name, id)
    ensures r.Crash? ==> r.fx == NoEffects
    ensures r.Next? ==> r.session == Unregister(s, name, id)
    ensures r.Next? ==>
      r.fx.sent == DataFrames(id, name, chunks) + [CloseRequest(id, name)] &&
      r.fx.closed == {s.listeners[name].clients[id]}
  {
    if !Registered(s, name, id) then Crash(NoEffects)
    else
      var conn := s.listeners[name].clients[id];
      Next(Unregister(s, name, id), Effects(DataFrames(id, name, chunks) + [CloseRequest(id, name)], {conn}, [], []))
  }

  /**
   * The start of the older pump: the stream's socket is looked up before
   * anything else, so an unknown service or stream id dereferences nil outside
   * any recovery and ends the process. Otherwise the socket is kept to the end.
   */
  function StartPump(s: Session, id: string, name: string): (r: Step)
    ensures r.Crash? <==> !Registered(s, name, id)
    ensures r.Crash? ==> r.fx == NoEffects
    ensures r.Next? ==> r == Next(s, NoEffects)
  {
    if Registered(s, name, id) then Next(s, NoEffects) else Crash(NoEffects)
  }

  /**
   * The rest of an older pump holding `conn`: each read that worked goes to
   * the client as a data frame; at the failing read, whose bytes are dropped,
   * one `CloseRequest` is sent, the stream id is deleted from the service's
   * map, whatever it holds by now, and the socket is closed. The service is
   * always still bound, since no step removes a listener. Were it gone, the
   * delete would dereference nil while the session lock is held; the deferred
   * recovery would close the socket and then block for ever on that same lock
   * in `Close`, so the session would make no further progress. That case is a
   * `Crash` here.
   */
  function EndPump(s: Session, id: string, name: string, conn: Handle, chunks: seq<seq<Byte>>): (r: Step)
    ensures r.Crash? <==> name !in s.listeners
    ensures r.fx.sent == DataFrames(id, name, chunks) + [CloseRequest(id, name)]
    ensures r.fx.closed == {conn} && r.fx.writes == [] && r.fx.started == []
    ensures r.Next? ==> r.session == Unregister(s, name, id)
  {
    var fx := Effects(DataFrames(id, name, chunks) + [CloseRequest(id, name)], {conn}, [], []);
    if name in s.listeners then Next(Unregister(s, name, id), fx) else Crash(fx)
  }

  /** A pump with no other event between its start and its end is the whole older pump on a fixed registry. */
  lemma PumpUninterrupted(s: Session, id: string, name: string, chunks: seq<seq<Byte>>)
    ensures Registered(s, name, id) ==>
      var a := StartPump(s, id, name);
      a.Next? && a.fx == NoEffects &&
      EndPump(a.session, id, name, s.listeners[name].clients[id], chunks) == ReadClientMessage(s, id, name, chunks)
    ensures !Registered(s, name, id) ==> StartPump(s, id, name) == ReadClientMessage(s, id, name, chunks)
  {
  }

  /** One event on the older server: as in `Server.Apply`, except for the stream pump. */
  function Apply(s: Session, e: Event): (r: Step)
    ensures r.Next? ==> r.session.listeners.Keys == s.listeners.Keys
    ensures r.Next? ==> SameListeners(s, r.session)
    ensures r.Next? ==> r.session.id == s.id && r.session.conn == s.conn
    ensures e.PumpStarted? || e.PumpEnded? ==>
      forall n, id :: r.Next? && Registered(r.session, n, id) ==> Registered(s, n, id)
    ensures !(e.PumpStarted? || e.PumpEnded?) ==> r == Server.Apply(s, e)
  {
    match e
    case PumpStarted(id, name) => StartPump(s, id, name)
    case PumpEnded(id, name, conn, chunks, _) => EndPump(s, id, name, conn, chunks)
    case _ => Server.Apply(s, e)
  }

  /** A run of events on the older server, stopping at a crash; no run adds or removes a listener. */
  function Run(s: Session, events: seq<Event>): (r: Step)
    ensures r.Next? ==> r.session.listeners.Keys == s.listeners.Keys
    ensures r.Next? ==> SameListeners(s, r.session)
    ensures r.Next? ==> r.session.id == s.id && r.session.conn == s.conn
    decreases |events|
  {
    if |events| == 0 then Next(s, NoEffects)
    else
      match Apply(s, events[0])
      case Crash(fx) => Crash(fx)
      case Next(s1, fx) =>
        match Run(s1, events[1..])
        case Next(s2, fx2) => Next(s2, Then(fx, fx2))
        case Crash(fx2) => Crash(Then(fx, fx2))
  }

  /** One event on the older server keeps every registered stream announced. */
  lemma StepKeepsAnnounced(s: Session, e: Event, log: seq<Message>)
    requires Announced(s, log)
    requires Apply(s, e).Next?
    ensures Announced(Apply(s, e).session, log + Apply(s, e).fx.sent)
  {
    if e.PumpStarted? || e.PumpEnded? {
      AnnouncementsGrow(log, Apply(s, e).fx.sent);
    } else {
      ApplyKeepsAnnounced(s, e, log);
    }
  }

  /** The older server also never holds a public stream the client was not told about. */
  lemma {:induction false} RunKeepsAnnounced(s: Session, events: seq<Event>, log: seq<Message>)
    requires Announced(s, log)
    ensures var r := Run(s, events); r.Next? ==> Announced(r.session, log + r.fx.sent)
    decreases |events|
  {
    if |events| == 0 {
      assert log + [] == log;
    } else if Apply(s, events[0]).Next? {
      var r1 := Apply(s, events[0]);
      StepKeepsAnnounced(s, events[0], log);
      RunKeepsAnnounced(r1.session, events[1..], log + r1.fx.sent);
      var r2 := Run(r1.session, events[1..]);
      assert log + r1.fx.sent + r2.fx.sent == log + (r1.fx.sent + r2.fx.sent);
    }
  }

  lemma PrependOne(a: Message, b: Message, c: Message)
    ensures [a] + [b, c] == [a, b, c]
  {
  }

  /** A run on the older server whose first event and the rest both go on. */
  lemma RunCons(s: Session, e: Event, rest: seq<Event>)
    requires Apply(s, e).Next? && Run(Apply(s, e).session, rest).Next?
    ensures var r1 := Apply(s, e); var r2 := Run(r1.session, rest);
      Run(s, [e] + rest) == Next(r2.session, Then(r1.fx, r2.fx))
  {
    assert ([e] + rest)[0] == e;
    assert ([e] + rest)[1..] == rest;
  }

  /** The last two events of `ClosedByClient` on the older server. */
  lemma CloseThenPumpEnds(s1: Session, name: string, id: string, conn: Handle, chunk: seq<Byte>)
    requires Registered(s1, name, id) && s1.listeners[name].clients[id] == conn
    ensures var r := Run(s1, [Received(CloseRequest(id, name), true)] + [PumpEnded(id, name, conn, [chunk], [])]);
      r.Next? && !Registered(r.session, name, id) && r.fx.closed == {conn} &&
      r.fx.sent == [Data(id, name, chunk), CloseRequest(id, name)]
  {
    var s4 := Unregister(s1, name, id);
    var e4 := PumpEnded(id, name, conn, [chunk], []);
    var r4 := EndPump(s4, id, name, conn, [chunk]);
    assert Run(s4, [e4]) == r4 by {
      assert [e4][1..] == [];
    }
    RunCons(s1, Received(CloseRequest(id, name), true), [e4]);
  }

  /**
   * On the older server too, a client closing a stream before the pump ends
   * is an ordinary run: the pump's socket was taken at its start, its next
   * read fails, and it forwards what it read and then its `CloseRequest`; the
   * process does not crash.
   */
  lemma ClientCloseDuringPump(s: Session, name: string, id: string, conn: Handle, ip: string, chunk: seq<Byte>)
    requires name in s.listeners
    ensures var r := Run(s, ClosedByClient(name, id, conn, ip, chunk));
      r.Next? && !Registered(r.session, name, id) && conn in r.fx.closed &&
      r.fx.sent == [ConnectRequest(id, name, ip), Data(id, name, chunk), CloseRequest(id, name)]
  {
    var a := Accept(s, name, id, conn, ip);
    var s1 := a.session;
    var t3 := [Received(CloseRequest(id, name), true)] + [PumpEnded(id, name, conn, [chunk], [])];
    CloseThenPumpEnds(s1, name, id, conn, chunk);
    var r3 := Run(s1, t3);
    var t2 := [PumpStarted(id, name)] + t3;
    RunCons(s1, PumpStarted(id, name), t3);
    var r2 := Run(s1, t2);
    assert r2.Next? && r2.session == r3.session && r2.fx.sent == r3.fx.sent && r2.fx.closed == r3.fx.closed;
    var t1 := [Received(ConnectResponse(id, name, true), true)] + t2;
    RunCons(s1, Received(ConnectResponse(id, name, true), true), t2);
    var r1 := Run(s1, t1);
    assert r1.Next? && r1.session == r3.session && r1.fx.sent == r3.fx.sent && r1.fx.closed == r3.fx.closed;
    RunCons(s, Accepted(name, id, conn, ip), t1);
    assert ClosedByClient(name, id, conn, ip, chunk) == [Accepted(name, id, conn, ip)] + t1;
    var r := Run(s, [Accepted(name, id, conn, ip)] + t1);
    assert r.session == r3.session && r.fx.closed == r3.fx.closed;
    assert r.fx.sent == [ConnectRequest(id, name, ip)] + r3.fx.sent;
    PrependOne(ConnectRequest(id, name, ip), Data(id, name, chunk), CloseRequest(id, name));
    assert !Registered(r.session, name, id) && conn in r.fx.closed;
    assert Run(s, ClosedByClient(name, id, conn, ip, chunk)) == r;
  }

  /**
   * The two pumps on the same registered stream: the package version sends
   * one data frame more, carrying what the failing read returned, and
   * otherwise the same frames, the same `CloseRequest` and the same registry.
   * On an unknown stream of a bound service, the package version answers with
   * a `CloseRequest` where the older one crashes.
   */
  lemma PumpsCompared(s: Session, id: string, name: string, chunks: seq<seq<Byte>>, last: seq<Byte>)
    ensures Registered(s, name, id) ==>
      var p := Server.ReadClientMessage(s, id, name, chunks, last);
      var q := ReadClientMessage(s, id, name, chunks);
      p.Next? && q.Next? && p.session == q.session &&
      p.fx.sent == DataFrames(id, name, chunks) + [Data(id, name, last), CloseRequest(id, name)] &&
      q.fx.sent == DataFrames(id, name, chunks) + [CloseRequest(id, name)]
    ensures name in s.listeners && !Registered(s, name, id) ==>
      Server.ReadClientMessage(s, id, name, chunks, last).Next? && ReadClientMessage(s, id, name, chunks).Crash?
  {
    if Registered(s, name, id) {
      var p := Server.ReadClientMessage(s, id, name, chunks, last);
      assert DataFrames(id, name, chunks + [last]) == DataFrames(id, name, chunks) + [Data(id, name, last)];
      assert p.fx.sent == p.fx.sent[..|p.fx.sent| - 1] + [p.fx.sent[|p.fx.sent| - 1]];
    }
  }
}
