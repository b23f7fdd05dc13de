/**
 * The shutdown state every endpoint shares: the inbound and outbound message
 * queues, the `Closed` flag that guards them, and the sockets an endpoint
 * holds, which the model names by abstract handles.
 *
 * `ConnWrapper.Close`, `BeanServer.Close` and both clients' `Close` close the
 * two queues only when `Closed` is still false and then set it, so a second
 * call never closes a queue twice (which Go would punish with a panic).
 * The clients' `Clear` makes fresh queues and lowers the flag again.
 */
module Lifecycle {
  import opened Optional
  import opened Wire
  import opened Messages

  /** An open socket (control connection, public listener, accepted or dialled stream). */
  type Handle = nat

  /** Bytes written to a socket. */
  datatype Write = Write(target: Handle, bytes: seq<Byte>)

  /**
   * What one step did besides changing state: the messages it put on the
   * outbound queue, in order; the sockets it closed; the bytes it wrote to
   * sockets; and the requests for which it started a stream pump goroutine.
   */
  datatype Effects = Effects(sent: seq<Message>, closed: set<Handle>, writes: seq<Write>, started: seq<Message>)

  const NoEffects := Effects([], {}, [], [])

  function Sent(ms: seq<Message>): Effects {
    Effects(ms, {}, [], [])
  }

  /** The effects of two steps, one after the other. */
  function Then(a: Effects, b: Effects): Effects {
    Effects(a.sent + b.sent, a.closed + b.closed, a.writes + b.writes, a.started + b.started)
  }

  /** The data frames that carry a run of reads from one stream, one frame per read. */
  function DataFrames(id: string, name: string, chunks: seq<seq<Byte>>): (ms: seq<Message>)
    ensures |ms| == |chunks|
    ensures forall i :: 0 <= i < |chunks| ==> ms[i] == Data(id, name, chunks[i])
  {
    seq(|chunks|, i requires 0 <= i < |chunks| => Data(id, name, chunks[i]))
  }

  /** A Go channel as far as shutdown is concerned: its buffer size and whether `close` was called on it. */
  datatype Chan = Chan(capacity: nat, isClosed: bool)

  /** The queues of one endpoint and its `Closed` flag. */
  datatype Life = Life(readCh: Chan, sendCh: Chan, closed: bool)

  /** Queue capacity of a server session and of a client after `Clear`. */
  const SessionQueueCapacity: nat := 100

  /** Queue capacity of a freshly constructed client. */
  const ClientQueueCapacity: nat := 10

  /** The flag tells the truth: it is set exactly when both queues have been closed. */
  predicate Coherent(l: Life) {
    l.readCh.isClosed == l.closed && l.sendCh.isClosed == l.closed
  }

  /** `make(chan Message, capacity)` for both queues, with `Closed` false. */
  function Open(capacity: nat): (l: Life)
    ensures Coherent(l) && !l.closed
    ensures l.readCh.capacity == capacity && l.sendCh.capacity == capacity
  {
    Life(Chan(capacity, false), Chan(capacity, false), false)
  }

  /** Go's `close(ch)`: closing a channel that is already closed panics. */
  function CloseChan(c: Chan): (r: Option<Chan>)
    ensures r.None? <==> c.isClosed
    ensures r.Some? ==> r.value.isClosed && r.value.capacity == c.capacity
  {
    if c.isClosed then None else Some(Chan(c.capacity, true))
  }

  /** What one call of `Close` did to the queues. */
  datatype CloseResult =
    | ClosedQueues(life: Life)   // the flag was down: both queues closed, flag raised
    | AlreadyClosed(life: Life)  // the flag was up: nothing to do
    | ClosePanicked              // a queue was closed twice

  /** The guarded part of `Close`: close both queues unless the flag says they already are. */
  function Close(l: Life): (r: CloseResult)
    ensures l.closed ==> r == AlreadyClosed(l)
    ensures !l.closed && !l.readCh.isClosed && !l.sendCh.isClosed ==>
      r.ClosedQueues? && r.life.closed && r.life.readCh.isClosed && r.life.sendCh.isClosed
    ensures r.ClosedQueues? ==>
      r.life.readCh.capacity == l.readCh.capacity && r.life.sendCh.capacity == l.sendCh.capacity
  {
    if l.closed then AlreadyClosed(l)
    else
      match (CloseChan(l.readCh), CloseChan(l.sendCh))
      case (Some(rc), Some(sc)) => ClosedQueues(Life(rc, sc, true))
      case _ => ClosePanicked
  }

  /** The endpoint state after `Close`, whatever it did. */
  function AfterClose(l: Life): Life {
    match Close(l)
    case ClosedQueues(l') => l'
    case AlreadyClosed(l') => l'
    case ClosePanicked => l
  }

  /** `Clear`: new queues of capacity 100 and the flag lowered. */
  function Clear(l: Life): (r: Life)
    ensures Coherent(r) && !r.closed
    ensures r.readCh.capacity == SessionQueueCapacity && r.sendCh.capacity == SessionQueueCapacity
  {
    Open(SessionQueueCapacity)
  }

  /** On a coherent endpoint `Close` never panics, and it leaves the endpoint coherent and closed. */
  lemma CloseIsSafe(l: Life)
    requires Coherent(l)
    ensures !Close(l).ClosePanicked?
    ensures Coherent(AfterClose(l)) && AfterClose(l).closed
  {
  }

  /**
   * `Close` is idempotent: only the first call closes the queues, and a second
   * call finds the flag up and changes nothing.
   */
  lemma CloseIdempotent(l: Life)
    requires Coherent(l)
    ensures Close(l).ClosedQueues? <==> !l.closed
    ensures Close(AfterClose(l)) == AlreadyClosed(AfterClose(l))
    ensures AfterClose(AfterClose(l)) == AfterClose(l)
  {
  }

  /** After `Clear` the next `Close` closes the new queues again. */
  lemma ClearReopens(l: Life)
    ensures Close(Clear(l)).ClosedQueues?
    ensures Coherent(AfterClose(Clear(l)))
  {
  }
}
