/**
 * The read pumps: the loop that reads frames from the control connection,
 * parses them and forwards the messages to the session's inbound queue.
 *
 * Two behaviours exist. `common.MessageReader` (and the older client's
 * `CReadMessage`) skip a frame that does not parse and go on; the older
 * server's `ReadMessage` ends the session at the first such frame. Both end
 * at the first frame that cannot be read, and a panic inside the parser
 * ends the process.
 */
module Reader {
  import opened Wire
  import opened Messages
  import opened Codec

  /** What happened to one frame: it was read (and parsed with some result), or reading failed. */
  datatype FrameOutcome = Decoded(result: ParseResult) | DecodeFailed(err: ReadError)

  /** How a pump ended: still waiting for input, closed the session, or took the process down with a panic. */
  datatype ReaderEnd = Running | Closed | Crashed

  /** The outcomes of reading a finite connection frame by frame: every frame that reads, then the failing read. */
  function Frames(js: JsonCodec, s: seq<Byte>): (outs: seq<FrameOutcome>)
    ensures |outs| >= 1 && outs[|outs| - 1].DecodeFailed?
    decreases |s|
  {
    match ReadMessageWait(s)
    case ReadFailed(e) => [DecodeFailed(e)]
    case Read(raw, rest) => [Decoded(ParseMessage(js, raw))] + Frames(js, rest)
  }

  /** The messages of the frames that parsed, in arrival order. */
  function ParsedMessages(outs: seq<FrameOutcome>): (ms: seq<Message>)
    ensures |ms| <= |outs|
  {
    if |outs| == 0 then []
    else
      (if outs[0].Decoded? && outs[0].result.Parsed? then [outs[0].result.msg] else [])
      + ParsedMessages(outs[1..])
  }

  lemma {:induction false} ParsedMessagesAppend(a: seq<FrameOutcome>, b: seq<FrameOutcome>)
    ensures ParsedMessages(a + b) == ParsedMessages(a) + ParsedMessages(b)
    decreases |a|
  {
    if |a| == 0 {
      assert a + b == b;
    } else {
      assert (a + b)[1..] == a[1..] + b;
      ParsedMessagesAppend(a[1..], b);
    }
  }

  /** A message is forwarded by the filter exactly when some frame parsed to it. */
  lemma {:induction false} ParsedMessagesMembership(outs: seq<FrameOutcome>, m: Message)
    ensures m in ParsedMessages(outs) <==> exists i :: 0 <= i < |outs| && outs[i] == Decoded(Parsed(m))
    decreases |outs|
  {
    if |outs| > 0 {
      ParsedMessagesMembership(outs[1..], m);
      if m in ParsedMessages(outs[1..]) {
        var i :| 0 <= i < |outs[1..]| && outs[1..][i] == Decoded(Parsed(m));
        assert outs[i + 1] == Decoded(Parsed(m));
      }
      if exists i :: 0 <= i < |outs| && outs[i] == Decoded(Parsed(m)) {
        var i :| 0 <= i < |outs| && outs[i] == Decoded(Parsed(m));
        if i > 0 {
          assert outs[1..][i - 1] == Decoded(Parsed(m));
        }
      }
    }
  }

  /** A frame that ends `MessageReader`: a failed read, or a parser panic. */
  predicate StopsReader(o: FrameOutcome) {
    o.DecodeFailed? || o.result.Panicked?
  }

  /** A frame that ends the older server's `ReadMessage`: anything that did not parse. */
  predicate StopsLegacyReader(o: FrameOutcome) {
    o.DecodeFailed? || !o.result.Parsed?
  }

  /** Whether a frame ends the pump: the older server's (`legacy`) or `MessageReader`. */
  predicate Stops(o: FrameOutcome, legacy: bool) {
    if legacy then StopsLegacyReader(o) else StopsReader(o)
  }

  /** The position of the first stopping frame, or the length when none stops. */
  function FirstStop(outs: seq<FrameOutcome>, legacy: bool): (k: nat)
    ensures k <= |outs|
    ensures forall j :: 0 <= j < k ==> !Stops(outs[j], legacy)
    ensures k < |outs| ==> Stops(outs[k], legacy)
    decreases |outs|
  {
    if |outs| == 0 then 0
    else if Stops(outs[0], legacy) then 0
    else 1 + FirstStop(outs[1..], legacy)
  }

  /** How a pump that stopped at position `k` ended. */
  function EndAt(outs: seq<FrameOutcome>, k: nat): ReaderEnd
    requires k <= |outs|
  {
    if k == |outs| then Running
    else if outs[k].DecodeFailed? then Closed
    else if outs[k].result.Panicked? then Crashed
    else Closed
  }

  /**
   * `MessageReader` (common/common.go, and `CReadMessage` in client.go): forwards
   * the frames that parse, skips those that do not, and stops at the first frame
   * that cannot be read.
   */
  method MessageReader(outs: seq<FrameOutcome>) returns (forwarded: seq<Message>, end: ReaderEnd)
    ensures forwarded == ParsedMessages(outs[..FirstStop(outs, false)])
    ensures end == EndAt(outs, FirstStop(outs, false))
  {
    forwarded := [];
    var i := 0;
    while i < |outs|
      invariant 0 <= i <= |outs|
      invariant forall j :: 0 <= j < i ==> !Stops(outs[j], false)
      invariant forwarded == ParsedMessages(outs[..i])
    {
      ParsedMessagesAppend(outs[..i], [outs[i]]);
      assert outs[..i + 1] == outs[..i] + [outs[i]];
      var o := outs[i];
      if o.DecodeFailed? {
        end := Closed;
        return;
      }
      if o.result.Panicked? {
        end := Crashed;
        return;
      }
      if o.result.Parsed? {
        forwarded := forwarded + [o.result.msg];
      }
      i := i + 1;
    }
    assert outs[..i] == outs;
    end := Running;
  }

  /**
   * `ReadMessage` of the older server (server.go): forwards parsed frames but
   * ends the session at the first frame that fails to read or to parse.
   */
  method LegacyReadMessage(outs: seq<FrameOutcome>) returns (forwarded: seq<Message>, end: ReaderEnd)
    ensures forwarded == ParsedMessages(outs[..FirstStop(outs, true)])
    ensures |forwarded| == FirstStop(outs, true)
    ensures forall j :: 0 <= j < |forwarded| ==> outs[j] == Decoded(Parsed(forwarded[j]))
    ensures end == EndAt(outs, FirstStop(outs, true))
  {
    forwarded := [];
    var i := 0;
    while i < |outs|
      invariant 0 <= i <= |outs|
      invariant forall j :: 0 <= j < i ==> !Stops(outs[j], true)
      invariant forwarded == ParsedMessages(outs[..i])
      invariant |forwarded| == i
      invariant forall j :: 0 <= j < i ==> outs[j] == Decoded(Parsed(forwarded[j]))
    {
      ParsedMessagesAppend(outs[..i], [outs[i]]);
      assert outs[..i + 1] == outs[..i] + [outs[i]];
      var o := outs[i];
      if o.DecodeFailed? {
        end := Closed;
        return;
      }
      if o.result.Panicked? {
        end := Crashed;
        return;
      }
      if o.result.Rejected? {
        end := Closed;
        return;
      }
      forwarded := forwarded + [o.result.msg];
      i := i + 1;
    }
    assert outs[..i] == outs;
    end := Running;
  }

  /** The messages `MessageReader` forwards, as a function of the frame outcomes. */
  function ReaderForwards(outs: seq<FrameOutcome>): seq<Message> {
    ParsedMessages(outs[..FirstStop(outs, false)])
  }

  /** The messages the older server's `ReadMessage` forwards. */
  function LegacyReaderForwards(outs: seq<FrameOutcome>): seq<Message> {
    ParsedMessages(outs[..FirstStop(outs, true)])
  }

  /** Where the pump stops on two concatenated runs of frames: inside the first, or after all of it. */
  lemma {:induction false} FirstStopAppend(a: seq<FrameOutcome>, b: seq<FrameOutcome>, legacy: bool)
    ensures FirstStop(a + b, legacy) ==
      if FirstStop(a, legacy) < |a| then FirstStop(a, legacy) else |a| + FirstStop(b, legacy)
    decreases |a|
  {
    if |a| == 0 {
      assert a + b == b;
    } else {
      assert (a + b)[0] == a[0];
      assert (a + b)[1..] == a[1..] + b;
      if !Stops(a[0], legacy) {
        FirstStopAppend(a[1..], b, legacy);
      }
    }
  }

  /** What `MessageReader` forwards from two concatenated runs of frames, when the first run has no stopping frame. */
  lemma ForwardsAppend(a: seq<FrameOutcome>, b: seq<FrameOutcome>)
    requires FirstStop(a, false) == |a|
    ensures ReaderForwards(a + b) == ParsedMessages(a) + ReaderForwards(b)
    ensures EndAt(a + b, FirstStop(a + b, false)) == EndAt(b, FirstStop(b, false))
  {
    FirstStopAppend(a, b, false);
    var k := FirstStop(b, false);
    assert (a + b)[..|a| + k] == a + b[..k];
    ParsedMessagesAppend(a, b[..k]);
  }

  /** What `MessageReader` forwards from two concatenated runs of frames, when it stops inside the first run. */
  lemma ForwardsStopEarly(a: seq<FrameOutcome>, b: seq<FrameOutcome>)
    requires FirstStop(a, false) < |a|
    ensures ReaderForwards(a + b) == ReaderForwards(a)
    ensures EndAt(a + b, FirstStop(a + b, false)) == EndAt(a, FirstStop(a, false))
  {
    FirstStopAppend(a, b, false);
    var k := FirstStop(a, false);
    assert (a + b)[..k] == a[..k];
  }

  /** A frame that fails to parse is invisible to `MessageReader`: removing it changes neither what is forwarded nor how the pump ends. */
  lemma RejectedFrameSkipped(a: seq<FrameOutcome>, e: ParseError, b: seq<FrameOutcome>)
    ensures ReaderForwards(a + [Decoded(Rejected(e))] + b) == ReaderForwards(a + b)
    ensures EndAt(a + [Decoded(Rejected(e))] + b, FirstStop(a + [Decoded(Rejected(e))] + b, false))
         == EndAt(a + b, FirstStop(a + b, false))
  {
    var x := Decoded(Rejected(e));
    assert a + [x] + b == a + ([x] + b);
    if FirstStop(a, false) < |a| {
      ForwardsStopEarly(a, [x] + b);
      ForwardsStopEarly(a, b);
    } else {
      ForwardsAppend(a, [x] + b);
      ForwardsAppend(a, b);
      RejectedFirstSkipped(e, b);
    }
  }

  /** A rejected frame at the front is skipped: the reader goes on with what follows. */
  lemma RejectedFirstSkipped(e: ParseError, b: seq<FrameOutcome>)
    ensures ReaderForwards([Decoded(Rejected(e))] + b) == ReaderForwards(b)
    ensures EndAt([Decoded(Rejected(e))] + b, FirstStop([Decoded(Rejected(e))] + b, false))
         == EndAt(b, FirstStop(b, false))
  {
    var x := Decoded(Rejected(e));
    assert FirstStop([x], false) == 1 by {
      assert [x][1..] == [];
    }
    assert ParsedMessages([x]) == [] by {
      assert [x][1..] == [];
    }
    ForwardsAppend([x], b);
  }

  /**
   * The two read pumps agree up to the first frame that fails to parse: the
   * older server forwards a prefix of what `MessageReader` forwards, and the
   * same sequence when every frame before the end parses.
   */
  lemma LegacyForwardsPrefix(outs: seq<FrameOutcome>)
    ensures LegacyReaderForwards(outs) <= ReaderForwards(outs)
    ensures (forall j :: 0 <= j < FirstStop(outs, false) ==> outs[j].result.Parsed?)
            ==> LegacyReaderForwards(outs) == ReaderForwards(outs)
  {
    var k := FirstStop(outs, false);
    var l := FirstStop(outs, true);
    assert k < |outs| ==> Stops(outs[k], true);
    assert outs[..k] == outs[..l] + outs[l..k];
    ParsedMessagesAppend(outs[..l], outs[l..k]);
  }

  /**
   * The byte stream the writer pump produces for a queue of messages, up to
   * the first message it cannot frame. That message is a bare data header:
   * the writer's type assertion fails on it, and the panic ends the process,
   * so nothing follows it on the wire. `WriterStreamCons` unfolds the stream
   * one frame at a time, and `PumpsPreserveOrder` shows that reading it back
   * gives one parsed message per queued message, in queue order.
   */
  function WriterStream(js: JsonCodec, queue: seq<Message>): (bytes: seq<Byte>)
    ensures (forall i :: 0 <= i < |queue| ==> !queue[i].DataHeader?) ==>
      |bytes| >= 5 * |queue|
  {
    if |queue| == 0 then []
    else
      match WriterFrame(js, queue[0])
      case None => []
      case Some(frame) => frame + WriterStream(js, queue[1..])
  }

  /** A message the writer can send and the reader can take back. */
  predicate Transmittable(js: JsonCodec, m: Message) {
    !m.DataHeader? && !m.Unrecognized? && FitsInFrame(js, m)
  }

  /** Reading a written frame followed by more bytes yields its message, then the outcomes of the rest. */
  lemma FramesCons(js: JsonCodec, m: Message, rest: seq<Byte>)
    requires Sound(js)
    requires Transmittable(js, m)
    ensures Frames(js, WriterFrame(js, m).value + rest) == [Decoded(Parsed(m))] + Frames(js, rest)
  {
    WireRoundTrip(js, m, rest);
  }

  /** The byte stream of a queue is the first message's frame followed by the stream of the others. */
  lemma WriterStreamCons(js: JsonCodec, queue: seq<Message>)
    requires |queue| > 0 && !queue[0].DataHeader?
    ensures WriterStream(js, queue) == WriterFrame(js, queue[0]).value + WriterStream(js, queue[1..])
  {
  }

  /** Reading what the writer sent for a queue: the head's message, then what was sent for the rest. */
  lemma PumpsStep(js: JsonCodec, queue: seq<Message>)
    requires Sound(js)
    requires |queue| > 0 && Transmittable(js, queue[0])
    ensures Frames(js, WriterStream(js, queue))
         == [Decoded(Parsed(queue[0]))] + Frames(js, WriterStream(js, queue[1..]))
  {
    WriterStreamCons(js, queue);
    FramesCons(js, queue[0], WriterStream(js, queue[1..]));
  }

  /**
   * Frames are delivered in send order: the frames the writer pump sends for
   * a queue are read back, one outcome per message, each parsing to that
   * message, followed by the end of the connection.
   */
  lemma {:induction false} PumpsPreserveOrder(js: JsonCodec, queue: seq<Message>)
    requires Sound(js)
    requires forall i :: 0 <= i < |queue| ==> Transmittable(js, queue[i])
    ensures Frames(js, WriterStream(js, queue)) == FramesOf(queue) + [DecodeFailed(NoTypeByte)]
    decreases |queue|
  {
    if |queue| == 0 {
      assert WriterStream(js, queue) == [];
      FramesOfEmpty(js);
    } else {
      var head := [Decoded(Parsed(queue[0]))];
      var tail := queue[1..];
      PumpsStep(js, queue);
      assert forall i :: 0 <= i < |tail| ==> Transmittable(js, tail[i]) by {
        forall i | 0 <= i < |tail| ensures Transmittable(js, tail[i]) {
          assert tail[i] == queue[i + 1];
        }
      }
      PumpsPreserveOrder(js, tail);
      FramesOfCons(queue);
      AppendAssoc(head, FramesOf(tail), [DecodeFailed(NoTypeByte)]);
    }
  }

  /** The reader forwards every message of a delivered queue and then closes at the end of the connection. */
  lemma {:induction false} DeliveredQueueForwarded(queue: seq<Message>, e: ReadError)
    ensures FirstStop(FramesOf(queue) + [DecodeFailed(e)], false) == |queue|
    ensures ReaderForwards(FramesOf(queue) + [DecodeFailed(e)]) == queue
    ensures EndAt(FramesOf(queue) + [DecodeFailed(e)], |queue|) == Closed
    decreases |queue|
  {
    var outs := FramesOf(queue) + [DecodeFailed(e)];
    if |queue| == 0 {
      assert outs == [DecodeFailed(e)];
      assert outs[..0] == [];
    } else {
      DeliveredQueueForwarded(queue[1..], e);
      var tail := FramesOf(queue[1..]) + [DecodeFailed(e)];
      assert outs == [Decoded(Parsed(queue[0]))] + tail;
      assert outs[1..] == tail;
      assert outs[..|queue|] == [Decoded(Parsed(queue[0]))] + tail[..|queue| - 1];
      ParsedMessagesAppend([Decoded(Parsed(queue[0]))], tail[..|queue| - 1]);
      assert queue == [queue[0]] + queue[1..];
    }
  }

  /** End to end: the reader on the other side forwards exactly the queue the writer sent, in order. */
  lemma SendOrderPreserved(js: JsonCodec, queue: seq<Message>)
    requires Sound(js)
    requires forall i :: 0 <= i < |queue| ==> Transmittable(js, queue[i])
    ensures ReaderForwards(Frames(js, WriterStream(js, queue))) == queue
    ensures EndAt(Frames(js, WriterStream(js, queue)), FirstStop(Frames(js, WriterStream(js, queue)), false)) == Closed
  {
    PumpsPreserveOrder(js, queue);
    DeliveredQueueForwarded(queue, NoTypeByte);
  }

  lemma AppendAssoc<T>(a: seq<T>, b: seq<T>, c: seq<T>)
    ensures a + (b + c) == (a + b) + c
  {
  }

  /** An exhausted connection yields one failed read: there is no type byte. */
  lemma FramesOfEmpty(js: JsonCodec)
    ensures Frames(js, []) == [DecodeFailed(NoTypeByte)]
  {
  }

  lemma FramesOfCons(queue: seq<Message>)
    requires |queue| > 0
    ensures FramesOf(queue) == [Decoded(Parsed(queue[0]))] + FramesOf(queue[1..])
  {
  }

  /** The outcomes of frames that all parsed to the given messages. */
  function FramesOf(queue: seq<Message>): (outs: seq<FrameOutcome>)
    ensures |outs| == |queue|
    ensures forall i :: 0 <= i < |queue| ==> outs[i] == Decoded(Parsed(queue[i]))
  {
    seq(|queue|, i requires 0 <= i < |queue| => Decoded(Parsed(queue[i])))
  }

  /** A frame with a tag outside 1..8 reads as one rejected frame, and reading goes on right after it. */
  lemma UnknownTagFrame(js: JsonCodec, tag: int, junk: Message, rest: seq<Byte>)
    requires |js.marshal(junk)| <= MaxFrameLength
    requires 0 <= tag < 256 && !(1 <= tag <= 8)
    ensures Frames(js, WriteMessage(js, tag, junk) + rest) == [Decoded(Rejected(NoType))] + Frames(js, rest)
  {
    ReadWriteMessage(js, tag, junk, rest);
  }

  /** The outcomes of a connection carrying exactly one transmittable message. */
  lemma SingleFrame(js: JsonCodec, m: Message)
    requires Sound(js)
    requires Transmittable(js, m)
    ensures Frames(js, WriterFrame(js, m).value) == [Decoded(Parsed(m)), DecodeFailed(NoTypeByte)]
  {
    FramesCons(js, m, []);
    assert WriterFrame(js, m).value + [] == WriterFrame(js, m).value;
  }

  /** A rejected frame, then a parsed one, then the end: one reader forwards the message, the other nothing. */
  lemma RejectedThenParsed(m: Message, e: ReadError)
    ensures ReaderForwards([Decoded(Rejected(NoType)), Decoded(Parsed(m)), DecodeFailed(e)]) == [m]
    ensures LegacyReaderForwards([Decoded(Rejected(NoType)), Decoded(Parsed(m)), DecodeFailed(e)]) == []
  {
    var outs := [Decoded(Rejected(NoType)), Decoded(Parsed(m)), DecodeFailed(e)];
    assert FirstStop(outs, true) == 0;
    assert outs[..0] == [];
    assert outs[1..] == [Decoded(Parsed(m)), DecodeFailed(e)];
    assert outs[1..][1..] == [DecodeFailed(e)];
    assert FirstStop(outs[1..][1..], false) == 0;
    assert FirstStop(outs[1..], false) == 1;
    assert FirstStop(outs, false) == 2;
    var p := outs[..2];
    assert p == [Decoded(Rejected(NoType)), Decoded(Parsed(m))];
    assert p[1..] == [Decoded(Parsed(m))];
    assert p[1..][1..] == [];
    assert ParsedMessages(p[1..][1..]) == [];
    assert ParsedMessages(p[1..]) == [m] + ParsedMessages(p[1..][1..]);
    assert ParsedMessages(p) == [] + ParsedMessages(p[1..]);
  }

  /**
   * A frame whose tag is outside 1..8 followed by a well-formed frame: the
   * package reader skips the first and forwards the second; the older server
   * ends the session on the first and forwards nothing.
   */
  lemma UnknownTagSkippedOrEnds(js: JsonCodec, tag: int, junk: Message, m: Message)
    requires Sound(js)
    requires 0 <= tag < 256 && !(1 <= tag <= 8)
    requires |js.marshal(junk)| <= MaxFrameLength
    requires Transmittable(js, m)
    ensures ReaderForwards(Frames(js, WriteMessage(js, tag, junk) + WriterFrame(js, m).value)) == [m]
    ensures LegacyReaderForwards(Frames(js, WriteMessage(js, tag, junk) + WriterFrame(js, m).value)) == []
  {
    UnknownTagThenMessage(js, tag, junk, m);
    RejectedThenParsed(m, NoTypeByte);
  }

  /** The outcomes of a connection carrying a frame with an unknown tag and then one transmittable message. */
  lemma UnknownTagThenMessage(js: JsonCodec, tag: int, junk: Message, m: Message)
    requires Sound(js)
    requires 0 <= tag < 256 && !(1 <= tag <= 8)
    requires |js.marshal(junk)| <= MaxFrameLength
    requires Transmittable(js, m)
    ensures Frames(js, WriteMessage(js, tag, junk) + WriterFrame(js, m).value)
         == [Decoded(Rejected(NoType)), Decoded(Parsed(m)), DecodeFailed(NoTypeByte)]
  {
    var f := WriterFrame(js, m).value;
    UnknownTagFrame(js, tag, junk, f);
    SingleFrame(js, m);
  }
}
