/** What a client's two loops compute, as values: the replies the read loop
    queues for a run of inbound frames, and what the write loop sends when it
    drains the outbox. The `Client` class in module Home is proved against
    these functions. */
module ClientModel {

  import opened Base
  import opened Envelope

  // ---------------------------------------------------------------------------
  // The read loop's reaction to inbound frames

  /** What one inbound frame adds to the client's own outbox: a decoded Ping
      (whether or not the decoder also reported an error) gets the encoded
      Pong; an encoding failure and every other type add nothing. */
  function Reply(frame: Bytes, decode: Bytes -> Decoded, encode: Msg -> Option<Bytes>): seq<Bytes>
  {
    if decode(frame).msg.msgType == Ping then
      match encode(PongMsg)
      case Some(b) => [b]
      case None => []
    else []
  }

  /** The replies for a run of frames, in frame order. */
  function Replies(frames: seq<Bytes>, decode: Bytes -> Decoded, encode: Msg -> Option<Bytes>): seq<Bytes>
    decreases |frames|
  {
    if frames == [] then []
    else Replies(frames[..|frames| - 1], decode, encode) + Reply(frames[|frames| - 1], decode, encode)
  }

  /** The number of frames that decode to a Ping. */
  function CountPings(frames: seq<Bytes>, decode: Bytes -> Decoded): nat
    decreases |frames|
  {
    if frames == [] then 0
    else CountPings(frames[..|frames| - 1], decode)
         + (if decode(frames[|frames| - 1]).msg.msgType == Ping then 1 else 0)
  }

  /** The replies to two runs of frames are the replies to each, in order. */
  lemma {:induction false} RepliesAppend(a: seq<Bytes>, b: seq<Bytes>, decode: Bytes -> Decoded, encode: Msg -> Option<Bytes>)
    ensures Replies(a + b, decode, encode) == Replies(a, decode, encode) + Replies(b, decode, encode)
    decreases |b|
  {
    if b == [] {
      assert a + b == a;
    } else {
      var b' := b[..|b| - 1];
      assert (a + b)[..|a + b| - 1] == a + b';
      RepliesAppend(a, b', decode, encode);
    }
  }

  /** A frame whose decoded type is not Ping (a Pong, a Test, an unnamed tag, or
      a frame that failed to decode into anything) adds nothing, and the frames
      after it are still answered. */
  lemma NonPingFrameIgnored(a: seq<Bytes>, f: Bytes, b: seq<Bytes>, decode: Bytes -> Decoded, encode: Msg -> Option<Bytes>)
    requires decode(f).msg.msgType != Ping
    ensures Replies(a + [f] + b, decode, encode) == Replies(a, decode, encode) + Replies(b, decode, encode)
  {
    assert Replies([f], decode, encode) == [] by {
      assert [f][..0] == [];
      assert Reply(f, decode, encode) == [];
    }
    RepliesAppend(a, [f], decode, encode);
    RepliesAppend(a + [f], b, decode, encode);
  }

  /** One Ping frame gets exactly one reply, the encoded `Msg{MsgType: Pong}`. */
  lemma PingGetsOnePong(f: Bytes, decode: Bytes -> Decoded, encode: Msg -> Option<Bytes>)
    requires decode(f).msg.msgType == Ping
    requires encode(PongMsg).Some?
    ensures Replies([f], decode, encode) == [encode(PongMsg).value]
  {
    assert [f][..0] == [];
  }

  /** When the Pong encodes, there is one reply per Ping frame and every reply
      is that encoded Pong. */
  lemma {:induction false} RepliesArePongs(frames: seq<Bytes>, decode: Bytes -> Decoded, encode: Msg -> Option<Bytes>)
    requires encode(PongMsg).Some?
    ensures |Replies(frames, decode, encode)| == CountPings(frames, decode)
    ensures forall i | 0 <= i < |Replies(frames, decode, encode)| ::
      Replies(frames, decode, encode)[i] == encode(PongMsg).value
    decreases |frames|
  {
    if frames != [] {
      RepliesArePongs(frames[..|frames| - 1], decode, encode);
    }
  }

  /** With an encoder and decoder that round-trip, every reply reads back at the
      peer as a Pong without error. */
  lemma RepliesDecodeAsPong(frames: seq<Bytes>, decode: Bytes -> Decoded, encode: Msg -> Option<Bytes>)
    requires CodecRoundTrips(encode, decode)
    ensures forall i | 0 <= i < |Replies(frames, decode, encode)| ::
      decode(Replies(frames, decode, encode)[i]) == Decoded(PongMsg, false)
  {
    if encode(PongMsg).Some? {
      RepliesArePongs(frames, decode, encode);
    } else {
      RepliesEmptyWithoutPong(frames, decode, encode);
    }
  }

  /** If the Pong does not encode, nothing is ever queued. */
  lemma {:induction false} RepliesEmptyWithoutPong(frames: seq<Bytes>, decode: Bytes -> Decoded, encode: Msg -> Option<Bytes>)
    requires encode(PongMsg).None?
    ensures Replies(frames, decode, encode) == []
    decreases |frames|
  {
    if frames != [] {
      RepliesEmptyWithoutPong(frames[..|frames| - 1], decode, encode);
    }
  }

  // ---------------------------------------------------------------------------
  // The write loop

  /** gorilla/websocket's frame kinds; the write loop sends binary frames. */
  datatype FrameKind = TextMessage | BinaryMessage

  datatype Frame = Frame(kind: FrameKind, payload: Bytes)

  function BinaryFrames(items: seq<Bytes>): (frames: seq<Frame>)
    ensures |frames| == |items|
    ensures forall i | 0 <= i < |items| :: frames[i] == Frame(BinaryMessage, items[i])
  {
    if items == [] then [] else [Frame(BinaryMessage, items[0])] + BinaryFrames(items[1..])
  }

  /** Writing one more item adds one more binary frame at the end. */
  lemma BinaryFramesAppend(items: seq<Bytes>, item: Bytes)
    ensures BinaryFrames(items + [item]) == BinaryFrames(items) + [Frame(BinaryMessage, item)]
  {
    var l := BinaryFrames(items + [item]);
    var r := BinaryFrames(items) + [Frame(BinaryMessage, item)];
    assert |l| == |r|;
    forall i | 0 <= i < |l| ensures l[i] == r[i] {
      assert (items + [item])[i] == if i < |items| then items[i] else item;
    }
  }

  /** Why the write loop stopped: a write error, the outbox channel was closed
      and empty, or (in this sequential model) the outbox is empty and still open,
      where the goroutine would block for the next item. */
  datatype WriteExit = WriteFailed | OutboxClosed | Waiting

  /** What draining does: the items written, the items left queued, and how it
      stopped. */
  datatype Drained = Drained(written: seq<Bytes>, rest: seq<Bytes>, exit: WriteExit)

  /** Draining `queue` when the connection rejects the write with index
      `failAt` (counting from 0 within this drain; `None` when every write
      succeeds): the items before the failing one are written in FIFO order, the
      failing item is taken off the queue and lost, and the rest stays queued; a
      drain without failure writes everything and then sees the channel closed
      or waits. */
  function Drain(queue: seq<Bytes>, closed: bool, failAt: Option<nat>): (d: Drained)
  {
    if failAt.Some? && failAt.value < |queue| then
      Drained(queue[..failAt.value], queue[failAt.value + 1..], WriteFailed)
    else
      Drained(queue, [], if closed then OutboxClosed else Waiting)
  }

  /** The write the connection rejects first: an open connection rejects the
      one at `failAt`, a closed one rejects every write, so the first. */
  function WriteFailure(open: bool, failAt: Option<nat>): Option<nat>
  {
    if open then failAt else Some(0)
  }

  /** Draining onto a closed connection writes nothing: a non-empty queue
      loses its oldest item to the failed write and keeps the rest. */
  lemma ClosedConnectionWritesNothing(queue: seq<Bytes>, closed: bool, failAt: Option<nat>)
    ensures var d := Drain(queue, closed, WriteFailure(false, failAt));
      d.written == []
      && (queue != [] ==> d.exit == WriteFailed && d.rest == queue[1..])
      && (queue == [] ==> d.exit == (if closed then OutboxClosed else Waiting))
  {
  }

  /** The drain, one item at a time, as the loop runs it. */
  function DrainStepwise(queue: seq<Bytes>, closed: bool, failAt: Option<nat>): Drained
    decreases |queue|
  {
    if queue == [] then Drained([], [], if closed then OutboxClosed else Waiting)
    else if failAt == Some(0) then Drained([], queue[1..], WriteFailed)
    else
      var d := DrainStepwise(queue[1..], closed, if failAt.Some? then Some(failAt.value - 1) else None);
      d.(written := [queue[0]] + d.written)
  }

  /** The loop's item-by-item drain ends exactly as `Drain` says. */
  lemma {:induction false} DrainStepwiseIsDrain(queue: seq<Bytes>, closed: bool, failAt: Option<nat>)
    ensures DrainStepwise(queue, closed, failAt) == Drain(queue, closed, failAt)
    decreases |queue|
  {
    if queue != [] && failAt != Some(0) {
      var next := if failAt.Some? then Some(failAt.value - 1) else None;
      DrainStepwiseIsDrain(queue[1..], closed, next);
      if failAt.Some? && failAt.value < |queue| {
        assert queue[..failAt.value] == [queue[0]] + queue[1..][..failAt.value - 1];
        assert queue[failAt.value + 1..] == queue[1..][failAt.value - 1 + 1..];
      } else {
        assert queue == [queue[0]] + queue[1..];
      }
    }
  }

  /** Each queued item is accounted for exactly once: written (in order), the
      one lost to the failed write, or still queued. The loop stops at the
      first write error and not before. */
  lemma DrainAccounts(queue: seq<Bytes>, closed: bool, failAt: Option<nat>)
    ensures var d := Drain(queue, closed, failAt);
      (d.exit == WriteFailed ==>
         |d.written| < |queue| && d.written + [queue[|d.written|]] + d.rest == queue)
      && (d.exit != WriteFailed ==> d.written == queue && d.rest == [])
      && (d.exit == WriteFailed <==> failAt.Some? && failAt.value < |queue|)
      && (d.exit == OutboxClosed ==> closed)
  {
    var d := Drain(queue, closed, failAt);
    if d.exit == WriteFailed {
      assert d.written + [queue[|d.written|]] + d.rest == queue;
    }
  }
}
