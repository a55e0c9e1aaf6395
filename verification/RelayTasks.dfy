/**
 * The relay's code in its own form (src/wss_relay.rs): the two pump loops run against a scripted socket, and the
 * frame handlers updating an endpoint's stream map, tied to the step functions of `RelayModel`.
 */
module RelayTasks {
  import opened Bytes
  import opened Options
  import opened FrameCodec
  import opened RelayModel
  import opened RelayInvariant
  import opened RelayTheorems

  // The reader pump

  /** What one pass of the reader's `select!` gives: some bytes (none at end of file), or a reason to leave the loop. */
  datatype ReadResult = Chunk(bytes: seq<byte>) | ReadFailed | CancelSeen
  {
    predicate GoesOn() {
      Chunk? && bytes != []
    }
  }

  /** The bytes a reader gets before its first reason to stop. */
  function BytesBeforeStop(input: seq<ReadResult>): seq<byte> {
    if input == [] || !input[0].GoesOn() then [] else input[0].bytes + BytesBeforeStop(input[1..])
  }

  /** The link as the pump finds it when the WebSocket writer keeps up, and dies after `accepted` messages. */
  function Served(l: Link, accepted: nat): Link {
    l.(taken := |l.raw|, open := |l.raw| < accepted)
  }

  /** Where the model's reader pump gets by itself, over the actions given, from a fresh entry and an empty link. */
  function ReaderRun(z: Zstd, id: nat, actions: seq<PumpAction>, accepted: nat): Option<(Conn, Link)> {
    if actions == [] then Some((FreshConn([]), Served(Link([], [], 0, 0, true), accepted)))
    else
      match ReaderRun(z, id, actions[..|actions| - 1], accepted)
      case None => None
      case Some(r) =>
        match PumpConn(z, r.0, false, r.1, id, actions[|actions| - 1])
        case None => None
        case Some(next) => Some((next.0, Served(next.1, accepted)))
  }

  /** The pump waits on its socket, has passed on everything it read, and has sent `sent`. */
  predicate Waits(run: Option<(Conn, Link)>, sent: seq<seq<byte>>, got: seq<byte>, accepted: nat) {
    && run.Some?
    && run.value.0 == FreshConn([]).(got := got)
    && run.value.1.raw == sent && run.value.1 == Served(run.value.1, accepted)
  }

  /** The pump is through: entry dropped, `got` read, `sent` sent. */
  predicate Ends(run: Option<(Conn, Link)>, sent: seq<seq<byte>>, got: seq<byte>, lost: seq<byte>) {
    && run.Some?
    && run.value.0 == FreshConn([]).(got := got, hold := lost, reader := ReaderDone, present := false, cut := true)
    && run.value.1.raw == sent
  }

  lemma ReaderRunOn(z: Zstd, id: nat, actions: seq<PumpAction>, a: PumpAction, accepted: nat)
    requires ReaderRun(z, id, actions, accepted).Some?
    ensures var (c, l) := ReaderRun(z, id, actions, accepted).value;
      ReaderRun(z, id, actions + [a], accepted) ==
        match PumpConn(z, c, false, l, id, a)
        case None => None
        case Some(next) => Some((next.0, Served(next.1, accepted)))
  {
    assert (actions + [a])[..|actions|] == actions;
  }

  lemma ChunkGoes(z: Zstd, id: nat, actions: seq<PumpAction>, accepted: nat, sent: seq<seq<byte>>, got: seq<byte>,
      chunk: seq<byte>)
    requires Waits(ReaderRun(z, id, actions, accepted), sent, got, accepted) && |sent| < accepted
    requires 0 < |chunk| <= TCP_CHUNK_SIZE
    ensures Waits(
      ReaderRun(z, id, actions + [Read(chunk)] + [SendChunk], accepted),
      sent + [EncodeData(z, id, chunk)], got + chunk, accepted)
  {
    ReaderRunOn(z, id, actions, Read(chunk), accepted);
    ReaderRunOn(z, id, actions + [Read(chunk)], SendChunk, accepted);
    hide ReaderRun, EncodeData;
  }

  lemma ChunkIsLost(z: Zstd, id: nat, actions: seq<PumpAction>, accepted: nat, sent: seq<seq<byte>>, got: seq<byte>,
      chunk: seq<byte>)
    requires Waits(ReaderRun(z, id, actions, accepted), sent, got, accepted) && |sent| >= accepted
    requires 0 < |chunk| <= TCP_CHUNK_SIZE
    ensures Ends(
      ReaderRun(z, id, actions + [Read(chunk)] + [SendChunkFails] + [SendCloseFails] + [DropEntry], accepted),
      sent, got + chunk, chunk)
  {
    ReaderRunOn(z, id, actions, Read(chunk), accepted);
    ReaderRunOn(z, id, actions + [Read(chunk)], SendChunkFails, accepted);
    ReaderRunOn(z, id, actions + [Read(chunk)] + [SendChunkFails], SendCloseFails, accepted);
    ReaderRunOn(z, id, actions + [Read(chunk)] + [SendChunkFails] + [SendCloseFails], DropEntry, accepted);
    hide ReaderRun;
  }

  lemma ReadingEnds(z: Zstd, id: nat, actions: seq<PumpAction>, accepted: nat, sent: seq<seq<byte>>, got: seq<byte>)
    requires Waits(ReaderRun(z, id, actions, accepted), sent, got, accepted)
    ensures var closing := if |sent| < accepted then SendClose else SendCloseFails;
      Ends(ReaderRun(z, id, actions + [ReadStops] + [closing] + [DropEntry], accepted),
        if |sent| < accepted then sent + [EncodeFrame(CLOSE, id, [])] else sent, got, [])
  {
    var closing := if |sent| < accepted then SendClose else SendCloseFails;
    ReaderRunOn(z, id, actions, ReadStops, accepted);
    ReaderRunOn(z, id, actions + [ReadStops], closing, accepted);
    ReaderRunOn(z, id, actions + [ReadStops] + [closing], DropEntry, accepted);
    hide ReaderRun, EncodeFrame;
  }

  /** The messages are data frames of stream `id` carrying exactly `bytes`. */
  predicate Streaming(z: Zstd, sent: seq<seq<byte>>, id: nat, bytes: seq<byte>) {
    Flow(Kinds(Frames(z, sent), id), []) && Carried(z, sent, id) == bytes
  }

  /** The same with a CLOSE at the end. */
  predicate Finished(z: Zstd, sent: seq<seq<byte>>, id: nat, bytes: seq<byte>) {
    FlowClosed(Kinds(Frames(z, sent), id), []) && Carried(z, sent, id) == bytes
  }

  lemma SentOne(z: Zstd, sent: seq<seq<byte>>, raw: seq<byte>, f: Frame, bytes: seq<byte>)
    requires DecodeFrame(z, raw) == Some(f) && Streaming(z, sent, f.id, bytes)
    ensures f.kind == DATA ==> Streaming(z, sent + [raw], f.id, bytes + f.payload)
    ensures f.kind == CLOSE ==> Finished(z, sent + [raw], f.id, bytes)
  {
    OneMoreFrame(z, sent, raw, f);
    Appended(Frames(z, sent), f, f.id);
    var ks := Kinds(Frames(z, sent), f.id);
    FlowGrows(ks, []);
    assert f.kind == CLOSE ==> bytes + [] == bytes;
    hide Kinds, Payloads, Frames, Flow, FlowClosed;
  }

  lemma OneMoreFrame(z: Zstd, sent: seq<seq<byte>>, raw: seq<byte>, f: Frame)
    requires DecodeFrame(z, raw) == Some(f)
    ensures Frames(z, sent + [raw]) == Frames(z, sent) + [f]
  {
    assert (sent + [raw])[..|sent|] == sent;
  }

  lemma NextChunk(input: seq<ReadResult>, i: nat, passed: seq<byte>)
    requires i < |input| && input[i].GoesOn() && passed + BytesBeforeStop(input[i..]) == BytesBeforeStop(input)
    ensures passed + input[i].bytes + BytesBeforeStop(input[i + 1..]) == BytesBeforeStop(input)
    ensures passed + input[i].bytes <= BytesBeforeStop(input)
  {
    OneChunk(input[i..]);
    assert input[i..][1..] == input[i + 1..];
    Associates(passed, input[i].bytes, BytesBeforeStop(input[i + 1..]));
    hide *;
  }

  lemma OneChunk(input: seq<ReadResult>)
    requires input != [] && input[0].GoesOn()
    ensures BytesBeforeStop(input) == input[0].bytes + BytesBeforeStop(input[1..])
  {
  }

  lemma StopsHere(input: seq<ReadResult>, i: nat, passed: seq<byte>)
    requires i <= |input| && (i == |input| || !input[i].GoesOn())
    requires passed + BytesBeforeStop(input[i..]) == BytesBeforeStop(input)
    ensures passed == BytesBeforeStop(input)
  {
    assert passed + [] == passed;
  }

  /**
   * `pump_reader_to_ws`, with `accepted` the number of sends the WebSocket queue takes before its receiver is gone.
   * What is sent is DATA* CLOSE carrying exactly what was read; when a send fails, `lost` is the chunk in hand, if
   * any, and everything before it has been passed on. `actions` are the model's pump steps that the loop takes.
   */
  method PumpReaderToWs(z: Zstd, id: nat, input: seq<ReadResult>, accepted: nat)
    returns (sent: seq<seq<byte>>, closed: bool, passed: seq<byte>, lost: seq<byte>, ghost actions: seq<PumpAction>)
    requires z.Lossless() && 1 <= id < TWO64
    requires forall r :: r in input && r.Chunk? ==> |r.bytes| <= TCP_CHUNK_SIZE
    ensures |sent| <= accepted && (!closed ==> |sent| == accepted)
    ensures closed ==> lost == [] && passed == BytesBeforeStop(input) && Finished(z, sent, id, passed)
    ensures !closed ==> passed + lost <= BytesBeforeStop(input) && Streaming(z, sent, id, passed)
    ensures Ends(ReaderRun(z, id, actions, accepted), sent, passed + lost, lost)
  {
    sent, closed, passed, lost, actions := [], false, [], [], [];
    assert Streaming(z, [], id, []) && Waits(ReaderRun(z, id, [], accepted), [], [], accepted);
    assert input[0..] == input && [] + BytesBeforeStop(input) == BytesBeforeStop(input);
    hide Streaming, Finished, BytesBeforeStop, DecodeFrame, EncodeData, EncodeFrame, Waits, Ends, ReaderRun;
    var i := 0;
    while i < |input| && input[i].GoesOn()
      invariant i <= |input| && |sent| <= accepted
      invariant passed + BytesBeforeStop(input[i..]) == BytesBeforeStop(input)
      invariant Streaming(z, sent, id, passed)
      invariant Waits(ReaderRun(z, id, actions, accepted), sent, passed, accepted)
    {
      var chunk := input[i].bytes;
      assert input[i] in input;
      NextChunk(input, i, passed);
      if |sent| == accepted {
        lost := chunk;
        ChunkIsLost(z, id, actions, accepted, sent, passed, chunk);
        actions := actions + [Read(chunk)] + [SendChunkFails] + [SendCloseFails] + [DropEntry];
        return;
      }
      var frame := EncodeData(z, id, chunk);
      DecodeEncodeData(z, id, chunk);
      SentOne(z, sent, frame, Frame(DATA, id, chunk), passed);
      ChunkGoes(z, id, actions, accepted, sent, passed, chunk);
      actions := actions + [Read(chunk)] + [SendChunk];
      sent := sent + [frame];
      passed := passed + chunk;
      i := i + 1;
    }
    StopsHere(input, i, passed);
    ReadingEnds(z, id, actions, accepted, sent, passed);
    assert passed + [] == passed;
    actions := actions + [ReadStops] + [if |sent| < accepted then SendClose else SendCloseFails] + [DropEntry];
    if |sent| < accepted {
      var close := EncodeFrame(CLOSE, id, []);
      DecodeEncode(z, CLOSE, id, []);
      SentOne(z, sent, close, Frame(CLOSE, id, []), passed);
      sent := sent + [close];
      closed := true;
    }
  }

  // The writer pump

  /** What becomes of one buffer: written whole, or failed part of the way; or cancellation is seen before it. */
  datatype WriteResult = Whole | FailsAfter(count: nat) | CancelledFirst

  /** Where the model's writer pump gets by itself with these buffers queued and nobody left to queue more. */
  function WriterRun(z: Zstd, queue: seq<seq<byte>>, cancelled: bool, actions: seq<PumpAction>): Option<Conn> {
    if actions == [] then Some(FreshConn([]).(present := false, queue := queue))
    else
      match WriterRun(z, queue, cancelled, actions[..|actions| - 1])
      case None => None
      case Some(c) =>
        match PumpConn(z, c, cancelled, Link([], [], 0, 0, true), 1, actions[|actions| - 1])
        case None => None
        case Some(next) => Some(next.0)
  }

  /** The pump has written `written`, is writing `held`, and `rest` is queued. */
  predicate Serves(run: Option<Conn>, held: seq<byte>, rest: seq<seq<byte>>, written: seq<byte>) {
    run == Some(FreshConn([]).(present := false, held := held, queue := rest, written := written))
  }

  /** The pump is through: receiver dropped, `written` written. */
  predicate Finishes(run: Option<Conn>, written: seq<byte>) {
    run.Some? && run.value.writer == WriterDone && run.value.written == written
  }

  lemma WriterRunOn(z: Zstd, queue: seq<seq<byte>>, cancelled: bool, actions: seq<PumpAction>, a: PumpAction)
    requires WriterRun(z, queue, cancelled, actions).Some?
    ensures WriterRun(z, queue, cancelled, actions + [a]) ==
      match PumpConn(z, WriterRun(z, queue, cancelled, actions).value, cancelled, Link([], [], 0, 0, true), 1, a)
      case None => None
      case Some(next) => Some(next.0)
  {
    assert (actions + [a])[..|actions|] == actions;
  }

  lemma TakesNext(z: Zstd, queue: seq<seq<byte>>, cancelled: bool, actions: seq<PumpAction>, rest: seq<seq<byte>>,
      written: seq<byte>)
    requires Serves(WriterRun(z, queue, cancelled, actions), [], rest, written) && rest != []
    ensures Serves(WriterRun(z, queue, cancelled, actions + [Take]), rest[0], rest[1..], written)
  {
    WriterRunOn(z, queue, cancelled, actions, Take);
    TakeStep(z, WriterRun(z, queue, cancelled, actions).value, cancelled);
    hide WriterRun, PumpConn;
  }

  lemma TakeStep(z: Zstd, c: Conn, cancelled: bool)
    requires c.writer == Serving && c.held == [] && c.queue != []
    ensures PumpConn(z, c, cancelled, Link([], [], 0, 0, true), 1, Take) ==
      Some((c.(held := c.queue[0], queue := c.queue[1..]), Link([], [], 0, 0, true)))
  {
  }

  function WriteSteps(count: nat): seq<PumpAction> {
    if count == 0 then [] else [Write(count)]
  }

  /** The steps so far and those of one more buffer of `count` bytes. */
  function AfterWhole(actions: seq<PumpAction>, count: nat): seq<PumpAction> {
    actions + [Take] + WriteSteps(count)
  }

  /** The steps so far and those of a buffer that fails after `count` bytes. */
  function AfterFailure(actions: seq<PumpAction>, count: nat): seq<PumpAction> {
    actions + [Take] + WriteSteps(count) + [WriteFails] + [WriterDrops]
  }

  /** The steps so far and the pump's end. */
  function AfterEnd(actions: seq<PumpAction>): seq<PumpAction> {
    actions + [WriterStops] + [WriterDrops]
  }

  lemma WritesSome(z: Zstd, queue: seq<seq<byte>>, cancelled: bool, actions: seq<PumpAction>, held: seq<byte>,
      rest: seq<seq<byte>>, written: seq<byte>, count: nat)
    requires Serves(WriterRun(z, queue, cancelled, actions), held, rest, written) && count <= |held|
    ensures Serves(
      WriterRun(z, queue, cancelled, actions + WriteSteps(count)), held[count..], rest, written + held[..count])
  {
    if count > 0 {
      WriterRunOn(z, queue, cancelled, actions, Write(count));
    } else {
      assert actions + [] == actions && held[0..] == held && written + held[..0] == written;
    }
    hide WriterRun;
  }

  /** One buffer goes out whole. */
  lemma BufferGoes(z: Zstd, queue: seq<seq<byte>>, cancelled: bool, actions: seq<PumpAction>, rest: seq<seq<byte>>,
      written: seq<byte>)
    requires Serves(WriterRun(z, queue, cancelled, actions), [], rest, written) && rest != []
    ensures Serves(
      WriterRun(z, queue, cancelled, AfterWhole(actions, |rest[0]|)), [], rest[1..], written + rest[0])
  {
    TakesNext(z, queue, cancelled, actions, rest, written);
    WritesSome(z, queue, cancelled, actions + [Take], rest[0], rest[1..], written, |rest[0]|);
    assert rest[0][..|rest[0]|] == rest[0] && rest[0][|rest[0]|..] == [];
    hide *;
  }

  /** One buffer fails after `count` bytes. */
  lemma BufferFails(z: Zstd, queue: seq<seq<byte>>, cancelled: bool, actions: seq<PumpAction>, rest: seq<seq<byte>>,
      written: seq<byte>, count: nat)
    requires Serves(WriterRun(z, queue, cancelled, actions), [], rest, written) && rest != [] && count < |rest[0]|
    ensures Finishes(WriterRun(z, queue, cancelled, AfterFailure(actions, count)), written + rest[0][..count])
  {
    TakesNext(z, queue, cancelled, actions, rest, written);
    WritesSome(z, queue, cancelled, actions + [Take], rest[0], rest[1..], written, count);
    WriteBreaks(
      z, queue, cancelled, actions + [Take] + WriteSteps(count), rest[0][count..], rest[1..],
      written + rest[0][..count]);
    hide *;
  }

  lemma WriteBreaks(z: Zstd, queue: seq<seq<byte>>, cancelled: bool, actions: seq<PumpAction>, held: seq<byte>,
      rest: seq<seq<byte>>, written: seq<byte>)
    requires Serves(WriterRun(z, queue, cancelled, actions), held, rest, written) && held != []
    ensures Finishes(WriterRun(z, queue, cancelled, actions + [WriteFails] + [WriterDrops]), written)
  {
    WriterRunOn(z, queue, cancelled, actions, WriteFails);
    WriterRunOn(z, queue, cancelled, actions + [WriteFails], WriterDrops);
    hide WriterRun;
  }

  lemma WritingEnds(z: Zstd, queue: seq<seq<byte>>, cancelled: bool, actions: seq<PumpAction>, rest: seq<seq<byte>>,
      written: seq<byte>)
    requires Serves(WriterRun(z, queue, cancelled, actions), [], rest, written) && (cancelled || rest == [])
    ensures Finishes(WriterRun(z, queue, cancelled, AfterEnd(actions)), written)
  {
    WriterRunOn(z, queue, cancelled, actions, WriterStops);
    WriterRunOn(z, queue, cancelled, actions + [WriterStops], WriterDrops);
    hide WriterRun;
  }

  lemma {:induction false} ConcatPrefix(queue: seq<seq<byte>>, n: nat)
    requires n <= |queue|
    ensures Concat(queue[..n]) <= Concat(queue)
  {
    if n < |queue| {
      var front := queue[..|queue| - 1];
      ConcatPrefix(front, n);
      assert front[..n] == queue[..n];
    } else {
      assert queue[..n] == queue;
    }
  }

  function FirstBuffers(queue: seq<seq<byte>>, n: nat): seq<byte>
    requires n <= |queue|
  {
    Concat(queue[..n])
  }

  lemma AllBuffers(queue: seq<seq<byte>>)
    ensures FirstBuffers(queue, |queue|) == Concat(queue)
  {
    assert queue[..|queue|] == queue;
  }

  lemma WritingStarts(z: Zstd, queue: seq<seq<byte>>, cancelled: bool)
    ensures FirstBuffers(queue, 0) == [] <= Concat(queue) && queue[0..] == queue
    ensures Serves(WriterRun(z, queue, cancelled, []), [], queue, [])
  {
  }

  lemma NextBuffer(queue: seq<seq<byte>>, i: nat)
    requires i < |queue|
    ensures queue[i..][0] == queue[i] && queue[i..][1..] == queue[i + 1..]
    ensures FirstBuffers(queue, i + 1) == FirstBuffers(queue, i) + queue[i]
    ensures FirstBuffers(queue, i) <= FirstBuffers(queue, i + 1) <= Concat(queue)
  {
    assert queue[..i + 1][..i] == queue[..i];
    ConcatPrefix(queue, i + 1);
  }

  lemma PartOfBuffer(queue: seq<seq<byte>>, i: nat, count: nat)
    requires i < |queue| && count <= |queue[i]|
    ensures FirstBuffers(queue, i) + queue[i][..count] <= Concat(queue)
  {
    NextBuffer(queue, i);
    hide *;
    assert FirstBuffers(queue, i) + queue[i][..count] <= FirstBuffers(queue, i) + queue[i];
  }

  /**
   * `pump_channel_to_writer` on the buffers it receives: what reaches the socket is always a prefix of the queue's
   * bytes, and all of them when no write fails. `actions` are the model's pump steps that the loop takes.
   */
  method PumpChannelToWriter(z: Zstd, queue: seq<seq<byte>>, results: seq<WriteResult>)
    returns (written: seq<byte>, ghost actions: seq<PumpAction>)
    requires |results| == |queue|
    requires forall i :: 0 <= i < |queue| && results[i].FailsAfter? ==> results[i].count < |queue[i]|
    ensures written <= Concat(queue)
    ensures (forall r :: r in results ==> r.Whole?) ==> written == Concat(queue)
    ensures Finishes(WriterRun(z, queue, CancelledFirst in results, actions), written)
  {
    written, actions := [], [];
    ghost var cancelled := CancelledFirst in results;
    WritingStarts(z, queue, cancelled);
    hide *;
    var i := 0;
    while i < |queue|
      invariant i <= |queue| && written == FirstBuffers(queue, i)
      invariant Serves(WriterRun(z, queue, cancelled, actions), [], queue[i..], written)
    {
      NextBuffer(queue, i);
      match results[i] {
        case CancelledFirst =>
          assert results[i] in results;
          WritingEnds(z, queue, cancelled, actions, queue[i..], written);
          actions := AfterEnd(actions);
          return;
        case FailsAfter(count) =>
          assert results[i] in results;
          PartOfBuffer(queue, i, count);
          BufferFails(z, queue, cancelled, actions, queue[i..], written, count);
          actions := AfterFailure(actions, count);
          written := written + queue[i][..count];
          return;
        case Whole =>
          BufferGoes(z, queue, cancelled, actions, queue[i..], written);
          actions := AfterWhole(actions, |queue[i]|);
          written := written + queue[i];
      }
      i := i + 1;
    }
    WritingEnds(z, queue, cancelled, actions, queue[i..], written);
    AllBuffers(queue);
    actions := AfterEnd(actions);
  }

  // Frame handlers

  /** One endpoint's shared state: the stream map, what its handler task is at, and the client's `got_ready`. */
  class Endpoint {
    var conns: map<nat, Conn>
    var handler: Handler
    var cancelled: bool
    var gotReady: bool

    constructor ()
      ensures Value() == Side(map[], Idle, false) && !gotReady
    {
      conns, handler, cancelled, gotReady := map[], Idle, false, false;
    }

    function Value(): Side
      reads this
    {
      Side(conns, handler, cancelled)
    }

    /** `streams.lock().await.remove(&id)`; the stream's queue and its pumps live on. */
    method Remove(id: nat)
      modifies this`conns
      ensures Value() == Forget(old(Value()), id)
    {
      if id in conns {
        conns := conns[id := conns[id].(present := false)];
      }
    }

    /** The first part of `handle_host_frame`, up to its first wait on something other than the map. */
    method HandleHostFrame(frame: Frame)
      requires handler == Idle
      modifies this
      ensures Value() == HandleAtHost(old(Value()), frame) && gotReady == old(gotReady)
    {
      if frame.kind == HELLO {
        handler := Replying(READY, 0, []);
      } else if frame.kind == OPEN {
        if frame.id in conns && conns[frame.id].present {
          return;
        }
        var isUdp := |frame.payload| == 1 && frame.payload[0] == 1;
        handler := if isUdp then UdpBranch else Connecting(frame.id);
      } else if frame.kind == DATA {
        var gotStream := false;
        if frame.id in conns && conns[frame.id].present {
          gotStream := true;
        } else if frame.id == 0 {
          handler := UdpBranch;
        }
        if gotStream {
          handler := Delivering(frame.id, frame.payload);
        }
      } else if frame.kind == CLOSE || frame.kind == ERROR {
        Remove(frame.id);
      } else if frame.kind == PING {
        handler := Replying(PONG, frame.id, frame.payload);
      }
    }

    /** Lookup and push, waiting while the queue is full: `done` is false when the push cannot happen yet. */
    method Push(id: nat, payload: seq<byte>) returns (done: bool)
      modifies this`conns
      ensures done == Offer(old(Value()), id, payload).Some?
      ensures Value() == if done then Offer(old(Value()), id, payload).value else old(Value())
    {
      if id !in conns || !conns[id].present || conns[id].writer == WriterDone {
        return true;
      }
      if |conns[id].queue| >= TCP_WRITE_QUEUE {
        return false;
      }
      conns := conns[id := conns[id].(queue := conns[id].queue + [payload])];
      return true;
    }

    /** The client's `match frame.kind`, up to the sending of a pong. */
    method HandleClientFrame(frame: Frame) returns (done: bool)
      modifies this
      ensures done == HandleAtClient(old(Value()), frame).Some?
      ensures Value() == if done then HandleAtClient(old(Value()), frame).value else old(Value())
      ensures gotReady == (old(gotReady) || frame.kind == READY)
    {
      done := true;
      if frame.kind == READY {
        gotReady := true;
      } else if frame.kind == DATA {
        done := Push(frame.id, frame.payload);
      } else if frame.kind == CLOSE || frame.kind == ERROR {
        Remove(frame.id);
      } else if frame.kind == PING {
        handler := Replying(PONG, frame.id, frame.payload);
      }
    }
  }
}
