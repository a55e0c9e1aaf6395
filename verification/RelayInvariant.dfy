/** The multiplexer's inductive invariant and its preservation by every step. */
module RelayInvariant {
  import opened Bytes
  import opened Options
  import opened FrameCodec
  import opened RelayModel

  // What a log says about one stream

  function Kinds(log: seq<Frame>, id: nat): seq<byte> {
    if log == [] then []
    else
      var f := log[|log| - 1];
      Kinds(log[..|log| - 1], id) + if f.id == id then [f.kind] else []
  }

  /** `lead` followed by data frames only. */
  predicate Flow(ks: seq<byte>, lead: seq<byte>) {
    lead <= ks && forall i :: |lead| <= i < |ks| ==> ks[i] == DATA
  }

  /** `lead`, data frames, one CLOSE. */
  predicate FlowClosed(ks: seq<byte>, lead: seq<byte>) {
    |ks| > |lead| && ks[|ks| - 1] == CLOSE && Flow(ks[..|ks| - 1], lead)
  }

  lemma Appended(log: seq<Frame>, f: Frame, id: nat)
    ensures Kinds(log + [f], id) == Kinds(log, id) + if f.id == id then [f.kind] else []
    ensures Payloads(log + [f], id) == Payloads(log, id) + Piece(f, id)
  {
    assert (log + [f])[..|log|] == log;
  }

  lemma {:induction false} PrefixOfLog(log: seq<Frame>, n: nat, id: nat)
    requires n <= |log|
    ensures Kinds(log[..n], id) <= Kinds(log, id)
    ensures Payloads(log[..n], id) <= Payloads(log, id)
  {
    if n < |log| {
      var front := log[..|log| - 1];
      PrefixOfLog(front, n, id);
      assert front[..n] == log[..n];
    } else {
      assert log[..n] == log;
    }
  }

  lemma {:induction false} NoDataNoPayload(log: seq<Frame>, id: nat)
    requires DATA !in Kinds(log, id)
    ensures Payloads(log, id) == []
  {
    if log != [] {
      NoDataNoPayload(log[..|log| - 1], id);
    }
  }

  lemma ConcatPush(queue: seq<seq<byte>>, payload: seq<byte>)
    ensures Concat(queue + [payload]) == Concat(queue) + payload
  {
    assert (queue + [payload])[..|queue|] == queue;
  }

  // The invariant

  predicate IsControl(kind: byte) {
    kind == HELLO || kind == READY || kind == PING || kind == PONG
  }

  predicate FrameOk(f: Frame) {
    && f.id < TWO64
    && (f.id == 0 <==> IsControl(f.kind))
    && (f.id != 0 ==> f.kind == OPEN || f.kind == DATA || f.kind == CLOSE || f.kind == ERROR)
    && (f.kind == OPEN ==> f.payload == [])
  }

  predicate LinkOk(z: Zstd, l: Link) {
    && |l.raw| == |l.log|
    && l.consumed <= l.taken <= |l.log| <= l.taken + WS_WRITE_QUEUE
    && (forall i :: 0 <= i < |l.log| ==> FrameOk(l.log[i]) && DecodeFrame(z, l.raw[i]) == Some(l.log[i]))
  }

  /** The reader pump against the direction it sends on. */
  predicate ReaderOk(c: Conn, sentKinds: seq<byte>, sent: seq<byte>, lead: seq<byte>, open: bool) {
    && sent + c.hold == c.got
    && (c.hold != [] && c.reader != Sending ==> !open)
    && (FlowClosed(sentKinds, lead) ==> c.hold == [])
    && (c.reader == Reading ==> c.hold == [])
    && (if c.reader == Reading || c.reader == Sending || c.reader == Closing then Flow(sentKinds, lead)
        else FlowClosed(sentKinds, lead) || (Flow(sentKinds, lead) && !open))
  }

  /** The writer pump against what was consumed from the other direction, less what the handler still holds. */
  predicate WriterOk(c: Conn, seen: seq<byte>, pending: seq<byte>) {
    && c.base + c.Delivered() <= seen
    && (c.present ==> c.base + c.Delivered() + pending == seen && c.writer != WriterDone && c.reader != ReaderDone)
    && |c.queue| <= TCP_WRITE_QUEUE
  }

  /**
   * An entry taken away by the other side's word, with nothing dropped here: everything consumed for the stream is
   * written, being written or queued, and the frame that ended it has been consumed.
   */
  predicate EndOk(c: Conn, heard: seq<byte>, seen: seq<byte>) {
    && (!c.present && !c.cut ==> c.base + c.Delivered() == seen && (CLOSE in heard || ERROR in heard))
    && (c.writer == WriterDone ==> c.held == [] && c.queue == [])
  }

  function PendingFor(h: Handler, id: nat): seq<byte> {
    if h.Delivering? && h.id == id then h.payload else []
  }

  predicate Busy(h: Handler, id: nat) {
    (h.Connecting? || h.Refusing? || h.RefusingClose?) && h.id == id
  }

  /** Stream `id` seen from the host: `seen` is what it consumed of the client's log. */
  predicate HostOk(seen: seq<Frame>, down: Link, host: Side, id: nat) {
    var heard, sent := Kinds(seen, id), Kinds(down.log, id);
    && (id in host.conns ==>
          && OPEN in heard && !Busy(host.handler, id)
          && host.conns[id].base == []
          && (host.conns[id].present ==> CLOSE !in heard)
          && ReaderOk(host.conns[id], sent, Payloads(down.log, id), [], down.open)
          && WriterOk(host.conns[id], Payloads(seen, id), PendingFor(host.handler, id))
          && EndOk(host.conns[id], heard, Payloads(seen, id)))
    && (id !in host.conns ==>
          if Busy(host.handler, id) then
            && heard == [OPEN]
            && if host.handler.RefusingClose? then sent == [ERROR] || (sent == [] && !down.open) else sent == []
          else
            && (sent == [] || sent == [ERROR] || sent == [ERROR, CLOSE])
            && (heard == [] ==> sent == [])
            && (OPEN in heard && down.open ==> sent == [ERROR, CLOSE]))
  }

  /** Stream `id` seen from the client: `seen` is what it consumed of the host's log. */
  predicate ClientOk(seen: seq<Frame>, up: Link, conns: map<nat, Conn>, acceptor: Acceptor, next: nat, id: nat) {
    var sent := Kinds(up.log, id);
    && (id in conns ==>
          && id < next
          && ReaderOk(conns[id], sent, Payloads(up.log, id), [OPEN], up.open)
          && WriterOk(conns[id], Payloads(seen, id), [])
          && EndOk(conns[id], Kinds(seen, id), Payloads(seen, id)))
    && (id !in conns ==> sent == [] || sent == [OPEN])
    && (id >= next ==> sent == [])
    && (acceptor == Opening(id) ==> id !in conns && id < next && sent == [])
    && (acceptor == Registering(id) ==> id !in conns && id < next && sent == [OPEN])
  }

  predicate HandlersOk(s: State) {
    && (s.client.handler.Idle? || s.client.handler.Stopped?
        || (s.client.handler.Replying? && s.client.handler.kind == PONG && s.client.handler.id == 0))
    && !s.host.handler.UdpBranch?
    && (s.host.handler.Replying? ==> IsControl(s.host.handler.kind) && s.host.handler.id == 0)
    && (s.host.handler.Delivering? ==> 1 <= s.host.handler.id < TWO64)
    && (s.host.handler.Connecting? || s.host.handler.Refusing? || s.host.handler.RefusingClose? ==>
          1 <= s.host.handler.id < TWO64)
  }

  predicate IdsOk(s: State) {
    && 1 <= s.next
    && (forall id :: id in s.client.conns ==> 1 <= id < TWO64)
    && (forall id :: id in s.host.conns ==> 1 <= id < TWO64)
    && (s.acceptor.Opening? || s.acceptor.Registering? ==> 1 <= s.acceptor.id < TWO64)
  }

  /** READY and everything the client learns from it come after the host consumed the HELLO. */
  predicate ReadyOk(s: State) {
    && |s.up.log| >= 1 && s.up.log[0] == Frame(HELLO, 0, [])
    && (s.up.consumed == 0 ==>
          && !s.gotReady
          && !s.host.handler.Replying?
          && forall i :: 0 <= i < |s.down.log| ==> s.down.log[i].kind != READY)
  }

  function SeenUp(s: State): seq<Frame> {
    s.up.log[..Min(s.up.consumed, |s.up.log|)]
  }

  function SeenDown(s: State): seq<Frame> {
    s.down.log[..Min(s.down.consumed, |s.down.log|)]
  }

  predicate HostStreamOk(s: State, id: nat) {
    HostOk(SeenUp(s), s.down, s.host, id)
  }

  predicate ClientStreamOk(s: State, id: nat) {
    ClientOk(SeenDown(s), s.up, s.client.conns, s.acceptor, s.next, id)
  }

  ghost predicate Inv(z: Zstd, s: State) {
    && LinkOk(z, s.up) && LinkOk(z, s.down)
    && HandlersOk(s) && IdsOk(s) && ReadyOk(s)
    && (forall id: nat :: id >= 1 ==> HostStreamOk(s, id))
    && (forall id: nat :: id >= 1 ==> ClientStreamOk(s, id))
  }

  lemma InitHolds(z: Zstd)
    ensures Inv(z, Init())
  {
    DecodeEncode(z, HELLO, 0, []);
    var log := [Frame(HELLO, 0, [])];
    forall id: nat | id >= 1 ensures Kinds(log, id) == [] && Payloads(log, id) == [] {
      assert log == [] + log;
      Appended([], log[0], id);
    }
    assert SeenUp(Init()) == [] && SeenDown(Init()) == [];
    forall id: nat | id >= 1 ensures HostStreamOk(Init(), id) && ClientStreamOk(Init(), id) {
      assert Kinds(log, id) == [];
    }
  }

  // Links

  lemma PushKeepsLink(z: Zstd, l: Link, bytes: seq<byte>, f: Frame)
    requires LinkOk(z, l) && l.HasRoom() && FrameOk(f) && DecodeFrame(z, bytes) == Some(f)
    ensures LinkOk(z, l.Push(bytes, f))
  {
  }

  lemma SendKeepsLink(z: Zstd, l: Link, kind: byte, id: nat, payload: seq<byte>)
    requires LinkOk(z, l) && l.HasRoom() && FrameOk(Frame(kind, id, payload))
    ensures LinkOk(z, l.Send(kind, id, payload))
  {
    DecodeEncode(z, kind, id, payload);
  }

  /** `to` is `from`, or `from` with one frame about `id` more. */
  predicate Grew(from: Link, to: Link, id: nat) {
    && from.log <= to.log && |to.log| <= |from.log| + 1
    && (|to.log| > |from.log| ==> to.log[|from.log|].id == id && to.log[|from.log|].kind != READY)
    && to.consumed == from.consumed && to.open == from.open
  }

  lemma GrewElsewhere(from: Link, to: Link, id: nat, other: nat)
    requires Grew(from, to, id) && other != id
    ensures Kinds(to.log, other) == Kinds(from.log, other)
    ensures Payloads(to.log, other) == Payloads(from.log, other)
  {
    if |to.log| > |from.log| {
      assert to.log == from.log + [to.log[|from.log|]];
      Appended(from.log, to.log[|from.log|], other);
    } else {
      assert to.log == from.log;
    }
  }

  // Pumps

  lemma FlowGrows(ks: seq<byte>, lead: seq<byte>)
    requires Flow(ks, lead)
    ensures Flow(ks + [DATA], lead) && FlowClosed(ks + [CLOSE], lead)
  {
    assert (ks + [CLOSE])[..|ks|] == ks;
  }

  lemma SendsChunk(z: Zstd, c: Conn, out: Link, id: nat, lead: seq<byte>)
    requires z.Lossless() && LinkOk(z, out) && 1 <= id < TWO64 && out.HasRoom() && c.reader == Sending
    requires ReaderOk(c, Kinds(out.log, id), Payloads(out.log, id), lead, out.open)
    ensures var out' := out.Push(EncodeData(z, id, c.hold), Frame(DATA, id, c.hold));
      && LinkOk(z, out') && Grew(out, out', id)
      && ReaderOk(c.(hold := [], reader := Reading), Kinds(out'.log, id), Payloads(out'.log, id), lead, out'.open)
  {
    var f := Frame(DATA, id, c.hold);
    DecodeEncodeData(z, id, c.hold);
    PushKeepsLink(z, out, EncodeData(z, id, c.hold), f);
    Appended(out.log, f, id);
    FlowGrows(Kinds(out.log, id), lead);
  }

  lemma SendsClose(z: Zstd, c: Conn, out: Link, id: nat, lead: seq<byte>)
    requires LinkOk(z, out) && 1 <= id < TWO64 && out.HasRoom() && c.reader == Closing
    requires ReaderOk(c, Kinds(out.log, id), Payloads(out.log, id), lead, out.open)
    ensures var out' := out.Send(CLOSE, id, []);
      && LinkOk(z, out') && Grew(out, out', id)
      && ReaderOk(c.(reader := Removing), Kinds(out'.log, id), Payloads(out'.log, id), lead, out'.open)
  {
    SendKeepsLink(z, out, CLOSE, id, []);
    Appended(out.log, Frame(CLOSE, id, []), id);
    FlowGrows(Kinds(out.log, id), lead);
  }

  /** The reader pump reads a chunk: it is in hand, and nothing of the stream was. */
  lemma Reads(c: Conn, chunk: seq<byte>, sentKinds: seq<byte>, sent: seq<byte>, lead: seq<byte>, open: bool)
    requires ReaderOk(c, sentKinds, sent, lead, open) && c.reader == Reading
    ensures ReaderOk(c.(got := c.got + chunk, hold := chunk, reader := Sending), sentKinds, sent, lead, open)
  {
    assert sent + [] == sent;
    FlowIsNotClosed(sentKinds, lead);
    hide Flow, FlowClosed;
  }

  lemma FlowIsNotClosed(ks: seq<byte>, lead: seq<byte>)
    ensures !(Flow(ks, lead) && FlowClosed(ks, lead))
  {
  }

  /** The reader pump moves on without sending. */
  lemma ReaderMoves(
      c: Conn, next: ReaderPc, sentKinds: seq<byte>, sent: seq<byte>, lead: seq<byte>, open: bool)
    requires ReaderOk(c, sentKinds, sent, lead, open)
    requires c.reader == Reading || c.reader == Sending ==> next == Closing && (c.reader == Sending ==> !open)
    requires c.reader == Closing ==> next == Removing && !open
    requires c.reader == Removing ==> next == ReaderDone
    requires c.reader != ReaderDone
    ensures ReaderOk(c.(reader := next), sentKinds, sent, lead, open)
  {
    hide Flow, FlowClosed;
  }

  lemma ReaderKept(c: Conn, c': Conn, sentKinds: seq<byte>, sent: seq<byte>, lead: seq<byte>, open: bool)
    requires ReaderOk(c, sentKinds, sent, lead, open)
    requires c'.hold == c.hold && c'.reader == c.reader && c'.got == c.got
    ensures ReaderOk(c', sentKinds, sent, lead, open)
  {
    hide Flow, FlowClosed;
  }

  /** Actions that send nothing leave the link alone. */
  lemma QuietStep(
      z: Zstd, c: Conn, cancelled: bool, out: Link, id: nat, a: PumpAction,
      sentKinds: seq<byte>, sent: seq<byte>, lead: seq<byte>)
    requires ReaderOk(c, sentKinds, sent, lead, out.open) && !a.SendChunk? && !a.SendClose?
    requires PumpConn(z, c, cancelled, out, id, a).Some?
    ensures var (c', out') := PumpConn(z, c, cancelled, out, id, a).value;
      out' == out && ReaderOk(c', sentKinds, sent, lead, out.open)
  {
    var c' := PumpConn(z, c, cancelled, out, id, a).value.0;
    match a
    case Read(chunk) => Reads(c, chunk, sentKinds, sent, lead, out.open);
    case ReadStops => ReaderMoves(c, Closing, sentKinds, sent, lead, out.open);
    case SendChunkFails => ReaderMoves(c, Closing, sentKinds, sent, lead, out.open);
    case SendCloseFails => ReaderMoves(c, Removing, sentKinds, sent, lead, out.open);
    case DropEntry =>
      ReaderMoves(c, ReaderDone, sentKinds, sent, lead, out.open);
      ReaderKept(c.(reader := ReaderDone), c', sentKinds, sent, lead, out.open);
    case _ => ReaderKept(c, c', sentKinds, sent, lead, out.open);
    hide ReaderOk;
  }

  lemma ReaderStep(z: Zstd, c: Conn, cancelled: bool, out: Link, id: nat, a: PumpAction, lead: seq<byte>)
    requires z.Lossless() && LinkOk(z, out) && 1 <= id < TWO64
    requires ReaderOk(c, Kinds(out.log, id), Payloads(out.log, id), lead, out.open)
    requires PumpConn(z, c, cancelled, out, id, a).Some?
    ensures var (c', out') := PumpConn(z, c, cancelled, out, id, a).value;
      && LinkOk(z, out') && Grew(out, out', id)
      && ReaderOk(c', Kinds(out'.log, id), Payloads(out'.log, id), lead, out'.open)
  {
    if a.SendChunk? {
      SendsChunk(z, c, out, id, lead);
    } else if a.SendClose? {
      SendsClose(z, c, out, id, lead);
    } else {
      QuietStep(z, c, cancelled, out, id, a, Kinds(out.log, id), Payloads(out.log, id), lead);
      hide PumpConn;
    }
    hide LinkOk, Kinds, Payloads, ReaderOk, EncodeData, EncodeFrame;
  }

  /** Only a writer dropping its queue takes anything from what a stream has delivered or holds to deliver. */
  lemma DeliveredStep(z: Zstd, c: Conn, cancelled: bool, out: Link, id: nat, a: PumpAction)
    requires PumpConn(z, c, cancelled, out, id, a).Some?
    ensures var c' := PumpConn(z, c, cancelled, out, id, a).value.0;
      if a == WriterDrops then c'.Delivered() == c.written <= c.Delivered() else c'.Delivered() == c.Delivered()
    ensures a == WriterDrops && c.held == [] && c.queue == [] ==> c.Delivered() == c.written
  {
    match a
    case Take => TakeMoves(c.written, c.queue);
    case Write(count) => WriteMoves(c.written, c.held, count, Concat(c.queue));
    case _ => hide Concat;
  }

  lemma TakeMoves(written: seq<byte>, queue: seq<seq<byte>>)
    requires queue != []
    ensures written + queue[0] + Concat(queue[1..]) == written + [] + Concat(queue)
  {
    ConcatHead(queue);
    hide Concat;
  }

  lemma WriteMoves(written: seq<byte>, held: seq<byte>, count: nat, rest: seq<byte>)
    requires count <= |held|
    ensures written + held[..count] + held[count..] + rest == written + held + rest
  {
    assert written + held[..count] + held[count..] == written + held;
  }

  lemma WriterStep(z: Zstd, c: Conn, cancelled: bool, out: Link, id: nat, a: PumpAction, seen: seq<byte>,
      pending: seq<byte>)
    requires WriterOk(c, seen, pending)
    requires PumpConn(z, c, cancelled, out, id, a).Some?
    ensures var c' := PumpConn(z, c, cancelled, out, id, a).value.0;
      WriterOk(c', seen, pending) && c'.base == c.base && (c'.present ==> c.present)
  {
    var c' := PumpConn(z, c, cancelled, out, id, a).value.0;
    DeliveredStep(z, c, cancelled, out, id, a);
    var kept, rest := c'.Delivered(), c.Delivered()[|c'.Delivered()|..];
    assert c.base + (kept + rest) == c.base + kept + rest;
    hide Conn.Delivered;
  }

  lemma EndStep(z: Zstd, c: Conn, cancelled: bool, out: Link, id: nat, a: PumpAction, heard: seq<byte>, seen: seq<byte>)
    requires EndOk(c, heard, seen) && PumpConn(z, c, cancelled, out, id, a).Some?
    ensures EndOk(PumpConn(z, c, cancelled, out, id, a).value.0, heard, seen)
  {
    DeliveredStep(z, c, cancelled, out, id, a);
    hide Conn.Delivered;
  }

  lemma ReaderLosesLink(c: Conn, sentKinds: seq<byte>, sent: seq<byte>, lead: seq<byte>)
    requires ReaderOk(c, sentKinds, sent, lead, true)
    ensures ReaderOk(c, sentKinds, sent, lead, false)
  {
  }
}
