/** What every run of the multiplexer guarantees, stated on the bytes it moves. */
module RelayTheorems {
  import opened Bytes
  import opened Options
  import opened FrameCodec
  import opened RelayModel
  import opened RelayInvariant
  import opened RelaySteps

  // Messages read back from their bytes

  /** The frames a receiver reads from a sequence of messages. */
  function Frames(z: Zstd, raw: seq<seq<byte>>): seq<Frame> {
    if raw == [] then []
    else
      Frames(z, raw[..|raw| - 1]) +
      match DecodeFrame(z, raw[|raw| - 1])
      case Some(f) => [f]
      case None => []
  }

  /** The payload bytes of stream `id` carried by a sequence of messages. */
  function Carried(z: Zstd, raw: seq<seq<byte>>, id: nat): seq<byte> {
    Payloads(Frames(z, raw), id)
  }

  lemma {:induction false} FramesAreLogged(z: Zstd, raw: seq<seq<byte>>, log: seq<Frame>)
    requires |raw| == |log| && forall i :: 0 <= i < |log| ==> DecodeFrame(z, raw[i]) == Some(log[i])
    ensures Frames(z, raw) == log
  {
    if log != [] {
      var n := |log| - 1;
      FramesAreLogged(z, raw[..n], log[..n]);
      assert log == log[..n] + [log[n]];
    }
  }

  lemma {:induction false} PayloadsJoin(a: seq<Frame>, b: seq<Frame>, id: nat)
    ensures Payloads(a + b, id) == Payloads(a, id) + Payloads(b, id)
  {
    if b == [] {
      assert a + b == a;
    } else {
      var front, f := b[..|b| - 1], b[|b| - 1];
      PayloadsJoin(a, front, id);
      Associates(a, front, [f]);
      Appended(front, f, id);
      Appended(a + front, f, id);
      Associates(Payloads(a, id), Payloads(front, id), Piece(f, id));
      assert b == front + [f];
      hide *;
    }
  }

  /** The three stretches of a link: consumed, on the wire, waiting in the sender's queue. */
  lemma LinkSplits(z: Zstd, l: Link, id: nat)
    requires LinkOk(z, l)
    ensures Payloads(l.log, id) ==
      Payloads(l.log[..l.consumed], id) + Carried(z, l.OnWire(), id) + Carried(z, l.Waiting(), id)
    ensures Payloads(l.log[..l.consumed], id) == Carried(z, l.Consumed(), id)
  {
    FramesAreLogged(z, l.Consumed(), l.log[..l.consumed]);
    FramesAreLogged(z, l.OnWire(), l.log[l.consumed..l.taken]);
    FramesAreLogged(z, l.Waiting(), l.log[l.taken..]);
    LogSplits(l.log, l.consumed, l.taken, id);
  }

  lemma LogSplits(log: seq<Frame>, m: nat, n: nat, id: nat)
    requires m <= n <= |log|
    ensures Payloads(log, id) == Payloads(log[..m], id) + Payloads(log[m..n], id) + Payloads(log[n..], id)
  {
    PayloadsJoin(log[..m], log[m..n], id);
    Cut(log, m, n);
    PayloadsJoin(log[..n], log[n..], id);
    hide *;
  }

  lemma Cut<T>(s: seq<T>, m: nat, n: nat)
    requires m <= n <= |s|
    ensures s[..m] + s[m..n] == s[..n] && s[..n] + s[n..] == s
  {
  }

  // What an endpoint read from a stream's local socket

  function Got(side: Side, id: nat): seq<byte> {
    if id in side.conns then side.conns[id].got else []
  }

  function Held(side: Side, id: nat): seq<byte> {
    if id in side.conns then side.conns[id].hold else []
  }

  lemma SourceIsLogged(side: Side, log: seq<Frame>, id: nat, lead: seq<byte>, open: bool)
    requires if id in side.conns then ReaderOk(side.conns[id], Kinds(log, id), Payloads(log, id), lead, open)
      else DATA !in Kinds(log, id)
    ensures Payloads(log, id) + Held(side, id) == Got(side, id)
  {
    if id !in side.conns {
      NoDataNoPayload(log, id);
    }
  }

  /** What was consumed, is on the wire, waits and is in hand is together what was read. */
  lemma Pipeline(z: Zstd, side: Side, l: Link, id: nat, lead: seq<byte>)
    requires LinkOk(z, l)
    requires if id in side.conns then ReaderOk(side.conns[id], Kinds(l.log, id), Payloads(l.log, id), lead, l.open)
      else DATA !in Kinds(l.log, id)
    ensures var seen := Payloads(l.log[..l.consumed], id);
      && seen + Carried(z, l.OnWire(), id) + Carried(z, l.Waiting(), id) + Held(side, id) == Got(side, id)
      && seen <= Got(side, id)
  {
    SourceIsLogged(side, l.log, id, lead, l.open);
    LinkSplits(z, l, id);
    StartsTheSum(Payloads(l.log[..l.consumed], id), Carried(z, l.OnWire(), id), Carried(z, l.Waiting(), id),
      Held(side, id));
    hide *;
  }

  lemma StartsTheSum<T>(a: seq<T>, b: seq<T>, c: seq<T>, d: seq<T>)
    ensures a <= a + b + c + d
  {
  }

  ghost predicate ReachedBy(z: Zstd, actions: seq<Action>, s: State) {
    z.Lossless() && Run(z, actions) == Some(s) && s.next <= TWO64
  }

  /** What the invariant says about one stream of a reached state. */
  lemma StreamFacts(z: Zstd, actions: seq<Action>, s: State, id: nat)
    requires ReachedBy(z, actions, s) && id >= 1
    ensures HostStreamOk(s, id) && ClientStreamOk(s, id) && LinkOk(z, s.up) && LinkOk(z, s.down)
    ensures SeenUp(s) == s.up.log[..s.up.consumed] && Kinds(SeenUp(s), id) <= Kinds(s.up.log, id)
    ensures SeenDown(s) == s.down.log[..s.down.consumed] && Kinds(SeenDown(s), id) <= Kinds(s.down.log, id)
    ensures Payloads(SeenUp(s), id) <= Payloads(s.up.log, id) && Payloads(SeenDown(s), id) <= Payloads(s.down.log, id)
  {
    RunKeeps(z, actions);
    PrefixOfLog(s.up.log, s.up.consumed, id);
    PrefixOfLog(s.down.log, s.down.consumed, id);
    hide Kinds, Payloads, HostStreamOk, ClientStreamOk, Run;
  }

  lemma EntryIds(z: Zstd, actions: seq<Action>, s: State, id: nat)
    requires ReachedBy(z, actions, s) && (id in s.host.conns || id in s.client.conns)
    ensures 1 <= id < TWO64
  {
    RunKeeps(z, actions);
  }

  lemma LogsReadBack(z: Zstd, s: State)
    requires LinkOk(z, s.up) && LinkOk(z, s.down)
    ensures Frames(z, s.up.raw) == s.up.log && Frames(z, s.down.raw) == s.down.log
    ensures Frames(z, s.up.Consumed()) == SeenUp(s)
  {
    FramesAreLogged(z, s.up.raw, s.up.log);
    FramesAreLogged(z, s.down.raw, s.down.log);
    FramesAreLogged(z, s.up.Consumed(), SeenUp(s));
  }

  /**
   * Client to host. Whatever the interleaving, what the host's writer has written, is writing and has queued is a
   * prefix of what the client read from that stream's socket; and while the host keeps the entry, adding what is with
   * the handler, on the wire, waiting and in the reader's hands gives exactly what was read. Once the client's
   * WebSocket writer has died (`!s.up.open`), what waits or is in hand is what is lost.
   */
  lemma ClientToHostIntegrity(z: Zstd, actions: seq<Action>, s: State, id: nat)
    requires ReachedBy(z, actions, s) && id in s.host.conns
    ensures var h, l := s.host.conns[id], s.up;
      && h.Delivered() <= Got(s.client, id)
      && (h.present ==>
            h.Delivered() + PendingFor(s.host.handler, id) + Carried(z, l.OnWire(), id)
            + Carried(z, l.Waiting(), id) + Held(s.client, id) == Got(s.client, id))
  {
    EntryIds(z, actions, s, id);
    StreamFacts(z, actions, s, id);
    Pipeline(z, s.client, s.up, id, [OPEN]);
    var h := s.host.conns[id];
    assert h.base + h.Delivered() == h.Delivered();
    hide ReachedBy, Kinds, Payloads, Carried, ReaderOk, EndOk, LinkOk;
  }

  /**
   * Host to client. What reaches the client's writer is a contiguous stretch of what the host read: it starts right
   * after `base`, the payload that had been consumed before the entry was made, and has no later gap, repeat or
   * reordering; while the entry is there, the rest of what the host read is on its way.
   */
  lemma HostToClientIntegrity(z: Zstd, actions: seq<Action>, s: State, id: nat)
    requires ReachedBy(z, actions, s) && id in s.client.conns
    ensures var c, l := s.client.conns[id], s.down;
      && c.base + c.Delivered() <= Got(s.host, id)
      && (c.present ==>
            c.base + c.Delivered() + Carried(z, l.OnWire(), id)
            + Carried(z, l.Waiting(), id) + Held(s.host, id) == Got(s.host, id))
  {
    EntryIds(z, actions, s, id);
    StreamFacts(z, actions, s, id);
    HostSource(s, id);
    Pipeline(z, s.host, s.down, id, []);
    ClientWriter(s, id);
    NothingPending(s.client.conns[id], Payloads(SeenDown(s), id));
    hide *;
  }

  lemma HostSource(s: State, id: nat)
    requires HostStreamOk(s, id)
    ensures var sent := Kinds(s.down.log, id);
      if id in s.host.conns then ReaderOk(s.host.conns[id], sent, Payloads(s.down.log, id), [], s.down.open)
        else DATA !in sent
  {
    hide Kinds, Payloads, ReaderOk, WriterOk, EndOk;
  }

  lemma ClientWriter(s: State, id: nat)
    requires ClientStreamOk(s, id) && id in s.client.conns
    ensures WriterOk(s.client.conns[id], Payloads(SeenDown(s), id), [])
  {
    hide Kinds, Payloads, ReaderOk, WriterOk, EndOk;
  }

  lemma NothingPending(c: Conn, seen: seq<byte>)
    requires WriterOk(c, seen, [])
    ensures c.base + c.Delivered() <= seen && (c.present ==> c.base + c.Delivered() == seen)
  {
    hide Conn.Delivered;
    var d := c.base + c.Delivered();
    assert d + [] == d;
  }

  /** The missing start is decided once: `base` is what had been consumed when the entry was made, and never changes. */
  lemma BaseIsWhatPassed(z: Zstd, actions: seq<Action>, s: State, a: Action, s': State, id: nat)
    requires ReachedBy(z, actions, s) && Next(z, s, a) == Some(s') && id in s'.client.conns
    ensures s'.client.conns[id].base ==
      if id in s.client.conns then s.client.conns[id].base else Carried(z, s.down.Consumed(), id)
    ensures id !in s.client.conns ==> a == Accepting(Register) && s.acceptor == Registering(id)
  {
    RunKeeps(z, actions);
    if a == Accepting(Register) {
      LinkSplits(z, s.down, s.acceptor.id);
      assert ClientStreamOk(s, s.acceptor.id);
      assert s.down.log[..Min(s.down.consumed, |s.down.log|)] == s.down.log[..s.down.consumed];
    } else {
      OnlyRegisterAdds(z, s, a, s', id);
    }
  }

  lemma OnlyRegisterAdds(z: Zstd, s: State, a: Action, s': State, id: nat)
    requires Next(z, s, a) == Some(s') && a != Accepting(Register) && id in s'.client.conns
    ensures id in s.client.conns && s'.client.conns[id].base == s.client.conns[id].base
  {
  }

  // Wire grammar

  predicate PrefixOfOpenDataClose(ks: seq<byte>) {
    forall i :: 0 <= i < |ks| ==>
      && (ks[i] == OPEN <==> i == 0)
      && (ks[i] == CLOSE ==> i == |ks| - 1)
      && (ks[i] == OPEN || ks[i] == DATA || ks[i] == CLOSE)
  }

  predicate PrefixOfDataClose(ks: seq<byte>) {
    forall i :: 0 <= i < |ks| ==> (ks[i] == CLOSE ==> i == |ks| - 1) && (ks[i] == DATA || ks[i] == CLOSE)
  }

  lemma FlowIsPrefix(ks: seq<byte>, lead: seq<byte>)
    requires (lead == [] || lead == [OPEN]) && (Flow(ks, lead) || FlowClosed(ks, lead))
    ensures lead == [OPEN] ==> PrefixOfOpenDataClose(ks)
    ensures lead == [] ==> PrefixOfDataClose(ks)
  {
    forall i | 0 <= i < |ks| ensures if i < |lead| then ks[i] == OPEN
      else ks[i] == DATA || (ks[i] == CLOSE && i == |ks| - 1) {
      if i < |lead| {
        assert lead <= ks;
        assert ks[i] == lead[i];
      } else if !Flow(ks, lead) && i < |ks| - 1 {
        assert ks[..|ks| - 1][i] == DATA;
      }
    }
  }

  lemma UpShape(s: State, id: nat)
    requires ClientStreamOk(s, id)
    ensures PrefixOfOpenDataClose(Kinds(s.up.log, id))
  {
    if id in s.client.conns {
      FlowIsPrefix(Kinds(s.up.log, id), [OPEN]);
    }
  }

  lemma DownShape(s: State, id: nat)
    requires HostStreamOk(s, id)
    ensures var sent := Kinds(s.down.log, id);
      && (PrefixOfDataClose(sent) || sent <= [ERROR, CLOSE])
      && (sent != [] ==> Kinds(SeenUp(s), id) != [])
  {
    var sent := Kinds(s.down.log, id);
    if id in s.host.conns {
      FlowIsPrefix(sent, []);
    } else {
      assert sent == [] || sent == [ERROR] || sent == [ERROR, CLOSE];
      assert sent <= [ERROR, CLOSE];
    }
  }

  /**
   * Per stream, the client sends a prefix of OPEN DATA* CLOSE; the host a prefix of DATA* CLOSE or of ERROR CLOSE,
   * and nothing before it consumed the OPEN.
   */
  lemma WireGrammar(z: Zstd, actions: seq<Action>, s: State, id: nat)
    requires ReachedBy(z, actions, s) && id >= 1
    ensures PrefixOfOpenDataClose(Kinds(Frames(z, s.up.raw), id))
    ensures var sent := Kinds(Frames(z, s.down.raw), id);
      && (PrefixOfDataClose(sent) || sent <= [ERROR, CLOSE])
      && (sent != [] ==> OPEN in Kinds(Frames(z, s.up.Consumed()), id))
  {
    StreamFacts(z, actions, s, id);
    LogsReadBack(z, s);
    UpShape(s, id);
    DownShape(s, id);
    var heard := Kinds(SeenUp(s), id);
    if heard != [] {
      assert heard[0] == Kinds(s.up.log, id)[0] == OPEN;
    }
  }

  /**
   * The host answers every OPEN it consumed: by an entry, or, once its handler is through with it, by ERROR and CLOSE
   * unless its WebSocket writer has died.
   */
  lemma OpenedStreamsAreAnswered(z: Zstd, actions: seq<Action>, s: State, id: nat)
    requires ReachedBy(z, actions, s) && id >= 1
    ensures OPEN in Kinds(Frames(z, s.up.Consumed()), id) ==>
      || id in s.host.conns
      || Busy(s.host.handler, id)
      || (s.down.open ==> Kinds(Frames(z, s.down.raw), id) == [ERROR, CLOSE])
  {
    StreamFacts(z, actions, s, id);
    LogsReadBack(z, s);
    if OPEN in Kinds(SeenUp(s), id) && s.down.open {
      HostAnswers(s, id);
    }
    hide *;
  }

  lemma HostAnswers(s: State, id: nat)
    requires HostStreamOk(s, id) && OPEN in Kinds(SeenUp(s), id) && s.down.open
    ensures id in s.host.conns || Busy(s.host.handler, id) || Kinds(s.down.log, id) == [ERROR, CLOSE]
  {
    hide Kinds, Payloads, ReaderOk, WriterOk, EndOk;
  }

  /**
   * A writer pump stops of its own accord only when it is done: unless its session was cancelled or a write failed,
   * its entry is gone and everything it was given is written.
   */
  lemma WriterStopsWhenDone(z: Zstd, side: Side, out: Link, id: nat, a: PumpAction, side': Side, out': Link)
    requires PumpStep(z, side, out, id, a) == Some((side', out')) && a != WriteFails && !side.cancelled
    requires side.conns[id].writer == Serving && side'.conns[id].writer != Serving
    ensures !side'.Has(id) && side'.conns[id].written == side'.conns[id].Delivered()
  {
    assert side.conns[id].written + [] + [] == side.conns[id].written;
  }

  /** A stream whose reader pump has finished has no entry, and its CLOSE was sent unless the WebSocket writer died. */
  predicate Announced(c: Conn, sent: seq<byte>, open: bool) {
    c.reader == ReaderDone ==> !c.present && (open ==> sent != [] && sent[|sent| - 1] == CLOSE)
  }

  lemma EndsAreAnnounced(z: Zstd, actions: seq<Action>, s: State, id: nat)
    requires ReachedBy(z, actions, s) && id >= 1
    ensures id in s.client.conns ==> Announced(s.client.conns[id], Kinds(Frames(z, s.up.raw), id), s.up.open)
    ensures id in s.host.conns ==> Announced(s.host.conns[id], Kinds(Frames(z, s.down.raw), id), s.down.open)
  {
    StreamFacts(z, actions, s, id);
    LogsReadBack(z, s);
    hide ReachedBy, Kinds, Payloads, Frames, LinkOk, EndOk;
  }

  lemma {:induction false} SameKindsSamePayloads(log: seq<Frame>, n: nat, id: nat)
    requires n <= |log| && Kinds(log[..n], id) == Kinds(log, id)
    ensures Payloads(log[..n], id) == Payloads(log, id)
  {
    if n == |log| {
      assert log[..n] == log;
    } else {
      var front := log[..|log| - 1];
      PrefixOfLog(front, n, id);
      assert front[..n] == log[..n];
      SameKindsSamePayloads(front, n, id);
    }
  }

  /** A reader pump's CLOSE is the last frame of its stream, so whoever heard it heard the whole stream. */
  lemma HeardCloseHeardAll(c: Conn, log: seq<Frame>, n: nat, id: nat, lead: seq<byte>, open: bool)
    requires n <= |log| && (lead == [] || lead == [OPEN])
    requires ReaderOk(c, Kinds(log, id), Payloads(log, id), lead, open)
    requires CLOSE in Kinds(log[..n], id)
    ensures Payloads(log[..n], id) == c.got
  {
    var heard, sent := Kinds(log[..n], id), Kinds(log, id);
    PrefixOfLog(log, n, id);
    CloseIsLast(heard, sent, lead);
    SameKindsSamePayloads(log, n, id);
  }

  lemma CloseIsLast(heard: seq<byte>, sent: seq<byte>, lead: seq<byte>)
    requires (lead == [] || lead == [OPEN]) && (Flow(sent, lead) || FlowClosed(sent, lead))
    requires heard <= sent && CLOSE in heard
    ensures heard == sent && FlowClosed(sent, lead)
  {
    var k :| 0 <= k < |heard| && heard[k] == CLOSE;
    assert sent[k] == CLOSE;
    FlowIsPrefix(sent, lead);
  }

  /** An entry that was taken away by the other side's word, and by nothing at this endpoint. */
  predicate EndedByPeer(side: Side, id: nat) {
    id in side.conns && !side.conns[id].present && !side.conns[id].cut
  }

  /**
   * A stream that the client's CLOSE ended loses nothing: all that the client read from its socket is written, being
   * written or queued at the host, and once the host's writer has finished it is all written.
   */
  lemma HostEndLosesNothing(z: Zstd, actions: seq<Action>, s: State, id: nat)
    requires ReachedBy(z, actions, s) && EndedByPeer(s.host, id)
    ensures var h := s.host.conns[id];
      && h.Delivered() == Got(s.client, id)
      && (h.writer == WriterDone ==> h.written == Got(s.client, id))
  {
    EntryIds(z, actions, s, id);
    StreamFacts(z, actions, s, id);
    var h := s.host.conns[id];
    assert h.base + h.Delivered() == h.Delivered();
    hide ReachedBy, LinkOk, Payloads, Kinds;
    var heard := Kinds(SeenUp(s), id);
    UpShape(s, id);
    EndIsClose(heard, Kinds(s.up.log, id));
    HeardCloseHeardAll(s.client.conns[id], s.up.log, s.up.consumed, id, [OPEN], s.up.open);
  }

  lemma EndIsClose(heard: seq<byte>, sent: seq<byte>)
    requires heard <= sent && PrefixOfOpenDataClose(sent) && (CLOSE in heard || ERROR in heard)
    ensures CLOSE in heard && CLOSE in sent
  {
    forall k | 0 <= k < |heard| ensures heard[k] != ERROR && heard[k] in sent {
      assert sent[k] == heard[k];
    }
  }

  /** The same for a stream the host ended, after the start that passed before the client had made its entry. */
  lemma ClientEndLosesNothing(z: Zstd, actions: seq<Action>, s: State, id: nat)
    requires ReachedBy(z, actions, s) && EndedByPeer(s.client, id)
    ensures var c := s.client.conns[id];
      && c.base + c.Delivered() == Got(s.host, id)
      && (c.writer == WriterDone ==> c.base + c.written == Got(s.host, id))
  {
    EntryIds(z, actions, s, id);
    StreamFacts(z, actions, s, id);
    hide ReachedBy, LinkOk, Kinds, Payloads;
    HostSaidAll(s, id);
  }

  lemma HostSaidAll(s: State, id: nat)
    requires HostStreamOk(s, id) && s.down.consumed <= |s.down.log|
    requires CLOSE in Kinds(SeenDown(s), id) || ERROR in Kinds(SeenDown(s), id)
    ensures Payloads(SeenDown(s), id) == Got(s.host, id)
  {
    PrefixOfLog(s.down.log, s.down.consumed, id);
    if id in s.host.conns {
      EndIsCloseDown(Kinds(SeenDown(s), id), Kinds(s.down.log, id));
      HeardCloseHeardAll(s.host.conns[id], s.down.log, s.down.consumed, id, [], s.down.open);
    } else {
      NoDataNoPayload(s.down.log, id);
    }
    hide Kinds, Payloads, EndOk, WriterOk;
  }

  lemma EndIsCloseDown(heard: seq<byte>, sent: seq<byte>)
    requires heard <= sent && (Flow(sent, []) || FlowClosed(sent, [])) && (CLOSE in heard || ERROR in heard)
    ensures CLOSE in heard
  {
    FlowIsPrefix(sent, []);
  }

  // Stream identity

  /** A host entry belongs to a stream that was allocated, whose OPEN was consumed and whose CLOSE was not. */
  lemma HostEntriesAreOpenStreams(z: Zstd, actions: seq<Action>, s: State, id: nat)
    requires ReachedBy(z, actions, s) && s.host.Has(id)
    ensures var heard := Kinds(Frames(z, s.up.Consumed()), id);
      1 <= id < s.next && OPEN in heard && CLOSE !in heard
  {
    EntryIds(z, actions, s, id);
    StreamFacts(z, actions, s, id);
    LogsReadBack(z, s);
  }

  /** An accepted connection gets an id no frame, entry or task has used. */
  lemma AcceptedIdIsFresh(z: Zstd, actions: seq<Action>, s: State, s': State)
    requires ReachedBy(z, actions, s) && Next(z, s, Accepting(Accept)) == Some(s') && s'.next <= TWO64
    ensures var id := s'.acceptor.id;
      && 1 <= id < s'.next
      && id !in s.client.conns && id !in s.host.conns
      && Kinds(Frames(z, s.up.raw), id) == [] && Kinds(Frames(z, s.down.raw), id) == []
  {
    NextIsSmall(z, actions, s);
    StreamFacts(z, actions, s, s.next);
    LogsReadBack(z, s);
    UnusedStream(s, s.next);
    assert s'.acceptor.id == s.next by {
      AcceptTakesNext(s, s');
    }
    hide *;
  }

  lemma NextIsSmall(z: Zstd, actions: seq<Action>, s: State)
    requires ReachedBy(z, actions, s)
    ensures 1 <= s.next
  {
    RunKeeps(z, actions);
  }

  lemma AcceptTakesNext(s: State, s': State)
    requires AcceptStep(s, Accept) == Some(s') && s'.next <= TWO64
    ensures s'.acceptor.id == s.next && s'.next == s.next + 1
  {
  }

  lemma UnusedStream(s: State, id: nat)
    requires HostStreamOk(s, id) && ClientStreamOk(s, id) && id >= s.next
    requires Kinds(SeenUp(s), id) <= Kinds(s.up.log, id)
    ensures id !in s.client.conns && id !in s.host.conns && Kinds(s.up.log, id) == [] && Kinds(s.down.log, id) == []
  {
    hide Kinds, Payloads, WriterOk, ReaderOk, EndOk;
  }

  /**
   * Id 0 carries only control frames and every other id only stream frames, so the host's datagram path is never
   * entered.
   */
  lemma StreamsNeverUseIdZero(z: Zstd, actions: seq<Action>, s: State)
    requires ReachedBy(z, actions, s)
    ensures 0 !in s.client.conns && 0 !in s.host.conns && !s.host.handler.UdpBranch?
    ensures forall f :: f in Frames(z, s.up.raw) || f in Frames(z, s.down.raw) ==> (f.id == 0 <==> IsControl(f.kind))
  {
    RunKeeps(z, actions);
    FramesAreLogged(z, s.up.raw, s.up.log);
    FramesAreLogged(z, s.down.raw, s.down.log);
  }

  lemma DownOnlyGrows(z: Zstd, s: State, a: Action, s': State)
    requires Next(z, s, a) == Some(s')
    ensures s.down.log <= s'.down.log && s.down.consumed <= s'.down.consumed
  {
  }

  lemma LogsOnlyGrow(z: Zstd, s: State, a: Action, s': State)
    requires Next(z, s, a) == Some(s')
    ensures s.up.log <= s'.up.log && s.up.consumed <= s'.up.consumed
  {
  }

  /** Once the host has consumed a stream's CLOSE it never holds an entry for that id again. */
  lemma {:induction false} ClosedIdStaysClosed(z: Zstd, before: seq<Action>, s: State, more: seq<Action>, s': State,
      id: nat)
    requires ReachedBy(z, before, s) && ReachedBy(z, before + more, s')
    requires CLOSE in Kinds(SeenUp(s), id) && id >= 1
    ensures !s'.host.Has(id)
  {
    SeenOnlyGrows(z, before, s, more, s');
    RunKeeps(z, before);
    RunKeeps(z, before + more);
    assert HostStreamOk(s', id);
    PrefixOfLog(SeenUp(s'), |SeenUp(s)|, id);
    assert SeenUp(s')[..|SeenUp(s)|] == SeenUp(s);
  }

  lemma {:induction false} SeenOnlyGrows(z: Zstd, before: seq<Action>, s: State, more: seq<Action>, s': State)
    requires Run(z, before) == Some(s) && Run(z, before + more) == Some(s')
    ensures SeenUp(s) <= SeenUp(s') && SeenDown(s) <= SeenDown(s')
  {
    if more == [] {
      assert before + more == before;
    } else {
      var n := |more| - 1;
      var all := before + more;
      assert all[..|all| - 1] == before + more[..n];
      var m := Run(z, all[..|all| - 1]).value;
      SeenOnlyGrows(z, before, s, more[..n], m);
      LogsOnlyGrow(z, m, all[|all| - 1], s');
      DownOnlyGrows(z, m, all[|all| - 1], s');
      hide Next;
    }
  }

  /** The counter is a 64-bit atomic: the n-th connection (from 0) gets this id. */
  function IdAt(n: nat): nat {
    (n + 1) % TWO64
  }

  lemma {:induction false} AcceptUsesIdAt(z: Zstd, actions: seq<Action>, s: State)
    requires Run(z, actions) == Some(s)
    ensures s.next == 1 + Accepts(actions)
    ensures s.acceptor == Listening ==>
      Next(z, s, Accepting(Accept)) == Some(s.(acceptor := Opening(IdAt(Accepts(actions))), next := s.next + 1))
  {
    if actions != [] {
      var n := |actions| - 1;
      var before := Run(z, actions[..n]).value;
      AcceptUsesIdAt(z, actions[..n], before);
      OnlyAcceptCounts(z, before, actions[n], s);
    }
  }

  lemma OnlyAcceptCounts(z: Zstd, s: State, a: Action, s': State)
    requires Next(z, s, a) == Some(s')
    ensures s'.next == s.next + if a == Accepting(Accept) then 1 else 0
  {
  }

  function Accepts(actions: seq<Action>): nat {
    if actions == [] then 0
    else Accepts(actions[..|actions| - 1]) + if actions[|actions| - 1] == Accepting(Accept) then 1 else 0
  }

  /** Where the counter's width shows: ids repeat exactly after 2^64 connections, and id 0 is given out exactly then. */
  lemma IdsWrapExactly(n: nat)
    ensures (forall i, j :: 0 <= i < j < n ==> IdAt(i) != IdAt(j)) <==> n <= TWO64
    ensures (forall i :: 0 <= i < n ==> IdAt(i) != 0) <==> n < TWO64
  {
    assert IdAt(0) == 1 && IdAt(TWO64) == 1 && IdAt(TWO64 - 1) == 0;
    forall i | 0 <= i < TWO64 ensures IdAt(i) == if i == TWO64 - 1 then 0 else i + 1 {
    }
  }

  // Sessions

  /** No message either endpoint sends makes the other's frame decoder fail, and no queue outgrows its bound. */
  lemma NoDecodeErrorsAndBoundedQueues(z: Zstd, actions: seq<Action>, s: State)
    requires ReachedBy(z, actions, s)
    ensures forall i :: 0 <= i < |s.up.raw| ==> DecodeFrame(z, s.up.raw[i]).Some?
    ensures forall i :: 0 <= i < |s.down.raw| ==> DecodeFrame(z, s.down.raw[i]).Some?
    ensures |s.up.raw| <= s.up.taken + WS_WRITE_QUEUE && |s.down.raw| <= s.down.taken + WS_WRITE_QUEUE
    ensures forall id :: id in s.client.conns ==> |s.client.conns[id].queue| <= TCP_WRITE_QUEUE
    ensures forall id :: id in s.host.conns ==> |s.host.conns[id].queue| <= TCP_WRITE_QUEUE
  {
    RunKeeps(z, actions);
    forall id | id in s.client.conns ensures |s.client.conns[id].queue| <= TCP_WRITE_QUEUE {
      assert ClientStreamOk(s, id);
    }
    forall id | id in s.host.conns ensures |s.host.conns[id].queue| <= TCP_WRITE_QUEUE {
      assert HostStreamOk(s, id);
    }
  }

  /** The client has seen READY only if the host consumed its HELLO. */
  lemma ReadyAfterHello(z: Zstd, actions: seq<Action>, s: State)
    requires ReachedBy(z, actions, s) && s.gotReady
    ensures s.up.consumed >= 1 && s.up.raw != [] && DecodeFrame(z, s.up.raw[0]) == Some(Frame(HELLO, 0, []))
  {
    RunKeeps(z, actions);
  }
}
