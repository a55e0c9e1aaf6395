/** Every step of the multiplexer keeps the invariant. */
module RelaySteps {
  import opened Bytes
  import opened Options
  import opened FrameCodec
  import opened RelayModel
  import opened RelayInvariant

  lemma SeenUnmoved(from: Link, to: Link, id: nat)
    requires Grew(from, to, id) && from.consumed <= |from.log|
    ensures to.log[..Min(to.consumed, |to.log|)] == from.log[..Min(from.consumed, |from.log|)]
  {
  }

  /** What a step leaves alone when it adds at most a stream frame to each log and no entry. */
  lemma RestUnmoved(s: State, s': State, id: nat)
    requires HandlersOk(s) && IdsOk(s) && ReadyOk(s) && Grew(s.up, s'.up, id) && Grew(s.down, s'.down, id)
    requires s'.client.conns.Keys == s.client.conns.Keys && s'.client.handler == s.client.handler
    requires s'.host.conns.Keys == s.host.conns.Keys && s'.host.handler == s.host.handler
    requires s'.acceptor == s.acceptor && s'.next == s.next && s'.gotReady == s.gotReady
    ensures HandlersOk(s') && IdsOk(s') && ReadyOk(s')
  {
    assert forall i :: i in s'.client.conns ==> i in s.client.conns.Keys;
    assert forall i :: i in s'.host.conns ==> i in s.host.conns.Keys;
    assert s'.up.log[0] == s.up.log[0];
    assert forall i :: 0 <= i < |s.down.log| ==> s'.down.log[i] == s.down.log[i];
  }

  // Pumps

  lemma HostPumpStream(z: Zstd, host: Side, host': Side, seen: seq<Frame>, down: Link, down': Link, id: nat,
      a: PumpAction)
    requires z.Lossless() && LinkOk(z, down) && 1 <= id < TWO64 && HostOk(seen, down, host, id)
    requires PumpStep(z, host, down, id, a) == Some((host', down'))
    ensures LinkOk(z, down') && Grew(down, down', id) && HostOk(seen, down', host', id)
  {
    var c := host.conns[id];
    ReaderStep(z, c, host.cancelled, down, id, a, []);
    WriterStep(z, c, host.cancelled, down, id, a, Payloads(seen, id), PendingFor(host.handler, id));
    EndStep(z, c, host.cancelled, down, id, a, Kinds(seen, id), Payloads(seen, id));
    hide Kinds, Payloads, ReaderOk, WriterOk, EndOk, PumpConn, LinkOk;
  }

  lemma HostPumpElsewhere(host: Side, host': Side, seen: seq<Frame>, down: Link, down': Link, id: nat, j: nat)
    requires HostOk(seen, down, host, j) && Grew(down, down', id) && j != id && id in host.conns
    requires id in host'.conns && host' == host.(conns := host.conns[id := host'.conns[id]])
    ensures HostOk(seen, down', host', j)
  {
    GrewElsewhere(down, down', id, j);
    hide Kinds, Payloads, ReaderOk, WriterOk, EndOk;
  }

  lemma HostPumpKeeps(z: Zstd, s: State, id: nat, a: PumpAction, s': State)
    requires z.Lossless() && Inv(z, s) && Next(z, s, Pump(Host, id, a)) == Some(s')
    ensures Inv(z, s')
  {
    assert HostStreamOk(s, id);
    HostPumpStream(z, s.host, s'.host, SeenUp(s), s.down, s'.down, id, a);
    SeenUnmoved(s.down, s'.down, id);
    RestUnmoved(s, s', id);
    hide PumpConn, HostOk, ClientOk, LinkOk, HandlersOk, IdsOk, ReadyOk, Grew;
    forall j: nat | j >= 1 ensures HostStreamOk(s', j) && ClientStreamOk(s', j) {
      assert HostStreamOk(s, j) && ClientStreamOk(s, j);
      if j != id {
        HostPumpElsewhere(s.host, s'.host, SeenUp(s), s.down, s'.down, id, j);
      }
    }
  }

  lemma ClientPumpStream(z: Zstd, client: Side, client': Side, seen: seq<Frame>, up: Link, up': Link,
      acceptor: Acceptor, next: nat, id: nat, a: PumpAction)
    requires z.Lossless() && LinkOk(z, up) && 1 <= id < TWO64 && ClientOk(seen, up, client.conns, acceptor, next, id)
    requires PumpStep(z, client, up, id, a) == Some((client', up'))
    ensures LinkOk(z, up') && Grew(up, up', id) && ClientOk(seen, up', client'.conns, acceptor, next, id)
  {
    var c := client.conns[id];
    ReaderStep(z, c, client.cancelled, up, id, a, [OPEN]);
    WriterStep(z, c, client.cancelled, up, id, a, Payloads(seen, id), []);
    EndStep(z, c, client.cancelled, up, id, a, Kinds(seen, id), Payloads(seen, id));
    hide Kinds, Payloads, ReaderOk, WriterOk, EndOk, PumpConn, LinkOk;
  }

  lemma ClientPumpElsewhere(conns: map<nat, Conn>, c: Conn, seen: seq<Frame>, up: Link, up': Link,
      acceptor: Acceptor, next: nat, id: nat, j: nat)
    requires ClientOk(seen, up, conns, acceptor, next, j) && Grew(up, up', id) && j != id
    ensures ClientOk(seen, up', conns[id := c], acceptor, next, j)
  {
    GrewElsewhere(up, up', id, j);
    hide Kinds, Payloads, ReaderOk, WriterOk, EndOk;
  }

  lemma ClientPumpKeeps(z: Zstd, s: State, id: nat, a: PumpAction, s': State)
    requires z.Lossless() && Inv(z, s) && Next(z, s, Pump(Client, id, a)) == Some(s')
    ensures Inv(z, s')
  {
    assert ClientStreamOk(s, id);
    ClientPumpStream(z, s.client, s'.client, SeenDown(s), s.up, s'.up, s.acceptor, s.next, id, a);
    SeenUnmoved(s.up, s'.up, id);
    RestUnmoved(s, s', id);
    hide PumpConn, HostOk, ClientOk, LinkOk, HandlersOk, IdsOk, ReadyOk, Grew;
    assert s'.client.conns == s.client.conns[id := s'.client.conns[id]];
    forall j: nat | j >= 1 ensures HostStreamOk(s', j) && ClientStreamOk(s', j) {
      assert HostStreamOk(s, j) && ClientStreamOk(s, j);
      if j != id {
        ClientPumpElsewhere(s.client.conns, s'.client.conns[id], SeenDown(s), s.up, s'.up, s.acceptor, s.next, id, j);
      }
    }
  }

  // Frame handlers

  lemma HeadOf(z: Zstd, l: Link)
    requires LinkOk(z, l) && l.consumed < l.taken
    ensures var f := l.log[l.consumed];
      && FrameOk(f) && DecodeFrame(z, l.raw[l.consumed]) == Some(f)
      && l.log[..Min(l.consumed + 1, |l.log|)] == l.log[..Min(l.consumed, |l.log|)] + [f]
  {
  }

  lemma PlaceInLog(log: seq<Frame>, id: nat, n: nat)
    requires n < |log| && log[n].id == id
    ensures Kinds(log[..n], id) + [log[n].kind] <= Kinds(log, id)
  {
    assert log[..n + 1] == log[..n] + [log[n]];
    Appended(log[..n], log[n], id);
    PrefixOfLog(log, n + 1, id);
  }

  lemma FlowPlace(all: seq<byte>, lead: seq<byte>, before: seq<byte>, kind: byte)
    requires (lead == [] || lead == [OPEN]) && (Flow(all, lead) || FlowClosed(all, lead)) && before + [kind] <= all
    ensures CLOSE !in before && ERROR !in before && kind != ERROR
    ensures kind == OPEN ==> lead == [OPEN] && before == []
    ensures kind != OPEN && lead == [OPEN] ==> OPEN in before
  {
    assert (before + [kind])[|before|] == kind == all[|before|];
    assert lead <= all;
    forall k | 0 <= k < |before| ensures before[k] == if k < |lead| then OPEN else DATA {
      assert before[k] == (before + [kind])[k] == all[k];
      assert !Flow(all, lead) ==> all[k] == all[..|all| - 1][k];
    }
    if kind != OPEN && lead == [OPEN] {
      assert all[0] == lead[0];
      assert before[0] == OPEN;
    }
  }

  /** Where a frame of stream `id` can stand in the client's log. */
  lemma PlaceInUpLog(s: State, id: nat, n: nat)
    requires ClientStreamOk(s, id) && n < |s.up.log| && s.up.log[n].id == id
    ensures var before, kind := Kinds(s.up.log[..n], id), s.up.log[n].kind;
      && (kind == OPEN ==> before == [])
      && (kind == DATA || kind == CLOSE ==> OPEN in before && CLOSE !in before && ERROR !in before)
      && kind != ERROR
  {
    PlaceInLog(s.up.log, id, n);
    FlowPlace(Kinds(s.up.log, id), [OPEN], Kinds(s.up.log[..n], id), s.up.log[n].kind);
  }

  /** Nor does data follow the end of a stream in the host's log. */
  lemma PlaceInDownLog(s: State, id: nat, n: nat)
    requires HostStreamOk(s, id) && n < |s.down.log| && s.down.log[n].id == id && s.down.log[n].kind == DATA
    ensures CLOSE !in Kinds(s.down.log[..n], id) && ERROR !in Kinds(s.down.log[..n], id)
  {
    PlaceInLog(s.down.log, id, n);
    var sent, before := Kinds(s.down.log, id), Kinds(s.down.log[..n], id);
    assert (before + [DATA])[|before|] == DATA == sent[|before|];
    FlowPlace(Kinds(s.down.log, id), [], Kinds(s.down.log[..n], id), DATA);
  }

  /** One more frame of the stream is consumed: data finds the stream not ended, and an ending frame takes the entry. */
  lemma EndHears(c: Conn, c': Conn, heard: seq<byte>, seen: seq<byte>, kind: byte, payload: seq<byte>)
    requires EndOk(c, heard, seen) && WriterOk(c, seen, [])
    requires kind == DATA ==> CLOSE !in heard && ERROR !in heard
    requires kind != DATA ==> payload == []
    requires c' == c || (c' == c.(queue := c'.queue) && kind == DATA && c.present)
             || (c' == c.(present := false) && (kind == CLOSE || kind == ERROR))
    ensures EndOk(c', heard + [kind], seen + payload)
  {
    assert heard + [kind] == heard || (heard + [kind])[|heard|] == kind;
    assert seen + [] == seen;
    assert c.present ==> c.base + c.Delivered() + [] == c.base + c.Delivered();
    assert c.present ==> c.writer != WriterDone;
  }

  lemma WriterHears(c: Conn, seen: seq<byte>, payload: seq<byte>)
    requires WriterOk(c, seen, [])
    ensures WriterOk(c, seen + payload, payload)
  {
    if c.present {
      assert c.base + c.Delivered() + [] == c.base + c.Delivered();
    }
  }

  lemma WriterQueues(c: Conn, seen: seq<byte>, payload: seq<byte>)
    requires WriterOk(c, seen, payload) && c.present && |c.queue| < TCP_WRITE_QUEUE
    ensures WriterOk(c.(queue := c.queue + [payload]), seen, [])
  {
    var c' := c.(queue := c.queue + [payload]);
    ConcatPush(c.queue, payload);
    assert c'.base + c'.Delivered() == c.base + c.Delivered() + payload;
  }

  /** What the host's handler does to one stream. */
  lemma HostHandles(host: Side, f: Frame, id: nat)
    requires FrameOk(f) && host.handler == Idle && id >= 1
    ensures var host' := HandleAtHost(host, f);
      && host' == (if f.kind == CLOSE || f.kind == ERROR then Forget(host, f.id) else host).(handler := host'.handler)
      && (Busy(host'.handler, id) <==> f.id == id && f.kind == OPEN && !host.Has(id))
      && !host'.handler.RefusingClose?
      && PendingFor(host'.handler, id) == if f.id == id && f.kind == DATA && host.Has(id) then f.payload else []
  {
  }

  lemma HostHearsOther(host: Side, seen: seq<Frame>, down: Link, f: Frame, id: nat)
    requires HostOk(seen, down, host, id) && FrameOk(f) && host.handler == Idle && id >= 1 && f.id != id
    ensures HostOk(seen + [f], down, HandleAtHost(host, f), id)
  {
    Appended(seen, f, id);
    assert Kinds(seen + [f], id) == Kinds(seen, id) && Payloads(seen + [f], id) == Payloads(seen, id);
    HostHandles(host, f, id);
    hide Kinds, Payloads, ReaderOk, WriterOk, EndOk, HandleAtHost, Busy, PendingFor;
  }

  lemma HostHears(host: Side, seen: seq<Frame>, down: Link, f: Frame, id: nat)
    requires HostOk(seen, down, host, id) && FrameOk(f) && host.handler == Idle && id >= 1 && f.id == id
    requires f.kind == OPEN ==> Kinds(seen, id) == []
    requires f.kind == DATA || f.kind == CLOSE ==>
      OPEN in Kinds(seen, id) && CLOSE !in Kinds(seen, id) && ERROR !in Kinds(seen, id)
    requires f.kind != ERROR
    ensures HostOk(seen + [f], down, HandleAtHost(host, f), id)
  {
    Appended(seen, f, id);
    HostHandles(host, f, id);
    var host' := HandleAtHost(host, f);
    if id in host.conns {
      assert f.kind != OPEN;
      HostEntryHears(host.conns[id], host'.conns[id], Kinds(seen, id), Payloads(seen, id), f);
      assert Payloads(seen + [f], id) == Payloads(seen, id) + Piece(f, id);
    }
    hide Kinds, Payloads, ReaderOk, WriterOk, EndOk, HandleAtHost, Busy, PendingFor, Piece;
  }

  lemma HostEntryHears(c: Conn, c': Conn, heard: seq<byte>, seen: seq<byte>, f: Frame)
    requires WriterOk(c, seen, []) && EndOk(c, heard, seen)
    requires f.kind == DATA ==> CLOSE !in heard && ERROR !in heard
    requires c' == if f.kind == CLOSE then c.(present := false) else c
    requires f.kind != OPEN && f.kind != ERROR
    ensures WriterOk(c', seen + Piece(f, f.id), if f.kind == DATA && c.present then f.payload else [])
    ensures EndOk(c', heard + [f.kind], seen + Piece(f, f.id))
  {
    if f.kind == DATA {
      WriterHears(c, seen, f.payload);
    }
    EndHears(c, c', heard, seen, f.kind, Piece(f, f.id));
    hide EndOk;
  }

  lemma HostConsumeShape(z: Zstd, s: State, s': State, f: Frame)
    requires HandlersOk(s) && IdsOk(s) && ReadyOk(s) && FrameOk(f) && LinkOk(z, s.up)
    requires ConsumeAtHost(z, s) == Some(s') && f == s.up.log[s.up.consumed]
    ensures s' == s.(up := s.up.(consumed := s.up.consumed + 1), host := HandleAtHost(s.host, f))
    ensures s.host.handler == Idle && HandlersOk(s') && IdsOk(s') && ReadyOk(s') && LinkOk(z, s'.up)
  {
    HostHandlerOk(s, f);
    hide HandleAtHost;
  }

  lemma HostConsumeKeeps(z: Zstd, s: State, s': State)
    requires Inv(z, s) && Next(z, s, Consume(Host)) == Some(s')
    ensures Inv(z, s')
  {
    HeadOf(z, s.up);
    var f := s.up.log[s.up.consumed];
    HostConsumeShape(z, s, s', f);
    hide Next, HandlersOk, IdsOk, ReadyOk, LinkOk, HandleAtHost, HostOk, ClientOk, FrameOk;
    forall j: nat | j >= 1 ensures HostStreamOk(s', j) && ClientStreamOk(s', j) {
      assert HostStreamOk(s, j) && ClientStreamOk(s, j);
      if f.id == j {
        PlaceInUpLog(s, j, s.up.consumed);
        HostHears(s.host, SeenUp(s), s.down, f, j);
      } else {
        HostHearsOther(s.host, SeenUp(s), s.down, f, j);
      }
    }
  }

  lemma HostHandlerOk(s: State, f: Frame)
    requires HandlersOk(s) && IdsOk(s) && FrameOk(f)
    ensures var host := HandleAtHost(s.host, f);
      && HandlersOk(s.(host := host)) && IdsOk(s.(host := host))
  {
  }

  /** What a frame does to the client's entry of stream `id`. */
  function ClientEntryAfter(c: Conn, f: Frame, id: nat): Conn {
    if f.id == id && f.kind == DATA && c.present && c.writer != WriterDone then c.(queue := c.queue + [f.payload])
    else if f.id == id && (f.kind == CLOSE || f.kind == ERROR) then c.(present := false)
    else c
  }

  lemma ClientHandles(client: Side, side: Side, f: Frame, id: nat)
    requires HandleAtClient(client, f) == Some(side)
    ensures id in side.conns <==> id in client.conns
    ensures id in client.conns ==>
      var c, c' := client.conns[id], side.conns[id];
      c' == ClientEntryAfter(c, f, id)
    ensures f.id == id && f.kind == DATA && client.Has(id) && client.conns[id].writer != WriterDone ==>
      |client.conns[id].queue| < TCP_WRITE_QUEUE
  {
  }

  lemma ClientWriterHears(c: Conn, c': Conn, seen: seq<Frame>, f: Frame, id: nat)
    requires WriterOk(c, Payloads(seen, id), [])
    requires f.id == id && f.kind == DATA && c.present && c.writer != WriterDone ==> |c.queue| < TCP_WRITE_QUEUE
    requires c' == ClientEntryAfter(c, f, id)
    ensures WriterOk(c', Payloads(seen + [f], id), [])
  {
    Appended(seen, f, id);
    WriterHears(c, Payloads(seen, id), Piece(f, id));
    if f.id == id && f.kind == DATA && c.present {
      WriterQueues(c, Payloads(seen + [f], id), f.payload);
    }
  }

  lemma ClientHears(client: Side, side: Side, seen: seq<Frame>, up: Link, acceptor: Acceptor, next: nat, f: Frame,
      id: nat)
    requires ClientOk(seen, up, client.conns, acceptor, next, id)
    requires HandleAtClient(client, f) == Some(side)
    requires f.id == id && f.kind == DATA ==> CLOSE !in Kinds(seen, id) && ERROR !in Kinds(seen, id)
    ensures ClientOk(seen + [f], up, side.conns, acceptor, next, id)
  {
    ClientHandles(client, side, f, id);
    if id in client.conns {
      var c, c' := client.conns[id], side.conns[id];
      ClientWriterHears(c, c', seen, f, id);
      Appended(seen, f, id);
      if f.id == id {
        EndHears(c, c', Kinds(seen, id), Payloads(seen, id), f.kind, Piece(f, id));
      } else {
        assert Payloads(seen + [f], id) == Payloads(seen, id);
      }
      assert EndOk(c', Kinds(seen + [f], id), Payloads(seen + [f], id));
      assert ReaderOk(c', Kinds(up.log, id), Payloads(up.log, id), [OPEN], up.open);
    }
    hide Kinds, Payloads, ReaderOk, WriterOk, EndOk, HandleAtClient;
  }

  lemma ClientConsumeShape(z: Zstd, s: State, s': State, f: Frame)
    requires HandlersOk(s) && IdsOk(s) && ReadyOk(s) && FrameOk(f) && LinkOk(z, s.down)
    requires ConsumeAtClient(z, s) == Some(s') && f == s.down.log[s.down.consumed]
    ensures Some(s'.client) == HandleAtClient(s.client, f)
    ensures s' == s.(down := s.down.(consumed := s.down.consumed + 1), client := s'.client, gotReady := s'.gotReady)
    ensures s'.gotReady == (s.gotReady || f.kind == READY) && s.client.handler == Idle
    ensures HandlersOk(s') && IdsOk(s') && ReadyOk(s') && LinkOk(z, s'.down)
  {
  }

  lemma ClientConsumeKeeps(z: Zstd, s: State, s': State)
    requires Inv(z, s) && Next(z, s, Consume(Client)) == Some(s')
    ensures Inv(z, s')
  {
    HeadOf(z, s.down);
    var f := s.down.log[s.down.consumed];
    ClientConsumeShape(z, s, s', f);
    hide Next, HandlersOk, IdsOk, ReadyOk, LinkOk;
    forall j: nat | j >= 1 ensures HostStreamOk(s', j) && ClientStreamOk(s', j) {
      assert HostStreamOk(s, j) && ClientStreamOk(s, j);
      if f.id == j && f.kind == DATA {
        PlaceInDownLog(s, j, s.down.consumed);
      }
      ClientHears(s.client, s'.client, SeenDown(s), s.up, s.acceptor, s.next, f, j);
    }
  }

  lemma HostDelivers(host: Side, host': Side, seen: seq<Frame>, down: Link, id: nat)
    requires HostOk(seen, down, host, id) && host.handler.Delivering?
    requires Offer(host, host.handler.id, host.handler.payload).Some?
    requires host' == Offer(host, host.handler.id, host.handler.payload).value.(handler := Idle)
    ensures HostOk(seen, down, host', id)
  {
    var payload := host.handler.payload;
    if id in host.conns && id == host.handler.id && host.conns[id].present {
      WriterQueues(host.conns[id], Payloads(seen, id), payload);
    }
    hide Kinds, Payloads, ReaderOk;
  }

  lemma DeliverKeeps(z: Zstd, s: State, s': State)
    requires Inv(z, s) && Next(z, s, Handling(Deliver)) == Some(s')
    ensures Inv(z, s')
  {
    forall j: nat | j >= 1 ensures HostStreamOk(s', j) && ClientStreamOk(s', j) {
      assert HostStreamOk(s, j) && ClientStreamOk(s, j);
      HostDelivers(s.host, s'.host, SeenUp(s), s.down, j);
    }
  }

  lemma FreshConnOk(base: seq<byte>, kinds: seq<byte>, lead: seq<byte>, open: bool)
    requires kinds == lead
    ensures ReaderOk(FreshConn(base), kinds, [], lead, open) && WriterOk(FreshConn(base), base, [])
  {
    assert FreshConn(base).Delivered() == [];
  }

  lemma HostConnects(host: Side, host': Side, seen: seq<Frame>, down: Link, id: nat)
    requires HostOk(seen, down, host, id) && host.handler.Connecting?
    requires host' == host.(handler := Idle,
      conns := host.conns[host.handler.id := FreshConn(Payloads(seen, host.handler.id))])
    ensures HostOk(seen, down, host', id)
  {
    if id == host.handler.id {
      NoDataNoPayload(seen, id);
      NoDataNoPayload(down.log, id);
      FreshEntryOk(seen, down, host', id);
      hide *;
    } else {
      hide Kinds, Payloads, ReaderOk, WriterOk, EndOk, FreshConn;
    }
  }

  lemma FreshEntryOk(seen: seq<Frame>, down: Link, host: Side, id: nat)
    requires id in host.conns && host.conns[id] == FreshConn([]) && host.handler == Idle
    requires Kinds(seen, id) == [OPEN] && Kinds(down.log, id) == []
    requires Payloads(seen, id) == Payloads(down.log, id) == []
    ensures HostOk(seen, down, host, id)
  {
    FreshConnOk([], [], [], down.open);
    FreshConnEnds(Kinds(seen, id));
    hide Kinds, Payloads, ReaderOk, WriterOk, EndOk, FreshConn;
  }

  lemma FreshConnEnds(heard: seq<byte>)
    ensures EndOk(FreshConn([]), heard, [])
    ensures FreshConn([]).base == [] && FreshConn([]).present
    ensures heard == [OPEN] ==> OPEN in heard && CLOSE !in heard
  {
  }

  lemma ConnectOkKeeps(z: Zstd, s: State, s': State)
    requires Inv(z, s) && Next(z, s, Handling(ConnectOk)) == Some(s')
    ensures Inv(z, s')
  {
    forall j: nat | j >= 1 ensures HostStreamOk(s', j) && ClientStreamOk(s', j) {
      assert HostStreamOk(s, j) && ClientStreamOk(s, j);
      HostConnects(s.host, s'.host, SeenUp(s), s.down, j);
    }
  }

  lemma ConnectFailsKeeps(z: Zstd, s: State, message: seq<byte>, s': State)
    requires Inv(z, s) && Next(z, s, Handling(ConnectFails(message))) == Some(s')
    ensures Inv(z, s')
  {
    forall j: nat | j >= 1 ensures HostStreamOk(s', j) && ClientStreamOk(s', j) {
      assert HostStreamOk(s, j) && ClientStreamOk(s, j);
    }
  }

  /** The host sends a frame of its own about stream `id`, or finds the link down and does not. */
  lemma SkipOrGrow(z: Zstd, l: Link, kind: byte, id: nat, payload: seq<byte>)
    requires LinkOk(z, l) && FrameOk(Frame(kind, id, payload)) && kind != READY
    requires SendOrSkip(l, kind, id, payload).Some?
    ensures var l' := SendOrSkip(l, kind, id, payload).value;
      && LinkOk(z, l') && Grew(l, l', id)
      && Kinds(l'.log, id) == Kinds(l.log, id) + if l.open then [kind] else []
  {
    if l.HasRoom() {
      SendKeepsLink(z, l, kind, id, payload);
      Appended(l.log, Frame(kind, id, payload), id);
    }
  }

  lemma HostRefuses(host: Side, host': Side, seen: seq<Frame>, down: Link, down': Link, id: nat, j: nat)
    requires HostOk(seen, down, host, j) && HostOk(seen, down, host, id) && Grew(down, down', id)
    requires Busy(host.handler, id)
    requires if host.handler.RefusingClose? then
        && host' == host.(handler := Idle)
        && Kinds(down'.log, id) == Kinds(down.log, id) + if down.open then [CLOSE] else []
      else
        && host' == host.(handler := RefusingClose(id))
        && Kinds(down'.log, id) == Kinds(down.log, id) + if down.open then [ERROR] else []
    ensures HostOk(seen, down', host', j)
  {
    if j != id {
      GrewElsewhere(down, down', id, j);
    }
    hide Kinds, Payloads, ReaderOk, WriterOk, EndOk;
    assert id !in host.conns;
  }

  lemma RefuseShape(z: Zstd, s: State, a: HandlerAction, s': State)
    requires HandlersOk(s) && IdsOk(s) && ReadyOk(s) && LinkOk(z, s.down)
    requires HandlerStep(s, a) == Some(s') && (a.Refuse? || a.RefuseClose?)
    ensures s' == s.(host := s'.host, down := s'.down) && s'.host == s.host.(handler := s'.host.handler)
    ensures HandlersOk(s') && IdsOk(s') && ReadyOk(s') && LinkOk(z, s'.down)
    ensures Busy(s.host.handler, s.host.handler.id) && Grew(s.down, s'.down, s.host.handler.id)
    ensures var id := s.host.handler.id;
      && s'.host.handler == (if a.Refuse? then RefusingClose(id) else Idle)
      && (a.RefuseClose? <==> s.host.handler.RefusingClose?)
      && Kinds(s'.down.log, id) == Kinds(s.down.log, id) +
           if s.down.open then [if a.Refuse? then ERROR else CLOSE] else []
  {
    var kind, payload := if a.Refuse? then ERROR else CLOSE, if a.Refuse? then s.host.handler.message else [];
    RefuseSends(s, a, kind, payload, s');
    SkipOrGrow(z, s.down, kind, s.host.handler.id, payload);
    RestUnmovedButRefusing(s, s', s.host.handler.id);
    hide LinkOk, Kinds, HandlersOk, ReadyOk, HandlerStep, SendOrSkip, Grew;
  }

  lemma RefuseSends(s: State, a: HandlerAction, kind: byte, payload: seq<byte>, s': State)
    requires HandlerStep(s, a) == Some(s') && (a.Refuse? || a.RefuseClose?)
    requires kind == if a.Refuse? then ERROR else CLOSE
    requires payload == if a.Refuse? then s.host.handler.message else []
    ensures var id := s.host.handler.id;
      && SendOrSkip(s.down, kind, id, payload) == Some(s'.down)
      && s' == s.(host := s.host.(handler := if a.Refuse? then RefusingClose(id) else Idle), down := s'.down)
      && (if a.Refuse? then s.host.handler.Refusing? else s.host.handler.RefusingClose?)
  {
    hide SendOrSkip;
  }

  lemma RestUnmovedButRefusing(s: State, s': State, id: nat)
    requires HandlersOk(s) && IdsOk(s) && ReadyOk(s) && Grew(s.down, s'.down, id) && 1 <= id < TWO64
    requires s' == s.(host := s.host.(handler := s'.host.handler), down := s'.down)
    requires s'.host.handler == RefusingClose(id) || s'.host.handler == Idle
    ensures HandlersOk(s') && IdsOk(s') && ReadyOk(s')
  {
    assert forall i :: 0 <= i < |s.down.log| ==> s'.down.log[i] == s.down.log[i];
  }

  lemma RefuseKeeps(z: Zstd, s: State, a: HandlerAction, s': State)
    requires Inv(z, s) && Next(z, s, Handling(a)) == Some(s') && (a.Refuse? || a.RefuseClose?)
    ensures Inv(z, s')
  {
    RefuseShape(z, s, a, s');
    var id := s.host.handler.id;
    SeenUnmoved(s.down, s'.down, id);
    assert HostStreamOk(s, id);
    hide Next, HandlersOk, IdsOk, ReadyOk, LinkOk, HostOk, ClientOk, Kinds, Grew;
    forall j: nat | j >= 1 ensures HostStreamOk(s', j) && ClientStreamOk(s', j) {
      assert HostStreamOk(s, j) && ClientStreamOk(s, j);
      HostRefuses(s.host, s'.host, SeenUp(s), s.down, s'.down, id, j);
    }
  }

  // Control frames, the accept loop, links

  lemma ControlIsSilent(l: Link, kind: byte, payload: seq<byte>, id: nat)
    requires IsControl(kind) && id >= 1
    ensures var l' := l.Send(kind, 0, payload);
      Kinds(l'.log, id) == Kinds(l.log, id) && Payloads(l'.log, id) == Payloads(l.log, id)
  {
    Appended(l.log, Frame(kind, 0, payload), id);
  }

  lemma HostUnmoved(seen: seq<Frame>, down: Link, down': Link, host: Side, host': Side, id: nat)
    requires HostOk(seen, down, host, id)
    requires Kinds(down'.log, id) == Kinds(down.log, id) && Payloads(down'.log, id) == Payloads(down.log, id)
    requires down'.open ==> down.open
    requires host'.conns == host.conns
    requires host'.handler == host.handler || (host.handler.Replying? && host'.handler.Idle?)
    ensures HostOk(seen, down', host', id)
  {
    if id in host.conns && down.open && !down'.open {
      ReaderLosesLink(host.conns[id], Kinds(down.log, id), Payloads(down.log, id), []);
    }
    hide Kinds, Payloads, ReaderOk, WriterOk, EndOk;
  }

  lemma ClientUnmoved(seen: seq<Frame>, up: Link, up': Link, conns: map<nat, Conn>, acceptor: Acceptor, next: nat,
      id: nat)
    requires ClientOk(seen, up, conns, acceptor, next, id)
    requires Kinds(up'.log, id) == Kinds(up.log, id) && Payloads(up'.log, id) == Payloads(up.log, id)
    requires up'.open ==> up.open
    ensures ClientOk(seen, up', conns, acceptor, next, id)
  {
    if id in conns && up.open && !up'.open {
      ReaderLosesLink(conns[id], Kinds(up.log, id), Payloads(up.log, id), [OPEN]);
    }
    hide Kinds, Payloads, ReaderOk, WriterOk, EndOk;
  }

  lemma HostControlKeeps(z: Zstd, s: State, kind: byte, payload: seq<byte>, s': State)
    requires Inv(z, s) && s.down.HasRoom() && IsControl(kind) && (kind == READY ==> s.up.consumed > 0)
    requires s' == s.(host := s.host.(handler := s'.host.handler), down := s.down.Send(kind, 0, payload))
    requires s'.host.handler == s.host.handler || (s.host.handler.Replying? && s'.host.handler.Idle?)
    ensures Inv(z, s')
  {
    SendKeepsLink(z, s.down, kind, 0, payload);
    assert SeenDown(s') == SeenDown(s);
    forall j: nat | j >= 1 ensures HostStreamOk(s', j) && ClientStreamOk(s', j) {
      assert HostStreamOk(s, j) && ClientStreamOk(s, j);
      ControlIsSilent(s.down, kind, payload, j);
      HostUnmoved(SeenUp(s), s.down, s'.down, s.host, s'.host, j);
    }
  }

  lemma HostReplyKeeps(z: Zstd, s: State, s': State)
    requires Inv(z, s) && Next(z, s, Reply(Host)) == Some(s')
    ensures Inv(z, s')
  {
    if s.down.HasRoom() {
      HostControlKeeps(z, s, s.host.handler.kind, s.host.handler.payload, s');
    } else {
      assert s' == s.(host := s.host.(handler := Idle));
      forall j: nat | j >= 1 ensures HostStreamOk(s', j) && ClientStreamOk(s', j) {
        assert HostStreamOk(s, j) && ClientStreamOk(s, j);
        HostUnmoved(SeenUp(s), s.down, s.down, s.host, s'.host, j);
      }
    }
  }

  lemma HostPingKeeps(z: Zstd, s: State, stamp: seq<byte>, s': State)
    requires Inv(z, s) && Next(z, s, Ping(Host, stamp)) == Some(s')
    ensures Inv(z, s')
  {
    HostControlKeeps(z, s, PING, stamp, s');
  }

  lemma ClientControlKeeps(z: Zstd, s: State, kind: byte, payload: seq<byte>, s': State)
    requires Inv(z, s) && s.up.HasRoom() && (kind == PING || kind == PONG)
    requires s' == s.(client := s.client.(handler := s'.client.handler), up := s.up.Send(kind, 0, payload))
    requires s'.client.handler == s.client.handler || s'.client.handler == Idle
    ensures Inv(z, s')
  {
    SendKeepsLink(z, s.up, kind, 0, payload);
    assert SeenUp(s') == SeenUp(s);
    forall j: nat | j >= 1 ensures HostStreamOk(s', j) && ClientStreamOk(s', j) {
      assert HostStreamOk(s, j) && ClientStreamOk(s, j);
      ControlIsSilent(s.up, kind, payload, j);
      ClientUnmoved(SeenDown(s), s.up, s'.up, s.client.conns, s.acceptor, s.next, j);
    }
  }

  lemma ClientReplyKeeps(z: Zstd, s: State, s': State)
    requires Inv(z, s) && Next(z, s, Reply(Client)) == Some(s')
    ensures Inv(z, s')
  {
    if s.up.HasRoom() {
      ClientControlKeeps(z, s, PONG, s.client.handler.payload, s');
    } else {
      SameStreams(s, s');
    }
  }

  /** A step that touches no log, cursor, stream or id. */
  lemma SameStreams(s: State, s': State)
    requires forall id: nat :: id >= 1 ==> HostStreamOk(s, id)
    requires forall id: nat :: id >= 1 ==> ClientStreamOk(s, id)
    requires s'.client.conns == s.client.conns && s'.host.conns == s.host.conns
    requires s'.up.log == s.up.log && s'.up.consumed == s.up.consumed && (s'.up.open ==> s.up.open)
    requires s'.down.log == s.down.log && s'.down.consumed == s.down.consumed && (s'.down.open ==> s.down.open)
    requires s'.next == s.next && s'.acceptor == s.acceptor
    requires s'.host.handler == s.host.handler || s.host.handler.Idle?
    requires s'.host.handler == s.host.handler || s'.host.handler.Stopped?
    ensures forall id: nat :: id >= 1 ==> HostStreamOk(s', id)
    ensures forall id: nat :: id >= 1 ==> ClientStreamOk(s', id)
  {
    forall j: nat | j >= 1 ensures HostStreamOk(s', j) && ClientStreamOk(s', j) {
      assert HostStreamOk(s, j) && ClientStreamOk(s, j);
      HostStops(SeenUp(s), s.down, s'.down, s.host, s'.host, j);
      ClientUnmoved(SeenDown(s), s.up, s'.up, s.client.conns, s.acceptor, s.next, j);
    }
  }

  lemma HostStops(seen: seq<Frame>, down: Link, down': Link, host: Side, host': Side, id: nat)
    requires HostOk(seen, down, host, id)
    requires down'.log == down.log && (down'.open ==> down.open) && host'.conns == host.conns
    requires host'.handler == host.handler || (host.handler.Idle? && host'.handler.Stopped?)
    ensures HostOk(seen, down', host', id)
  {
    if id in host.conns && down.open && !down'.open {
      ReaderLosesLink(host.conns[id], Kinds(down.log, id), Payloads(down.log, id), []);
    }
    hide Kinds, Payloads, ReaderOk, WriterOk, EndOk;
  }

  lemma QuietShape(z: Zstd, s: State, a: Action, s': State)
    requires HandlersOk(s) && IdsOk(s) && ReadyOk(s) && LinkOk(z, s.up) && LinkOk(z, s.down)
    requires Next(z, s, a) == Some(s') && (a.Transmit? || a.LinkDies? || a.SessionEnds? || a.Cancel?)
    ensures HandlersOk(s') && IdsOk(s') && ReadyOk(s') && LinkOk(z, s'.up) && LinkOk(z, s'.down)
  {
    match a
    case Transmit(Client) =>
    case Transmit(Host) =>
    case _ => hide LinkOk;
  }

  lemma QuietKeeps(z: Zstd, s: State, a: Action, s': State)
    requires Inv(z, s) && Next(z, s, a) == Some(s')
    requires a.Transmit? || a.LinkDies? || a.SessionEnds? || a.Cancel?
    ensures Inv(z, s')
  {
    QuietShape(z, s, a, s');
    hide HandlersOk, IdsOk, ReadyOk, LinkOk, HostStreamOk, ClientStreamOk;
    SameStreams(s, s');
  }

  lemma AcceptorKeepsStream(s: State, s': State, id: nat)
    requires HostStreamOk(s, id) && ClientStreamOk(s, id)
    requires s' == s.(acceptor := s'.acceptor, next := s'.next)
    requires if s'.acceptor.Opening? then
        s.acceptor == Listening && s'.acceptor.id == s.next && s'.next == s.next + 1
      else (s'.acceptor.Listening? || s'.acceptor.AcceptorStopped?) && s'.next == s.next
    requires id == s.next ==> id !in s.client.conns
    ensures HostStreamOk(s', id) && ClientStreamOk(s', id)
  {
    hide Kinds, Payloads, ReaderOk, WriterOk, EndOk;
  }

  lemma AcceptShape(z: Zstd, s: State, a: AcceptAction, s': State)
    requires HandlersOk(s) && IdsOk(s) && ReadyOk(s)
    requires Next(z, s, Accepting(a)) == Some(s') && s'.next <= TWO64
    requires a.Accept? || a.SendOpenFails? || a.AcceptorStops?
    ensures s' == s.(acceptor := s'.acceptor, next := s'.next)
    ensures if s'.acceptor.Opening? then s.acceptor == Listening && s'.acceptor.id == s.next && s'.next == s.next + 1
      else s'.acceptor.AcceptorStopped? && s'.next == s.next
    ensures HandlersOk(s') && IdsOk(s') && ReadyOk(s')
  {
  }

  lemma AcceptKeeps(z: Zstd, s: State, a: AcceptAction, s': State)
    requires Inv(z, s) && Next(z, s, Accepting(a)) == Some(s') && s'.next <= TWO64
    requires a.Accept? || a.SendOpenFails? || a.AcceptorStops?
    ensures Inv(z, s')
  {
    AcceptShape(z, s, a, s');
    assert ClientStreamOk(s, s.next);
    hide Next, HandlersOk, ReadyOk, LinkOk, HostOk;
    forall j: nat | j >= 1 ensures HostStreamOk(s', j) && ClientStreamOk(s', j) {
      assert HostStreamOk(s, j) && ClientStreamOk(s, j);
      AcceptorKeepsStream(s, s', j);
    }
  }

  lemma ClientOpens(seen: seq<Frame>, up: Link, up': Link, conns: map<nat, Conn>, next: nat, id: nat, j: nat)
    requires ClientOk(seen, up, conns, Opening(id), next, j) && Grew(up, up', id)
    requires Kinds(up'.log, id) == Kinds(up.log, id) + [OPEN]
    ensures ClientOk(seen, up', conns, Registering(id), next, j)
  {
    if j != id {
      GrewElsewhere(up, up', id, j);
    }
    hide Kinds, Payloads, ReaderOk, WriterOk, EndOk;
  }

  lemma SendOpenKeeps(z: Zstd, s: State, s': State)
    requires Inv(z, s) && Next(z, s, Accepting(SendOpen)) == Some(s')
    ensures Inv(z, s')
  {
    var id := s.acceptor.id;
    SkipOrGrow(z, s.up, OPEN, id, []);
    SeenUnmoved(s.up, s'.up, id);
    forall j: nat | j >= 1 ensures HostStreamOk(s', j) && ClientStreamOk(s', j) {
      assert HostStreamOk(s, j) && ClientStreamOk(s, j);
      ClientOpens(SeenDown(s), s.up, s'.up, s.client.conns, s.next, id, j);
    }
  }

  lemma ClientRegisters(s: State, s': State, id: nat, j: nat)
    requires ClientStreamOk(s, j) && s.acceptor == Registering(id)
    requires s' == s.(acceptor := Listening, client := s.client.(
      conns := s.client.conns[id := FreshConn(Payloads(SeenDown(s), id))]))
    ensures ClientStreamOk(s', j)
  {
    if j == id {
      NoDataNoPayload(s.up.log, id);
      FreshConnOk(Payloads(SeenDown(s), id), [OPEN], [OPEN], s.up.open);
    } else {
      hide Kinds, Payloads, ReaderOk, WriterOk, EndOk;
    }
  }

  lemma RegisterKeeps(z: Zstd, s: State, s': State)
    requires Inv(z, s) && Next(z, s, Accepting(Register)) == Some(s')
    ensures Inv(z, s')
  {
    forall j: nat | j >= 1 ensures HostStreamOk(s', j) && ClientStreamOk(s', j) {
      assert HostStreamOk(s, j) && ClientStreamOk(s, j);
      ClientRegisters(s, s', s.acceptor.id, j);
    }
  }

  // All steps together

  lemma StepKeeps(z: Zstd, s: State, a: Action, s': State)
    requires z.Lossless() && Inv(z, s) && Next(z, s, a) == Some(s') && s'.next <= TWO64
    ensures Inv(z, s')
  {
    hide Inv;
    match a
    case Pump(Client, id, p) => ClientPumpKeeps(z, s, id, p, s');
    case Pump(Host, id, p) => HostPumpKeeps(z, s, id, p, s');
    case Consume(Client) => ClientConsumeKeeps(z, s, s');
    case Consume(Host) => HostConsumeKeeps(z, s, s');
    case Handling(Deliver) => DeliverKeeps(z, s, s');
    case Handling(ConnectOk) => ConnectOkKeeps(z, s, s');
    case Handling(ConnectFails(message)) => ConnectFailsKeeps(z, s, message, s');
    case Handling(h) => RefuseKeeps(z, s, h, s');
    case Reply(Client) => ClientReplyKeeps(z, s, s');
    case Reply(Host) => HostReplyKeeps(z, s, s');
    case Ping(Client, stamp) => ClientPingKeeps(z, s, stamp, s');
    case Ping(Host, stamp) => HostPingKeeps(z, s, stamp, s');
    case Accepting(SendOpen) => SendOpenKeeps(z, s, s');
    case Accepting(Register) => RegisterKeeps(z, s, s');
    case Accepting(x) => AcceptKeeps(z, s, x, s');
    case _ => QuietKeeps(z, s, a, s');
  }

  lemma ClientPingKeeps(z: Zstd, s: State, stamp: seq<byte>, s': State)
    requires Inv(z, s) && Next(z, s, Ping(Client, stamp)) == Some(s')
    ensures Inv(z, s')
  {
    ClientControlKeeps(z, s, PING, stamp, s');
  }

  lemma NextGrows(z: Zstd, s: State, a: Action, s': State)
    requires Next(z, s, a) == Some(s')
    ensures s.next <= s'.next
  {
  }

  /** Every run that accepts fewer than 2^64 - 1 connections keeps the invariant throughout. */
  lemma {:induction false} RunKeeps(z: Zstd, actions: seq<Action>)
    requires z.Lossless() && Run(z, actions).Some? && Run(z, actions).value.next <= TWO64
    ensures Inv(z, Run(z, actions).value)
  {
    if actions == [] {
      InitHolds(z);
    } else {
      var n := |actions| - 1;
      var s, s' := Run(z, actions[..n]).value, Run(z, actions).value;
      NextGrows(z, s, actions[n], s');
      RunKeeps(z, actions[..n]);
      StepKeeps(z, s, actions[n], s');
    }
  }
}
