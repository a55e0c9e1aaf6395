/** Concrete runs: a stream's first bytes never reach the client's socket; a refused stream's entry stays. */
module RelayWitness {
  import opened Bytes
  import opened Options
  import opened FrameCodec
  import opened RelayModel
  import opened RelayInvariant
  import opened RelayTheorems
  import opened RelayAnswers

  lemma Extend(z: Zstd, actions: seq<Action>, s: State, a: Action, s': State)
    requires Run(z, actions) == Some(s) && Next(z, s, a) == Some(s')
    ensures Run(z, actions + [a]) == Some(s')
  {
    assert (actions + [a])[..|actions|] == actions;
  }

  /**
   * The OPEN of stream 1 is on the wire but the client has not made its entry; the host has yet to consume anything.
   */
  lemma OpenIsSent(z: Zstd) returns (actions: seq<Action>, s: State)
    ensures Run(z, actions) == Some(s)
    ensures s == Init().(acceptor := Registering(1), next := 2, up := Init().up.Send(OPEN, 1, []).(taken := 2))
  {
    s := Init();
    actions := [];
    var up := s.up.Send(OPEN, 1, []);
    var s1 := s.(acceptor := Opening(1), next := 2);
    Extend(z, actions, s, Accepting(Accept), s1);
    hide Run;
    var s2 := s1.(acceptor := Registering(1), up := up);
    Extend(z, actions + [Accepting(Accept)], s1, Accepting(SendOpen), s2);
    actions := actions + [Accepting(Accept)] + [Accepting(SendOpen)];
    s := s2.(up := up.(taken := 2));
    Extend(z, actions, s2, Transmit(Client), s);
    actions := actions + [Transmit(Client)];
  }

  /** The host has answered the HELLO and is connecting stream 1 to the game. */
  lemma HostConnecting(z: Zstd) returns (actions: seq<Action>, s: State)
    ensures Run(z, actions) == Some(s)
    ensures s.acceptor == Registering(1) && s.client == Side(map[], Idle, false) && s.next == 2
    ensures s.host == Side(map[], Connecting(1), false)
    ensures s.up.log == [Frame(HELLO, 0, []), Frame(OPEN, 1, [])] && s.up.consumed == 2
    ensures s.down == Link([EncodeFrame(READY, 0, [])], [Frame(READY, 0, [])], 0, 0, true)
  {
    DecodeEncode(z, HELLO, 0, []);
    DecodeEncode(z, OPEN, 1, []);
    actions, s := OpenIsSent(z);
    hide Run, EncodeFrame, DecodeFrame;
    var up := s.up;
    var s1 := s.(up := up.(consumed := 1), host := s.host.(handler := Replying(READY, 0, [])));
    Extend(z, actions, s, Consume(Host), s1);
    actions := actions + [Consume(Host)];
    var s2 := s1.(host := s.host, down := s.down.Send(READY, 0, []));
    Extend(z, actions, s1, Reply(Host), s2);
    s := s2.(up := up.(consumed := 2), host := s.host.(handler := Connecting(1)));
    Extend(z, actions + [Reply(Host)], s2, Consume(Host), s);
    actions := actions + [Reply(Host)] + [Consume(Host)];
  }

  /** The host has the stream up. */
  lemma HostConnectsFirst(z: Zstd) returns (actions: seq<Action>, s: State)
    ensures Run(z, actions) == Some(s)
    ensures s.acceptor == Registering(1) && s.client == Side(map[], Idle, false) && s.next == 2
    ensures s.host == Side(map[1 := FreshConn([])], Idle, false)
    ensures s.down == Link([EncodeFrame(READY, 0, [])], [Frame(READY, 0, [])], 0, 0, true)
  {
    var before, s0 := HostConnecting(z);
    assert s0.up.log[..Min(s0.up.consumed, |s0.up.log|)] == [Frame(HELLO, 0, []), Frame(OPEN, 1, [])];
    TwoControls(Frame(HELLO, 0, []), Frame(OPEN, 1, []), 1);
    hide Run, Payloads;
    s := s0.(host := Side(map[1 := FreshConn([])], Idle, false));
    Extend(z, before, s0, Handling(ConnectOk), s);
    actions := before + [Handling(ConnectOk)];
  }

  lemma TwoControls(f: Frame, g: Frame, id: nat)
    ensures Payloads([f, g], id) == Piece(f, id) + Piece(g, id)
  {
    assert [f, g] == [f] + [g] && [f] == [] + [f];
    Appended([f], g, id);
    Appended([], f, id);
  }

  /** The host has read [7] from stream 1's socket and sent it on. */
  lemma HostSendsFirst(z: Zstd) returns (actions: seq<Action>, s: State)
    requires z.Lossless()
    ensures Run(z, actions) == Some(s)
    ensures s.acceptor == Registering(1) && s.client == Side(map[], Idle, false) && s.next == 2
    ensures Got(s.host, 1) == [7]
    ensures s.down == Link(
      [EncodeFrame(READY, 0, []), EncodeData(z, 1, [7])], [Frame(READY, 0, []), Frame(DATA, 1, [7])], 2, 0, true)
  {
    actions, s := HostConnectsFirst(z);
    hide Run;
    var c := s.host.conns[1];
    var c1 := c.(got := [7], hold := [7], reader := Sending);
    assert c.got + [7] == [7];
    var s1 := s.(host := s.host.(conns := s.host.conns[1 := c1]));
    Extend(z, actions, s, Pump(Host, 1, Read([7])), s1);
    var down := s.down.Push(EncodeData(z, 1, [7]), Frame(DATA, 1, [7]));
    var s2 := s1.(host := s1.host.(conns := s1.host.conns[1 := c1.(hold := [], reader := Reading)]), down := down);
    Extend(z, actions + [Pump(Host, 1, Read([7]))], s1, Pump(Host, 1, SendChunk), s2);
    actions := actions + [Pump(Host, 1, Read([7]))] + [Pump(Host, 1, SendChunk)];
    var s3 := s2.(down := down.(taken := 1));
    Extend(z, actions, s2, Transmit(Host), s3);
    s := s3.(down := down.(taken := 2));
    Extend(z, actions + [Transmit(Host)], s3, Transmit(Host), s);
    actions := actions + [Transmit(Host)] + [Transmit(Host)];
  }

  /** The client has consumed it, but is still to make the entry. */
  lemma ClientHearsFirst(z: Zstd) returns (actions: seq<Action>, s: State)
    requires z.Lossless()
    ensures Run(z, actions) == Some(s)
    ensures s.acceptor == Registering(1) && s.client == Side(map[], Idle, false) && s.next == 2 && Got(s.host, 1) == [7]
    ensures s.down.log == [Frame(READY, 0, []), Frame(DATA, 1, [7])] && s.down.consumed == 2
  {
    var before, s0 := HostSendsFirst(z);
    DecodeEncode(z, READY, 0, []);
    DecodeEncodeData(z, 1, [7]);
    hide Run, EncodeFrame, EncodeData, DecodeFrame;
    var s1 := s0.(down := s0.down.(consumed := 1), gotReady := true);
    Extend(z, before, s0, Consume(Client), s1);
    s := s1.(down := s1.down.(consumed := 2));
    Extend(z, before + [Consume(Client)], s1, Consume(Client), s);
    actions := before + [Consume(Client)] + [Consume(Client)];
  }

  /** The host read [7] for stream 1; the client consumed that frame before making the entry, so it is gone. */
  lemma FirstBytesCanBeLost(z: Zstd) returns (actions: seq<Action>, s: State)
    requires z.Lossless()
    ensures ReachedBy(z, actions, s) && s.client.Has(1)
    ensures Got(s.host, 1) == [7] && s.client.conns[1].base == [7] && s.client.conns[1].Delivered() == []
  {
    var before, s0 := ClientHearsFirst(z);
    TwoControls(Frame(READY, 0, []), Frame(DATA, 1, [7]), 1);
    assert s0.down.log[..Min(s0.down.consumed, |s0.down.log|)] == [Frame(READY, 0, []), Frame(DATA, 1, [7])];
    assert Payloads([Frame(READY, 0, []), Frame(DATA, 1, [7])], 1) == [7];
    hide Run, Payloads;
    s := s0.(acceptor := Listening, client := s0.client.(conns := s0.client.conns[1 := FreshConn([7])]));
    Extend(z, before, s0, Accepting(Register), s);
    actions := before + [Accepting(Register)];
  }

  /** The host could not connect: ERROR and CLOSE for stream 1 are on the wire, the client has yet to make the entry. */
  lemma HostRefusesFirst(z: Zstd) returns (actions: seq<Action>, s: State)
    ensures Run(z, actions) == Some(s)
    ensures s.acceptor == Registering(1) && s.client == Side(map[], Idle, false) && s.next == 2
    ensures s.host == Side(map[], Idle, false) && s.down.taken == 3 && s.down.consumed == 0
    ensures s.down.raw == [EncodeFrame(READY, 0, []), EncodeFrame(ERROR, 1, []), EncodeFrame(CLOSE, 1, [])]
    ensures s.down.log == [Frame(READY, 0, []), Frame(ERROR, 1, []), Frame(CLOSE, 1, [])]
  {
    var before, s0 := HostConnecting(z);
    hide Run, EncodeFrame;
    var s1 := s0.(host := s0.host.(handler := Refusing(1, [])));
    Extend(z, before, s0, Handling(ConnectFails([])), s1);
    before := before + [Handling(ConnectFails([]))];
    var down := s0.down.Send(ERROR, 1, []);
    var s2 := s1.(host := s1.host.(handler := RefusingClose(1)), down := down);
    Extend(z, before, s1, Handling(Refuse), s2);
    before := before + [Handling(Refuse)];
    down := down.Send(CLOSE, 1, []);
    var s3 := s2.(host := s2.host.(handler := Idle), down := down);
    Extend(z, before, s2, Handling(RefuseClose), s3);
    before := before + [Handling(RefuseClose)];
    var s4 := s3.(down := down.(taken := 1));
    Extend(z, before, s3, Transmit(Host), s4);
    var s5 := s3.(down := down.(taken := 2));
    Extend(z, before + [Transmit(Host)], s4, Transmit(Host), s5);
    s := s3.(down := down.(taken := 3));
    Extend(z, before + [Transmit(Host)] + [Transmit(Host)], s5, Transmit(Host), s);
    actions := before + [Transmit(Host)] + [Transmit(Host)] + [Transmit(Host)];
  }

  /** The client has consumed both, and has yet to make the entry. */
  lemma ClientHearsRefusal(z: Zstd) returns (actions: seq<Action>, s: State)
    requires z.Lossless()
    ensures Run(z, actions) == Some(s)
    ensures s.acceptor == Registering(1) && s.client == Side(map[], Idle, false) && s.next == 2
    ensures s.host == Side(map[], Idle, false) && s.down.consumed == 3
    ensures s.down.log == [Frame(READY, 0, []), Frame(ERROR, 1, []), Frame(CLOSE, 1, [])]
  {
    var before, s0 := HostRefusesFirst(z);
    DecodeEncode(z, READY, 0, []);
    DecodeEncode(z, ERROR, 1, []);
    DecodeEncode(z, CLOSE, 1, []);
    hide Run, EncodeFrame, DecodeFrame, Payloads;
    var s1 := s0.(down := s0.down.(consumed := 1), gotReady := true);
    Extend(z, before, s0, Consume(Client), s1);
    var s2 := s1.(down := s0.down.(consumed := 2));
    Extend(z, before + [Consume(Client)], s1, Consume(Client), s2);
    s := s2.(down := s0.down.(consumed := 3));
    Extend(z, before + [Consume(Client)] + [Consume(Client)], s2, Consume(Client), s);
    actions := before + [Consume(Client)] + [Consume(Client)] + [Consume(Client)];
  }

  /**
   * A refused stream whose ERROR and CLOSE the client consumed before making the entry: the entry is made all the same,
   * the host has none, and nothing the host will send can take it away.
   */
  lemma RefusedEntryStays(z: Zstd) returns (actions: seq<Action>, s: State)
    requires z.Lossless()
    ensures ReachedBy(z, actions, s) && s.client.Has(1) && 1 !in s.host.conns && s.host.handler == Idle
    ensures EndIn(SeenDown(s), 1) && s.down.consumed == |s.down.log|
  {
    var before, s0 := ClientHearsRefusal(z);
    hide Run, Payloads;
    var base := Payloads(s0.down.log[..Min(s0.down.consumed, |s0.down.log|)], 1);
    s := s0.(acceptor := Listening, client := s0.client.(conns := s0.client.conns[1 := FreshConn(base)]));
    Extend(z, before, s0, Accepting(Register), s);
    actions := before + [Accepting(Register)];
    assert IsEnd(SeenDown(s)[1], 1);
  }
}
