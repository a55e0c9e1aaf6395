/** What each side of the multiplexer owes the other for the messages it consumed: replies, and the end of entries. */
module RelayAnswers {
  import opened Bytes
  import opened Options
  import opened FrameCodec
  import opened RelayModel
  import opened RelayInvariant
  import opened RelaySteps
  import opened RelayTheorems

  // Replies

  /** The control reply the host owes for one frame: READY for HELLO, and the same payload back for PING. */
  function HostReply(f: Frame): seq<Frame> {
    if f.kind == HELLO then [Frame(READY, 0, [])]
    else if f.kind == PING then [Frame(PONG, f.id, f.payload)]
    else []
  }

  function ClientReply(f: Frame): seq<Frame> {
    if f.kind == PING then [Frame(PONG, f.id, f.payload)] else []
  }

  function HostOwes(heard: seq<Frame>): seq<Frame> {
    if heard == [] then [] else HostOwes(heard[..|heard| - 1]) + HostReply(heard[|heard| - 1])
  }

  function ClientOwes(heard: seq<Frame>): seq<Frame> {
    if heard == [] then [] else ClientOwes(heard[..|heard| - 1]) + ClientReply(heard[|heard| - 1])
  }

  predicate IsReply(f: Frame) {
    f.kind == READY || f.kind == PONG
  }

  /** The replies among the frames sent. */
  function Replies(log: seq<Frame>): seq<Frame> {
    if log == [] then []
    else Replies(log[..|log| - 1]) + if IsReply(log[|log| - 1]) then [log[|log| - 1]] else []
  }

  function InHand(h: Handler): seq<Frame> {
    if h.Replying? then [Frame(h.kind, h.id, h.payload)] else []
  }

  predicate HeardReady(heard: seq<Frame>) {
    exists i :: 0 <= i < |heard| && heard[i].kind == READY
  }

  /** Replies are sent in order; while the link is up, sent and in hand are exactly what is owed. */
  predicate Paid(out: Link, h: Handler, owed: seq<Frame>) {
    Replies(out.log) <= owed && (out.open ==> Replies(out.log) + InHand(h) == owed)
  }

  predicate Answered(s: State) {
    && Paid(s.down, s.host.handler, HostOwes(SeenUp(s)))
    && Paid(s.up, s.client.handler, ClientOwes(SeenDown(s)))
    && (s.gotReady <==> HeardReady(SeenDown(s)))
    && (s.host.handler.Replying? ==> IsReply(InHand(s.host.handler)[0]))
    && (s.client.handler.Replying? ==> IsReply(InHand(s.client.handler)[0]))
  }

  lemma RepliesSnoc(log: seq<Frame>, f: Frame)
    ensures Replies(log + [f]) == Replies(log) + if IsReply(f) then [f] else []
  {
    assert (log + [f])[..|log|] == log;
  }

  lemma OwesSnoc(heard: seq<Frame>, f: Frame)
    ensures HostOwes(heard + [f]) == HostOwes(heard) + HostReply(f)
    ensures ClientOwes(heard + [f]) == ClientOwes(heard) + ClientReply(f)
  {
    assert (heard + [f])[..|heard|] == heard;
  }

  lemma HeardReadySnoc(heard: seq<Frame>, f: Frame)
    ensures HeardReady(heard + [f]) <==> HeardReady(heard) || f.kind == READY
  {
    assert (heard + [f])[|heard|] == f;
    if HeardReady(heard) {
      var i :| 0 <= i < |heard| && heard[i].kind == READY;
      assert (heard + [f])[i].kind == READY;
    }
  }

  /** `to` is `from` with at most one frame more, not a reply; the link may have died. */
  ghost predicate Calm(from: Link, to: Link) {
    && to.consumed == from.consumed && (to.open ==> from.open)
    && (to.log == from.log || exists f: Frame :: to.log == from.log + [f] && !IsReply(f))
  }

  lemma CalmPays(from: Link, to: Link, h: Handler, owed: seq<Frame>)
    requires Paid(from, h, owed) && Calm(from, to)
    ensures Paid(to, h, owed)
  {
    if to.log != from.log {
      var f :| to.log == from.log + [f] && !IsReply(f);
      RepliesSnoc(from.log, f);
    }
    hide Replies;
  }

  lemma CalmSeen(from: Link, to: Link)
    requires Calm(from, to) && from.consumed <= |from.log|
    ensures to.log[..Min(to.consumed, |to.log|)] == from.log[..Min(from.consumed, |from.log|)]
  {
  }

  /** Everything but consuming and replying is calm on both links and leaves handlers' replies alone. */
  ghost predicate CalmStep(s: State, s': State) {
    && Calm(s.up, s'.up) && Calm(s.down, s'.down) && s'.gotReady == s.gotReady
    && InHand(s'.host.handler) == InHand(s.host.handler) && InHand(s'.client.handler) == InHand(s.client.handler)
  }

  lemma PushIsCalm(l: Link, bytes: seq<byte>, f: Frame)
    requires !IsReply(f)
    ensures Calm(l, l.Push(bytes, f))
  {
  }

  lemma PumpIsCalm(z: Zstd, c: Conn, cancelled: bool, out: Link, id: nat, a: PumpAction)
    requires PumpConn(z, c, cancelled, out, id, a).Some?
    ensures Calm(out, PumpConn(z, c, cancelled, out, id, a).value.1)
  {
    match a
    case SendChunk => PushIsCalm(out, EncodeData(z, id, c.hold), Frame(DATA, id, c.hold));
    case SendClose => PushIsCalm(out, EncodeFrame(CLOSE, id, []), Frame(CLOSE, id, []));
    case _ =>
  }

  lemma SendIsCalm(l: Link, kind: byte, id: nat, payload: seq<byte>)
    requires kind != READY && kind != PONG
    ensures Calm(l, l.Send(kind, id, payload)) && Calm(l, l)
  {
    PushIsCalm(l, EncodeFrame(kind, id, payload), Frame(kind, id, payload));
  }

  lemma HandlingIsCalm(s: State, a: HandlerAction, s': State)
    requires HandlerStep(s, a) == Some(s')
    ensures CalmStep(s, s')
  {
    match a
    case Refuse => SendIsCalm(s.down, ERROR, s.host.handler.id, s.host.handler.message);
    case RefuseClose => SendIsCalm(s.down, CLOSE, s.host.handler.id, []);
    case _ =>
  }

  lemma AcceptIsCalm(s: State, a: AcceptAction, s': State)
    requires AcceptStep(s, a) == Some(s')
    ensures CalmStep(s, s')
  {
    if a.SendOpen? {
      SendIsCalm(s.up, OPEN, s.acceptor.id, []);
    }
  }

  lemma OthersAreCalm(z: Zstd, s: State, a: Action, s': State)
    requires Next(z, s, a) == Some(s') && !a.Consume? && !a.Reply?
    ensures CalmStep(s, s')
  {
    match a
    case Accepting(accept) => AcceptIsCalm(s, accept, s');
    case Handling(handling) => HandlingIsCalm(s, handling, s');
    case Pump(Client, id, p) => PumpIsCalm(z, s.client.conns[id], s.client.cancelled, s.up, id, p);
    case Pump(Host, id, p) => PumpIsCalm(z, s.host.conns[id], s.host.cancelled, s.down, id, p);
    case Ping(Client, stamp) => SendIsCalm(s.up, PING, 0, stamp);
    case Ping(Host, stamp) => SendIsCalm(s.down, PING, 0, stamp);
    case _ =>
  }

  lemma CalmKeeps(z: Zstd, s: State, s': State)
    requires Answered(s) && CalmStep(s, s') && LinkOk(z, s.up) && LinkOk(z, s.down)
    ensures Answered(s')
  {
    CalmSeen(s.up, s'.up);
    CalmSeen(s.down, s'.down);
    CalmPays(s.down, s'.down, s.host.handler, HostOwes(SeenUp(s)));
    CalmPays(s.up, s'.up, s.client.handler, ClientOwes(SeenDown(s)));
    hide Replies, HostOwes, ClientOwes, Calm, LinkOk, HeardReady;
  }

  lemma HostConsumeKeepsAnswers(z: Zstd, s: State, s': State)
    requires Inv(z, s) && Answered(s) && Next(z, s, Consume(Host)) == Some(s')
    ensures Answered(s')
  {
    HeadOf(z, s.up);
    var f := s.up.log[s.up.consumed];
    HostConsumeShape(z, s, s', f);
    HostTakesUp(s.host, f);
    HostPaysMore(s, s', f);
    hide *;
  }

  lemma HostPaysMore(s: State, s': State, f: Frame)
    requires Answered(s) && s.host.handler == Idle && InHand(s'.host.handler) == HostReply(f)
    requires s' == s.(up := s.up.(consumed := s'.up.consumed), host := s'.host) && SeenUp(s') == SeenUp(s) + [f]
    requires s'.host.handler.Replying? ==> IsReply(InHand(s'.host.handler)[0])
    ensures Answered(s')
  {
    OwesSnoc(SeenUp(s), f);
    PaidMore(s.down, s.host.handler, s'.host.handler, HostOwes(SeenUp(s)), HostReply(f));
    hide Replies, HostOwes, ClientOwes, HeardReady;
  }

  lemma HostTakesUp(host: Side, f: Frame)
    requires host.handler == Idle
    ensures InHand(HandleAtHost(host, f).handler) == HostReply(f)
  {
  }

  lemma ClientTakesUp(client: Side, f: Frame, client': Side)
    requires client.handler == Idle && HandleAtClient(client, f) == Some(client')
    ensures InHand(client'.handler) == ClientReply(f)
  {
  }

  lemma PaidMore(out: Link, h: Handler, h': Handler, owed: seq<Frame>, more: seq<Frame>)
    requires Paid(out, h, owed) && InHand(h) == [] && InHand(h') == more
    ensures Paid(out, h', owed + more)
  {
    assert Replies(out.log) + [] == Replies(out.log);
    hide Replies;
  }

  lemma ClientConsumeKeepsAnswers(z: Zstd, s: State, s': State)
    requires Inv(z, s) && Answered(s) && Next(z, s, Consume(Client)) == Some(s')
    ensures Answered(s')
  {
    HeadOf(z, s.down);
    var f := s.down.log[s.down.consumed];
    ClientConsumeShape(z, s, s', f);
    ClientTakesUp(s.client, f, s'.client);
    ClientPaysMore(s, s', f);
    hide *;
  }

  lemma ClientPaysMore(s: State, s': State, f: Frame)
    requires Answered(s) && s.client.handler == Idle && InHand(s'.client.handler) == ClientReply(f)
    requires s' == s.(down := s'.down, client := s'.client, gotReady := s.gotReady || f.kind == READY)
    requires s'.down == s.down.(consumed := s'.down.consumed) && SeenDown(s') == SeenDown(s) + [f]
    ensures Answered(s')
  {
    OwesSnoc(SeenDown(s), f);
    HeardReadySnoc(SeenDown(s), f);
    PaidMore(s.up, s.client.handler, s'.client.handler, ClientOwes(SeenDown(s)), ClientReply(f));
    hide Replies, HostOwes, ClientOwes, HeardReady;
  }

  lemma ReplyPays(side: Side, side': Side, out: Link, out': Link, owed: seq<Frame>)
    requires ReplyStep(side, out) == Some((side', out')) && Paid(out, side.handler, owed)
    requires IsReply(InHand(side.handler)[0]) && out.consumed <= |out.log|
    ensures Paid(out', side'.handler, owed) && InHand(side'.handler) == []
    ensures out'.log[..Min(out'.consumed, |out'.log|)] == out.log[..Min(out.consumed, |out.log|)]
  {
    var f := InHand(side.handler)[0];
    RepliesSnoc(out.log, f);
    assert Replies(out.log) + [f] + [] == Replies(out.log) + [f];
    hide Replies;
  }

  lemma ReplyKeepsAnswers(z: Zstd, s: State, who: Who, s': State)
    requires Answered(s) && Next(z, s, Reply(who)) == Some(s') && LinkOk(z, s.up) && LinkOk(z, s.down)
    ensures Answered(s')
  {
    if who == Host {
      ReplyPays(s.host, s'.host, s.down, s'.down, HostOwes(SeenUp(s)));
    } else {
      ReplyPays(s.client, s'.client, s.up, s'.up, ClientOwes(SeenDown(s)));
    }
    hide Replies, HostOwes, ClientOwes, HeardReady, LinkOk;
  }

  lemma AnswersKept(z: Zstd, s: State, a: Action, s': State)
    requires Inv(z, s) && Answered(s) && Next(z, s, a) == Some(s')
    ensures Answered(s')
  {
    match a
    case Consume(Host) => HostConsumeKeepsAnswers(z, s, s');
    case Consume(Client) => ClientConsumeKeepsAnswers(z, s, s');
    case Reply(who) => ReplyKeepsAnswers(z, s, who, s');
    case _ =>
      OthersAreCalm(z, s, a, s');
      CalmKeeps(z, s, s');
    hide *;
  }

  lemma {:induction false} RunAnswers(z: Zstd, actions: seq<Action>)
    requires z.Lossless() && Run(z, actions).Some? && Run(z, actions).value.next <= TWO64
    ensures Answered(Run(z, actions).value)
  {
    if actions == [] {
      assert Init().up.log == [] + [Frame(HELLO, 0, [])];
      RepliesSnoc([], Frame(HELLO, 0, []));
      assert SeenUp(Init()) == [] && SeenDown(Init()) == [];
    } else {
      var n := |actions| - 1;
      var s, s' := Run(z, actions[..n]).value, Run(z, actions).value;
      NextGrows(z, s, actions[n], s');
      RunKeeps(z, actions[..n]);
      RunAnswers(z, actions[..n]);
      AnswersKept(z, s, actions[n], s');
    }
  }

  /**
   * Each side replies to exactly what it consumed, in order and with the payload it got: READY for each HELLO and a
   * PONG for each PING at the host, a PONG for each PING at the client. Nothing but the reply in hand is outstanding
   * while the WebSocket writer lives, and nothing is ever sent that was not asked for.
   */
  lemma RepliesMatchRequests(z: Zstd, actions: seq<Action>, s: State)
    requires ReachedBy(z, actions, s)
    ensures var sent, owed := Replies(Frames(z, s.down.raw)), HostOwes(Frames(z, s.up.Consumed()));
      sent <= owed && (s.down.open ==> sent + InHand(s.host.handler) == owed)
    ensures var sent, owed := Replies(Frames(z, s.up.raw)), ClientOwes(Frames(z, s.down.Consumed()));
      sent <= owed && (s.up.open ==> sent + InHand(s.client.handler) == owed)
  {
    RunAnswers(z, actions);
    ReadBack(z, actions, s);
    hide ReachedBy, Run, Replies, HostOwes, ClientOwes, Frames, InHand, HeardReady;
  }

  lemma ReadBack(z: Zstd, actions: seq<Action>, s: State)
    requires ReachedBy(z, actions, s)
    ensures Frames(z, s.up.raw) == s.up.log && Frames(z, s.down.raw) == s.down.log
    ensures Frames(z, s.up.Consumed()) == SeenUp(s) && Frames(z, s.down.Consumed()) == SeenDown(s)
  {
    RunKeeps(z, actions);
    LogsReadBack(z, s);
    FramesAreLogged(z, s.down.Consumed(), SeenDown(s));
  }

  /** The client believes the host is ready if and only if it has consumed a READY. */
  lemma ReadyIsWhatWasHeard(z: Zstd, actions: seq<Action>, s: State)
    requires ReachedBy(z, actions, s)
    ensures s.gotReady <==> HeardReady(Frames(z, s.down.Consumed()))
  {
    RunAnswers(z, actions);
    ReadBack(z, actions, s);
    hide ReachedBy, Run, Replies, HostOwes, ClientOwes, Frames, HeardReady;
  }

  /** A refusal carries the reason: once the link has room, the frames for the stream end with that ERROR. */
  lemma RefusalCarriesReason(z: Zstd, actions: seq<Action>, s: State, m: seq<byte>, s1: State, s2: State)
    requires ReachedBy(z, actions, s) && s.host.handler.Connecting? && s.down.open
    requires Next(z, s, Handling(ConnectFails(m))) == Some(s1) && Next(z, s1, Handling(Refuse)) == Some(s2)
    ensures Frames(z, s2.down.raw) == Frames(z, s.down.raw) + [Frame(ERROR, s.host.handler.id, m)]
  {
    RunKeeps(z, actions);
    var id := s.host.handler.id;
    SendKeepsLink(z, s.down, ERROR, id, m);
    assert s2.down == s.down.Send(ERROR, id, m);
    FramesAreLogged(z, s.down.raw, s.down.log);
    FramesAreLogged(z, s2.down.raw, s2.down.log);
  }

  // The end of a client's entry

  /** The frame ends stream `id` at whoever consumes it. */
  predicate IsEnd(f: Frame, id: nat) {
    f.id == id && (f.kind == CLOSE || f.kind == ERROR)
  }

  predicate EndIn(frames: seq<Frame>, id: nat) {
    exists i :: 0 <= i < |frames| && IsEnd(frames[i], id)
  }

  lemma PumpKeepsEntries(z: Zstd, side: Side, out: Link, j: nat, p: PumpAction, id: nat)
    requires PumpStep(z, side, out, j, p).Some? && id in side.conns
    ensures var side' := PumpStep(z, side, out, j, p).value.0;
      id in side'.conns && (side'.Has(id) ==> side.Has(id))
  {
  }

  /** Entries once made stay known, never come back, and only consuming changes what the client has heard. */
  lemma EntryStep(z: Zstd, s: State, a: Action, s': State, id: nat)
    requires Inv(z, s) && Next(z, s, a) == Some(s') && id in s.client.conns && a != Consume(Client)
    ensures id in s'.client.conns && (s'.client.Has(id) ==> s.client.Has(id)) && SeenDown(s') == SeenDown(s)
  {
    assert 1 <= id && ClientStreamOk(s, id);
    SeenDownStays(z, s, a, s');
    EntryUnmoved(z, s, a, s', id);
    hide *;
  }

  lemma EntryUnmoved(z: Zstd, s: State, a: Action, s': State, id: nat)
    requires ClientStreamOk(s, id) && Next(z, s, a) == Some(s') && id in s.client.conns && a != Consume(Client)
    ensures id in s'.client.conns && (s'.client.Has(id) ==> s.client.Has(id))
  {
    match a
    case Accepting(accept) => AcceptKeepsEntry(s, accept, s', id);
    case Pump(Client, j, p) => PumpKeepsEntries(z, s.client, s.up, j, p, id);
    case _ => hide ClientStreamOk;
  }

  lemma SeenDownStays(z: Zstd, s: State, a: Action, s': State)
    requires LinkOk(z, s.down) && Next(z, s, a) == Some(s') && a != Consume(Client)
    ensures SeenDown(s') == SeenDown(s)
  {
    if !a.Consume? && !a.Reply? {
      OthersAreCalm(z, s, a, s');
      CalmSeen(s.down, s'.down);
    }
  }

  lemma AcceptKeepsEntry(s: State, a: AcceptAction, s': State, id: nat)
    requires ClientStreamOk(s, id) && AcceptStep(s, a) == Some(s') && id in s.client.conns
    ensures id in s'.client.conns && s'.client.conns[id] == s.client.conns[id]
  {
    hide Kinds, Payloads, ReaderOk, WriterOk, EndOk;
  }

  lemma EntryHears(z: Zstd, s: State, s': State, id: nat)
    requires Inv(z, s) && Next(z, s, Consume(Client)) == Some(s') && id in s.client.conns
    ensures id in s'.client.conns && (s'.client.Has(id) ==> s.client.Has(id))
    ensures s.down.consumed < |s.down.log|
    ensures var f := s.down.log[s.down.consumed];
      SeenDown(s') == SeenDown(s) + [f] && (IsEnd(f, id) ==> !s'.client.Has(id))
  {
    HeadOf(z, s.down);
    ClientHandles(s.client, s'.client, s.down.log[s.down.consumed], id);
  }

  /**
   * An entry at the client is gone for good once the host's CLOSE or ERROR for it has been consumed: whatever else the
   * run does, it never has the entry again. So an entry whose end was heard was made after the end had gone by.
   */
  lemma {:induction false} HeardEndTakesEntry(
      z: Zstd, before: seq<Action>, s: State, more: seq<Action>, s': State, id: nat)
    requires ReachedBy(z, before, s) && ReachedBy(z, before + more, s') && id in s.client.conns
    ensures id in s'.client.conns && SeenDown(s) <= SeenDown(s') && (s'.client.Has(id) ==> s.client.Has(id))
    ensures EndIn(SeenDown(s')[|SeenDown(s)|..], id) ==> !s'.client.Has(id)
  {
    if more == [] {
      assert before + more == before;
    } else {
      var n := |more| - 1;
      var all, a := before + more, more[n];
      assert all[..|all| - 1] == before + more[..n] && all[|all| - 1] == a;
      var m := Run(z, before + more[..n]).value;
      NextGrows(z, m, a, s');
      RunKeeps(z, before + more[..n]);
      HeardEndTakesEntry(z, before, s, more[..n], m, id);
      if a == Consume(Client) {
        EntryHears(z, m, s', id);
        EndInSnoc(SeenDown(m)[|SeenDown(s)|..], m.down.log[m.down.consumed], id);
        assert SeenDown(s')[|SeenDown(s)|..] == SeenDown(m)[|SeenDown(s)|..] + [m.down.log[m.down.consumed]];
      } else {
        EntryStep(z, m, a, s', id);
      }
      hide Inv, Next, EndIn;
    }
  }

  lemma EndInSnoc(frames: seq<Frame>, f: Frame, id: nat)
    ensures EndIn(frames + [f], id) ==> EndIn(frames, id) || IsEnd(f, id)
  {
    if EndIn(frames + [f], id) && !IsEnd(f, id) {
      var i :| 0 <= i < |frames + [f]| && IsEnd((frames + [f])[i], id);
      assert frames[i] == (frames + [f])[i];
    }
  }

  /** Nor does the client ever hear of a stream again after its CLOSE: an entry made after that waits for nothing. */
  lemma NothingAfterClose(z: Zstd, before: seq<Action>, s: State, more: seq<Action>, s': State, id: nat)
    requires ReachedBy(z, before, s) && ReachedBy(z, before + more, s') && id >= 1
    requires CLOSE in Kinds(SeenDown(s), id)
    ensures Kinds(SeenDown(s'), id) == Kinds(SeenDown(s), id)
  {
    StreamFacts(z, before + more, s', id);
    DownShape(s', id);
    SeenOnlyGrows(z, before, s, more, s');
    PrefixOfLog(SeenDown(s'), |SeenDown(s)|, id);
    assert SeenDown(s')[..|SeenDown(s)|] == SeenDown(s);
    CloseEndsIt(Kinds(SeenDown(s), id), Kinds(SeenDown(s'), id), Kinds(s'.down.log, id));
    hide *;
  }

  lemma CloseEndsIt(a: seq<byte>, b: seq<byte>, sent: seq<byte>)
    requires a <= b && b <= sent && (PrefixOfDataClose(sent) || sent <= [ERROR, CLOSE]) && CLOSE in a
    ensures a == b
  {
    var k :| 0 <= k < |a| && a[k] == CLOSE;
    assert sent[k] == CLOSE;
    assert k == |sent| - 1;
  }
}
