/**
 * What the relay loops of src/wss_relay.rs report on their one-shot ready channel over a whole reconnecting run.
 * A run is the list of sessions the environment offers; everything the code waits for is a field of a session.
 */
module Readiness {
  import opened Bytes
  import opened Options
  import opened FrameCodec
  import RelayModel
  import RelayInvariant
  import RelaySteps
  import RelayTheorems

  /** What is sent through the ready channel: `Ok(())`, or the session's error. */
  datatype Verdict = Up | Down

  /** What has been sent once `v` has been reported through a sender that may have been used already. */
  function Reported(armed: bool, sent: seq<Verdict>, v: Verdict): seq<Verdict> {
    if armed then sent + [v] else sent
  }

  /** The `Option<oneshot::Sender>` passed down to the sessions, with what was sent through it. */
  class ReadySignal {
    var armed: bool
    var sent: seq<Verdict>

    constructor ()
      ensures armed && sent == []
    {
      armed, sent := true, [];
    }

    /** `if let Some(tx) = ready_signal.take() { tx.send(v) }` */
    method TakeAndSend(v: Verdict) returns (taken: bool)
      modifies this
      ensures !armed && taken == old(armed)
      ensures sent == Reported(old(armed), old(sent), v)
    {
      taken := armed;
      if armed {
        armed := false;
        sent := sent + [v];
      }
    }
  }

  datatype HandshakeMessage = HostRegister | ClientJoin | Registered | Linked | Error

  /** The first message of the relay server: `Text(None)` is text that is not a handshake message. */
  datatype Ack = TimedOut | ClosedEarly | ReadFailed | Text(message: Option<HandshakeMessage>) | NotText

  // Host

  /** One pass of `host_loop`; `cleanEnd` is how the data phase ends if it is reached. */
  datatype HostPass = HostPass(cancelledBefore: bool, connected: bool, registerSent: bool, ack: Ack, cleanEnd: bool,
      cancelledAfter: bool)
  {
    predicate GetsRegistered() {
      connected && registerSent && ack == Text(Some(Registered))
    }
  }

  function HostVerdict(passes: seq<HostPass>): seq<Verdict> {
    if passes == [] || passes[0].cancelledBefore then []
    else if passes[0].GetsRegistered() then [Up]
    else if passes[0].cancelledAfter then []
    else [Down]
  }

  method HostSession(p: HostPass, ready: ReadySignal) returns (ok: bool)
    modifies ready
    ensures p.GetsRegistered() ==> ok == p.cleanEnd
    ensures p.GetsRegistered() ==> !ready.armed && ready.sent == Reported(old(ready.armed), old(ready.sent), Up)
    ensures !p.GetsRegistered() ==> !ok && ready.armed == old(ready.armed) && ready.sent == old(ready.sent)
  {
    if !p.connected || !p.registerSent {
      return false;
    }
    match p.ack {
      case Text(Some(message)) =>
        if message == Registered {
          var _ := ready.TakeAndSend(Up);
        } else {
          return false;
        }
      case _ => return false;
    }
    return p.cleanEnd;
  }

  method HostLoop(passes: seq<HostPass>) returns (ready: ReadySignal)
    ensures ready.sent == HostVerdict(passes) && |ready.sent| <= 1
    ensures ready.sent == [Up] <==> passes != [] && !passes[0].cancelledBefore && passes[0].GetsRegistered()
    ensures ready.sent == [Down] <==>
      && passes != [] && !passes[0].cancelledBefore && !passes[0].cancelledAfter
      && !(passes[0].connected && passes[0].registerSent && passes[0].ack == Text(Some(Registered)))
  {
    ready := new ReadySignal();
    for i := 0 to |passes|
      invariant i == 0 ==> ready.armed && ready.sent == []
      invariant i > 0 ==> !ready.armed && ready.sent == HostVerdict(passes)
      invariant fresh(ready)
    {
      var p := passes[i];
      if p.cancelledBefore {
        return;
      }
      var ok := HostSession(p, ready);
      if p.cancelledAfter {
        return;
      }
      if !ok {
        var _ := ready.TakeAndSend(Down);
      }
    }
  }

  // Client

  datatype Event = Binary(raw: seq<byte>) | WsPing | WsText | WsClose | ReadError | StreamEnd | Cancelled

  /** TCP clients bind a listener between HELLO and the data phase; UDP clients bound their socket beforehand. */
  datatype Variant = Tcp | Udp

  datatype ClientPass = ClientPass(
    cancelledBefore: bool, connected: bool, joinSent: bool, ack: Ack, helloSent: bool, listenerBound: bool,
    events: seq<Event>, errorSaysNotFound: bool, cancelledAfter: bool)
  {
    predicate ReachesDataPhase(v: Variant) {
      connected && joinSent && ack == Text(Some(Linked)) && helloSent && (v == Tcp ==> listenerBound)
    }
  }

  predicate IsReady(z: Zstd, e: Event) {
    e.Binary? && DecodeFrame(z, e.raw).Some? && DecodeFrame(z, e.raw).value.kind == READY
  }

  /** An event after which the read loop stops: quietly, or with an error. */
  predicate Stops(z: Zstd, e: Event) {
    Breaks(z, e) || e.WsClose? || e.StreamEnd? || e.Cancelled?
  }

  predicate Breaks(z: Zstd, e: Event) {
    e.ReadError? || (e.Binary? && DecodeFrame(z, e.raw).None?)
  }

  /** Whether the read loop meets a READY, and whether it ends in an error. */
  function ReadLoop(z: Zstd, events: seq<Event>): (r: (bool, bool)) {
    if events == [] then (false, false)
    else if Stops(z, events[0]) then (false, Breaks(z, events[0]))
    else
      var rest := ReadLoop(z, events[1..]);
      (IsReady(z, events[0]) || rest.0, rest.1)
  }

  predicate GetsReady(z: Zstd, v: Variant, p: ClientPass) {
    p.ReachesDataPhase(v) && ReadLoop(z, p.events).0
  }

  predicate Fails(z: Zstd, v: Variant, p: ClientPass) {
    !p.ReachesDataPhase(v) || ReadLoop(z, p.events).1
  }

  function ClientVerdict(z: Zstd, v: Variant, passes: seq<ClientPass>): seq<Verdict> {
    if passes == [] || passes[0].cancelledBefore then []
    else if GetsReady(z, v, passes[0]) then [Up]
    else if passes[0].cancelledAfter then []
    else if Fails(z, v, passes[0]) then [Down]
    else ClientVerdict(z, v, passes[1..])
  }

  method ClientReadLoop(z: Zstd, events: seq<Event>, ready: ReadySignal) returns (ok: bool)
    modifies ready
    ensures ok == !ReadLoop(z, events).1
    ensures ReadLoop(z, events).0 ==> !ready.armed && ready.sent == Reported(old(ready.armed), old(ready.sent), Up)
    ensures !ReadLoop(z, events).0 ==> ready.armed == old(ready.armed) && ready.sent == old(ready.sent)
  {
    var gotReady := false;
    for i := 0 to |events|
      invariant ReadLoop(z, events) == (gotReady || ReadLoop(z, events[i..]).0, ReadLoop(z, events[i..]).1)
      invariant gotReady ==> !ready.armed && ready.sent == Reported(old(ready.armed), old(ready.sent), Up)
      invariant !gotReady ==> ready.armed == old(ready.armed) && ready.sent == old(ready.sent)
    {
      var e := events[i];
      assert events[i..][0] == e && events[i..][1..] == events[i + 1..];
      match e
      case Binary(raw) =>
        var frame := DecodeFrame(z, raw);
        if frame.None? {
          return false;
        }
        if frame.value.kind == READY && !gotReady {
          gotReady := true;
          var _ := ready.TakeAndSend(Up);
        }
      case ReadError => return false;
      case WsClose => return true;
      case StreamEnd => return true;
      case Cancelled => return true;
      case _ =>
    }
    return true;
  }

  method ClientSession(z: Zstd, v: Variant, p: ClientPass, ready: ReadySignal) returns (ok: bool)
    modifies ready
    ensures ok == !Fails(z, v, p)
    ensures GetsReady(z, v, p) ==> !ready.armed && ready.sent == Reported(old(ready.armed), old(ready.sent), Up)
    ensures !GetsReady(z, v, p) ==> ready.armed == old(ready.armed) && ready.sent == old(ready.sent)
  {
    if !p.connected || !p.joinSent {
      return false;
    }
    match p.ack {
      case Text(Some(message)) =>
        if message != Linked {
          return false;
        }
      case _ => return false;
    }
    if !p.helloSent {
      return false;
    }
    if v == Tcp && !p.listenerBound {
      return false;
    }
    ok := ClientReadLoop(z, p.events, ready);
  }

  // What a verdict means

  lemma {:induction false} ReadyArrives(z: Zstd, events: seq<Event>)
    ensures ReadLoop(z, events).0 <==>
      exists i :: 0 <= i < |events| && IsReady(z, events[i]) && forall j :: 0 <= j < i ==> !Stops(z, events[j])
  {
    if events != [] {
      ReadyArrives(z, events[1..]);
      var rest := events[1..];
      if ReadLoop(z, rest).0 && !Stops(z, events[0]) {
        var i :| 0 <= i < |rest| && IsReady(z, rest[i]) && forall j :: 0 <= j < i ==> !Stops(z, rest[j]);
        forall j | 0 <= j < i + 1 ensures !Stops(z, events[j]) {
          assert j > 0 ==> events[j] == rest[j - 1];
        }
        assert IsReady(z, events[i + 1]);
      }
      if i :| 0 <= i < |events| && IsReady(z, events[i]) && forall j :: 0 <= j < i ==> !Stops(z, events[j]) {
        if i > 0 {
          assert IsReady(z, rest[i - 1]);
          forall j | 0 <= j < i - 1 ensures !Stops(z, rest[j]) {
            assert rest[j] == events[j + 1];
          }
          assert !Stops(z, events[0]);
        }
      }
    }
  }

  // Where the messages of a session come from

  /** A run of the multiplexer, the session's host included, and the state it led to. */
  datatype Origin = Origin(actions: seq<RelayModel.Action>, state: RelayModel.State)

  /** Every binary message the session receives is one that the host of that run had sent. */
  ghost predicate CarriedBy(z: Zstd, p: ClientPass, o: Origin) {
    && RelayTheorems.ReachedBy(z, o.actions, o.state)
    && forall e :: e in p.events && e.Binary? ==> e.raw in o.state.down.raw
  }

  ghost predicate AllCarried(z: Zstd, passes: seq<ClientPass>, origins: seq<Origin>) {
    |origins| == |passes| && forall i :: 0 <= i < |passes| ==> CarriedBy(z, passes[i], origins[i])
  }

  /** The host has consumed the session's first message, which was its HELLO. */
  predicate HelloHeard(z: Zstd, s: RelayModel.State) {
    s.up.consumed >= 1 && s.up.raw != [] && DecodeFrame(z, s.up.raw[0]) == Some(Frame(HELLO, 0, []))
  }

  lemma ReadyFollowsHello(z: Zstd, o: Origin, raw: seq<byte>)
    requires RelayTheorems.ReachedBy(z, o.actions, o.state) && raw in o.state.down.raw && IsReady(z, Binary(raw))
    ensures HelloHeard(z, o.state)
  {
    RelaySteps.RunKeeps(z, o.actions);
    var s := o.state;
    assert RelayInvariant.LinkOk(z, s.up) && RelayInvariant.LinkOk(z, s.down) && RelayInvariant.ReadyOk(s);
    var j :| 0 <= j < |s.down.raw| && s.down.raw[j] == raw;
    assert s.down.log[j].kind == READY;
  }

  /** One session of the multiplexer: READY received means the host consumed this session's HELLO. */
  lemma GetsReadyMeansHelloHeard(z: Zstd, v: Variant, p: ClientPass, o: Origin)
    requires GetsReady(z, v, p) && CarriedBy(z, p, o)
    ensures HelloHeard(z, o.state)
  {
    ReadyArrives(z, p.events);
    var i :| 0 <= i < |p.events| && IsReady(z, p.events[i]);
    assert p.events[i] in p.events;
    ReadyFollowsHello(z, o, p.events[i].raw);
  }

  /**
   * The whole promise over a reconnecting run: success means that one session, reached through undecided ones only,
   * was linked, bound its listener, sent HELLO, had it consumed by the host, and then received READY.
   */
  lemma UpMeansHelloHeard(z: Zstd, v: Variant, passes: seq<ClientPass>, origins: seq<Origin>)
    requires AllCarried(z, passes, origins) && ClientVerdict(z, v, passes) == [Up]
    ensures exists i :: 0 <= i < |passes| && DecidedAt(z, v, passes, i) && HelloHeard(z, origins[i].state)
  {
    ClientVerdictMeaning(z, v, passes);
    var i :| 0 <= i < |passes| && DecidedAt(z, v, passes, i);
    GetsReadyMeansHelloHeard(z, v, passes[i], origins[i]);
  }

  /** What a deciding session went through. */
  lemma DecidedMeans(z: Zstd, v: Variant, passes: seq<ClientPass>, i: nat) returns (k: nat)
    requires i < |passes| && DecidedAt(z, v, passes, i)
    ensures var p := passes[i];
      && !p.cancelledBefore && p.connected && p.joinSent && p.ack == Text(Some(Linked)) && p.helloSent
      && (v == Tcp ==> p.listenerBound)
      && k < |p.events| && p.events[k].Binary? && DecodeFrame(z, p.events[k].raw).Some?
      && DecodeFrame(z, p.events[k].raw).value.kind == READY
      && forall j :: 0 <= j < k ==> !Stops(z, p.events[j])
  {
    var events := passes[i].events;
    ReadyArrives(z, events);
    var m :| 0 <= m < |events| && IsReady(z, events[m]) && forall j :: 0 <= j < m ==> !Stops(z, events[j]);
    k := m;
  }

  /** Some event that breaks the read loop comes before anything else that stops it. */
  predicate MeetsBreak(z: Zstd, events: seq<Event>) {
    exists i :: 0 <= i < |events| && BreaksAt(z, events, i)
  }

  /** Event `i` is a read error or an undecodable message, and nothing before it stops the loop. */
  predicate BreaksAt(z: Zstd, events: seq<Event>, i: nat)
    requires i < |events|
  {
    && (events[i] == ReadError || (events[i].Binary? && DecodeFrame(z, events[i].raw) == None))
    && forall j :: 0 <= j < i ==> !Stops(z, events[j])
  }

  lemma {:induction false} LoopBreaksExactly(z: Zstd, events: seq<Event>)
    ensures ReadLoop(z, events).1 <==> MeetsBreak(z, events)
  {
    if events != [] {
      var rest := events[1..];
      LoopBreaksExactly(z, rest);
      if Breaks(z, events[0]) {
        assert BreaksAt(z, events, 0);
      }
      if !Stops(z, events[0]) && MeetsBreak(z, rest) {
        var i :| 0 <= i < |rest| && BreaksAt(z, rest, i);
        LaterBreak(z, events, i + 1);
      }
      if MeetsBreak(z, events) {
        var i :| 0 <= i < |events| && BreaksAt(z, events, i);
        if i > 0 {
          LaterBreak(z, events, i);
        }
      }
    }
  }

  lemma LaterBreak(z: Zstd, events: seq<Event>, i: nat)
    requires 0 < i < |events|
    ensures BreaksAt(z, events, i) <==> !Stops(z, events[0]) && BreaksAt(z, events[1..], i - 1)
  {
    var rest := events[1..];
    if !Stops(z, events[0]) && BreaksAt(z, rest, i - 1) {
      forall j | 0 <= j < i ensures !Stops(z, events[j]) {
        assert j > 0 ==> events[j] == rest[j - 1];
      }
    }
    if BreaksAt(z, events, i) {
      forall j | 0 <= j < i - 1 ensures !Stops(z, rest[j]) {
        assert rest[j] == events[j + 1];
      }
    }
    hide Stops;
  }

  /** A session that neither got READY nor failed nor was cancelled: the loop goes on without having reported. */
  predicate Undecided(z: Zstd, v: Variant, p: ClientPass) {
    !p.cancelledBefore && !GetsReady(z, v, p) && !p.cancelledAfter && !Fails(z, v, p)
  }

  /** Session `i` is the first to decide, and decides for success. */
  predicate DecidedAt(z: Zstd, v: Variant, passes: seq<ClientPass>, i: nat)
    requires i < |passes|
  {
    !passes[i].cancelledBefore && GetsReady(z, v, passes[i]) && forall j :: 0 <= j < i ==> Undecided(z, v, passes[j])
  }

  /**
   * Session `i` is the first to decide, and decides for failure: it was not cancelled, never got READY, and was not set
   * up to the end or met a broken event.
   */
  predicate FailedAt(z: Zstd, v: Variant, passes: seq<ClientPass>, i: nat)
    requires i < |passes|
  {
    var p := passes[i];
    && !p.cancelledBefore && !p.cancelledAfter && !GetsReady(z, v, p)
    && (!p.connected || !p.joinSent || p.ack != Text(Some(Linked)) || !p.helloSent || (v == Tcp && !p.listenerBound)
        || MeetsBreak(z, p.events))
    && forall j :: 0 <= j < i ==> Undecided(z, v, passes[j])
  }

  lemma FailsExactly(z: Zstd, v: Variant, p: ClientPass)
    ensures Fails(z, v, p) <==>
      !p.connected || !p.joinSent || p.ack != Text(Some(Linked)) || !p.helloSent || (v == Tcp && !p.listenerBound)
      || MeetsBreak(z, p.events)
  {
    LoopBreaksExactly(z, p.events);
  }

  lemma FailedFirst(z: Zstd, v: Variant, passes: seq<ClientPass>)
    requires passes != []
    ensures FailedAt(z, v, passes, 0) <==>
      var p := passes[0]; !p.cancelledBefore && !p.cancelledAfter && !GetsReady(z, v, p) && Fails(z, v, p)
  {
    FailsExactly(z, v, passes[0]);
    hide MeetsBreak, GetsReady;
  }

  lemma FailedLater(z: Zstd, v: Variant, passes: seq<ClientPass>, i: nat)
    requires 0 < i < |passes|
    ensures FailedAt(z, v, passes, i) <==> Undecided(z, v, passes[0]) && FailedAt(z, v, passes[1..], i - 1)
  {
    var rest := passes[1..];
    if Undecided(z, v, passes[0]) && FailedAt(z, v, rest, i - 1) {
      forall j | 0 <= j < i ensures Undecided(z, v, passes[j]) {
        assert j > 0 ==> passes[j] == rest[j - 1];
      }
    }
    if FailedAt(z, v, passes, i) {
      forall j | 0 <= j < i - 1 ensures Undecided(z, v, rest[j]) {
        assert rest[j] == passes[j + 1];
      }
    }
    hide MeetsBreak, GetsReady, Undecided;
  }

  /** The verdict is failure exactly when some session, after undecided ones only, failed without READY, uncancelled. */
  lemma {:induction false} FailureMeaning(z: Zstd, v: Variant, passes: seq<ClientPass>)
    ensures ClientVerdict(z, v, passes) == [Down] <==> exists i :: 0 <= i < |passes| && FailedAt(z, v, passes, i)
  {
    if passes != [] {
      var rest := passes[1..];
      FailureMeaning(z, v, rest);
      FailedFirst(z, v, passes);
      hide FailedAt, Fails, GetsReady;
      if Undecided(z, v, passes[0]) && ClientVerdict(z, v, rest) == [Down] {
        var i :| 0 <= i < |rest| && FailedAt(z, v, rest, i);
        FailedLater(z, v, passes, i + 1);
      }
      if i :| 0 <= i < |passes| && FailedAt(z, v, passes, i) {
        if i > 0 {
          FailedLater(z, v, passes, i);
        }
      }
    }
  }

  /**
   * At most one verdict over the whole run. It is success exactly when some session, reached through undecided ones
   * only, was linked, had sent HELLO, had its listener bound and then received READY before its loop stopped.
   */
  lemma {:induction false} ClientVerdictMeaning(z: Zstd, v: Variant, passes: seq<ClientPass>)
    ensures |ClientVerdict(z, v, passes)| <= 1
    ensures ClientVerdict(z, v, passes) == [Up] <==>
      exists i :: 0 <= i < |passes| && DecidedAt(z, v, passes, i)
  {
    if passes != [] {
      var rest := passes[1..];
      ClientVerdictMeaning(z, v, rest);
      if !passes[0].cancelledBefore && GetsReady(z, v, passes[0]) {
        assert DecidedAt(z, v, passes, 0);
      }
      if Undecided(z, v, passes[0]) && ClientVerdict(z, v, rest) == [Up] {
        var i :| 0 <= i < |rest| && DecidedAt(z, v, rest, i);
        forall j | 0 <= j < i + 1 ensures Undecided(z, v, passes[j]) {
          assert j > 0 ==> passes[j] == rest[j - 1];
        }
        assert DecidedAt(z, v, passes, i + 1);
      }
      if exists i :: 0 <= i < |passes| && DecidedAt(z, v, passes, i) {
        var i :| 0 <= i < |passes| && DecidedAt(z, v, passes, i);
        if i > 0 {
          assert Undecided(z, v, passes[0]);
          forall j | 0 <= j < i - 1 ensures Undecided(z, v, rest[j]) {
            assert rest[j] == passes[j + 1];
          }
          assert DecidedAt(z, v, rest, i - 1);
        }
      }
    }
  }

  // The whole loop

  /**
   * `origins` may say, for each session, which run of the multiplexer its messages came from; success then means that
   * the deciding session's host had consumed its HELLO.
   */
  method ClientLoop(z: Zstd, v: Variant, passes: seq<ClientPass>, ghost origins: seq<Origin>)
    returns (ready: ReadySignal)
    ensures ready.sent == ClientVerdict(z, v, passes) && |ready.sent| <= 1
    ensures ready.sent == [Up] <==> exists i :: 0 <= i < |passes| && DecidedAt(z, v, passes, i)
    ensures ready.sent == [Down] <==> exists i :: 0 <= i < |passes| && FailedAt(z, v, passes, i)
    ensures ready.sent == [Up] && AllCarried(z, passes, origins) ==>
      exists i :: 0 <= i < |passes| && DecidedAt(z, v, passes, i) && HelloHeard(z, origins[i].state)
  {
    ClientVerdictMeaning(z, v, passes);
    FailureMeaning(z, v, passes);
    if ClientVerdict(z, v, passes) == [Up] && AllCarried(z, passes, origins) {
      UpMeansHelloHeard(z, v, passes, origins);
    }
    hide DecidedAt, FailedAt, HelloHeard, AllCarried;
    ready := new ReadySignal();
    for i := 0 to |passes|
      invariant ready.armed ==> ready.sent == [] && ClientVerdict(z, v, passes) == ClientVerdict(z, v, passes[i..])
      invariant !ready.armed ==> ready.sent == ClientVerdict(z, v, passes)
      invariant fresh(ready)
    {
      var p := passes[i];
      assert passes[i..][0] == p && passes[i..][1..] == passes[i + 1..];
      if p.cancelledBefore {
        return;
      }
      var ok := ClientSession(z, v, p, ready);
      if p.cancelledAfter {
        return;
      }
      if !ok {
        var taken := ready.TakeAndSend(Down);
        if v == Tcp && p.errorSaysNotFound {
          return;
        }
        if v == Udp && taken {
          return;
        }
      }
    }
  }
}
