/**
 * The stream multiplexer of src/wss_relay.rs as a step system: one host session linked with one TCP client session.
 * Every task (accept loop, reader pump, writer pump, frame handler, keepalive, WebSocket writer) is split where it
 * can be interleaved with the others; lookup plus queue push is one step because the map lock is held across it.
 */
module RelayModel {
  import opened Bytes
  import opened Options
  import opened FrameCodec

  const WS_WRITE_QUEUE: nat := 256
  const TCP_WRITE_QUEUE: nat := 64
  const TCP_CHUNK_SIZE: nat := 0x4000

  /** Reader pump: waiting on the socket, sending a chunk, about to send CLOSE, about to drop the entry, finished. */
  datatype ReaderPc = Reading | Sending | Closing | Removing | ReaderDone

  /** Writer pump: serving its queue, shutting down, finished with its receiver dropped. */
  datatype WriterPc = Serving | ShuttingDown | WriterDone

  /**
   * One stream at one endpoint. `present` is the map entry holding the queue's sender; `held` is what is left of the
   * buffer the writer pump is writing; `hold` is the chunk the reader pump has read and not yet handed on.
   * `written`, `got`, `base` and `cut` are history: bytes written to and read from the local socket, the stream's
   * payload that had already gone by when the entry was made, and whether a pump ended the stream at this endpoint:
   * took the entry away while it was there, or dropped bytes still to be written.
   */
  datatype Conn = Conn(
    present: bool, queue: seq<seq<byte>>, held: seq<byte>, writer: WriterPc, written: seq<byte>,
    hold: seq<byte>, reader: ReaderPc, got: seq<byte>, base: seq<byte>, cut: bool)
  {
    function Delivered(): seq<byte> {
      written + held + Concat(queue)
    }
  }

  function FreshConn(base: seq<byte>): Conn {
    Conn(true, [], [], Serving, [], [], Reading, [], base, false)
  }

  /**
   * One direction of the tunnel: every message ever queued, in order. `raw[consumed..taken]` is on the wire and
   * `raw[taken..]` waits in the sender's bounded queue, which is lost once the WebSocket writer dies (`!open`).
   * `log` is history: the frames that were encoded. Only the history field `base` is computed from it.
   */
  datatype Link = Link(raw: seq<seq<byte>>, log: seq<Frame>, taken: nat, consumed: nat, open: bool)
  {
    predicate HasRoom() {
      open && |raw| < taken + WS_WRITE_QUEUE
    }

    function Push(bytes: seq<byte>, f: Frame): Link {
      this.(raw := raw + [bytes], log := log + [f])
    }

    function Send(kind: byte, id: nat, payload: seq<byte>): Link {
      Push(EncodeFrame(kind, id, payload), Frame(kind, id, payload))
    }

    function Consumed(): seq<seq<byte>> {
      raw[..Min(consumed, |raw|)]
    }

    function OnWire(): seq<seq<byte>> {
      if consumed <= taken <= |raw| then raw[consumed..taken] else []
    }

    function Waiting(): seq<seq<byte>> {
      raw[Min(taken, |raw|)..]
    }
  }

  /** What the frame handler of one endpoint is doing. `UdpBranch` is the host's datagram path, not followed further. */
  datatype Handler =
    | Idle
    | Delivering(id: nat, payload: seq<byte>)
    | Connecting(id: nat)
    | Refusing(id: nat, message: seq<byte>)
    | RefusingClose(id: nat)
    | Replying(kind: byte, id: nat, payload: seq<byte>)
    | UdpBranch
    | Stopped

  datatype Side = Side(conns: map<nat, Conn>, handler: Handler, cancelled: bool)
  {
    predicate Has(id: nat) {
      id in conns && conns[id].present
    }
  }

  datatype Acceptor = Listening | Opening(id: nat) | Registering(id: nat) | AcceptorStopped

  /** `up` carries client frames to the host, `down` host frames to the client. */
  datatype State = State(client: Side, host: Side, acceptor: Acceptor, next: nat, gotReady: bool, up: Link, down: Link)

  datatype PumpAction =
    | Read(chunk: seq<byte>)
    | ReadStops
    | SendChunk
    | SendChunkFails
    | SendClose
    | SendCloseFails
    | DropEntry
    | Take
    | Write(count: nat)
    | WriteFails
    | WriterStops
    | WriterDrops

  datatype Who = Client | Host

  datatype AcceptAction = Accept | SendOpen | SendOpenFails | Register | AcceptorStops

  datatype HandlerAction = Deliver | ConnectOk | ConnectFails(message: seq<byte>) | Refuse | RefuseClose

  datatype Action =
    | Accepting(accept: AcceptAction)
    | Pump(who: Who, id: nat, pump: PumpAction)
    | Consume(who: Who)
    | Handling(handling: HandlerAction)
    | Reply(who: Who)
    | Ping(who: Who, stamp: seq<byte>)
    | Transmit(who: Who)
    | LinkDies(who: Who)
    | SessionEnds(who: Who)
    | Cancel(who: Who)

  /** The client session just after it joined: HELLO is on the wire, ids start at 1. */
  function Init(): State {
    var side := Side(map[], Idle, false);
    State(side, side, Listening, 1, false,
      Link([EncodeFrame(HELLO, 0, [])], [Frame(HELLO, 0, [])], 1, 0, true), Link([], [], 0, 0, true))
  }

  /** The payload bytes that the log carries for one stream. */
  function Piece(f: Frame, id: nat): seq<byte> {
    if f.id == id && f.kind == DATA then f.payload else []
  }

  function Payloads(log: seq<Frame>, id: nat): seq<byte> {
    if log == [] then [] else Payloads(log[..|log| - 1], id) + Piece(log[|log| - 1], id)
  }

  // Pumps

  /** One step of stream `id`'s reader or writer pump; `None` when the step is not possible now. */
  function PumpConn(z: Zstd, c: Conn, cancelled: bool, out: Link, id: nat, a: PumpAction): Option<(Conn, Link)> {
    match a
    case Read(chunk) =>
      if c.reader == Reading && 0 < |chunk| <= TCP_CHUNK_SIZE
      then Some((c.(got := c.got + chunk, hold := chunk, reader := Sending), out)) else None
    case ReadStops =>
      if c.reader == Reading then Some((c.(reader := Closing), out)) else None
    case SendChunk =>
      if c.reader == Sending && out.HasRoom()
      then
        var out' := out.Push(EncodeData(z, id, c.hold), Frame(DATA, id, c.hold));
        Some((c.(hold := [], reader := Reading), out'))
      else None
    case SendChunkFails =>
      if c.reader == Sending && !out.open then Some((c.(reader := Closing), out)) else None
    case SendClose =>
      if c.reader == Closing && out.HasRoom() then Some((c.(reader := Removing), out.Send(CLOSE, id, []))) else None
    case SendCloseFails =>
      if c.reader == Closing && !out.open then Some((c.(reader := Removing), out)) else None
    case DropEntry =>
      if c.reader == Removing
      then Some((c.(present := false, reader := ReaderDone, cut := c.cut || c.present), out)) else None
    case Take =>
      if c.writer == Serving && c.held == [] && c.queue != []
      then Some((c.(held := c.queue[0], queue := c.queue[1..]), out)) else None
    case Write(count) =>
      if c.writer == Serving && 0 < count <= |c.held|
      then Some((c.(written := c.written + c.held[..count], held := c.held[count..]), out)) else None
    case WriteFails =>
      if c.writer == Serving && c.held != [] then Some((c.(writer := ShuttingDown), out)) else None
    case WriterStops =>
      if c.writer == Serving && c.held == [] && (cancelled || (c.queue == [] && !c.present))
      then Some((c.(writer := ShuttingDown), out)) else None
    case WriterDrops =>
      if c.writer == ShuttingDown
      then Some((c.(present := false, held := [], queue := [], writer := WriterDone,
        cut := c.cut || c.present || c.held != [] || c.queue != []), out)) else None
  }

  function PumpStep(z: Zstd, side: Side, out: Link, id: nat, a: PumpAction): Option<(Side, Link)> {
    if id !in side.conns then None
    else
      match PumpConn(z, side.conns[id], side.cancelled, out, id, a)
      case None => None
      case Some(r) => Some((side.(conns := side.conns[id := r.0]), r.1))
  }

  // Frame handlers

  /** Look a stream up and push to its queue; blocked while the queue is full, dropped if nobody is there. */
  function Offer(side: Side, id: nat, payload: seq<byte>): Option<Side> {
    if !side.Has(id) || side.conns[id].writer == WriterDone then Some(side)
    else if |side.conns[id].queue| < TCP_WRITE_QUEUE
    then Some(side.(conns := side.conns[id := side.conns[id].(queue := side.conns[id].queue + [payload])]))
    else None
  }

  function Forget(side: Side, id: nat): Side {
    if id in side.conns then side.(conns := side.conns[id := side.conns[id].(present := false)]) else side
  }

  function HandleAtClient(side: Side, f: Frame): Option<Side> {
    if f.kind == DATA then Offer(side, f.id, f.payload)
    else if f.kind == CLOSE || f.kind == ERROR then Some(Forget(side, f.id))
    else if f.kind == PING then Some(side.(handler := Replying(PONG, f.id, f.payload)))
    else Some(side)
  }

  function HandleAtHost(side: Side, f: Frame): Side {
    if f.kind == HELLO then side.(handler := Replying(READY, 0, []))
    else if f.kind == OPEN then
      if side.Has(f.id) then side
      else if f.payload == [1] then side.(handler := UdpBranch)
      else side.(handler := Connecting(f.id))
    else if f.kind == DATA then
      if side.Has(f.id) then side.(handler := Delivering(f.id, f.payload))
      else if f.id == 0 then side.(handler := UdpBranch)
      else side
    else if f.kind == CLOSE || f.kind == ERROR then Forget(side, f.id)
    else if f.kind == PING then side.(handler := Replying(PONG, f.id, f.payload))
    else side
  }

  predicate Incoming(side: Side, link: Link) {
    side.handler == Idle && link.consumed < link.taken <= |link.raw|
  }

  function ConsumeAtClient(z: Zstd, s: State): Option<State> {
    if !Incoming(s.client, s.down) then None
    else
      var s1 := s.(down := s.down.(consumed := s.down.consumed + 1));
      match DecodeFrame(z, s.down.raw[s.down.consumed])
      case None => Some(s1.(client := s.client.(handler := Stopped)))
      case Some(f) =>
        match HandleAtClient(s.client, f)
        case None => None
        case Some(side) => Some(s1.(client := side, gotReady := s.gotReady || f.kind == READY))
  }

  function ConsumeAtHost(z: Zstd, s: State): Option<State> {
    if !Incoming(s.host, s.up) then None
    else
      var s1 := s.(up := s.up.(consumed := s.up.consumed + 1));
      match DecodeFrame(z, s.up.raw[s.up.consumed])
      case None => Some(s1.(host := s.host.(handler := Stopped)))
      case Some(f) => Some(s1.(host := HandleAtHost(s.host, f)))
  }

  /** Send what a handler owes if the link is up (waiting for room), skip it if the link is down. */
  function SendOrSkip(link: Link, kind: byte, id: nat, payload: seq<byte>): Option<Link> {
    if link.HasRoom() then Some(link.Send(kind, id, payload)) else if !link.open then Some(link) else None
  }

  function ReplyStep(side: Side, out: Link): Option<(Side, Link)> {
    match side.handler
    case Replying(kind, id, payload) =>
      (match SendOrSkip(out, kind, id, payload)
       case None => None
       case Some(out') => Some((side.(handler := Idle), out')))
    case _ => None
  }

  function HandlerStep(s: State, a: HandlerAction): Option<State> {
    var side := s.host;
    match (a, side.handler)
    case (Deliver, Delivering(id, payload)) =>
      (match Offer(side, id, payload)
       case None => None
       case Some(side') => Some(s.(host := side'.(handler := Idle))))
    case (ConnectOk, Connecting(id)) =>
      Some(s.(host := side.(handler := Idle,
        conns := side.conns[id := FreshConn(Payloads(s.up.log[..Min(s.up.consumed, |s.up.log|)], id))])))
    case (ConnectFails(message), Connecting(id)) => Some(s.(host := side.(handler := Refusing(id, message))))
    case (Refuse, Refusing(id, message)) =>
      (match SendOrSkip(s.down, ERROR, id, message)
       case None => None
       case Some(down) => Some(s.(host := side.(handler := RefusingClose(id)), down := down)))
    case (RefuseClose, RefusingClose(id)) =>
      (match SendOrSkip(s.down, CLOSE, id, [])
       case None => None
       case Some(down) => Some(s.(host := side.(handler := Idle), down := down)))
    case _ => None
  }

  // Accept loop

  function AcceptStep(s: State, a: AcceptAction): Option<State> {
    match (a, s.acceptor)
    case (Accept, Listening) => Some(s.(acceptor := Opening(s.next % TWO64), next := s.next + 1))
    case (SendOpen, Opening(id)) =>
      if s.up.HasRoom() then Some(s.(acceptor := Registering(id), up := s.up.Send(OPEN, id, []))) else None
    case (SendOpenFails, Opening(id)) => if !s.up.open then Some(s.(acceptor := AcceptorStopped)) else None
    case (Register, Registering(id)) =>
      Some(s.(acceptor := Listening, client := s.client.(
        conns := s.client.conns[id := FreshConn(Payloads(s.down.log[..Min(s.down.consumed, |s.down.log|)], id))])))
    case (AcceptorStops, _) => Some(s.(acceptor := AcceptorStopped))
    case _ => None
  }

  // Links and sessions

  function Transmitted(link: Link): Option<Link> {
    if link.open && link.taken < |link.raw| then Some(link.(taken := link.taken + 1)) else None
  }

  function Pinged(link: Link, stamp: seq<byte>): Option<Link> {
    if link.HasRoom() then Some(link.Send(PING, 0, stamp)) else None
  }

  function Ended(side: Side): Option<Side> {
    if side.handler == Idle then Some(side.(handler := Stopped)) else None
  }

  function WithUp(s: State, link: Option<Link>): Option<State> {
    match link case None => None case Some(l) => Some(s.(up := l))
  }

  function WithDown(s: State, link: Option<Link>): Option<State> {
    match link case None => None case Some(l) => Some(s.(down := l))
  }

  function WithClient(s: State, r: Option<(Side, Link)>): Option<State> {
    match r case None => None case Some(p) => Some(s.(client := p.0, up := p.1))
  }

  function WithHost(s: State, r: Option<(Side, Link)>): Option<State> {
    match r case None => None case Some(p) => Some(s.(host := p.0, down := p.1))
  }

  /** The system's step function; `None` when the action is not possible in `s`. */
  function Next(z: Zstd, s: State, a: Action): Option<State> {
    match a
    case Accepting(accept) => AcceptStep(s, accept)
    case Handling(handling) => HandlerStep(s, handling)
    case Pump(Client, id, p) => WithClient(s, PumpStep(z, s.client, s.up, id, p))
    case Pump(Host, id, p) => WithHost(s, PumpStep(z, s.host, s.down, id, p))
    case Consume(Client) => ConsumeAtClient(z, s)
    case Consume(Host) => ConsumeAtHost(z, s)
    case Reply(Client) => WithClient(s, ReplyStep(s.client, s.up))
    case Reply(Host) => WithHost(s, ReplyStep(s.host, s.down))
    case Ping(Client, stamp) => WithUp(s, Pinged(s.up, stamp))
    case Ping(Host, stamp) => WithDown(s, Pinged(s.down, stamp))
    case Transmit(Client) => WithUp(s, Transmitted(s.up))
    case Transmit(Host) => WithDown(s, Transmitted(s.down))
    case LinkDies(Client) => Some(s.(up := s.up.(open := false)))
    case LinkDies(Host) => Some(s.(down := s.down.(open := false)))
    case SessionEnds(Client) => (match Ended(s.client) case None => None case Some(side) => Some(s.(client := side)))
    case SessionEnds(Host) => (match Ended(s.host) case None => None case Some(side) => Some(s.(host := side)))
    case Cancel(Client) => Some(s.(client := s.client.(cancelled := true)))
    case Cancel(Host) => Some(s.(host := s.host.(cancelled := true)))
  }

  /** The state a run of actions leads to from `Init`, if every action is possible when its turn comes. */
  function Run(z: Zstd, actions: seq<Action>): Option<State> {
    if actions == [] then Some(Init())
    else
      match Run(z, actions[..|actions| - 1])
      case None => None
      case Some(s) => Next(z, s, actions[|actions| - 1])
  }
}
