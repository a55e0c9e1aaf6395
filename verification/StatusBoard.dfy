/**
 * The shared `NetworkStatus` record (src/manager.rs, src/models.rs). Every task changes it through `overwrite_status`
 * or `mutate_status`, each under the write lock; the fields kept here are those that must agree with each other.
 */
module StatusBoard {
  import opened Options

  datatype Mode = IdleMode | Host | Client
  datatype ConnectionState = Idle | Starting | WaitingForPeer | Punching | Connecting | Hosting | Connected | Error

  datatype Peer = Peer(id: string, addr: string, connected: bool, ping: Option<nat>, transport: Option<string>)

  datatype Status = Status(mode: Mode, state: ConnectionState, peerCount: nat, peers: seq<Peer>)

  function Init(): Status {
    Status(IdleMode, Idle, 0, [])
  }

  /** `peers.iter().filter(|peer| peer.connected).count()` */
  function Count(peers: seq<Peer>): nat {
    if peers == [] then 0 else Count(peers[..|peers| - 1]) + if peers[|peers| - 1].connected then 1 else 0
  }

  predicate AnyConnected(peers: seq<Peer>) {
    exists i :: 0 <= i < |peers| && peers[i].connected
  }

  predicate Matches(p: Peer, id: string, idleOnly: bool) {
    p.id == id && (idleOnly ==> !p.connected)
  }

  /** Position of the first peer with this id, only among the unconnected ones if asked; the length if there is none. */
  function Find(peers: seq<Peer>, id: string, idleOnly: bool): (i: nat)
    ensures i <= |peers|
    ensures i < |peers| ==> Matches(peers[i], id, idleOnly)
    ensures forall j :: 0 <= j < i ==> !Matches(peers[j], id, idleOnly)
  {
    if peers == [] || Matches(peers[0], id, idleOnly) then 0 else 1 + Find(peers[1..], id, idleOnly)
  }

  /** Every way the manager's tasks change these fields. */
  datatype Update =
    | SessionCleared
    | HostStarting
    | HostReady
    | ClientWaiting(id: string, addr: string)
    | Fatal(mode: Mode)
    | Unrelated
    | PunchStarted
    | Upsert(id: string, addr: string, connected: bool, ping: Option<nat>, transport: Option<string>)
    | PingUpdate(id: string, ms: nat)
    | Disconnected(id: string)
    | PunchTimedOut(id: string)
    | ClientStarting
    | ClientCommitted
    | ClientConnecting
    | ClientConnected(id: string, addr: string, ping: Option<nat>, via: string)

  function Counted(s: Status): Status {
    s.(peerCount := Count(s.peers))
  }

  function UpsertPeers(peers: seq<Peer>, u: Update): seq<Peer>
    requires u.Upsert?
  {
    var i := Find(peers, u.id, false);
    if i < |peers| then
      peers[i := Peer(u.id, u.addr, u.connected, u.ping, if u.transport.Some? then u.transport else peers[i].transport)]
    else peers + [Peer(u.id, u.addr, u.connected, u.ping, u.transport)]
  }

  function DisconnectPeers(peers: seq<Peer>, id: string): seq<Peer> {
    var i := Find(peers, id, false);
    if i < |peers| then peers[i := peers[i].(connected := false)] else peers
  }

  function Apply(s: Status, u: Update): Status {
    match u
    case SessionCleared => Status(IdleMode, Idle, 0, [])
    case HostStarting => Status(Host, Starting, 0, [])
    case HostReady => Status(Host, Hosting, 0, [])
    case ClientWaiting(id, addr) => Status(Client, WaitingForPeer, 0, [Peer(id, addr, false, None,
      Some("direct-quic"))])
    case Fatal(mode) => Status(mode, Error, 0, [])
    case Unrelated => Counted(s)
    case PunchStarted => Counted(s.(state := Punching))
    case Upsert(_, _, _, _, _) =>
      var peers := UpsertPeers(s.peers, u);
      var state := if s.mode != Host then s.state else if AnyConnected(peers) then Connected else Hosting;
      Counted(s.(peers := peers, state := state))
    case PingUpdate(id, ms) =>
      var i := Find(s.peers, id, false);
      Counted(if i < |s.peers| then s.(peers := s.peers[i := s.peers[i].(ping := Some(ms))]) else s)
    case Disconnected(id) =>
      Counted(s.(peers := DisconnectPeers(s.peers, id), state := if s.mode == Host then Hosting else s.state))
    case PunchTimedOut(id) =>
      var i := Find(s.peers, id, true);
      Counted(if i < |s.peers| then s.(peers := Without(s.peers, i)) else s)
    case ClientStarting => Counted(s.(mode := Client, state := Starting))
    case ClientCommitted => Counted(s.(mode := Client, state := Connecting))
    case ClientConnecting => Counted(s.(state := Connecting))
    case ClientConnected(id, addr, ping, via) =>
      Counted(s.(state := Connected, peers := [Peer(id, addr, true, ping, Some(via))]))
  }

  function Run(updates: seq<Update>): Status {
    if updates == [] then Init() else Apply(Run(updates[..|updates| - 1]), updates[|updates| - 1])
  }

  // The invariant

  predicate DistinctIds(peers: seq<Peer>) {
    forall i, j :: 0 <= i < j < |peers| ==> peers[i].id != peers[j].id
  }

  predicate StatusOk(s: Status) {
    && s.peerCount == Count(s.peers)
    && DistinctIds(s.peers)
    && (s.mode == Host && s.state == Connected ==> AnyConnected(s.peers))
  }

  lemma {:induction false} CountZero(peers: seq<Peer>)
    ensures Count(peers) > 0 <==> AnyConnected(peers)
  {
    if peers != [] {
      var n := |peers| - 1;
      CountZero(peers[..n]);
      if AnyConnected(peers[..n]) {
        var i :| 0 <= i < n && peers[..n][i].connected;
        assert peers[i].connected;
      }
      if AnyConnected(peers) && !peers[n].connected {
        var i :| 0 <= i < |peers| && peers[i].connected;
        assert peers[..n][i].connected;
      }
    }
  }

  lemma OneConnected(p: Peer)
    ensures Count([p]) == if p.connected then 1 else 0
  {
    assert [p][..0] == [];
  }

  function Without(peers: seq<Peer>, i: nat): (rest: seq<Peer>)
    requires i < |peers|
    ensures |rest| == |peers| - 1
    ensures forall k :: 0 <= k < |rest| ==> rest[k] == peers[if k < i then k else k + 1]
  {
    peers[..i] + peers[i + 1..]
  }

  /** Removing an unconnected peer leaves the connected ones. */
  lemma RemoveIdle(peers: seq<Peer>, i: nat)
    requires i < |peers| && !peers[i].connected && DistinctIds(peers)
    ensures DistinctIds(Without(peers, i)) && (AnyConnected(peers) <==> AnyConnected(Without(peers, i)))
  {
    var rest := Without(peers, i);
    hide Without;
    if AnyConnected(peers) {
      var k :| 0 <= k < |peers| && peers[k].connected;
      assert rest[if k < i then k else k - 1] == peers[k];
    }
    if AnyConnected(rest) {
      var k :| 0 <= k < |rest| && rest[k].connected;
      assert peers[if k < i then k else k + 1].connected;
    }
  }

  lemma UpsertDistinct(peers: seq<Peer>, u: Update)
    requires DistinctIds(peers) && u.Upsert?
    ensures DistinctIds(UpsertPeers(peers, u))
  {
  }

  /** Every update keeps the invariant, whatever task makes it and whatever came before. */
  lemma ApplyKeeps(s: Status, u: Update)
    requires StatusOk(s)
    ensures StatusOk(Apply(s, u))
  {
    match u
    case Upsert(_, _, _, _, _) => UpsertKeeps(s, u);
    case PingUpdate(id, ms) => PingKeeps(s, id, ms);
    case Disconnected(id) => DisconnectKeeps(s, id);
    case PunchTimedOut(id) => TimeoutKeeps(s, id);
    case ClientWaiting(id, addr) => OneConnected(Peer(id, addr, false, None, Some("direct-quic")));
    case _ => hide Find;
  }

  lemma UpsertKeeps(s: Status, u: Update)
    requires StatusOk(s) && u.Upsert?
    ensures StatusOk(Apply(s, u))
  {
    UpsertDistinct(s.peers, u);
    hide UpsertPeers, Count, AnyConnected;
  }

  lemma DisconnectKeeps(s: Status, id: string)
    requires StatusOk(s)
    ensures StatusOk(Apply(s, Disconnected(id)))
  {
    var after := DisconnectPeers(s.peers, id);
    hide Count;
    if s.mode != Host {
      assert DistinctIds(after);
    }
  }

  lemma TimeoutKeeps(s: Status, id: string)
    requires StatusOk(s)
    ensures StatusOk(Apply(s, PunchTimedOut(id)))
  {
    var i := Find(s.peers, id, true);
    if i < |s.peers| {
      RemoveIdle(s.peers, i);
    }
    hide Count, DistinctIds, AnyConnected, Without;
  }

  lemma PingKeeps(s: Status, id: string, ms: nat)
    requires StatusOk(s)
    ensures StatusOk(Apply(s, PingUpdate(id, ms)))
  {
    var s' := Apply(s, PingUpdate(id, ms));
    if AnyConnected(s.peers) {
      var k :| 0 <= k < |s.peers| && s.peers[k].connected;
      assert s'.peers[k].connected;
    }
  }

  lemma {:induction false} RunKeeps(updates: seq<Update>)
    ensures StatusOk(Run(updates))
  {
    if updates != [] {
      RunKeeps(updates[..|updates| - 1]);
      ApplyKeeps(Run(updates[..|updates| - 1]), updates[|updates| - 1]);
    }
  }

  /** What a reader of the status may rely on after any interleaving of updates. */
  lemma StatusIsConsistent(updates: seq<Update>)
    ensures var s := Run(updates);
      && s.peerCount == Count(s.peers)
      && DistinctIds(s.peers)
      && (s.mode == Host && s.state == Connected ==> s.peerCount > 0)
  {
    RunKeeps(updates);
    CountZero(Run(updates).peers);
  }

  // Where the converse fails

  /** A host's state says connected if and only if some peer is. */
  predicate Agrees(s: Status) {
    s.mode == Host ==> (s.state == Connected <==> AnyConnected(s.peers))
  }

  predicate OtherConnected(peers: seq<Peer>, id: string) {
    exists i :: 0 <= i < |peers| && peers[i].connected && peers[i].id != id
  }

  /** `mark_peer_disconnected` leaves the host's state in agreement exactly when no other peer was connected. */
  lemma DisconnectAgreesExactly(s: Status, id: string)
    requires StatusOk(s) && s.mode == Host
    ensures Agrees(Apply(s, Disconnected(id))) <==> !OtherConnected(s.peers, id)
  {
    var i, after := Find(s.peers, id, false), DisconnectPeers(s.peers, id);
    if OtherConnected(s.peers, id) {
      var k :| 0 <= k < |s.peers| && s.peers[k].connected && s.peers[k].id != id;
      assert after[k].connected;
    }
    if AnyConnected(after) {
      var k :| 0 <= k < |after| && after[k].connected;
      assert s.peers[k].connected && s.peers[k].id != id;
    }
  }

  /** What an update needs for a host's state to follow its peers afterwards. */
  predicate Follows(s: Status, u: Update) {
    s.mode == Host ==>
      match u
      case Disconnected(id) => !OtherConnected(s.peers, id)
      case PunchStarted => !AnyConnected(s.peers)
      case ClientConnecting => !AnyConnected(s.peers)
      case Unrelated => Agrees(s)
      case PingUpdate(_, _) => Agrees(s)
      case PunchTimedOut(_) => Agrees(s)
      case _ => true
  }

  lemma PingLeavesConnections(s: Status, id: string, ms: nat)
    ensures AnyConnected(Apply(s, PingUpdate(id, ms)).peers) <==> AnyConnected(s.peers)
  {
    var after := Apply(s, PingUpdate(id, ms)).peers;
    assert |after| == |s.peers| && forall k :: 0 <= k < |after| ==> after[k].connected == s.peers[k].connected;
    if AnyConnected(s.peers) {
      var k :| 0 <= k < |s.peers| && s.peers[k].connected;
      assert after[k].connected;
    }
  }

  lemma TimeoutLeavesConnections(s: Status, id: string)
    requires StatusOk(s)
    ensures AnyConnected(Apply(s, PunchTimedOut(id)).peers) <==> AnyConnected(s.peers)
  {
    var i := Find(s.peers, id, true);
    if i < |s.peers| {
      RemoveIdle(s.peers, i);
    }
    hide Count, DistinctIds, AnyConnected, Without;
  }

  /**
   * For every update, and a status in agreement or not: exactly when a host's state follows its peers afterwards. An
   * upsert, a fresh session or a completed connection always restores agreement; a disconnect, the start of a punch
   * and a late client step break it exactly when a connected peer is left.
   */
  lemma AgreesExactly(s: Status, u: Update)
    requires StatusOk(s)
    ensures Agrees(Apply(s, u)) <==> Follows(s, u)
  {
    match u
    case Disconnected(id) =>
      if s.mode == Host {
        DisconnectAgreesExactly(s, id);
      }
    case PingUpdate(id, ms) => PingLeavesConnections(s, id, ms);
    case PunchTimedOut(id) => TimeoutLeavesConnections(s, id);
    case ClientConnected(_, _, _, _) => assert Apply(s, u).peers[0].connected;
    case _ =>
  }

  /** The update sets a host's state without looking at its peers, and one it does not disconnect is connected. */
  predicate Parts(s: Status, u: Update) {
    && s.mode == Host
    && match u
       case Disconnected(id) => OtherConnected(s.peers, id)
       case PunchStarted => AnyConnected(s.peers)
       case ClientConnecting => AnyConnected(s.peers)
       case _ => false
  }

  predicate AlwaysAgrees(updates: seq<Update>) {
    forall n :: 0 <= n <= |updates| ==> Agrees(Run(updates[..n]))
  }

  predicate NeverParts(updates: seq<Update>) {
    forall n :: 0 <= n < |updates| ==> !Parts(Run(updates[..n]), updates[n])
  }

  lemma AgreesAtEnd(updates: seq<Update>)
    requires AlwaysAgrees(updates)
    ensures Agrees(Run(updates))
  {
    assert updates[..|updates|] == updates;
  }

  lemma AlwaysAgreesSnoc(updates: seq<Update>, u: Update)
    ensures AlwaysAgrees(updates + [u]) <==> AlwaysAgrees(updates) && Agrees(Run(updates + [u]))
  {
    var all := updates + [u];
    hide Run, Agrees;
    if AlwaysAgrees(all) {
      AgreesAtEnd(all);
      forall n | 0 <= n <= |updates| ensures Agrees(Run(updates[..n])) {
        assert all[..n] == updates[..n];
      }
    }
    if AlwaysAgrees(updates) && Agrees(Run(all)) {
      forall n | 0 <= n <= |all| ensures Agrees(Run(all[..n])) {
        assert all[..n] == if n <= |updates| then updates[..n] else all;
      }
    }
  }

  lemma NeverPartsSnoc(updates: seq<Update>, u: Update)
    ensures NeverParts(updates + [u]) <==> NeverParts(updates) && !Parts(Run(updates), u)
  {
    var all := updates + [u];
    assert all[..|updates|] == updates;
    hide Run, Parts;
    if NeverParts(all) {
      forall n | 0 <= n < |updates| ensures !Parts(Run(updates[..n]), updates[n]) {
        assert all[..n] == updates[..n] && all[n] == updates[n];
      }
      assert !Parts(Run(all[..|updates|]), all[|updates|]);
    }
    if NeverParts(updates) && !Parts(Run(updates), u) {
      forall n | 0 <= n < |all| ensures !Parts(Run(all[..n]), all[n]) {
        assert n < |updates| ==> all[..n] == updates[..n] && all[n] == updates[n];
      }
    }
  }

  lemma AgreeingStaysUnlessParted(s: Status, u: Update)
    requires Agrees(s)
    ensures Follows(s, u) <==> !Parts(s, u)
  {
    hide OtherConnected;
  }

  /**
   * Over whole runs: a host's state follows its peers at every moment if and only if no disconnect, punch start or late
   * client step in the run comes while another peer is connected.
   */
  lemma {:induction false} AgreesThroughoutExactly(updates: seq<Update>)
    ensures AlwaysAgrees(updates) <==> NeverParts(updates)
  {
    if updates != [] {
      hide *;
      var front, u := updates[..|updates| - 1], updates[|updates| - 1];
      assert updates == front + [u];
      AgreesThroughoutExactly(front);
      AlwaysAgreesSnoc(front, u);
      NeverPartsSnoc(front, u);
      RunKeeps(front);
      RunStep(front, u);
      AgreesExactly(Run(front), u);
      if AlwaysAgrees(front) {
        AgreesAtEnd(front);
        AgreeingStaysUnlessParted(Run(front), u);
      }
    }
  }

  /** Two players join, one leaves: the status reads `Hosting` while the other is still connected. */
  lemma ConverseFails() returns (updates: seq<Update>)
    ensures var s := Run(updates); s.mode == Host && s.state == Hosting && s.peerCount == 1
  {
    var a, b := Upsert("a", "1.1.1.1:1", true, None, None), Upsert("b", "2.2.2.2:2", true, None, None);
    var pa, pb := Peer("a", "1.1.1.1:1", true, None, None), Peer("b", "2.2.2.2:2", true, None, None);
    updates := [HostReady] + [a] + [b] + [Disconnected("a")];
    HostStarts();
    RunStep([HostReady], a);
    RunStep([HostReady] + [a], b);
    RunStep([HostReady] + [a] + [b], Disconnected("a"));
    hide Run, Apply;
    FirstJoins(a, pa);
    SecondJoins(pa, b, pb);
    FirstLeaves(pa, pb);
  }

  /** With no disconnect at all: a player is connected, another one's punch starts, and the status reads `Punching`. */
  lemma PunchPartsToo() returns (updates: seq<Update>)
    ensures var s := Run(updates); s.mode == Host && s.state == Punching && s.peerCount == 1 && !Agrees(s)
  {
    var a, pa := Upsert("a", "1.1.1.1:1", true, None, None), Peer("a", "1.1.1.1:1", true, None, None);
    updates := [HostReady] + [a] + [PunchStarted];
    HostStarts();
    RunStep([HostReady], a);
    RunStep([HostReady] + [a], PunchStarted);
    hide Run, Apply;
    FirstJoins(a, pa);
    PunchOverConnected(pa);
  }

  lemma PunchOverConnected(p: Peer)
    requires p.connected
    ensures var s := Apply(Status(Host, Connected, 1, [p]), PunchStarted);
      s == Status(Host, Punching, 1, [p]) && !Agrees(s)
  {
    OneConnected(p);
    assert [p][0].connected;
  }

  lemma HostStarts()
    ensures Run([HostReady]) == Status(Host, Hosting, 0, [])
  {
    RunStep([], HostReady);
    assert [] + [HostReady] == [HostReady];
  }

  lemma RunStep(updates: seq<Update>, u: Update)
    ensures Run(updates + [u]) == Apply(Run(updates), u)
  {
    assert (updates + [u])[..|updates|] == updates;
  }

  lemma FirstJoins(u: Update, p: Peer)
    requires u == Upsert(p.id, p.addr, true, p.ping, p.transport) && p.connected
    ensures Apply(Status(Host, Hosting, 0, []), u) == Status(Host, Connected, 1, [p])
  {
    assert UpsertPeers([], u) == [p] && [p][0].connected;
    OneConnected(p);
  }

  lemma SecondJoins(p: Peer, u: Update, q: Peer)
    requires u == Upsert(q.id, q.addr, true, q.ping, q.transport) && p.connected && q.connected && p.id != q.id
    ensures Apply(Status(Host, Connected, 1, [p]), u) == Status(Host, Connected, 2, [p, q])
  {
    assert Find([p], q.id, false) == 1;
    assert UpsertPeers([p], u) == [p, q] && [p, q][0].connected;
    assert [p, q][..1] == [p];
    OneConnected(p);
  }

  lemma FirstLeaves(p: Peer, q: Peer)
    requires p.connected && q.connected
    ensures Apply(Status(Host, Connected, 2, [p, q]), Disconnected(p.id))
      == Status(Host, Hosting, 1, [p.(connected := false), q])
  {
    assert Find([p, q], p.id, false) == 0;
    var after := [p.(connected := false), q];
    assert DisconnectPeers([p, q], p.id) == after;
    assert after[..1] == [p.(connected := false)];
    OneConnected(p.(connected := false));
  }

  // What each update to a peer means

  predicate Listed(peers: seq<Peer>, id: string) {
    exists i :: 0 <= i < |peers| && peers[i].id == id
  }

  /** Nobody but `id` is affected: the others stand where they stood, as they were. */
  predicate OthersKept(before: seq<Peer>, after: seq<Peer>, id: string) {
    && |before| <= |after| <= |before| + 1
    && (forall i :: 0 <= i < |before| && before[i].id != id ==> after[i] == before[i])
    && (forall i :: 0 <= i < |before| && before[i].id == id ==> after[i].id == id)
  }

  /**
   * After an upsert the peer is listed exactly once, in its old place or at the end, with the address, connection and
   * ping given, and the transport given or else the one it had; a host shows connected exactly when that peer is or
   * another one was.
   */
  predicate Upserted(s: Status, u: Update, s': Status)
    requires u.Upsert?
  {
    && OthersKept(s.peers, s'.peers, u.id)
    && (|s'.peers| == |s.peers| <==> Listed(s.peers, u.id))
    && Listed(s'.peers, u.id)
    && (forall i :: 0 <= i < |s'.peers| && s'.peers[i].id == u.id ==>
          && s'.peers[i].addr == u.addr && s'.peers[i].connected == u.connected && s'.peers[i].ping == u.ping
          && (u.transport.Some? ==> s'.peers[i].transport == u.transport)
          && (u.transport.None? ==> s'.peers[i].transport == if i < |s.peers| then s.peers[i].transport else None))
    && s'.mode == s.mode
    && (s.mode == Host ==>
          && (s'.state == Connected <==> u.connected || OtherConnected(s.peers, u.id))
          && (s'.state == Connected || s'.state == Hosting))
    && (s.mode != Host ==> s'.state == s.state)
  }

  /** A listed peer after an upsert of it. */
  function Refreshed(p: Peer, u: Update): Peer
    requires u.Upsert?
  {
    Peer(u.id, u.addr, u.connected, u.ping, if u.transport.Some? then u.transport else p.transport)
  }

  lemma UpsertListed(s: Status, u: Update)
    requires StatusOk(s) && u.Upsert? && Listed(s.peers, u.id)
    ensures var s' := Apply(s, u);
      && |s'.peers| == |s.peers| && Find(s.peers, u.id, false) < |s.peers|
      && s.peers[Find(s.peers, u.id, false)].id == u.id
      && forall i :: 0 <= i < |s.peers| ==>
           s'.peers[i] == if s.peers[i].id == u.id then Refreshed(s.peers[i], u) else s.peers[i]
  {
    var i := Find(s.peers, u.id, false);
    assert forall j :: 0 <= j < i ==> !Matches(s.peers[j], u.id, false);
    hide Count, AnyConnected;
  }

  lemma UpsertNew(s: Status, u: Update)
    requires u.Upsert? && !Listed(s.peers, u.id)
    ensures Apply(s, u).peers == s.peers + [Peer(u.id, u.addr, u.connected, u.ping, u.transport)]
  {
    assert Find(s.peers, u.id, false) == |s.peers|;
    hide Count, AnyConnected;
  }

  /** The peer at `k` is the upserted one: the rest of the list decides with it whether anybody is connected. */
  lemma ConnectedAfter(before: seq<Peer>, after: seq<Peer>, id: string, connected: bool, k: nat)
    requires OthersKept(before, after, id) && k < |after| && after[k].id == id && after[k].connected == connected
    requires forall i :: 0 <= i < |after| && after[i].id == id ==> i == k
    requires |after| > |before| ==> k == |before|
    ensures AnyConnected(after) <==> connected || OtherConnected(before, id)
  {
    if OtherConnected(before, id) {
      var i :| 0 <= i < |before| && before[i].connected && before[i].id != id;
      assert after[i].connected;
    }
    if AnyConnected(after) && !connected {
      var i :| 0 <= i < |after| && after[i].connected;
      assert before[i].connected && before[i].id != id;
    }
  }

  lemma RefreshedId(p: Peer, u: Update)
    requires u.Upsert?
    ensures Refreshed(p, u).id == u.id
  {
  }

  lemma RefreshedNew(u: Update)
    requires u.Upsert?
    ensures Refreshed(Peer(u.id, u.addr, false, None, None), u) == Peer(u.id, u.addr, u.connected, u.ping, u.transport)
  {
  }

  lemma UpsertPlaces(s: Status, u: Update) returns (k: nat)
    requires StatusOk(s) && u.Upsert?
    ensures var after := Apply(s, u).peers;
      && OthersKept(s.peers, after, u.id) && (|after| == |s.peers| <==> Listed(s.peers, u.id))
      && k < |after| && (forall i :: 0 <= i < |after| && after[i].id == u.id ==> i == k)
      && after[k] == Refreshed(if k < |s.peers| then s.peers[k] else Peer(u.id, u.addr, false, None, None), u)
      && (|after| > |s.peers| ==> k == |s.peers|)
  {
    ApplyKeeps(s, u);
    hide Apply, Count, AnyConnected, Find, Refreshed;
    var after := Apply(s, u).peers;
    if Listed(s.peers, u.id) {
      UpsertListed(s, u);
      k := Find(s.peers, u.id, false);
      assert after[k].id == u.id by {
        RefreshedId(s.peers[k], u);
      }
    } else {
      UpsertNew(s, u);
      k := |s.peers|;
      RefreshedNew(u);
    }
    forall i | 0 <= i < |s.peers| && s.peers[i].id == u.id ensures after[i].id == u.id {
      RefreshedId(s.peers[i], u);
    }
  }

  lemma UpsertState(s: Status, u: Update)
    requires u.Upsert?
    ensures var s' := Apply(s, u);
      && s'.mode == s.mode
      && s'.state == if s.mode != Host then s.state else if AnyConnected(s'.peers) then Connected else Hosting
  {
    hide Count, AnyConnected, UpsertPeers;
  }

  lemma UpsertMeans(s: Status, u: Update)
    requires StatusOk(s) && u.Upsert?
    ensures Upserted(s, u, Apply(s, u))
  {
    var k := UpsertPlaces(s, u);
    UpsertState(s, u);
    ConnectedAfter(s.peers, Apply(s, u).peers, u.id, u.connected, k);
    assert Apply(s, u).peers[k].id == u.id;
    hide Apply, OthersKept, AnyConnected, OtherConnected, StatusOk;
  }

  /** Only this peer's ping changes, and it is the one measured. */
  predicate Pinged(s: Status, id: string, ms: nat, s': Status) {
    && s' == s.(peers := s'.peers, peerCount := s'.peerCount) && |s'.peers| == |s.peers|
    && forall i :: 0 <= i < |s.peers| ==>
         s'.peers[i] == if s.peers[i].id == id then s.peers[i].(ping := Some(ms)) else s.peers[i]
  }

  lemma PingMeans(s: Status, id: string, ms: nat)
    requires StatusOk(s)
    ensures Pinged(s, id, ms, Apply(s, PingUpdate(id, ms)))
  {
    hide Count, AnyConnected;
  }

  /** Only this peer becomes unconnected; a host goes on hosting. */
  predicate Parted(s: Status, id: string, s': Status) {
    && |s'.peers| == |s.peers| && s'.mode == s.mode && s'.state == (if s.mode == Host then Hosting else s.state)
    && forall i :: 0 <= i < |s.peers| ==>
         s'.peers[i] == if s.peers[i].id == id then s.peers[i].(connected := false) else s.peers[i]
  }

  lemma DisconnectMeans(s: Status, id: string)
    requires StatusOk(s)
    ensures Parted(s, id, Apply(s, Disconnected(id)))
  {
    hide Count, AnyConnected;
  }

  /** Of the list only the peer's entry goes, and only if it is not connected; the count stays. */
  predicate TimedOut(s: Status, id: string, s': Status) {
    && s' == s.(peers := s'.peers)
    && (forall i :: 0 <= i < |s.peers| && s.peers[i].id == id && !s.peers[i].connected ==>
          s'.peers == Without(s.peers, i))
    && ((forall i :: 0 <= i < |s.peers| && s.peers[i].id == id ==> s.peers[i].connected) ==> s'.peers == s.peers)
  }

  lemma {:induction false} CountJoin(a: seq<Peer>, b: seq<Peer>)
    ensures Count(a + b) == Count(a) + Count(b)
  {
    if b == [] {
      assert a + b == a;
    } else {
      var n := |b| - 1;
      CountJoin(a, b[..n]);
      assert (a + b)[..|a| + n] == a + b[..n];
    }
  }

  lemma CountThree(a: seq<Peer>, p: Peer, b: seq<Peer>)
    requires !p.connected
    ensures Count(a + [p] + b) == Count(a + b)
  {
    hide Count;
    CountJoin(a, b);
    CountJoin(a, [p]);
    CountJoin(a + [p], b);
    OneConnected(p);
  }

  lemma ThreeParts(peers: seq<Peer>, i: nat)
    requires i < |peers|
    ensures peers == peers[..i] + [peers[i]] + peers[i + 1..] && Without(peers, i) == peers[..i] + peers[i + 1..]
  {
  }

  lemma CountWithoutIdle(peers: seq<Peer>, i: nat)
    requires i < |peers| && !peers[i].connected
    ensures Count(Without(peers, i)) == Count(peers)
  {
    hide *;
    ThreeParts(peers, i);
    CountThree(peers[..i], peers[i], peers[i + 1..]);
  }

  lemma TimeoutRemoves(s: Status, id: string)
    requires s.peerCount == Count(s.peers)
    ensures var i, s' := Find(s.peers, id, true), Apply(s, PunchTimedOut(id));
      s' == if i < |s.peers| then s.(peers := Without(s.peers, i)) else s
  {
    var i := Find(s.peers, id, true);
    if i < |s.peers| {
      CountWithoutIdle(s.peers, i);
    }
    hide Count, Without;
  }

  lemma OnlyIdleOne(peers: seq<Peer>, id: string)
    requires DistinctIds(peers)
    ensures var i := Find(peers, id, true);
      && (forall j :: 0 <= j < |peers| && peers[j].id == id && !peers[j].connected ==> j == i)
      && (i < |peers| ==> peers[i].id == id && !peers[i].connected)
  {
    var i := Find(peers, id, true);
    forall j | 0 <= j < |peers| && peers[j].id == id && !peers[j].connected ensures j == i {
      assert Matches(peers[j], id, true);
    }
  }

  lemma TimeoutMeans(s: Status, id: string)
    requires StatusOk(s)
    ensures TimedOut(s, id, Apply(s, PunchTimedOut(id)))
  {
    TimeoutRemoves(s, id);
    OnlyIdleOne(s.peers, id);
    hide Count, AnyConnected, Apply, Find, DistinctIds, Without;
  }

  // The record itself

  class Board {
    var status: Status

    constructor ()
      ensures status == Init()
    {
      status := Init();
    }

    /** The search behind `iter_mut().find` and `iter().position`. */
    method Position(id: string, idleOnly: bool) returns (i: nat)
      ensures i == Find(status.peers, id, idleOnly)
    {
      i := 0;
      while i < |status.peers|
        invariant i <= |status.peers|
        invariant Find(status.peers, id, idleOnly) == i + Find(status.peers[i..], id, idleOnly)
      {
        if Matches(status.peers[i], id, idleOnly) {
          return;
        }
        i := i + 1;
      }
    }

    /** The recount at the end of `mutate_status`. */
    method Recount()
      modifies this
      ensures status == Counted(old(status))
    {
      var count: nat := 0;
      var i := 0;
      while i < |status.peers|
        invariant 0 <= i <= |status.peers| && count == Count(status.peers[..i])
        invariant status == old(status)
      {
        assert status.peers[..i + 1][..i] == status.peers[..i];
        if status.peers[i].connected {
          count := count + 1;
        }
        i := i + 1;
      }
      assert status.peers[..i] == status.peers;
      status := status.(peerCount := count);
    }

    method UpsertPeer(id: string, addr: string, connected: bool, ping: Option<nat>, transport: Option<string>)
      modifies this
      ensures status == Apply(old(status), Upsert(id, addr, connected, ping, transport))
      ensures StatusOk(old(status)) ==>
        StatusOk(status) && Upserted(old(status), Upsert(id, addr, connected, ping, transport), status)
    {
      if StatusOk(status) {
        UpsertMeans(status, Upsert(id, addr, connected, ping, transport));
        ApplyKeeps(status, Upsert(id, addr, connected, ping, transport));
      }
      hide StatusOk, Upserted;
      var i := Position(id, false);
      hide Find, Count, AnyConnected;
      if i < |status.peers| {
        var kept := if transport.Some? then transport else status.peers[i].transport;
        status := status.(peers := status.peers[i := Peer(id, addr, connected, ping, kept)]);
      } else {
        status := status.(peers := status.peers + [Peer(id, addr, connected, ping, transport)]);
      }
      if status.mode == Host {
        status := status.(state := if AnyConnected(status.peers) then Connected else Hosting);
      }
      Recount();
    }

    method UpdatePeerPing(id: string, ms: nat)
      modifies this
      ensures status == Apply(old(status), PingUpdate(id, ms))
      ensures StatusOk(old(status)) ==> StatusOk(status) && Pinged(old(status), id, ms, status)
    {
      if StatusOk(status) {
        PingMeans(status, id, ms);
        ApplyKeeps(status, PingUpdate(id, ms));
      }
      hide StatusOk, Pinged;
      var i := Position(id, false);
      if i < |status.peers| {
        status := status.(peers := status.peers[i := status.peers[i].(ping := Some(ms))]);
      }
      Recount();
    }

    method MarkPeerDisconnected(id: string)
      modifies this
      ensures status == Apply(old(status), Disconnected(id))
      ensures StatusOk(old(status)) ==> StatusOk(status) && Parted(old(status), id, status)
    {
      if StatusOk(status) {
        DisconnectMeans(status, id);
        ApplyKeeps(status, Disconnected(id));
      }
      hide StatusOk, Parted;
      var i := Position(id, false);
      if i < |status.peers| {
        status := status.(peers := status.peers[i := status.peers[i].(connected := false)]);
      }
      if status.mode == Host {
        status := status.(state := Hosting);
      }
      Recount();
    }

    /** The end of `punch_from_host`'s background task. */
    method PunchTimeout(id: string)
      modifies this
      ensures status == Apply(old(status), PunchTimedOut(id))
      ensures StatusOk(old(status)) ==> StatusOk(status) && TimedOut(old(status), id, status)
    {
      if StatusOk(status) {
        TimeoutMeans(status, id);
        ApplyKeeps(status, PunchTimedOut(id));
      }
      hide StatusOk, TimedOut;
      var i := Position(id, true);
      if i < |status.peers| {
        status := status.(peers := status.peers[..i] + status.peers[i + 1..]);
      }
      Recount();
    }

    /** Whatever tasks had left in the record, it is consistent afterwards and lists nobody. */
    method MarkFatal(mode: Mode)
      modifies this
      ensures status == Apply(old(status), Fatal(mode))
      ensures StatusOk(status) && Agrees(status) && !AnyConnected(status.peers)
      ensures status.state == Error && status.mode == mode && status.peers == [] && status.peerCount == 0
    {
      status := Status(mode, Error, 0, []);
    }
  }
}
