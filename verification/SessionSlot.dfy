/**
 * The session slot of `NetworkManager` (src/manager.rs). Public operations hold the `control` lock for their whole
 * body and the slot's own lock for each step; `reset_session` is public and may run between any two steps.
 */
module SessionSlot {
  import opened Options

  datatype Kind = Host | PreparedClient | Client

  /** What the slot holds: the cancellation token, the kind of session, and its background tasks. */
  datatype Session = Session(token: nat, kind: Kind, tasks: set<nat>)

  datatype Operation = Hosting | Stopping | Connecting | Preparing | Committing

  /** Who holds the `control` lock, and whether that operation has already reset the slot. */
  datatype Control = Free | Owned(op: Operation, cleared: bool)

  /** `installed`, `cancelled`, `started` and `aborted` are history; `nextId` supplies tokens and task handles. */
  datatype Slot = Slot(
    held: Option<Session>, control: Control, nextId: nat,
    installed: set<nat>, cancelled: set<nat>, started: set<nat>, aborted: set<nat>)

  function Init(): Slot {
    Slot(None, Free, 0, {}, {}, {}, {})
  }

  /** `reset_session`: take the session, cancel its token, abort its tasks. */
  function Reset(s: Slot): Slot {
    match s.held
    case None => s
    case Some(x) => s.(held := None, cancelled := s.cancelled + {x.token}, aborted := s.aborted + x.tasks)
  }

  function KindOf(op: Operation): Kind {
    match op case Hosting => Host case Preparing => PreparedClient case _ => Client
  }

  /** Background tasks an operation starts: accept loop and lobby loop, the connect task, or none yet. */
  function TasksOf(op: Operation, first: nat): set<nat> {
    match op case Hosting => {first, first + 1} case Connecting => {first} case _ => {}
  }

  /** `*session = Some(SessionRuntime { .. })` with a new token and new tasks. */
  function Install(s: Slot, op: Operation): Slot {
    var tasks := TasksOf(op, s.nextId + 1);
    s.(held := Some(Session(s.nextId, KindOf(op), tasks)), nextId := s.nextId + 3,
       installed := s.installed + {s.nextId}, started := s.started + tasks)
  }

  /** `commit_prepared_client_connect`: a prepared session keeps its token; any other is put back without its tasks. */
  function Commit(s: Slot): Slot {
    match s.held
    case None => s
    case Some(x) =>
      var s1 := s.(aborted := s.aborted + x.tasks);
      if x.kind == PreparedClient then
        s1.(held := Some(Session(x.token, Client, {s.nextId})), nextId := s.nextId + 1,
          started := s.started + {s.nextId})
      else s1.(held := Some(Session(x.token, x.kind, {})))
  }

  datatype Step =
    | Lock(op: Operation)
    | Clear
    | PunchFromHost
    | InstallNew
    | CommitPrepared
    | Unlock
    | OutsideReset

  /** One step under the locks; `Unlock` is any return, with or without an error. */
  function Next(s: Slot, step: Step): Option<Slot> {
    match step
    case Lock(op) => if s.control == Free then Some(s.(control := Owned(op, false))) else None
    case Clear =>
      if s.control.Owned? && !s.control.cleared && s.control.op != Committing
         && (s.control.op == Connecting ==> !(s.held.Some? && s.held.value.kind == Host))
      then Some(Reset(s).(control := Owned(s.control.op, true))) else None
    case PunchFromHost =>
      if s.control == Owned(Connecting, false) && s.held.Some? && s.held.value.kind == Host
      then Some(s.(control := Free)) else None
    case InstallNew =>
      if s.control.Owned? && s.control.cleared && s.control.op != Stopping
      then Some(Install(s, s.control.op).(control := Free)) else None
    case CommitPrepared =>
      if s.control == Owned(Committing, false) then Some(Commit(s).(control := Free)) else None
    case Unlock => if s.control.Owned? then Some(s.(control := Free)) else None
    case OutsideReset => Some(Reset(s))
  }

  /** The slot after some steps, if each is possible when its turn comes. */
  function After(s: Slot, steps: seq<Step>): Option<Slot> {
    if steps == [] then Some(s)
    else
      match After(s, steps[..|steps| - 1])
      case None => None
      case Some(m) => Next(m, steps[|steps| - 1])
  }

  function Run(steps: seq<Step>): Option<Slot> {
    After(Init(), steps)
  }

  predicate SlotOk(s: Slot) {
    && (forall t :: t in s.installed ==> t < s.nextId)
    && (forall t :: t in s.started ==> t < s.nextId)
    && (s.control.Owned? && s.control.cleared ==> s.held == None)
    && (s.control.Owned? && s.control.cleared ==> s.control.op != Committing)
    && match s.held
       case None => s.cancelled == s.installed && s.aborted == s.started
       case Some(x) =>
         && x.token in s.installed && x.token !in s.cancelled && s.installed == s.cancelled + {x.token}
         && x.tasks !! s.aborted && s.started == s.aborted + x.tasks
  }

  lemma StepKeeps(s: Slot, step: Step, s': Slot)
    requires SlotOk(s) && Next(s, step) == Some(s')
    ensures SlotOk(s')
  {
  }

  lemma {:induction false} AfterKeeps(s: Slot, steps: seq<Step>)
    requires SlotOk(s) && After(s, steps).Some?
    ensures SlotOk(After(s, steps).value)
  {
    if steps != [] {
      var front := steps[..|steps| - 1];
      AfterKeeps(s, front);
      StepKeeps(After(s, front).value, steps[|steps| - 1], After(s, steps).value);
    }
  }

  lemma RunKeeps(steps: seq<Step>)
    requires Run(steps).Some?
    ensures SlotOk(Run(steps).value)
  {
    AfterKeeps(Init(), steps);
  }

  lemma AfterOn(s: Slot, steps: seq<Step>, step: Step)
    requires After(s, steps).Some?
    ensures After(s, steps + [step]) == Next(After(s, steps).value, step)
  {
    assert (steps + [step])[..|steps|] == steps;
  }

  /** Tokens that were put in the slot and never cancelled. */
  function Live(s: Slot): set<nat> {
    s.installed - s.cancelled
  }

  /**
   * Over every interleaving: each token ever installed is the one held now or already cancelled, so at most one
   * session is live; and each background task ever started for a session is the held session's or already aborted.
   */
  lemma EveryTokenHeldOrCancelled(steps: seq<Step>, s: Slot)
    requires Run(steps) == Some(s)
    ensures Live(s) == (if s.held.Some? then {s.held.value.token} else {})
    ensures s.started - s.aborted == (if s.held.Some? then s.held.value.tasks else {})
  {
    RunKeeps(steps);
  }

  /** Connecting to a peer never ends a hosted session: while it has the lock, only an outside reset takes that away. */
  lemma ConnectLeavesHostAlone(steps: seq<Step>, s: Slot, step: Step, s': Slot)
    requires Run(steps) == Some(s) && Next(s, step) == Some(s') && step != OutsideReset
    requires s.control.Owned? && s.control.op == Connecting && s.held.Some? && s.held.value.kind == Host
    ensures s'.held == s.held && Live(s') == Live(s) && s'.aborted == s.aborted
  {
    RunKeeps(steps);
  }

  /** No step that installs a session finds a live one in its place. */
  lemma NoLiveSessionIsOverwritten(steps: seq<Step>, s: Slot, s': Slot)
    requires Run(steps) == Some(s) && Next(s, InstallNew) == Some(s')
    ensures s.held == None && Live(s) == {}
    ensures s'.held.Some? && s'.held.value.token !in s.installed && Live(s') == {s'.held.value.token}
  {
    RunKeeps(steps);
  }

  /**
   * A commit that finds anything but a prepared client leaves the session held and live with its token, but every
   * task of it aborted; it is harmless exactly when the session had no tasks or was a prepared client.
   */
  lemma CommitStopsOtherSessions(steps: seq<Step>, s: Slot, s': Slot)
    requires Run(steps) == Some(s) && Next(s, CommitPrepared) == Some(s') && s.held.Some?
    ensures s'.held.Some? && s'.held.value.token == s.held.value.token && Live(s') == Live(s)
    ensures s'.held.value.kind == if s.held.value.kind == PreparedClient then Client else s.held.value.kind
    ensures (s'.started - s'.aborted != {} || s.started - s.aborted == {}) <==>
      s.held.value.kind == PreparedClient || s.held.value.tasks == {}
  {
    RunKeeps(steps);
    if s.held.value.kind == PreparedClient {
      assert s.nextId in s'.started && s.nextId !in s.aborted;
      assert s.nextId in s'.started - s'.aborted;
    }
  }

  /** A commit that finds a host session: it is still held and live, and nothing of it is running any more. */
  lemma CommitStopsAHost() returns (steps: seq<Step>, s: Slot)
    ensures Run(steps) == Some(s)
    ensures s.held.Some? && s.held.value.kind == Host && Live(s) == {s.held.value.token}
    ensures s.started != {} && s.started - s.aborted == {}
  {
    steps := [Lock(Hosting)] + [Clear] + [InstallNew] + [Lock(Committing)] + [CommitPrepared];
    AfterOn(Init(), [], Lock(Hosting));
    assert [] + [Lock(Hosting)] == [Lock(Hosting)];
    AfterOn(Init(), [Lock(Hosting)], Clear);
    AfterOn(Init(), [Lock(Hosting)] + [Clear], InstallNew);
    AfterOn(Init(), [Lock(Hosting)] + [Clear] + [InstallNew], Lock(Committing));
    AfterOn(Init(), [Lock(Hosting)] + [Clear] + [InstallNew] + [Lock(Committing)], CommitPrepared);
    hide After;
    s := Run(steps).value;
  }

  /** Three steps in a row. */
  lemma Three(s: Slot, a: Step, b: Step, c: Step, m: Slot, n: Slot, s': Slot)
    requires Next(s, a) == Some(m) && Next(m, b) == Some(n) && Next(n, c) == Some(s')
    ensures After(s, [a, b, c]) == Some(s')
  {
    Two(s, a, b, m, n);
    assert [a, b, c] == [a, b] + [c];
    AfterOn(s, [a, b], c);
  }

  lemma Two(s: Slot, a: Step, b: Step, m: Slot, s': Slot)
    requires Next(s, a) == Some(m) && Next(m, b) == Some(s')
    ensures After(s, [a, b]) == Some(s')
  {
    assert [a] == [] + [a] && [a, b] == [a] + [b];
    AfterOn(s, [], a);
    AfterOn(s, [a], b);
  }

  /** An operation that resets the slot and installs a new session, or returns before that: the steps it takes. */
  function ReplaceSteps(op: Operation, installs: bool): seq<Step> {
    [Lock(op), Clear, if installs then InstallNew else Unlock]
  }

  lemma Replaces(s: Slot, op: Operation, installs: bool)
    requires SlotOk(s) && s.control == Free && op != Committing && (installs ==> op != Stopping)
    requires op == Connecting ==> !(s.held.Some? && s.held.value.kind == Host)
    ensures After(s, ReplaceSteps(op, installs)) == Some(if installs then Install(Reset(s), op) else Reset(s))
  {
    var m, n := s.(control := Owned(op, false)), Reset(s).(control := Owned(op, true));
    assert Reset(m).(control := Owned(op, true)) == n;
    if installs {
      InstallsAfterReset(Reset(s), op);
      Three(s, Lock(op), Clear, InstallNew, m, n, Install(Reset(s), op));
    } else {
      Three(s, Lock(op), Clear, Unlock, m, n, Reset(s));
    }
    hide After, SlotOk, Install;
  }

  lemma InstallsAfterReset(r: Slot, op: Operation)
    requires r.control == Free && op != Stopping
    ensures Next(r.(control := Owned(op, true)), InstallNew) == Some(Install(r, op))
  {
  }

  /** What a whole operation did: model steps from `was` to `now`, ending with the lock free, nothing overwritten. */
  ghost predicate Through(was: Slot, steps: seq<Step>, now: Slot) {
    After(was, steps) == Some(now) && SlotOk(now) && now.control == Free && was.installed <= now.installed
  }

  /**
   * Exactly one session lives, under a token never used before, and what runs is all new: a host's accept and lobby
   * loops, a client's connect task, nothing yet for a prepared client.
   */
  predicate OnlyNewLives(was: Slot, now: Slot, kind: Kind) {
    && now.held.Some? && now.held.value.kind == kind && now.held.value.token !in was.installed
    && Live(now) == {now.held.value.token} && now.started - now.aborted == now.held.value.tasks
    && (now.held.value.tasks == {} <==> kind == PreparedClient) && now.held.value.tasks !! was.started
    && |now.held.value.tasks| == match kind case Host => 2 case Client => 1 case PreparedClient => 0
  }

  predicate NothingLives(now: Slot) {
    now.held == None && Live(now) == {} && now.started == now.aborted
  }

  lemma ReplacingMeans(s: Slot, op: Operation, installs: bool)
    requires SlotOk(s) && s.control == Free && op != Committing && (installs ==> op != Stopping)
    requires op == Connecting ==> !(s.held.Some? && s.held.value.kind == Host)
    ensures var now := if installs then Install(Reset(s), op) else Reset(s);
      && Through(s, ReplaceSteps(op, installs), now)
      && if installs then OnlyNewLives(s, now, KindOf(op)) else NothingLives(now)
  {
    Replaces(s, op, installs);
    AfterKeeps(s, ReplaceSteps(op, installs));
    hide After;
  }

  lemma ResetMeans(s: Slot)
    requires SlotOk(s)
    ensures Next(s, OutsideReset) == Some(Reset(s)) && SlotOk(Reset(s)) && NothingLives(Reset(s))
  {
  }

  lemma AbortOne(aborted: set<nat>, task: nat, tasks: set<nat>)
    requires task in tasks
    ensures aborted + {task} + (tasks - {task}) == aborted + tasks
  {
  }

  // The manager's operations, each run without a reset from outside

  class Manager {
    var slot: Slot

    /** Between operations: the invariant holds and nobody has the `control` lock. */
    ghost predicate Valid()
      reads this
    {
      SlotOk(slot) && slot.control == Free
    }

    predicate Hosts()
      reads this
    {
      slot.held.Some? && slot.held.value.kind == Host
    }

    constructor ()
      ensures Valid() && slot == Init()
    {
      slot := Init();
    }

    /** Public, and allowed at any time, also while another operation holds the lock. */
    method ResetSession()
      requires SlotOk(slot)
      modifies this
      ensures slot == Reset(old(slot)) && Next(old(slot), OutsideReset) == Some(slot)
      ensures SlotOk(slot) && NothingLives(slot)
    {
      ResetMeans(slot);
      hide SlotOk, NothingLives;
      var session := slot.held;
      slot := slot.(held := None);
      if session.Some? {
        slot := slot.(cancelled := slot.cancelled + {session.value.token});
        var tasks := session.value.tasks;
        ghost var before := slot;
        while tasks != {}
          invariant slot == before.(aborted := slot.aborted)
          invariant slot.aborted + tasks == before.aborted + session.value.tasks
          decreases |tasks|
        {
          var task :| task in tasks;
          AbortOne(slot.aborted, task, tasks);
          slot := slot.(aborted := slot.aborted + {task});
          tasks := tasks - {task};
        }
        assert slot.aborted + {} == slot.aborted;
      }
    }

    /** `validRoom` and `started` stand for the argument checks and for `start_hosting_inner` getting to its end. */
    method StartHosting(validRoom: bool, started: bool) returns (ok: bool, ghost steps: seq<Step>)
      requires Valid()
      modifies this
      ensures Valid() && ok == (validRoom && started) && Through(old(slot), steps, slot)
      ensures ok ==> OnlyNewLives(old(slot), slot, Host)
      ensures validRoom && !started ==> NothingLives(slot)
      ensures !validRoom ==> slot == old(slot)
    {
      steps := [];
      if !validRoom {
        return false, steps;
      }
      steps := ReplaceSteps(Hosting, started);
      ReplacingMeans(slot, Hosting, started);
      ResetSession();
      if !started {
        return false, steps;
      }
      slot := Install(slot, Hosting);
      return true, steps;
    }

    method StopHosting() returns (ghost steps: seq<Step>)
      requires Valid()
      modifies this
      ensures Valid() && Through(old(slot), steps, slot) && NothingLives(slot)
    {
      steps := ReplaceSteps(Stopping, false);
      ReplacingMeans(slot, Stopping, false);
      ResetSession();
    }

    /** `prepared` stands for the endpoint and its address coming up. */
    method ConnectToPeer(validAddress: bool, prepared: bool) returns (ok: bool, ghost steps: seq<Step>)
      requires Valid()
      modifies this
      ensures Valid() && ok == (validAddress && (old(Hosts()) || prepared)) && Through(old(slot), steps, slot)
      ensures old(Hosts()) || !validAddress ==> slot == old(slot)
      ensures ok && !old(Hosts()) ==> OnlyNewLives(old(slot), slot, Client)
      ensures validAddress && !old(Hosts()) && !prepared ==> NothingLives(slot)
    {
      steps := [];
      if !validAddress {
        return false, steps;
      }
      if slot.held.Some? && slot.held.value.kind == Host {
        steps := [Lock(Connecting), PunchFromHost];
        Two(slot, Lock(Connecting), PunchFromHost, slot.(control := Owned(Connecting, false)), slot);
        return true, steps;
      }
      steps := ReplaceSteps(Connecting, prepared);
      ReplacingMeans(slot, Connecting, prepared);
      ResetSession();
      if !prepared {
        return false, steps;
      }
      slot := Install(slot, Connecting);
      return true, steps;
    }

    method PrepareClientConnect(validAddress: bool, prepared: bool) returns (ok: bool, ghost steps: seq<Step>)
      requires Valid()
      modifies this
      ensures Valid() && ok == (validAddress && prepared) && Through(old(slot), steps, slot)
      ensures ok ==> OnlyNewLives(old(slot), slot, PreparedClient)
      ensures validAddress && !prepared ==> NothingLives(slot)
      ensures !validAddress ==> slot == old(slot)
    {
      steps := [];
      if !validAddress {
        return false, steps;
      }
      steps := ReplaceSteps(Preparing, prepared);
      ReplacingMeans(slot, Preparing, prepared);
      ResetSession();
      if !prepared {
        return false, steps;
      }
      slot := Install(slot, Preparing);
      return true, steps;
    }

    /** On success the prepared session's token lives on; otherwise the held session keeps living without its tasks. */
    method CommitPreparedClientConnect() returns (ok: bool, ghost steps: seq<Step>)
      requires Valid()
      modifies this
      ensures Valid() && Through(old(slot), steps, slot) && slot == Commit(old(slot))
      ensures ok == (old(slot).held.Some? && old(slot).held.value.kind == PreparedClient)
      ensures Live(slot) == Live(old(slot)) && slot.installed == old(slot).installed
      ensures ok ==> slot.held.value.kind == Client && slot.started - slot.aborted != {}
      ensures !ok ==> slot.started == slot.aborted
    {
      steps := [Lock(Committing), CommitPrepared];
      Two(slot, Lock(Committing), CommitPrepared, slot.(control := Owned(Committing, false)), Commit(slot));
      AfterKeeps(slot, steps);
      hide After;
      if slot.held.None? {
        return false, steps;
      }
      var x := slot.held.value;
      slot := slot.(held := None);
      slot := slot.(aborted := slot.aborted + x.tasks);
      if x.kind != PreparedClient {
        slot := slot.(held := Some(Session(x.token, x.kind, {})));
        return false, steps;
      }
      var task := slot.nextId;
      slot := slot.(
        nextId := task + 1, started := slot.started + {task}, held := Some(Session(x.token, Client, {task})));
      assert task !in slot.aborted;
      return true, steps;
    }
  }
}
