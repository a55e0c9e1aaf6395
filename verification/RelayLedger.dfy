/**
 * The host's relay tables (src/manager.rs): one runtime per peer and table, replaced, withdrawn when a direct
 * connection wins, or drained by a session reset. A runtime taken out of a table is cancelled and aborted after the
 * table lock may have been released, so those are separate steps.
 */
module RelayLedger {
  import opened Options

  /** A table belongs to one host session and outlives it if a delayed task still holds it. */
  datatype Key = Key(table: nat, peer: string)

  datatype Ledger = Ledger(
    entries: map<Key, nat>, inHand: set<nat>, cancelling: set<nat>,
    inserted: set<nat>, cancels: multiset<nat>, aborts: multiset<nat>)

  function Init(): Ledger {
    Ledger(map[], {}, {}, {}, multiset{}, multiset{})
  }

  datatype Step =
    | Insert(key: Key, runtime: nat)
    | TakeOut(key: Key)
    | Cancel(runtime: nat)
    | Abort(runtime: nat)

  function Next(l: Ledger, step: Step): Option<Ledger> {
    match step
    case Insert(key, r) =>
      if r in l.inserted then None
      else
        Some(l.(entries := l.entries[key := r], inserted := l.inserted + {r},
                inHand := l.inHand + if key in l.entries then {l.entries[key]} else {}))
    case TakeOut(key) =>
      if key !in l.entries then None
      else Some(l.(entries := l.entries - {key}, inHand := l.inHand + {l.entries[key]}))
    case Cancel(r) =>
      if r !in l.inHand then None
      else Some(l.(inHand := l.inHand - {r}, cancelling := l.cancelling + {r}, cancels := l.cancels + multiset{r}))
    case Abort(r) =>
      if r !in l.cancelling then None
      else Some(l.(cancelling := l.cancelling - {r}, aborts := l.aborts + multiset{r}))
  }

  function Run(steps: seq<Step>): Option<Ledger> {
    if steps == [] then Some(Init())
    else
      match Run(steps[..|steps| - 1])
      case None => None
      case Some(l) => Next(l, steps[|steps| - 1])
  }

  predicate IsCurrent(l: Ledger, r: nat) {
    exists key :: key in l.entries && l.entries[key] == r
  }

  /** Where one inserted runtime stands: exactly one of the four stages, with the matching counts. */
  predicate Accounted(l: Ledger, r: nat) {
    && !(IsCurrent(l, r) && r in l.inHand) && !(IsCurrent(l,
      r) && r in l.cancelling) && !(r in l.inHand && r in l.cancelling)
    && l.cancels[r] == (if IsCurrent(l, r) || r in l.inHand then 0 else 1)
    && l.aborts[r] == (if IsCurrent(l, r) || r in l.inHand || r in l.cancelling then 0 else 1)
  }

  ghost predicate LedgerOk(l: Ledger) {
    && (forall key :: key in l.entries ==> l.entries[key] in l.inserted)
    && l.inHand <= l.inserted && l.cancelling <= l.inserted
    && (forall k1, k2 :: k1 in l.entries && k2 in l.entries && l.entries[k1] == l.entries[k2] ==> k1 == k2)
    && (forall r :: r in l.inserted ==> Accounted(l, r))
    && (forall r :: r !in l.inserted ==> l.cancels[r] == 0 && l.aborts[r] == 0)
  }

  /** Which runtimes are current after each kind of change to the entries. */
  lemma CurrentAfter(l: Ledger, key: Key, r: nat, other: nat)
    requires LedgerOk(l)
    ensures key in l.entries ==>
      (IsCurrent(l.(entries := l.entries - {key}), other) <==> IsCurrent(l, other) && other != l.entries[key])
    ensures r !in l.inserted ==>
      (IsCurrent(l.(entries := l.entries[key := r]), other) <==>
        other == r || (IsCurrent(l, other) && !(key in l.entries && l.entries[key] == other)))
  {
    var removed := l.(entries := l.entries - {key});
    var set1 := l.(entries := l.entries[key := r]);
    assert set1.entries[key] == r;
    if k :| k in l.entries && l.entries[k] == other {
      if k != key {
        assert k in removed.entries && removed.entries[k] == other;
        assert k in set1.entries && set1.entries[k] == other;
      }
    }
  }

  lemma InsertKeeps(l: Ledger, key: Key, r: nat)
    requires LedgerOk(l) && r !in l.inserted
    ensures LedgerOk(Next(l, Insert(key, r)).value)
  {
    var l' := Next(l, Insert(key, r)).value;
    forall x | x in l'.inserted ensures Accounted(l', x) {
      CurrentAfter(l, key, r, x);
      assert x != r ==> Accounted(l, x);
      assert IsCurrent(l', x) == IsCurrent(l.(entries := l'.entries), x);
    }
  }

  lemma TakeOutKeeps(l: Ledger, key: Key)
    requires LedgerOk(l) && key in l.entries
    ensures LedgerOk(Next(l, TakeOut(key)).value)
  {
    var l' := Next(l, TakeOut(key)).value;
    forall x | x in l'.inserted ensures Accounted(l', x) {
      CurrentAfter(l, key, 0, x);
      assert Accounted(l, x);
      assert IsCurrent(l', x) == IsCurrent(l.(entries := l'.entries), x);
    }
    assert IsCurrent(l, l.entries[key]) && Accounted(l, l.entries[key]);
  }

  lemma StepKeeps(l: Ledger, step: Step)
    requires LedgerOk(l) && Next(l, step).Some?
    ensures LedgerOk(Next(l, step).value)
  {
    match step
    case Insert(key, r) => InsertKeeps(l, key, r);
    case TakeOut(key) => TakeOutKeeps(l, key);
    case _ =>
      var l' := Next(l, step).value;
      forall x | x in l'.inserted ensures Accounted(l', x) {
        assert Accounted(l, x);
        assert IsCurrent(l', x) == IsCurrent(l, x);
      }
  }

  lemma {:induction false} RunKeeps(steps: seq<Step>)
    requires Run(steps).Some?
    ensures LedgerOk(Run(steps).value)
  {
    if steps != [] {
      RunKeeps(steps[..|steps| - 1]);
      StepKeeps(Run(steps[..|steps| - 1]).value, steps[|steps| - 1]);
    }
  }

  /**
   * Conservation over every interleaving of replacement, direct-connection win and reset: an inserted runtime is the
   * current entry under one key and untouched, or it has left the tables; never cancelled or aborted twice, and once
   * nobody holds a runtime half-way, every one that left was cancelled once and aborted once.
   */
  lemma EveryRuntimeAccountedFor(steps: seq<Step>, l: Ledger, r: nat)
    requires Run(steps) == Some(l) && r in l.inserted
    ensures IsCurrent(l, r) ==> l.cancels[r] == 0 && l.aborts[r] == 0
    ensures l.aborts[r] <= l.cancels[r] <= 1
    ensures !IsCurrent(l, r) && r !in l.inHand + l.cancelling ==> l.cancels[r] == 1 && l.aborts[r] == 1
    ensures forall k1, k2 :: k1 in l.entries && k2 in l.entries && l.entries[k1] == r && l.entries[k2] == r ==> k1 == k2
  {
    RunKeeps(steps);
    assert Accounted(l, r);
  }

  // One host session's table, each operation run to its end

  class RelayTable {
    const table: nat
    var ledger: Ledger

    ghost predicate Valid()
      reads this
    {
      LedgerOk(ledger) && ledger.inHand == {} && ledger.cancelling == {}
    }

    constructor (table: nat)
      ensures Valid() && ledger == Init()
    {
      this.table := table;
      ledger := Init();
    }

    /** Cancel and abort a runtime that has been moved out of the table. */
    method Dispose(runtime: nat)
      requires LedgerOk(ledger) && runtime in ledger.inHand && ledger.inHand == {runtime} && ledger.cancelling == {}
      modifies this
      ensures Valid() && ledger.entries == old(ledger).entries && ledger.inserted == old(ledger).inserted
      ensures ledger.cancels == old(ledger).cancels + multiset{runtime}
      ensures ledger.aborts == old(ledger).aborts + multiset{runtime}
    {
      StepKeeps(ledger, Cancel(runtime));
      ledger := Next(ledger, Cancel(runtime)).value;
      StepKeeps(ledger, Abort(runtime));
      ledger := Next(ledger, Abort(runtime)).value;
    }

    /** `start_or_replace_host_relay` once the runtime has come up. */
    method InsertOrReplace(peer: string, runtime: nat)
      requires Valid() && runtime !in ledger.inserted
      modifies this
      ensures Valid() && ledger.entries == old(ledger).entries[Key(table, peer) := runtime]
      ensures ledger.inserted == old(ledger).inserted + {runtime}
      ensures var key, was := Key(table, peer), old(ledger);
        && ledger.cancels == was.cancels + (if key in was.entries then multiset{was.entries[key]} else multiset{})
        && ledger.aborts == was.aborts + (if key in was.entries then multiset{was.entries[key]} else multiset{})
    {
      var key := Key(table, peer);
      var replaced := if key in ledger.entries then Some(ledger.entries[key]) else None;
      StepKeeps(ledger, Insert(key, runtime));
      ledger := Next(ledger, Insert(key, runtime)).value;
      if replaced.Some? {
        Dispose(replaced.value);
      }
    }

    /** Take one entry out and dispose of its runtime. */
    method Withdraw(key: Key)
      requires Valid() && key in ledger.entries
      modifies this
      ensures Valid() && ledger.entries == old(ledger).entries - {key} && ledger.inserted == old(ledger).inserted
      ensures ledger.cancels == old(ledger).cancels + multiset{old(ledger).entries[key]}
      ensures ledger.aborts == old(ledger).aborts + multiset{old(ledger).entries[key]}
    {
      var runtime := ledger.entries[key];
      StepKeeps(ledger, TakeOut(key));
      ledger := Next(ledger, TakeOut(key)).value;
      Dispose(runtime);
    }

    /** `cancel_host_relay_for_peer`. */
    method CancelForPeer(peer: string) returns (found: bool)
      requires Valid()
      modifies this
      ensures Valid() && found == (Key(table, peer) in old(ledger).entries)
      ensures ledger.entries == old(ledger).entries - {Key(table, peer)} && ledger.inserted == old(ledger).inserted
    {
      var key := Key(table, peer);
      found := key in ledger.entries;
      if found {
        Withdraw(key);
      } else {
        assert ledger.entries - {key} == ledger.entries;
      }
    }

    /** The `drain` loop of `reset_session`: whatever the order, no entry of this table is left. */
    method Drain()
      requires Valid()
      modifies this
      ensures Valid() && ledger.inserted == old(ledger).inserted
      ensures forall key :: key in ledger.entries <==> key in old(ledger).entries && key.table != table
      ensures forall key :: key in ledger.entries ==> ledger.entries[key] == old(ledger).entries[key]
    {
      var mine := set key | key in ledger.entries && key.table == table;
      hide LedgerOk;
      while mine != {}
        invariant Valid() && ledger.inserted == old(ledger).inserted
        invariant mine == set key | key in ledger.entries && key.table == table
        invariant forall key: Key :: key.table != table ==> (key in ledger.entries <==> key in old(ledger).entries)
        invariant forall key :: key in ledger.entries ==>
          key in old(ledger).entries && ledger.entries[key] == old(ledger).entries[key]
        decreases |mine|
      {
        var key :| key in mine;
        Withdraw(key);
        mine := mine - {key};
      }
      forall key | key in ledger.entries ensures key.table != table {
        assert key.table == table ==> key in mine;
      }
    }
  }
}
