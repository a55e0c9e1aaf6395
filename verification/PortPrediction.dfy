/** Port prediction in `punch_remote` (src/signaling.rs): the target list and the bursts that walk it. */
module PortPrediction {
  import opened Bytes

  const SPREAD: nat := 100
  const FAST_BURST: nat := 150

  type port = n: int | 0 <= n < 0x1_0000

  /** The ports added for one offset: above the base if `checked_add` succeeds, below it if `checked_sub` does. */
  function Around(base: port, offset: nat): seq<port> {
    (if base + offset < TWO16 then [base + offset] else []) + (if base >= offset then [base - offset] else [])
  }

  function Targets(base: port, spread: nat): (ts: seq<port>)
    ensures |ts| >= 1
  {
    if spread == 0 then [base] else Targets(base, spread - 1) + Around(base, spread)
  }

  method BuildTargets(base: port) returns (targets: seq<port>)
    ensures targets == Targets(base, SPREAD)
  {
    targets := [base];
    for offset := 1 to SPREAD + 1
      invariant targets == Targets(base, offset - 1)
    {
      if base + offset < TWO16 {
        targets := targets + [base + offset];
      }
      if base >= offset {
        targets := targets + [base - offset];
      }
    }
  }

  /** Where a port stands in the list: the ports nearer to the base come first, above before below. */
  function Place(base: port, p: port): nat {
    if p == base then 0
    else if p > base then p - base + Min(p - base - 1, base)
    else base - p + Min(base - p, 0xFFFF - base)
  }

  function Distance(base: port, p: port): nat {
    if p > base then p - base else base - p
  }

  /** Every valid port within the spread stands at its place. */
  predicate Finds(base: port, spread: nat, ts: seq<port>) {
    forall p: port :: Distance(base, p) <= spread ==> Place(base, p) < |ts| && ts[Place(base, p)] == p
  }

  /** Every place holds the valid port within the spread that belongs there. */
  predicate Holds(base: port, spread: nat, ts: seq<port>) {
    forall i :: 0 <= i < |ts| ==> Distance(base, ts[i]) <= spread && Place(base, ts[i]) == i
  }

  lemma FindsMore(base: port, spread: nat, before: seq<port>, ts: seq<port>)
    requires spread > 0 && Finds(base, spread - 1, before) && ts == before + Around(base, spread)
    requires |before| == 1 + Min(spread - 1, base) + Min(spread - 1, 0xFFFF - base)
    ensures Finds(base, spread, ts)
  {
    NewPlaces(base, spread);
    hide Place, Min;
    forall p: port | Distance(base, p) <= spread ensures Place(base, p) < |ts| && ts[Place(base, p)] == p {
      AtTheEdge(base, spread, p);
    }
  }

  lemma HoldsMore(base: port, spread: nat, before: seq<port>, ts: seq<port>)
    requires spread > 0 && Holds(base, spread - 1, before) && ts == before + Around(base, spread)
    requires |before| == 1 + Min(spread - 1, base) + Min(spread - 1, 0xFFFF - base)
    ensures Holds(base, spread, ts)
  {
    NewPlaces(base, spread);
    hide Place, Min;
    forall i | 0 <= i < |ts| ensures Distance(base, ts[i]) <= spread && Place(base, ts[i]) == i {
      assert i < |before| ==> ts[i] == before[i];
    }
  }

  /** The list holds exactly the valid ports within the spread, each once, at its computed place. */
  lemma {:induction false} TargetsExactly(base: port, spread: nat)
    ensures |Targets(base, spread)| == 1 + Min(spread, base) + Min(spread, 0xFFFF - base)
    ensures Finds(base, spread, Targets(base, spread)) && Holds(base, spread, Targets(base, spread))
  {
    if spread > 0 {
      TargetsExactly(base, spread - 1);
      NewPlaces(base, spread);
      FindsMore(base, spread, Targets(base, spread - 1), Targets(base, spread));
      HoldsMore(base, spread, Targets(base, spread - 1), Targets(base, spread));
      hide Finds, Holds, Min, Place, Around;
    }
  }

  lemma NewPlaces(base: port, spread: nat)
    requires spread > 0
    ensures var n := 1 + Min(spread - 1, base) + Min(spread - 1, 0xFFFF - base);
      && n + |Around(base, spread)| == 1 + Min(spread, base) + Min(spread, 0xFFFF - base)
      && (base + spread < TWO16 ==> Place(base, base + spread) == n)
      && (base >= spread ==> Place(base, base - spread) == n + if base + spread < TWO16 then 1 else 0)
  {
  }

  lemma AtTheEdge(base: port, spread: nat, p: port)
    requires spread > 0 && Distance(base, p) <= spread
    ensures Distance(base, p) <= spread - 1 || p == base + spread || p == base - spread
  {
  }

  /** Base first, no port twice, and exactly the valid ports within 100 of the base. */
  lemma TargetListIsComplete(base: port)
    ensures var ts := Targets(base, SPREAD);
      && ts[0] == base
      && (forall i, j :: 0 <= i < j < |ts| ==> ts[i] != ts[j])
      && (forall p: port :: p in ts <==> Distance(base, p) <= SPREAD)
  {
    TargetsExactly(base, SPREAD);
    var ts := Targets(base, SPREAD);
    assert ts[Place(base, base)] == base;
    forall i, j | 0 <= i < j < |ts| ensures ts[i] != ts[j] {
      assert Place(base, ts[i]) == i && Place(base, ts[j]) == j;
    }
    forall p: port ensures p in ts <==> Distance(base, p) <= SPREAD {
      if p in ts {
        var i :| 0 <= i < |ts| && ts[i] == p;
        assert Distance(base, ts[i]) <= SPREAD;
      }
    }
  }

  // Bursts

  /** The packets of round `i`: the base, and the predicted port whose turn it is unless that is the base. */
  function RoundSends(base: port, i: nat): seq<port> {
    TargetsExactly(base, SPREAD);
    var ts := Targets(base, SPREAD);
    var target := ts[i % |ts|];
    [base] + if target != base then [target] else []
  }

  function BurstSends(base: port, rounds: nat): seq<port> {
    if rounds == 0 then [] else BurstSends(base, rounds - 1) + RoundSends(base, rounds - 1)
  }

  /** One burst; `cancelledAt` is the round before which cancellation is noticed, if it happens that early. */
  method Burst(base: port, packets: nat, cancelledAt: nat) returns (sent: seq<port>)
    ensures sent == BurstSends(base, Min(packets, cancelledAt))
  {
    var targets := BuildTargets(base);
    TargetsExactly(base, SPREAD);
    sent := [];
    for i := 0 to packets
      invariant i <= cancelledAt
      invariant sent == BurstSends(base, i)
    {
      if i >= cancelledAt {
        break;
      }
      sent := sent + [base];
      var target := targets[i % |targets|];
      if target != base {
        sent := sent + [target];
      }
    }
  }

  lemma RoundReaches(base: port, i: nat, p: port)
    ensures var n := |Targets(base, SPREAD)|;
      n > 0 && (p in RoundSends(base, i) <==> p == base || (Distance(base, p) <= SPREAD && Place(base, p) == i % n))
    ensures Distance(base, p) <= SPREAD ==> Place(base, p) < |Targets(base, SPREAD)|
  {
    TargetsExactly(base, SPREAD);
    var ts := Targets(base, SPREAD);
    var k := i % |ts|;
    assert Distance(base, ts[k]) <= SPREAD && Place(base, ts[k]) == k;
    if Distance(base, p) <= SPREAD {
      assert ts[Place(base, p)] == p;
    }
  }

  /** A burst reaches a port exactly when the port's place comes up within its rounds. */
  lemma {:induction false} BurstReaches(base: port, rounds: nat, p: port)
    ensures p in BurstSends(base, rounds) <==>
      rounds > 0 && (p == base || (Distance(base, p) <= SPREAD && Place(base, p) < rounds))
  {
    if rounds > 0 {
      BurstReaches(base, rounds - 1, p);
      RoundReaches(base, rounds - 1, p);
      assert p in BurstSends(base, rounds) <==> p in BurstSends(base, rounds - 1) || p in RoundSends(base, rounds - 1);
      if Distance(base, p) <= SPREAD {
        TurnsSoFar(rounds - 1, |Targets(base, SPREAD)|, Place(base, p));
      }
      hide *;
    }
  }

  lemma TurnsSoFar(r: nat, n: nat, k: nat)
    requires k < n
    ensures k < r || k == r % n <==> k < r + 1
  {
    if r < n {
      assert r % n == r;
    }
  }

  /** It is the port's turn in round `i`: the rounds go through the list again and again. */
  predicate HasTurn(base: port, i: nat, p: port) {
    Distance(base, p) <= SPREAD && Place(base, p) == i % |Targets(base, SPREAD)|
  }

  function Turns(base: port, rounds: nat, p: port): nat {
    if rounds == 0 then 0 else Turns(base, rounds - 1, p) + if HasTurn(base, rounds - 1, p) then 1 else 0
  }

  /** How many of the packets go to `p`. */
  function Times(sent: seq<port>, p: port): nat {
    if sent == [] then 0 else Times(sent[..|sent| - 1], p) + if sent[|sent| - 1] == p then 1 else 0
  }

  lemma {:induction false} TimesJoin(a: seq<port>, b: seq<port>, p: port)
    ensures Times(a + b, p) == Times(a, p) + Times(b, p)
  {
    if b == [] {
      assert a + b == a;
    } else {
      var n := |b| - 1;
      TimesJoin(a, b[..n], p);
      assert (a + b)[..|a| + n] == a + b[..n];
    }
  }

  lemma TimesOfFew(a: port, b: port, p: port)
    ensures Times([a], p) == (if a == p then 1 else 0)
    ensures Times([a] + [b], p) == (if a == p then 1 else 0) + if b == p then 1 else 0
  {
    assert [a] == [] + [a];
    assert ([a] + [b])[..1] == [a] && [a][..0] == [];
  }

  lemma RoundCounts(base: port, i: nat, p: port)
    ensures Times(RoundSends(base, i), p) == if p == base || HasTurn(base, i, p) then 1 else 0
  {
    RoundReaches(base, i, p);
    TargetsExactly(base, SPREAD);
    var target := Targets(base, SPREAD)[i % |Targets(base, SPREAD)|];
    assert RoundSends(base, i) == if target != base then [base] + [target] else [base] + [];
    assert [base] + [] == [base];
    TimesOfFew(base, target, p);
    assert target == p && p != base ==> HasTurn(base, i, p);
    hide Targets, Distance, Place, Times;
  }

  /** The base gets a packet in every round, every predicted port one in each round that is its turn. */
  lemma {:induction false} BurstCounts(base: port, rounds: nat, p: port)
    ensures Times(BurstSends(base, rounds), p) == if p == base then rounds else Turns(base, rounds, p)
  {
    if rounds > 0 {
      BurstCounts(base, rounds - 1, p);
      RoundCounts(base, rounds - 1, p);
      TimesJoin(BurstSends(base, rounds - 1), RoundSends(base, rounds - 1), p);
    }
    hide HasTurn, RoundSends, Times;
  }

  /** An uncancelled fast burst reaches every valid port within 74 of the base, near 0 and 65535 too. */
  lemma FastBurstCoverage(base: port, p: port)
    requires Distance(base, p) <= 74
    ensures p in BurstSends(base, FAST_BURST)
  {
    BurstReaches(base, FAST_BURST, p);
  }

  /** And no wider radius will do away from the ends: of the ports at distance 75 only the upper one is reached. */
  lemma FastBurstReach(base: port, p: port)
    requires 100 <= base <= 0xFFFF - 100
    ensures p in BurstSends(base, FAST_BURST) <==> Distance(base, p) <= 74 || p == base + 75
  {
    BurstReaches(base, FAST_BURST, p);
  }
}
