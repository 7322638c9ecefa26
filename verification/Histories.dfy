/** Safety over whole histories: any interleaving of supervisor steps, with crashes at any point. */
module Histories {
  import opened Wrappers
  import opened Domain
  import opened Journal
  import opened Actions
  import opened Invariant
  import opened Preservation
  import opened Reconciling
  import opened Closing
  import opened Admitting
  import opened Evolution

  /** The journal after the first `n` actions of a history that starts from an empty database. */
  function At(actions: seq<Action>, n: nat): Journal
    requires n <= |actions|
  {
    RunAll(EMPTY, actions[..n])
  }

  lemma Step(actions: seq<Action>, n: nat)
    requires n < |actions|
    ensures At(actions, n + 1) == Apply(At(actions, n), actions[n])
  {
    assert actions[..n + 1][..n] == actions[..n];
    hide Apply;
  }

  lemma {:induction false} AtKeepsInv(actions: seq<Action>, n: nat)
    requires AllAdmissible(actions) && n <= |actions|
    ensures Inv(At(actions, n))
    decreases n
  {
    hide Inv, Apply, Admissible, Evolves;
    if n == 0 {
      EmptyInv();
    } else {
      AtKeepsInv(actions, n - 1);
      assert actions[n - 1] in actions;
      Step(actions, n - 1);
      StepKeepsAndEvolves(At(actions, n - 1), actions[n - 1]);
    }
  }

  /** The invariant holds in every reachable journal. */
  lemma ReachableInv(j: Journal)
    requires Reachable(j)
    ensures Inv(j)
  {
    hide Inv, Apply, Admissible, RunAll;
    var actions :| AllAdmissible(actions) && RunAll(EMPTY, actions) == j;
    assert actions[..|actions|] == actions;
    AtKeepsInv(actions, |actions|);
  }

  lemma InvContiguous(j: Journal)
    requires Inv(j)
    ensures Contiguous(j)
  {
  }

  lemma {:induction false} AtEvolves(actions: seq<Action>, m: nat, n: nat)
    requires AllAdmissible(actions) && m <= n <= |actions|
    ensures Evolves(At(actions, m), At(actions, n))
    decreases n - m
  {
    hide Inv, Apply, Admissible, Evolves, At, Contiguous;
    if m == n {
      EvolvesReflexive(At(actions, m));
    } else {
      AtEvolves(actions, m, n - 1);
      AtKeepsInv(actions, n - 1);
      assert actions[n - 1] in actions;
      Step(actions, n - 1);
      StepKeepsAndEvolves(At(actions, n - 1), actions[n - 1]);
      InvContiguous(At(actions, n - 1));
      EvolvesTransitive(At(actions, m), At(actions, n - 1), At(actions, n));
    }
  }

  // ----- The lease table is a function of the journal -----

  predicate Holds(j: Journal, p: Pair, r: PhysicalResource) {
    r in j.leases && j.leases[r] == p
  }

  lemma StartedResources(j: Journal, p: Pair)
    requires Contiguous(j) && Bound(j) && Started(j, p)
    ensures Listing(j, p)[0] in j.attempts && j.attempts[Listing(j, p)[0]].leasedResources == ResourcesOf(j, p)
    ensures LastOf(j, p).Owner() == p && LastOf(j, p).plan in j.plans
  {
    var first := Listing(j, p)[0];
    assert first in j.attempts && j.attempts[first].Owner() == p;
    hide ResourcesOf;
    ResourcesBound(j, first);
    StartedRow(j, p);
    assert BoundTo(j, LastOf(j, p));
  }

  lemma LiveMeans(j: Journal, p: Pair)
    requires Started(j, p) ==> LastOf(j, p).plan in j.plans
    ensures Live(j, p) <==>
            && Started(j, p) && p !in j.haltedPairs && p !in j.retirements
            && !(LastOf(j, p).state == Completed && LastOf(j, p).operationIndex + 1 == |j.plans[LastOf(j, p).plan].operations|)
            && (LastOf(j, p).state == Rejected ==> p in Destinations(j.takeovers))
  {
    hide Destinations, LastOf;
  }

  /** A pair holds a resource exactly when its first attempt leased it, the pair is neither halted nor
      retired, its last attempt has not completed the plan, and a rejection is only held by a destination. */
  lemma LeasesFollowTheJournal(j: Journal, p: Pair, r: PhysicalResource)
    requires Reachable(j)
    ensures Started(j, p) ==> Listing(j, p)[0] in j.attempts && LastOf(j, p).plan in j.plans
    ensures Holds(j, p, r) <==>
            && Started(j, p)
            && r in j.attempts[Listing(j, p)[0]].leasedResources
            && p !in j.haltedPairs && p !in j.retirements
            && !(LastOf(j, p).state == Completed && LastOf(j, p).operationIndex + 1 == |j.plans[LastOf(j, p).plan].operations|)
            && (LastOf(j, p).state == Rejected ==> p in Destinations(j.takeovers))
  {
    hide Inv, Contiguous, Bound, ResourcesOf, Destinations, Reachable, Live, Leased, Started, LastOf, Listing;
    ReachableInv(j);
    InvLive(j);
    if Started(j, p) { StartedResources(j, p); }
    LiveMeans(j, p);
    HoldsIffLive(j, p, r);
  }

  lemma HoldsIffLive(j: Journal, p: Pair, r: PhysicalResource)
    requires Leased(j)
    ensures Holds(j, p, r) <==> Live(j, p) && r in ResourcesOf(j, p)
  {
    hide Live, ResourcesOf;
  }

  // ----- Dispatch happens at most once -----

  /** The record that action `n` of the history claimed for dispatch, if it did. */
  function ClaimAt(actions: seq<Action>, n: nat): Option<AttemptRecord> {
    if n < |actions| && actions[n].DoClaimDispatch? then
      var tx := ClaimDispatch(At(actions, n), actions[n].attempt, actions[n].principal, actions[n].now);
      if tx.Ok? then Some(tx.value.value) else None
    else None
  }

  /** A claim finds its attempt in Intent, with all its leases held by its pair, and leaves it dispatched. */
  lemma ClaimFacts(actions: seq<Action>, n: nat)
    requires AllAdmissible(actions) && ClaimAt(actions, n).Some?
    ensures n < |actions|
    ensures var c := ClaimAt(actions, n).value;
            && c.id in At(actions, n).attempts && At(actions, n).attempts[c.id] == c.(state := Intent)
            && OwnsAll(At(actions, n).leases, c.Owner(), c.leasedResources)
            && c.id in At(actions, n + 1).attempts && At(actions, n + 1).attempts[c.id] == c && c.state == Dispatched
  {
    hide Inv, At, OwnsAll, ClaimDispatch, Contiguous;
    Step(actions, n);
    AtKeepsInv(actions, n);
    InvContiguous(At(actions, n));
    ClaimedRecord(At(actions, n), actions[n].attempt, actions[n].principal, actions[n].now);
  }

  lemma ClaimedRecord(j: Journal, id: AttemptId, agent: PrincipalId, now: int)
    requires Contiguous(j) && ClaimDispatch(j, id, agent, now).Ok?
    ensures var c := ClaimDispatch(j, id, agent, now).value.value;
            && c.id in j.attempts && j.attempts[c.id] == c.(state := Intent)
            && OwnsAll(j.leases, c.Owner(), c.leasedResources)
            && ClaimDispatch(j, id, agent, now).value.journal == j.(attempts := j.attempts[c.id := c]) && c.state == Dispatched
  {
    AttemptKey(j, id);
    hide OwnsAll, ActiveGrant, BoundContext, Contiguous;
  }

  lemma Persists(actions: seq<Action>, m: nat, n: nat, id: AttemptId)
    requires AllAdmissible(actions) && m <= n <= |actions| && id in At(actions, m).attempts
    ensures id in At(actions, n).attempts && AttemptEvolves(At(actions, m).attempts[id], At(actions, n).attempts[id])
  {
    hide At;
    AtEvolves(actions, m, n);
    hide StepsEvolve, WitnessesEvolve, ClosuresEvolve, RecordsEvolve;
  }

  /** Once dispatched, an attempt is never again in Intent, and so is never claimed again. */
  lemma ClaimedOnlyOnce(actions: seq<Action>, m: nat, n: nat)
    requires AllAdmissible(actions) && ClaimAt(actions, m).Some? && m < n <= |actions|
    ensures var id := ClaimAt(actions, m).value.id; id in At(actions, n).attempts && At(actions, n).attempts[id].state != Intent
  {
    hide At, ClaimAt;
    ClaimFacts(actions, m);
    Persists(actions, m + 1, n, ClaimAt(actions, m).value.id);
  }

  lemma NoLaterClaim(actions: seq<Action>, m: nat, n: nat)
    requires AllAdmissible(actions) && ClaimAt(actions, m).Some? && ClaimAt(actions, n).Some? && m < n
    requires ClaimAt(actions, m).value.Owner() == ClaimAt(actions, n).value.Owner()
    ensures ClaimAt(actions, m).value.operationIndex != ClaimAt(actions, n).value.operationIndex
  {
    var x, y := ClaimAt(actions, m).value, ClaimAt(actions, n).value;
    hide At, ClaimAt, Inv, OwnsAll;
    ClaimFacts(actions, m);
    ClaimFacts(actions, n);
    Persists(actions, m, n, x.id);
    ClaimedOnlyOnce(actions, m, n);
    AtKeepsInv(actions, n);
    DistinctSteps(At(actions, n), x.id, y.id);
  }

  /** Over any history, crashes and duplicate requests included, each (grant, plan, operation index)
      is claimed for dispatch at most once. */
  lemma AtMostOneDispatch(actions: seq<Action>, m: nat, n: nat)
    requires AllAdmissible(actions) && ClaimAt(actions, m).Some? && ClaimAt(actions, n).Some?
    requires ClaimAt(actions, m).value.Owner() == ClaimAt(actions, n).value.Owner()
    requires ClaimAt(actions, m).value.operationIndex == ClaimAt(actions, n).value.operationIndex
    ensures m == n
  {
    hide ClaimAt;
    if m < n {
      NoLaterClaim(actions, m, n);
    } else if n < m {
      NoLaterClaim(actions, n, m);
    }
  }

  lemma DistinctSteps(j: Journal, a: AttemptId, b: AttemptId)
    requires Inv(j) && a in j.attempts && b in j.attempts && a != b
    requires j.attempts[a].Owner() == j.attempts[b].Owner()
    ensures j.attempts[a].operationIndex != j.attempts[b].operationIndex
  {
    assert Contiguous(j);
    hide Inv;
  }

  // ----- Closure is permanent and exclusive -----

  predicate ClosedPair(j: Journal, p: Pair) {
    p in j.haltedPairs || p in j.retirements
  }

  /** No pair is both halted and retired, and a closed pair owns nothing. */
  lemma ClosureIsExclusive(j: Journal, p: Pair)
    requires Reachable(j)
    ensures !(p in j.haltedPairs && p in j.retirements)
    ensures ClosedPair(j, p) ==> LeaseKeys(j.leases, p) == {}
  {
    ReachableInv(j);
    assert Halts(j) && Leased(j);
    hide Inv, Reachable, Started, LastOf, ResourcesOf, Destinations;
    assert p in j.haltedPairs ==> HaltFits(j, p);
  }

  lemma ClosureIsPermanent(actions: seq<Action>, m: nat, n: nat, p: Pair)
    requires AllAdmissible(actions) && m <= n <= |actions| && ClosedPair(At(actions, m), p)
    ensures ClosedPair(At(actions, n), p)
    ensures p in At(actions, m).haltedPairs <==> p in At(actions, n).haltedPairs
  {
    hide At;
    AtEvolves(actions, m, n);
    assert ClosuresEvolve(At(actions, m), At(actions, n));
    hide Evolves;
    AtKeepsInv(actions, n);
    assert Halts(At(actions, n));
    hide Inv, Started, LastOf, Destinations;
    assert p in At(actions, n).haltedPairs ==> HaltFits(At(actions, n), p);
  }

  /** Opening a witness needs an uncertain attempt whose pair holds all its leases. */
  lemma OpeningOwns(j: Journal, id: AttemptId, request: RequestId, who: PrincipalId, charge: Option<Budget>, now: int)
    requires request !in j.reconciliations && ClaimReconciliation(j, id, request, who, charge, now).Ok?
    ensures id in j.attempts && Uncertain(j.attempts[id].state)
    ensures OwnsAll(j.leases, j.attempts[id].Owner(), j.attempts[id].leasedResources)
  {
    hide ActiveGrant, BoundContext, ConfigurationAuthority, OwnsAll, ActivelyReconciled;
  }

  /** A closed pair reserves no new step, starts no recovery, claims no dispatch and opens no reconciliation. */
  lemma ClosedPairsAreInert(j: Journal, p: Pair, proposed: AttemptRecord, snapshot: AdmissionSnapshot, run: PlanRun,
                            recovery: RecoveryTakeover, id: AttemptId, who: PrincipalId, request: RequestId, charge: Option<Budget>, now: int)
    requires Reachable(j) && ClosedPair(j, p)
    ensures proposed.Owner() == p && !RepeatedTakeOver(j, proposed, recovery) ==> TakeOver(j, proposed, snapshot, run, recovery, now).Err?
    ensures proposed.Owner() == p && AttemptForRequest(j, proposed.request) == None ==> Reserve(j, proposed, snapshot, now).Err?
    ensures id in j.attempts && j.attempts[id].Owner() == p ==> ClaimDispatch(j, id, who, now).Err?
    ensures id in j.attempts && j.attempts[id].Owner() == p && request !in j.reconciliations
            ==> ClaimReconciliation(j, id, request, who, charge, now).Err?
  {
    if id in j.attempts && j.attempts[id].Owner() == p && request !in j.reconciliations
       && ClaimReconciliation(j, id, request, who, charge, now).Ok? {
      hide ClaimReconciliation;
      OpeningOwns(j, id, request, who, charge, now);
      ReachableInv(j);
      assert Leased(j) && Bound(j);
      hide Inv, Leased, Bound, Live, OwnsAll, Reachable;
      HoldsSomething(j, id);
      LiveStanding(j, p);
    }
    hide Reachable, ClaimReconciliation, CheckSources, HeldBy, AdmissionContext, NextIndex, SameRun, Available, ActiveGrant, BoundContext, OwnsAll;
  }

  // ----- Recorded steps -----

  /** The shape of every pair's record: indices 0..n, all but the last completed, one profile, plan and resource set. */
  lemma RecordedSteps(j: Journal, p: Pair, i: nat, k: nat)
    requires Reachable(j) && i < k < |Listing(j, p)|
    ensures Listing(j, p)[i] in j.attempts && Listing(j, p)[k] in j.attempts
    ensures var a := j.attempts[Listing(j, p)[i]]; var b := j.attempts[Listing(j, p)[k]];
            && a.Owner() == p && b.Owner() == p && a.operationIndex == i && b.operationIndex == k
            && a.state == Completed
            && a.profile == b.profile && a.profileDigest == b.profileDigest && a.planDigest == b.planDigest
            && a.leasedResources == b.leasedResources
  {
    ReachableInv(j);
    assert Contiguous(j) && InOrder(j) && Bound(j);
    hide Inv, Reachable;
    var a := Listing(j, p)[i];
    var b := Listing(j, p)[k];
    assert a in j.attempts && b in j.attempts && j.attempts[a].Owner() == p && j.attempts[b].Owner() == p;
    hide Contiguous;
    assert BoundTo(j, j.attempts[a]) && BoundTo(j, j.attempts[b]);
  }

  /** Settled states absorb, nothing returns to Intent or Dispatched, and a written receipt stays. */
  lemma AttemptsOnlyAdvance(actions: seq<Action>, m: nat, n: nat, id: AttemptId)
    requires AllAdmissible(actions) && m <= n <= |actions| && id in At(actions, m).attempts
    ensures id in At(actions, n).attempts
    ensures var a := At(actions, m).attempts[id]; var b := At(actions, n).attempts[id];
            && (a.state in {Completed, Rejected} ==> b.state == a.state)
            && (b.state == Intent ==> a.state == Intent)
            && (b.state == Dispatched ==> a.state in {Intent, Dispatched})
            && (a.receipt.Some? ==> b.receipt == a.receipt)
            && b == a.(state := b.state, receipt := b.receipt)
  {
    hide At;
    Persists(actions, m, n, id);
  }

  // ----- Uncertainty is never dropped -----

  /** The takeover that retired `p` moved its resources to `q`. At most one `q` fits. */
  ghost predicate HandsTo(j: Journal, p: Pair, q: Pair) {
    p in j.retirements && j.retirements[p] < |j.takeovers| && j.takeovers[j.retirements[p]].Destination() == q
  }

  ghost predicate Chain(j: Journal, chain: seq<Pair>) {
    && chain != []
    && (forall i | 0 <= i < |chain| - 1 :: HandsTo(j, chain[i], chain[i + 1]))
    && chain[|chain| - 1] !in j.retirements
  }

  ghost predicate Later(j: Journal, p: Pair, q: Pair) {
    p in j.retirements && (q in j.retirements ==> j.retirements[p] < j.retirements[q])
  }

  /** A retired pair hands its resources to a destination that is retired only by a later takeover. */
  lemma NextInChain(j: Journal, p: Pair) returns (q: Pair)
    requires Retires(j) && HandsOver(j) && p in j.retirements
    ensures HandsTo(j, p, q) && Later(j, p, q)
    ensures Started(j, q) && ResourcesOf(j, q) == ResourcesOf(j, p) && q in Destinations(j.takeovers)
  {
    RetiredRow(j, p);
    var t := j.takeovers[j.retirements[p]];
    assert t in j.takeovers && TakeoverFits(j, t);
    q := t.Destination();
    if q in j.retirements { RetiredRow(j, q); }
    hide Retires, Started, ResourcesOf, LastOf;
  }

  ghost predicate LaterAll(j: Journal, chain: seq<Pair>) {
    forall i, k | 0 <= i < k < |chain| :: Later(j, chain[i], chain[k])
  }

  /** Takeover rows increase along a chain, so chains end and never meet a pair twice. */
  lemma {:induction false} ChainEnds(j: Journal, p: Pair) returns (chain: seq<Pair>)
    requires Retires(j) && HandsOver(j) && Started(j, p)
    ensures Chain(j, chain) && chain[0] == p && LaterAll(j, chain)
    ensures Started(j, chain[|chain| - 1]) && ResourcesOf(j, chain[|chain| - 1]) == ResourcesOf(j, p)
    ensures chain[|chain| - 1] == p || chain[|chain| - 1] in Destinations(j.takeovers)
    decreases if p in j.retirements then |j.takeovers| - j.retirements[p] else 0
  {
    hide Retires, HandsOver, Started, ResourcesOf, HandsTo, Destinations;
    if p in j.retirements {
      assert j.retirements[p] < |j.takeovers| by { RetiredRow(j, p); hide Started, LastOf, Listing; }
      var q := NextInChain(j, p);
      if q in j.retirements { RetiredRow(j, q); }
      var rest := ChainEnds(j, q);
      chain := [p] + rest;
    } else {
      chain := [p];
    }
  }

  /** A pair has one chain. */
  lemma {:induction false} ChainIsUnique(j: Journal, a: seq<Pair>, b: seq<Pair>)
    requires Chain(j, a) && Chain(j, b) && a[0] == b[0]
    ensures a == b
    decreases |a|
  {
    if a[0] in j.retirements {
      assert HandsTo(j, a[0], a[0 + 1]) && HandsTo(j, b[0], b[0 + 1]);
      ChainTail(j, a);
      ChainTail(j, b);
      ChainIsUnique(j, a[1..], b[1..]);
      assert a == [a[0]] + a[1..] && b == [b[0]] + b[1..];
    } else {
      AloneInChain(j, a);
      AloneInChain(j, b);
      assert a == [a[0]] && b == [b[0]];
    }
  }

  lemma ChainTail(j: Journal, chain: seq<Pair>)
    requires Chain(j, chain) && |chain| > 1
    ensures Chain(j, chain[1..])
  {
    var tail := chain[1..];
    hide HandsTo;
    forall i | 0 <= i < |tail| - 1
      ensures HandsTo(j, tail[i], tail[i + 1])
    {
      assert HandsTo(j, chain[i + 1], chain[i + 1 + 1]);
    }
  }

  lemma InvChains(j: Journal)
    requires Inv(j)
    ensures Halts(j) && Retires(j) && HandsOver(j)
  {
  }

  lemma EndHolds(j: Journal, e: Pair)
    requires Leased(j) && Halts(j) && Started(j, e) && e !in j.retirements && !Finished(j, e)
    requires LastOf(j, e).state in {Dispatched, Partial, Unknown} || e in Destinations(j.takeovers)
    ensures OwnsAll(j.leases, e, ResourcesOf(j, e))
  {
    assert e !in j.haltedPairs by {
      hide Leased, Started, LastOf, Finished, ResourcesOf, Destinations;
      assert e in j.haltedPairs ==> HaltFits(j, e);
    }
    hide Leased, Started, LastOf, Finished, ResourcesOf, Destinations, Halts;
    LiveHolds(j, e);
  }

  /** While an attempt is dispatched, partial or unknown, all its resources are held by its pair or, once
      that pair is retired, by the one unretired end of its takeover chain, unless that end finished its plan. */
  lemma UncertaintyIsHeld(j: Journal, id: AttemptId) returns (chain: seq<Pair>)
    requires Reachable(j) && id in j.attempts && j.attempts[id].state in {Dispatched, Partial, Unknown}
    ensures Chain(j, chain) && chain[0] == j.attempts[id].Owner()
    ensures forall other | Chain(j, other) && other[0] == chain[0] :: other == chain
    ensures forall i, k | 0 <= i < k < |chain| :: chain[i] != chain[k] // takeovers never form a cycle
    ensures Finished(j, chain[|chain| - 1]) || OwnsAll(j.leases, chain[|chain| - 1], j.attempts[id].leasedResources)
    ensures chain[0] !in j.retirements ==> OwnsAll(j.leases, chain[0], j.attempts[id].leasedResources)
  {
    hide Inv, Contiguous, Bound, InOrder, Leased, Halts, Retires, HandsOver, ResourcesOf, Destinations, Started, LastOf;
    hide Reachable, Finished, HandsTo, OwnsAll;
    ReachableInv(j);
    InvLive(j);
    InvChains(j);
    LastIfOpen(j, id);
    LastIsListed(j, id);
    ResourcesBound(j, id);
    chain := ChainEnds(j, j.attempts[id].Owner());
    assert forall i, k | 0 <= i < k < |chain| :: Later(j, chain[i], chain[k]);
    forall other | Chain(j, other) && other[0] == chain[0]
      ensures other == chain
    {
      ChainIsUnique(j, other, chain);
    }
    if !Finished(j, chain[|chain| - 1]) {
      EndHolds(j, chain[|chain| - 1]);
    }
    if chain[0] !in j.retirements {
      AloneInChain(j, chain);
      UncertainUnfinished(j, chain[0]);
    }
  }

  lemma AloneInChain(j: Journal, chain: seq<Pair>)
    requires Chain(j, chain) && chain[0] !in j.retirements
    ensures |chain| == 1
  {
    assert |chain| > 1 ==> HandsTo(j, chain[0], chain[0 + 1]);
  }

  lemma UncertainUnfinished(j: Journal, p: Pair)
    requires Started(j, p) && LastOf(j, p).state in {Dispatched, Partial, Unknown}
    ensures !Finished(j, p)
  {
  }

  lemma LiveHolds(j: Journal, p: Pair)
    requires Leased(j) && Live(j, p)
    ensures OwnsAll(j.leases, p, ResourcesOf(j, p))
  {
    hide Live, ResourcesOf;
  }

  // ----- Interlocks and leases in time -----

  lemma InvLive(j: Journal)
    requires Inv(j)
    ensures Contiguous(j) && Bound(j) && InOrder(j) && Leased(j)
  {
  }

  /** A row that is not the last of its pair is completed, and the plan has a step after it. */
  lemma LongerListing(k: Journal, p: Pair, n: nat)
    requires Contiguous(k) && InOrder(k) && Bound(k) && 0 < n < |Listing(k, p)|
    ensures Listing(k, p)[n - 1] in k.attempts && k.attempts[Listing(k, p)[n - 1]].state == Completed
    ensures p.plan in k.plans && n < |k.plans[p.plan].operations|
  {
    var next := Listing(k, p)[n];
    assert next in k.attempts && k.attempts[next].Owner() == p && k.attempts[next].operationIndex == n;
    assert BoundTo(k, k.attempts[next]);
  }

  /** What an evolution does to a started pair: its listing grows, its last row advances, its plan stays. */
  lemma LastEvolves(j: Journal, k: Journal, p: Pair)
    requires Contiguous(j) && Started(j, p) && Evolves(j, k)
    ensures Listing(j, p) <= Listing(k, p) && LastOf(j, p).Owner() == p
    ensures Listing(j, p)[|Listing(j, p)| - 1] in k.attempts && LastOf(j, p).operationIndex + 1 == |Listing(j, p)|
    ensures AttemptEvolves(LastOf(j, p), k.attempts[Listing(j, p)[|Listing(j, p)| - 1]])
    ensures p.plan in j.plans ==> p.plan in k.plans && k.plans[p.plan] == j.plans[p.plan]
  {
    LastRow(j, p);
    hide WitnessesEvolve, ClosuresEvolve, AttemptEvolves, Contiguous, Listing;
  }

  /** In a pair that has started, a final or rejected last attempt is still the last one later on. */
  lemma LastStays(j: Journal, k: Journal, p: Pair)
    requires Contiguous(j) && Contiguous(k) && InOrder(k) && Bound(k) && Started(j, p) && Evolves(j, k)
    requires Finished(j, p) || LastOf(j, p).state == Rejected
    ensures Listing(k, p) == Listing(j, p)
  {
    hide Contiguous, InOrder, Bound, Evolves, Listing;
    LastEvolves(j, k, p);
    var n := |Listing(j, p)|;
    if n < |Listing(k, p)| {
      LongerListing(k, p, n);
    }
  }

  lemma LastIsKept(j: Journal, k: Journal, p: Pair)
    requires Contiguous(j) && Contiguous(k) && InOrder(k) && Bound(k) && Started(j, p) && Evolves(j, k)
    requires Finished(j, p) || LastOf(j, p).state == Rejected
    ensures Started(k, p) && LastOf(k, p).state == LastOf(j, p).state && (Finished(j, p) ==> Finished(k, p))
  {
    hide Contiguous, InOrder, Bound, Evolves, Listing;
    LastEvolves(j, k, p);
    LastStays(j, k, p);
  }

  lemma ClosureStays(j: Journal, k: Journal, p: Pair)
    requires Evolves(j, k) && Started(j, p)
    ensures p in j.haltedPairs ==> p in k.haltedPairs
    ensures p in j.retirements ==> p in k.retirements
    ensures p in Destinations(k.takeovers) ==> p in Destinations(j.takeovers)
  {
    hide AttemptsEvolve, RecordsEvolve, StepsEvolve, WitnessesEvolve, Destinations, Started;
  }

  /** Leases are never regained: a started pair that is live now was live before. */
  lemma LivenessOnlyFades(j: Journal, k: Journal, p: Pair)
    requires Inv(j) && Inv(k) && Evolves(j, k) && Started(j, p) && Live(k, p)
    ensures Live(j, p)
  {
    hide Inv, Leased, Bound, InOrder, Contiguous, Evolves, Destinations, Started, LastOf, Finished;
    InvLive(j);
    InvLive(k);
    ClosureStays(j, k, p);
    if Finished(j, p) || LastOf(j, p).state == Rejected {
      LastIsKept(j, k, p);
    }
  }

  /** Between two dispatch claims of one pair, it holds its resources without interruption. */
  lemma HeldBetween(actions: seq<Action>, m: nat, i: nat, n: nat)
    requires AllAdmissible(actions) && ClaimAt(actions, m).Some? && ClaimAt(actions, n).Some? && m <= i <= n
    requires ClaimAt(actions, m).value.Owner() == ClaimAt(actions, n).value.Owner()
    ensures OwnsAll(At(actions, i).leases, ClaimAt(actions, n).value.Owner(), ClaimAt(actions, n).value.leasedResources)
  {
    var first, last := ClaimAt(actions, m).value, ClaimAt(actions, n).value;
    hide ClaimAt, Inv, Evolves, At, OwnsAll, Live, Started, ResourcesOf, Contiguous, Bound, InOrder, Leased;
    ClaimFacts(actions, m);
    ClaimFacts(actions, n);
    Persists(actions, m, i, first.id);
    HeldAt(actions, i, n, first.id, last);
  }

  lemma HeldAt(actions: seq<Action>, i: nat, n: nat, first: AttemptId, last: AttemptRecord)
    requires AllAdmissible(actions) && i <= n <= |actions| && first in At(actions, i).attempts
    requires At(actions, i).attempts[first].Owner() == last.Owner() && last.id in At(actions, n).attempts
    requires At(actions, n).attempts[last.id] == last.(state := Intent) && OwnsAll(At(actions, n).leases, last.Owner(), last.leasedResources)
    ensures OwnsAll(At(actions, i).leases, last.Owner(), last.leasedResources)
  {
    var p := last.Owner();
    hide Inv, Evolves, At, OwnsAll, Live, Started, ResourcesOf, Contiguous, Bound, InOrder, Leased;
    AtKeepsInv(actions, i);
    AtKeepsInv(actions, n);
    InvLive(At(actions, i));
    InvLive(At(actions, n));
    AttemptStarts(At(actions, i), first);
    HoldsSomething(At(actions, n), last.id);
    AtEvolves(actions, i, n);
    LivenessOnlyFades(At(actions, i), At(actions, n), p);
    LiveHolds(At(actions, i), p);
    ResourcesBound(At(actions, n), last.id);
    ResourcesFixed(At(actions, i), At(actions, n), p);
  }

  lemma ResourcesFixed(j: Journal, k: Journal, p: Pair)
    requires Contiguous(j) && Bound(j) && Started(j, p) && Evolves(j, k)
    ensures ResourcesOf(k, p) == ResourcesOf(j, p)
  {
    assert RecordsEvolve(j, k);
    hide Evolves, Contiguous, Bound;
    StartedRow(j, p);
  }
}
