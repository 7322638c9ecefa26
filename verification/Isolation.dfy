/** What interlocks buy over a whole history: nothing effectful between the witness and the effect it gates. */
module Isolation {
  import opened Wrappers
  import opened Domain
  import opened Journal
  import opened Actions
  import opened Invariant
  import opened Preservation
  import opened Evolution
  import opened Histories
  import opened Interlocks

  /** A claimed attempt is the last of its pair at that moment. */
  lemma ClaimedLast(actions: seq<Action>, n: nat)
    requires AllAdmissible(actions) && ClaimAt(actions, n).Some?
    ensures var c := ClaimAt(actions, n).value; c.operationIndex + 1 == |Listing(At(actions, n), c.Owner())|
  {
    var j := At(actions, n);
    var c := ClaimAt(actions, n).value;
    hide At, ClaimAt, Inv, OwnsAll, Contiguous, InOrder, Bound, Leased;
    ClaimFacts(actions, n);
    AtKeepsInv(actions, n);
    InvLive(j);
    LastAtIndex(j, c.id);
  }

  lemma LastAtIndex(j: Journal, id: AttemptId)
    requires Contiguous(j) && InOrder(j) && id in j.attempts && j.attempts[id].state != Completed
    ensures j.attempts[id].operationIndex + 1 == |Listing(j, j.attempts[id].Owner())|
  {
    hide Listing;
  }

  lemma ListingGrows(actions: seq<Action>, m: nat, n: nat, p: Pair)
    requires AllAdmissible(actions) && m <= n <= |actions|
    ensures Listing(At(actions, m), p) <= Listing(At(actions, n), p)
  {
    hide At, Listing, AttemptsEvolve, RecordsEvolve, WitnessesEvolve, ClosuresEvolve;
    AtEvolves(actions, m, n);
  }

  /** Within one pair, later claims are of later steps. */
  lemma ClaimsInOrder(actions: seq<Action>, m: nat, n: nat)
    requires AllAdmissible(actions) && ClaimAt(actions, m).Some? && ClaimAt(actions, n).Some? && m < n
    requires ClaimAt(actions, m).value.Owner() == ClaimAt(actions, n).value.Owner()
    ensures ClaimAt(actions, m).value.operationIndex < ClaimAt(actions, n).value.operationIndex
  {
    hide At, ClaimAt, Listing, OwnsAll;
    ClaimFacts(actions, n);
    ClaimedLast(actions, m);
    ClaimedLast(actions, n);
    ListingGrows(actions, m, n, ClaimAt(actions, m).value.Owner());
    NoLaterClaim(actions, m, n);
  }

  lemma DisjointOwners(leases: map<PhysicalResource, Pair>, p: Pair, r: set<PhysicalResource>, q: Pair, s: set<PhysicalResource>)
    requires p != q && OwnsAll(leases, p, r) && OwnsAll(leases, q, s)
    ensures r !! s
  {
    forall x | x in r
      ensures x !in s
    {
    }
  }

  /** The planned operation that action `n` claimed for dispatch, read from the stored plan. */
  function PlannedAt(actions: seq<Action>, n: nat): Option<PlannedOperation> {
    var c := ClaimAt(actions, n);
    if c.Some? && n < |actions| && c.value.plan in At(actions, n).plans
       && c.value.operationIndex < |At(actions, n).plans[c.value.plan].operations|
    then Some(At(actions, n).plans[c.value.plan].operations[c.value.operationIndex])
    else None
  }

  /** Every claim is of a stored operation, and a plan stays as it was stored. */
  lemma ClaimedOperation(actions: seq<Action>, n: nat, later: nat)
    requires AllAdmissible(actions) && ClaimAt(actions, n).Some? && n <= later <= |actions|
    ensures var c := ClaimAt(actions, n).value;
            && c.plan in At(actions, later).plans && c.operationIndex < |At(actions, later).plans[c.plan].operations|
            && PlannedAt(actions, n) == Some(At(actions, later).plans[c.plan].operations[c.operationIndex])
  {
    hide At, ClaimAt, Inv, OwnsAll, Contiguous, InOrder, Leased;
    ClaimFacts(actions, n);
    AtKeepsInv(actions, n);
    InvLive(At(actions, n));
    assert BoundTo(At(actions, n), At(actions, n).attempts[ClaimAt(actions, n).value.id]);
    hide Bound, BoundTo;
    PlansStay(actions, n, later, ClaimAt(actions, n).value.plan);
  }

  lemma PlansStay(actions: seq<Action>, n: nat, later: nat, id: PlanId)
    requires AllAdmissible(actions) && n <= later <= |actions| && id in At(actions, n).plans
    ensures id in At(actions, later).plans && At(actions, later).plans[id] == At(actions, n).plans[id]
  {
    hide At, AttemptsEvolve, StepsEvolve, WitnessesEvolve, ClosuresEvolve;
    AtEvolves(actions, n, later);
  }

  /** `observed` claims the step that witnesses one interlock for the step `gated` claims, in the same run. */
  predicate Guards(actions: seq<Action>, observed: nat, gated: nat, interlock: LiveInterlock) {
    && observed < gated < |actions|
    && ClaimAt(actions, observed).Some? && ClaimAt(actions, gated).Some?
    && var w, e := ClaimAt(actions, observed).value, ClaimAt(actions, gated).value;
       && w.Owner() == e.Owner()
       && e.plan in At(actions, gated).plans
       && e.operationIndex <= |At(actions, gated).plans[e.plan].operations|
       && Witnesses(At(actions, gated).plans[e.plan], e.operationIndex, interlock, w.operationIndex)
  }

  /** A claim at `between` has no effect permission if it is of the run claimed at `gated`, and else shares no leased
      resource with it. */
  predicate Isolated(actions: seq<Action>, between: nat, gated: nat) {
    ClaimAt(actions, between).Some? && ClaimAt(actions, gated).Some? ==>
      var x, e := ClaimAt(actions, between).value, ClaimAt(actions, gated).value;
      && PlannedAt(actions, between).Some?
      && (x.Owner() == e.Owner() ==> PlannedAt(actions, between).value.operation.Effects() == {})
      && (x.Owner() != e.Owner() ==> x.leasedResources !! e.leasedResources)
  }

  /** Between the claim of the witnessing observation and the claim of the effect it gates, a claim by the
      same run has no effect permission, and a claim by any other pair shares no leased resource. */
  lemma InterlockIsolation(actions: seq<Action>, observed: nat, between: nat, gated: nat, interlock: LiveInterlock)
    requires AllAdmissible(actions) && Guards(actions, observed, gated, interlock)
    requires observed < between < gated
    ensures Isolated(actions, between, gated)
  {
    if ClaimAt(actions, between).Some? { ClaimIsIsolated(actions, observed, between, gated, interlock); }
    hide At, ClaimAt, PlannedAt;
  }

  lemma ClaimIsIsolated(actions: seq<Action>, observed: nat, between: nat, gated: nat, interlock: LiveInterlock)
    requires AllAdmissible(actions) && Guards(actions, observed, gated, interlock)
    requires observed < between < gated && ClaimAt(actions, between).Some?
    ensures Isolated(actions, between, gated)
  {
    var x, e := ClaimAt(actions, between).value, ClaimAt(actions, gated).value;
    hide At, ClaimAt, PlannedAt, OwnsAll;
    ClaimedOperation(actions, between, gated);
    if x.Owner() == e.Owner() {
      ClaimsInOrder(actions, observed, between);
      ClaimsInOrder(actions, between, gated);
    } else {
      HeldBetween(actions, observed, between, gated);
      ClaimFacts(actions, between);
      DisjointOwners(At(actions, between).leases, x.Owner(), x.leasedResources, e.Owner(), e.leasedResources);
    }
  }

  /** An uncertain attempt after a claim of its pair is of that step or a later one. */
  lemma UncertainAfter(actions: seq<Action>, observed: nat, between: nat, id: AttemptId)
    requires AllAdmissible(actions) && observed < between <= |actions| && ClaimAt(actions, observed).Some?
    requires id in At(actions, between).attempts && Uncertain(At(actions, between).attempts[id].state)
    requires At(actions, between).attempts[id].Owner() == ClaimAt(actions, observed).value.Owner()
    ensures ClaimAt(actions, observed).value.operationIndex <= At(actions, between).attempts[id].operationIndex
  {
    hide At, ClaimAt, OwnsAll, Listing, Inv, InOrder, Leased, Bound, Contiguous;
    ClaimedLast(actions, observed);
    ListingGrows(actions, observed, between, At(actions, between).attempts[id].Owner());
    AtKeepsInv(actions, between);
    InvLive(At(actions, between));
    LastAtIndex(At(actions, between), id);
  }

  /** An uncertain attempt before a claim of its pair is of an earlier step. */
  lemma UncertainBefore(actions: seq<Action>, between: nat, gated: nat, id: AttemptId)
    requires AllAdmissible(actions) && between <= gated && ClaimAt(actions, gated).Some?
    requires gated < |actions| && id in At(actions, between).attempts && Uncertain(At(actions, between).attempts[id].state)
    requires At(actions, between).attempts[id].Owner() == ClaimAt(actions, gated).value.Owner()
    ensures At(actions, between).attempts[id].operationIndex < ClaimAt(actions, gated).value.operationIndex
  {
    hide At, ClaimAt, OwnsAll, Listing, AttemptEvolves, StepsEvolve, RecordsEvolve, WitnessesEvolve, ClosuresEvolve, Inv, InOrder, Leased, Bound, Contiguous;
    ClaimFacts(actions, gated);
    AtEvolves(actions, between, gated);
    AtKeepsInv(actions, gated);
    InvLive(At(actions, gated));
    BeforeIntent(At(actions, gated), At(actions, between).attempts[id], id, ClaimAt(actions, gated).value.id);
  }

  lemma BeforeIntent(k: Journal, a: AttemptRecord, id: AttemptId, e: AttemptId)
    requires Contiguous(k) && InOrder(k) && id in k.attempts && e in k.attempts && AttemptEvolves(a, k.attempts[id])
    requires Uncertain(a.state) && k.attempts[e].state == Intent && a.Owner() == k.attempts[e].Owner()
    ensures a.operationIndex < k.attempts[e].operationIndex
  {
    hide Listing, InOrder, Contiguous;
    LastAtIndex(k, e);
    RowInListing(k, id);
    if a.operationIndex == k.attempts[e].operationIndex { SameIndex(k, id, e); }
  }

  lemma RowInListing(j: Journal, id: AttemptId)
    requires Contiguous(j) && id in j.attempts
    ensures j.attempts[id].id == id && j.attempts[id].operationIndex < |Listing(j, j.attempts[id].Owner())|
  {
    hide Listing;
  }

  lemma SameIndex(j: Journal, a: AttemptId, b: AttemptId)
    requires Contiguous(j) && a in j.attempts && b in j.attempts
    requires j.attempts[a].Owner() == j.attempts[b].Owner() && j.attempts[a].operationIndex == j.attempts[b].operationIndex
    ensures a == b
  {
    hide Listing;
  }

  /** Nor does another pair open a reconciliation, which may configure an instrument, on a shared resource; one opened
      by the same run is of the observed step or of a step without effect permissions. */
  lemma ReconciliationIsolation(actions: seq<Action>, observed: nat, between: nat, gated: nat, interlock: LiveInterlock,
                                id: AttemptId, request: RequestId, who: PrincipalId, charge: Option<Budget>, now: int)
    requires AllAdmissible(actions) && Guards(actions, observed, gated, interlock) && observed < between < gated
    requires request !in At(actions, between).reconciliations
    requires ClaimReconciliation(At(actions, between), id, request, who, charge, now).Ok?
    ensures id in At(actions, between).attempts
    ensures var a, e := At(actions, between).attempts[id], ClaimAt(actions, gated).value;
            a.Owner() != e.Owner() ==> a.leasedResources !! e.leasedResources
    ensures var a, w, e := At(actions, between).attempts[id], ClaimAt(actions, observed).value, ClaimAt(actions, gated).value;
            a.Owner() == e.Owner() ==>
              || a.id == w.id
              || (a.operationIndex < e.operationIndex && At(actions, gated).plans[e.plan].operations[a.operationIndex].operation.Effects() == {})
  {
    var w, e := ClaimAt(actions, observed).value, ClaimAt(actions, gated).value;
    hide At, ClaimAt, OwnsAll, ClaimReconciliation;
    OpeningOwns(At(actions, between), id, request, who, charge, now);
    var a := At(actions, between).attempts[id];
    if a.Owner() != e.Owner() {
      HeldBetween(actions, observed, between, gated);
      DisjointOwners(At(actions, between).leases, a.Owner(), a.leasedResources, e.Owner(), e.leasedResources);
    } else {
      UncertainAfter(actions, observed, between, id);
      UncertainBefore(actions, between, gated, id);
      if a.operationIndex == w.operationIndex { ObservedStep(actions, observed, between, id); }
    }
  }

  /** The attempt of the observed step is the one that was claimed. */
  lemma ObservedStep(actions: seq<Action>, observed: nat, between: nat, id: AttemptId)
    requires AllAdmissible(actions) && observed < between <= |actions| && ClaimAt(actions, observed).Some?
    requires id in At(actions, between).attempts && At(actions, between).attempts[id].Owner() == ClaimAt(actions, observed).value.Owner()
    requires At(actions, between).attempts[id].operationIndex == ClaimAt(actions, observed).value.operationIndex
    ensures At(actions, between).attempts[id].id == ClaimAt(actions, observed).value.id
  {
    var w := ClaimAt(actions, observed).value;
    hide At, ClaimAt, OwnsAll, StepsEvolve, RecordsEvolve, WitnessesEvolve, ClosuresEvolve, Inv, InOrder, Leased, Bound, Contiguous;
    ClaimFacts(actions, observed);
    AtEvolves(actions, observed + 1, between);
    assert AttemptEvolves(w, At(actions, between).attempts[w.id]);
    hide AttemptsEvolve, Evolves;
    AtKeepsInv(actions, between);
    InvLive(At(actions, between));
    SameIndex(At(actions, between), id, w.id);
    RowInListing(At(actions, between), id);
  }
}
