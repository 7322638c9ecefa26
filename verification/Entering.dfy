/** Exactly when a reachable journal admits a reservation or a recovery takeover, and exactly what that changes. */
module Entering {
  import opened Wrappers
  import opened Domain
  import opened Journal
  import opened Actions
  import opened Invariant
  import opened Preservation
  import opened Reconciling
  import opened Admitting
  import opened Histories
  import opened Enabling

  // ----- What the guards come to -----

  /** The grant is usable by the agent for the profile, and profile and plan are stored as the snapshot has them. */
  predicate Admitted(j: Journal, a: AttemptRecord, snapshot: AdmissionSnapshot, now: int) {
    && Usable(j, a.grant, snapshot.agent, now) && j.grants[a.grant].profile == snapshot.profile.id
    && snapshot.profile.id in j.profiles && j.profiles[snapshot.profile.id] == snapshot.profile
    && snapshot.plan.id in j.plans && j.plans[snapshot.plan.id] == snapshot.plan
  }

  /** Every component of the cost is left. */
  predicate Affordable(cost: Budget, remaining: Budget) {
    cost.effects <= remaining.effects && cost.bytes <= remaining.bytes && cost.milliseconds <= remaining.milliseconds
  }

  function Recorded(j: Journal, p: Pair): seq<AttemptId> {
    if p in j.steps then j.steps[p] else []
  }

  lemma AdmissionGuard(j: Journal, a: AttemptRecord, snapshot: AdmissionSnapshot, now: int)
    requires Proposal(a, snapshot)
    ensures AdmissionContext(j, a, snapshot, now).Ok? <==> Admitted(j, a, snapshot, now)
    ensures AdmissionContext(j, a, snapshot, now).Ok? ==> AdmissionContext(j, a, snapshot, now).value == j.grants[a.grant]
  {
    hide ActiveGrant, Usable, TotalCost, CommissionedProfile.PhysicalResources;
    GrantGuard(j, a.grant, snapshot.agent, a.profile, now);
  }

  /** The next index is the number of recorded steps, all of which must be completed. */
  lemma NextGuard(j: Journal, p: Pair, n: nat)
    requires Contiguous(j)
    ensures NextIndex(j, p) == Ok(n) <==>
            n == |Recorded(j, p)| && (n > 0 ==> Recorded(j, p)[n - 1] in j.attempts && j.attempts[Recorded(j, p)[n - 1]].state == Completed)
  {
  }

  /** A later step of an admitted pair always repeats its first: the check for it is redundant. */
  lemma LaterStepsAgree(j: Journal, a: AttemptRecord, snapshot: AdmissionSnapshot, now: int)
    requires Contiguous(j) && Bound(j) && Proposal(a, snapshot) && Admitted(j, a, snapshot, now)
    requires a.operationIndex == |Recorded(j, a.Owner())|
    ensures SameRun(j, a) == Pass
  {
    hide TotalCost, CommissionedProfile.PhysicalResources;
    if a.operationIndex > 0 {
      var first := Recorded(j, a.Owner())[0];
      assert first in j.attempts && j.attempts[first].Owner() == a.Owner() && j.attempts[first].operationIndex == 0;
      assert BoundTo(j, j.attempts[first]);
    }
  }

  lemma RequestGuard(j: Journal, request: RequestId)
    requires Requested(j)
    ensures AttemptForRequest(j, request).Some? <==> request in j.byRequest
    ensures request in j.byRequest ==> j.byRequest[request] in j.attempts && AttemptForRequest(j, request) == Some(j.attempts[j.byRequest[request]])
  {
  }

  lemma InvAdmission(j: Journal)
    requires Inv(j)
    ensures Keyed(j) && Contiguous(j) && Requested(j) && Bound(j)
  {
  }

  // ----- Reservation -----

  /** A new step is reserved exactly when its pair is open, it is admitted, it is the next step after completed ones, no
      other pair holds its resources, its cost is left, and its id is new. */
  lemma ReservesExactly(j: Journal, a: AttemptRecord, snapshot: AdmissionSnapshot, now: int)
    requires Reachable(j) && Proposal(a, snapshot) && a.request !in j.byRequest
    ensures Reserve(j, a, snapshot, now).Ok? <==>
            var p := Pair(a.grant, a.plan); var n := |Recorded(j, p)|;
            && p !in j.haltedPairs && p !in j.retirements && Admitted(j, a, snapshot, now)
            && a.operationIndex == n && (n > 0 ==> Recorded(j, p)[n - 1] in j.attempts && j.attempts[Recorded(j, p)[n - 1]].state == Completed)
            && (forall r | r in a.leasedResources && r in j.leases :: j.leases[r] == p)
            && Affordable(a.reserved, j.grants[a.grant].remaining) && a.id !in j.attempts
  {
    hide Reachable, Inv, Keyed, Contiguous, Requested, Bound, Proposal, Admitted, AdmissionContext, NextIndex, SameRun, AttemptForRequest, InsertAttempt;
    hide Recorded, LeaseTo;
    ReachableInv(j);
    InvAdmission(j);
    RequestGuard(j, a.request);
    AdmissionGuard(j, a, snapshot, now);
    NextGuard(j, a.Owner(), a.operationIndex);
    if Admitted(j, a, snapshot, now) && a.operationIndex == |Recorded(j, a.Owner())| { LaterStepsAgree(j, a, snapshot, now); }
    assert Admitted(j, a, snapshot, now) ==> a.grant in j.grants by { AdmittedGrant(j, a, snapshot, now); }
  }

  lemma AdmittedGrant(j: Journal, a: AttemptRecord, snapshot: AdmissionSnapshot, now: int)
    ensures Admitted(j, a, snapshot, now) ==> a.grant in j.grants
  {
  }

  /** Pair `p` holds all the resources now; every other lease is as it was. */
  predicate Taken(before: map<PhysicalResource, Pair>, after: map<PhysicalResource, Pair>, p: Pair, resources: set<PhysicalResource>) {
    && after.Keys == before.Keys + resources
    && forall r | r in after :: after[r] == if r in resources then p else before[r]
  }

  lemma LeaseToTakes(leases: map<PhysicalResource, Pair>, p: Pair, resources: set<PhysicalResource>)
    ensures Taken(leases, LeaseTo(leases, p, resources), p, resources)
  {
  }

  /** The reserved step is appended to its pair under its request, its pair holds the resources, its grant has paid, and
      nothing else changes. */
  lemma ReservationChanges(j: Journal, a: AttemptRecord, snapshot: AdmissionSnapshot, now: int)
    requires Reachable(j) && Proposal(a, snapshot) && a.request !in j.byRequest && Reserve(j, a, snapshot, now).Ok?
    ensures var p := Pair(a.grant, a.plan); var tx := Reserve(j, a, snapshot, now).value;
            && tx.value == Reserved(a)
            && tx.journal == j.(attempts := j.attempts[a.id := a], byRequest := j.byRequest[a.request := a.id],
                                steps := j.steps[p := Recorded(j, p) + [a.id]], leases := tx.journal.leases, grants := tx.journal.grants)
            && Taken(j.leases, tx.journal.leases, p, a.leasedResources)
            && Spent(j.grants, tx.journal.grants, a.grant, a.reserved)
  {
    hide Reachable, Inv, Keyed, Contiguous, Requested, Bound, Proposal, AttemptForRequest, LeaseTo, Taken, Reserve, AdmissionContext, NextIndex, Available;
    ReachableInv(j);
    InvAdmission(j);
    RequestGuard(j, a.request);
    ReserveShape(j, a, snapshot, now);
    LeaseToTakes(j.leases, a.Owner(), a.leasedResources);
  }

  /** A request that was already reserved returns its attempt if it is the same step of the same plan, and changes nothing. */
  lemma RepetitionsAreFound(j: Journal, a: AttemptRecord, snapshot: AdmissionSnapshot, now: int)
    requires Reachable(j) && a.request in j.byRequest
    ensures j.byRequest[a.request] in j.attempts
    ensures var b := j.attempts[j.byRequest[a.request]];
            Reserve(j, a, snapshot, now)
            == if b.id == a.id && b.grant == a.grant && b.plan == a.plan && b.operationIndex == a.operationIndex && b.planDigest == a.planDigest
               then Ok(Committed(j, Existing(b))) else Err(Conflict)
  {
    hide Reachable, Inv, Keyed, Contiguous, Requested, Bound, AttemptForRequest, AdmissionContext, NextIndex, SameRun, Available, InsertAttempt, LeaseTo;
    ReachableInv(j);
    InvAdmission(j);
    RequestGuard(j, a.request);
  }
}
