/** Recovery takeovers: exactly when one succeeds, that uncertain pairs and inherited carriers can always be recovered,
    and exactly what a takeover changes. */
module Recovering {
  import opened Wrappers
  import opened Domain
  import opened Journal
  import opened Actions
  import opened Invariant
  import opened Preservation
  import opened Reconciling
  import opened Admitting
  import opened Histories
  import opened Enabling
  import opened Entering

  // ----- Sources -----

  /** No attempt of the pair is dispatched, and no witness of its attempts is open. */
  predicate AtRest(j: Journal, p: Pair) {
    && (forall x | x in j.attempts && Pair(j.attempts[x].grant, j.attempts[x].plan) == p :: j.attempts[x].state != Dispatched)
    && (forall q | q in j.reconciliations && j.reconciliations[q].attempt in j.attempts
                   && Pair(j.attempts[j.reconciliations[q].attempt].grant, j.attempts[j.reconciliations[q].attempt].plan) == p ::
          j.reconciliations[q].state != RecClaimed)
  }

  /** The attempt may hand its pair's resources over: it is uncertain, or carried by a recovery destination. */
  predicate MayHandOver(j: Journal, id: AttemptId, resources: set<PhysicalResource>) {
    && id in j.attempts
    && var a := j.attempts[id]; var p := Pair(a.grant, a.plan);
       && p !in j.retirements && AtRest(j, p) && a.leasedResources == resources
       && (a.state in {Partial, Unknown} || (IsDestination(j, p) && a.state in {Intent, Rejected, Completed}))
  }

  lemma RestGuard(j: Journal, id: AttemptId)
    requires id in j.attempts
    ensures var p := j.attempts[id].Owner(); AtRest(j, p) <==> !HasDispatched(j, p) && !HasActiveReconciliation(j, p)
    ensures AtRest(j, j.attempts[id].Owner()) ==> !ActivelyReconciled(j, id)
  {
    var p := j.attempts[id].Owner();
    forall x | x in j.attempts
      ensures j.attempts[x].Owner() == Pair(j.attempts[x].grant, j.attempts[x].plan)
    {
    }
  }

  lemma SourceGuard(j: Journal, id: AttemptId, a: AttemptRecord)
    ensures CheckSource(j, id, a).Ok? <==> MayHandOver(j, id, a.leasedResources)
    ensures CheckSource(j, id, a).Ok? ==> CheckSource(j, id, a).value == Pair(j.attempts[id].grant, j.attempts[id].plan)
  {
    hide AtRest, HasDispatched, HasActiveReconciliation, ActivelyReconciled, IsDestination, Destinations;
    if id in j.attempts {
      RestGuard(j, id);
      DestinationGuard(j, j.attempts[id].Owner());
    }
  }

  function OwnersOf(j: Journal, ids: seq<AttemptId>): set<Pair> {
    set id | id in ids && id in j.attempts :: Pair(j.attempts[id].grant, j.attempts[id].plan)
  }

  lemma {:induction false} SourcesGuard(j: Journal, ids: seq<AttemptId>, a: AttemptRecord)
    ensures CheckSources(j, ids, a).Ok? <==> forall id | id in ids :: MayHandOver(j, id, a.leasedResources)
    ensures CheckSources(j, ids, a).Ok? ==> CheckSources(j, ids, a).value == OwnersOf(j, ids)
  {
    hide CheckSource, AtRest, IsDestination;
    if ids != [] {
      var front, last := ids[..|ids| - 1], ids[|ids| - 1];
      SourcesGuard(j, front, a);
      SourceGuard(j, last, a);
      assert ids == front + [last];
      assert forall id :: id in ids <==> id in front || id == last;
    }
  }

  // ----- Leases of sources -----

  /** Some attempt completed the last step of the pair's plan. */
  predicate PlanDone(j: Journal, p: Pair) {
    exists x | x in j.attempts ::
      && Pair(j.attempts[x].grant, j.attempts[x].plan) == p && j.attempts[x].state == Completed
      && p.plan in j.plans && j.attempts[x].operationIndex + 1 == |j.plans[p.plan].operations|
  }

  lemma DoneGuard(j: Journal, p: Pair)
    requires Contiguous(j) && Bound(j) && Started(j, p)
    ensures PlanDone(j, p) <==> Finished(j, p)
  {
    hide Contiguous, Bound;
    LastRow(j, p);
    StartedRow(j, p);
    if PlanDone(j, p) {
      var x :| x in j.attempts && Pair(j.attempts[x].grant, j.attempts[x].plan) == p && j.attempts[x].state == Completed
               && p.plan in j.plans && j.attempts[x].operationIndex + 1 == |j.plans[p.plan].operations|;
      FinalIsLast(j, x, p);
    }
    if Finished(j, p) {
      assert Pair(LastOf(j, p).grant, LastOf(j, p).plan) == p;
      assert PlanDone(j, p) by { assert LastOf(j, p).id in j.attempts; }
    }
  }

  lemma FinalIsLast(j: Journal, x: AttemptId, p: Pair)
    requires Contiguous(j) && Bound(j) && Started(j, p) && x in j.attempts && j.attempts[x].Owner() == p && p.plan in j.plans
    requires j.attempts[x].operationIndex + 1 == |j.plans[p.plan].operations|
    ensures LastOf(j, p) == j.attempts[x]
  {
    var listing := Listing(j, p);
    assert j.attempts[x].operationIndex < |listing| && listing[j.attempts[x].operationIndex] == x;
    var last := listing[|listing| - 1];
    assert last in j.attempts && j.attempts[last].Owner() == p && j.attempts[last].operationIndex == |listing| - 1;
    assert BoundTo(j, j.attempts[last]);
    hide Contiguous, Bound, TotalCost;
  }

  lemma SourceIsLive(j: Journal, id: AttemptId, resources: set<PhysicalResource>)
    requires Inv(j) && MayHandOver(j, id, resources)
    ensures var p := Pair(j.attempts[id].grant, j.attempts[id].plan);
            && Started(j, p) && ResourcesOf(j, p) == resources && (Live(j, p) <==> !PlanDone(j, p))
  {
    var p := Pair(j.attempts[id].grant, j.attempts[id].plan);
    assert j.attempts[id].Owner() == p;
    assert SourceAttempt(j, id, p, resources) by {
      RestGuard(j, id);
      DestinationGuard(j, p);
      hide Inv, AtRest, IsDestination, Destinations, HasDispatched, HasActiveReconciliation;
    }
    hide Inv, Contiguous, Bound, InOrder, Leased, Halts, Retires, HandsOver, MayHandOver, SourceAttempt, PlanDone, Finished, ResourcesOf;
    InvLive(j);
    InvChains(j);
    SourceHasFits(j, p, resources);
    DoneGuard(j, p);
    FittingIsLive(j, p, resources);
  }

  lemma FittingIsLive(j: Journal, p: Pair, resources: set<PhysicalResource>)
    requires SourceFits(j, p, resources)
    ensures Live(j, p) <==> !Finished(j, p)
  {
    hide Finished, ResourcesOf, HasActiveReconciliation;
  }

  lemma LiveOwners(j: Journal, ids: seq<AttemptId>, resources: set<PhysicalResource>)
    requires Inv(j) && (forall id | id in ids :: MayHandOver(j, id, resources))
    ensures forall q | q in OwnersOf(j, ids) :: ResourcesOf(j, q) == resources && (Live(j, q) <==> !PlanDone(j, q))
  {
    hide Inv, MayHandOver, PlanDone, Live, ResourcesOf, Started;
    forall q | q in OwnersOf(j, ids)
      ensures ResourcesOf(j, q) == resources && (Live(j, q) <==> !PlanDone(j, q))
    {
      var id :| id in ids && id in j.attempts && Pair(j.attempts[id].grant, j.attempts[id].plan) == q;
      SourceIsLive(j, id, resources);
    }
  }

  /** Sources that may hand over hold the resources, all of them, exactly when one of their pairs has not finished its plan. */
  lemma SourcesHold(j: Journal, ids: seq<AttemptId>, resources: set<PhysicalResource>)
    requires Inv(j) && resources != {} && (forall id | id in ids :: MayHandOver(j, id, resources))
    ensures HeldBy(j.leases, OwnersOf(j, ids), resources) <==> exists q | q in OwnersOf(j, ids) :: !PlanDone(j, q)
  {
    LiveOwners(j, ids, resources);
    assert Leased(j) by { InvLive(j); hide Inv; }
    hide Inv, MayHandOver, PlanDone, OwnersOf;
    var owners := OwnersOf(j, ids);
    if HeldBy(j.leases, owners, resources) { HoldersAreLive(j, owners, resources); }
    if q :| q in owners && !PlanDone(j, q) {
      hide HeldBy;
      LiveHolds(j, q);
      OwnedIsHeld(j.leases, q, owners, resources);
    }
  }

  lemma OwnedIsHeld(leases: map<PhysicalResource, Pair>, q: Pair, owners: set<Pair>, resources: set<PhysicalResource>)
    requires q in owners && OwnsAll(leases, q, resources)
    ensures HeldBy(leases, owners, resources)
  {
  }

  lemma HoldersAreLive(j: Journal, owners: set<Pair>, resources: set<PhysicalResource>)
    requires Leased(j) && resources != {} && HeldBy(j.leases, owners, resources)
    ensures exists q | q in owners :: Live(j, q)
  {
    hide Live, ResourcesOf;
    var r :| r in resources;
    assert j.leases[r] in owners && Live(j, j.leases[r]);
  }

  // ----- Takeovers -----

  /** The destination pair is open and has no recorded step; its request, attempt and run are new. */
  predicate FreshDestination(j: Journal, a: AttemptRecord, run: PlanRun, recovery: RecoveryTakeover) {
    && (forall t | t in j.takeovers :: t.request != recovery.request)
    && a.request !in j.byRequest && a.id !in j.attempts && run.id !in j.runs
    && Recorded(j, Pair(a.grant, a.plan)) == []
    && Pair(a.grant, a.plan) !in j.haltedPairs && Pair(a.grant, a.plan) !in j.retirements
  }

  lemma {:induction false} NotFound(takeovers: seq<RecoveryTakeover>, request: RequestId)
    ensures FindTakeover(takeovers, request) == None <==> forall t | t in takeovers :: t.request != request
  {
    if takeovers != [] {
      NotFound(takeovers[1..], request);
      assert forall t :: t in takeovers <==> t == takeovers[0] || t in takeovers[1..];
    }
  }

  lemma FreshGuard(j: Journal, a: AttemptRecord, run: PlanRun, recovery: RecoveryTakeover)
    requires Requested(j)
    ensures FreshDestination(j, a, run, recovery) <==>
            && !RepeatedTakeOver(j, a, recovery) && a.id !in j.attempts && run.id !in j.runs && Listing(j, a.Owner()) == []
            && a.Owner() !in j.haltedPairs && a.Owner() !in j.retirements
  {
    hide FindTakeover, AttemptForRequest;
    NotFound(j.takeovers, recovery.request);
    RequestGuard(j, a.request);
  }

  lemma ProposalHasResources(a: AttemptRecord, snapshot: AdmissionSnapshot)
    requires Proposal(a, snapshot)
    ensures a.leasedResources != {}
  {
    assert Target(snapshot.profile.targetFingerprint) in a.leasedResources;
    hide TotalCost;
  }

  /** For a new request, a takeover succeeds exactly when the destination is fresh, it is admitted, its cost is left,
      every named attempt may hand over, and not all of their pairs have finished their plans. */
  lemma TakesOverExactly(j: Journal, a: AttemptRecord, snapshot: AdmissionSnapshot, run: PlanRun, recovery: RecoveryTakeover, now: int)
    requires Reachable(j) && Proposal(a, snapshot)
    requires a.request !in j.byRequest && (forall t | t in j.takeovers :: t.request != recovery.request)
    ensures TakeOver(j, a, snapshot, run, recovery, now).Ok? <==>
            && FreshDestination(j, a, run, recovery) && Admitted(j, a, snapshot, now)
            && Affordable(a.reserved, j.grants[a.grant].remaining)
            && (forall id | id in recovery.unresolved :: MayHandOver(j, id, a.leasedResources))
            && (exists q | q in OwnersOf(j, recovery.unresolved) :: !PlanDone(j, q))
  {
    hide Reachable, Inv, Keyed, Contiguous, Requested, Bound, Proposal, Admitted, AdmissionContext, CheckSources, HeldBy, MayHandOver, PlanDone, OwnersOf;
    hide FreshDestination, FindTakeover, AttemptForRequest, InsertAttempt, LeaseTo, Retire, Listing;
    ReachableInv(j);
    InvAdmission(j);
    FreshGuard(j, a, run, recovery);
    NotFound(j.takeovers, recovery.request);
    RequestGuard(j, a.request);
    AdmissionGuard(j, a, snapshot, now);
    AdmittedGrant(j, a, snapshot, now);
    SourcesGuard(j, recovery.unresolved, a);
    ProposalHasResources(a, snapshot);
    if forall id | id in recovery.unresolved :: MayHandOver(j, id, a.leasedResources) {
      SourcesHold(j, recovery.unresolved, a.leasedResources);
    }
  }

  /** The destination holds the resources and has its first step and its run; every source pair is retired under the new
      takeover; the grant has paid; nothing else changes. */
  lemma TakeoverChanges(j: Journal, a: AttemptRecord, snapshot: AdmissionSnapshot, run: PlanRun, recovery: RecoveryTakeover, now: int)
    requires Reachable(j) && Proposal(a, snapshot)
    requires a.request !in j.byRequest && (forall t | t in j.takeovers :: t.request != recovery.request)
    requires TakeOver(j, a, snapshot, run, recovery, now).Ok?
    ensures var p := Pair(a.grant, a.plan); var tx := TakeOver(j, a, snapshot, run, recovery, now).value;
            && tx.value == Reserved(a)
            && tx.journal == j.(attempts := j.attempts[a.id := a], byRequest := j.byRequest[a.request := a.id], steps := j.steps[p := [a.id]],
                                runs := j.runs[run.id := run], takeovers := j.takeovers + [recovery],
                                leases := tx.journal.leases, grants := tx.journal.grants, retirements := tx.journal.retirements)
            && Taken(j.leases, tx.journal.leases, p, a.leasedResources) && tx.journal.leases.Keys == j.leases.Keys
            && Spent(j.grants, tx.journal.grants, a.grant, a.reserved)
            && RetiredUnder(j.retirements, tx.journal.retirements, OwnersOf(j, recovery.unresolved), |j.takeovers|)
  {
    hide Reachable, Inv, Keyed, Contiguous, Requested, Bound, Proposal, AdmissionContext, CheckSources, MayHandOver, OwnersOf;
    hide FindTakeover, AttemptForRequest, LeaseTo, Taken, TakeOver, Retire, RetiredUnder, Spent;
    ReachableInv(j);
    InvAdmission(j);
    NotFound(j.takeovers, recovery.request);
    RequestGuard(j, a.request);
    TakeOverShape(j, a, snapshot, run, recovery, now);
    SourcesGuard(j, recovery.unresolved, a);
    LeaseToTakes(j.leases, a.Owner(), a.leasedResources);
    HeldKeys(j.leases, OwnersOf(j, recovery.unresolved), a.Owner(), a.leasedResources);
    RetireRetires(j.retirements, OwnersOf(j, recovery.unresolved), |j.takeovers|);
    GrantPays(j, a.grant, a.reserved);
    HandedTables(j, a, run, recovery, OwnersOf(j, recovery.unresolved), j.grants[a.grant].remaining.CheckedSub(a.reserved).value);
  }

  /** The pairs retire, all under one takeover; the others keep their standing. */
  predicate RetiredUnder(before: map<Pair, nat>, after: map<Pair, nat>, owners: set<Pair>, row: nat) {
    && after.Keys == before.Keys + owners
    && forall q | q in after :: after[q] == if q in owners then row else before[q]
  }

  lemma RetireRetires(retirements: map<Pair, nat>, owners: set<Pair>, row: nat)
    ensures RetiredUnder(retirements, Retire(retirements, owners, row), owners, row)
  {
  }

  lemma HeldKeys(leases: map<PhysicalResource, Pair>, owners: set<Pair>, p: Pair, resources: set<PhysicalResource>)
    requires HeldBy(leases, owners, resources)
    ensures LeaseTo(leases, p, resources).Keys == leases.Keys
  {
  }

  lemma GrantPays(j: Journal, id: GrantId, cost: Budget)
    requires id in j.grants && cost.FitsWithin(j.grants[id].remaining)
    ensures Spent(j.grants, j.grants[id := j.grants[id].(remaining := j.grants[id].remaining.CheckedSub(cost).value)], id, cost)
  {
  }

  lemma HandedTables(j: Journal, a: AttemptRecord, run: PlanRun, recovery: RecoveryTakeover, owners: set<Pair>, remaining: Budget)
    requires a.grant in j.grants && Listing(j, a.Owner()) == []
    ensures HandedJournal(j, a, run, recovery, owners, remaining)
            == j.(attempts := j.attempts[a.id := a], byRequest := j.byRequest[a.request := a.id], steps := j.steps[Pair(a.grant, a.plan) := [a.id]],
                  runs := j.runs[run.id := run], takeovers := j.takeovers + [recovery],
                  leases := LeaseTo(j.leases, a.Owner(), a.leasedResources),
                  grants := j.grants[a.grant := j.grants[a.grant].(remaining := remaining)],
                  retirements := Retire(j.retirements, owners, |j.takeovers|))
  {
    hide LeaseTo, Retire;
    assert [] + [a.id] == [a.id];
  }

  /** A repeated takeover request returns its first attempt if it is the same in every respect; it changes nothing. */
  lemma TakeoverRepeats(j: Journal, t: RecoveryTakeover, a: AttemptRecord, snapshot: AdmissionSnapshot, run: PlanRun, recovery: RecoveryTakeover, now: int)
    requires Reachable(j) && t in j.takeovers && t.request == recovery.request
    ensures t.firstAttempt in j.attempts
    ensures TakeOver(j, a, snapshot, run, recovery, now)
            == if t == recovery then Ok(Committed(j, Existing(j.attempts[t.firstAttempt]))) else Err(Conflict)
  {
    hide Reachable, Inv, AdmissionContext, CheckSources, HeldBy, AttemptForRequest, FindTakeover, InsertAttempt, LeaseTo, Retire;
    ReachableInv(j);
    OneTakeover(j, t, recovery.request);
  }

  /** A takeover that repeats the request of a reservation returns its attempt if it is the same attempt; it changes nothing. */
  lemma TakeoverFindsReservation(j: Journal, a: AttemptRecord, snapshot: AdmissionSnapshot, run: PlanRun, recovery: RecoveryTakeover, now: int)
    requires Reachable(j) && (forall t | t in j.takeovers :: t.request != recovery.request) && a.request in j.byRequest
    ensures j.byRequest[a.request] in j.attempts
    ensures var b := j.attempts[j.byRequest[a.request]];
            TakeOver(j, a, snapshot, run, recovery, now)
            == if b.id == a.id && b.grant == a.grant && b.plan == a.plan then Ok(Committed(j, Existing(b))) else Err(Conflict)
  {
    hide Reachable, Inv, Keyed, Contiguous, Requested, Bound, AdmissionContext, CheckSources, HeldBy, AttemptForRequest, FindTakeover, InsertAttempt, LeaseTo, Retire;
    ReachableInv(j);
    InvAdmission(j);
    NotFound(j.takeovers, recovery.request);
    RequestGuard(j, a.request);
  }

  /** A request names at most one takeover. */
  lemma OneTakeover(j: Journal, t: RecoveryTakeover, request: RequestId)
    requires Inv(j) && t in j.takeovers && t.request == request
    ensures FindTakeover(j.takeovers, request) == Some(t) && t.firstAttempt in j.attempts
  {
    hide Inv, HandsOver, Requested, FindTakeover;
    InvChains(j);
    InvAdmission(j);
    NotFound(j.takeovers, request);
    var found := FindTakeover(j.takeovers, request).value;
    FoundIsStored(j.takeovers, request);
    SameTakeover(j, t, found);
  }

  lemma {:induction false} FoundIsStored(takeovers: seq<RecoveryTakeover>, request: RequestId)
    requires FindTakeover(takeovers, request).Some?
    ensures FindTakeover(takeovers, request).value in takeovers && FindTakeover(takeovers, request).value.request == request
  {
    if takeovers[0].request != request { FoundIsStored(takeovers[1..], request); }
  }

  lemma SameTakeover(j: Journal, t: RecoveryTakeover, u: RecoveryTakeover)
    requires HandsOver(j) && Requested(j) && t in j.takeovers && u in j.takeovers && t.request == u.request
    ensures t == u && t.firstAttempt in j.attempts
  {
    assert TakeoverFits(j, t) && TakeoverFits(j, u);
    assert t.firstAttempt == u.firstAttempt;
    assert t.Destination() == u.Destination();
    hide Requested, Started;
    var k :| 0 <= k < |j.takeovers| && j.takeovers[k] == t;
    var l :| 0 <= l < |j.takeovers| && j.takeovers[l] == u;
    assert k == l;
  }

  // ----- What can always be recovered -----

  /** All other attempts of an uncertain attempt's pair are completed. */
  lemma OthersCompleted(j: Journal, id: AttemptId)
    requires Contiguous(j) && InOrder(j) && id in j.attempts && j.attempts[id].state != Completed
    ensures forall x | x in j.attempts && Pair(j.attempts[x].grant, j.attempts[x].plan) == Pair(j.attempts[id].grant, j.attempts[id].plan)
                       && j.attempts[x].state != Completed :: x == id
  {
    hide Contiguous, InOrder, LastOfPair;
    LastIfOpen(j, id);
    forall x | x in j.attempts && Pair(j.attempts[x].grant, j.attempts[x].plan) == Pair(j.attempts[id].grant, j.attempts[id].plan)
               && j.attempts[x].state != Completed
      ensures x == id
    {
      LastIfOpen(j, x);
      OnlyLast(j, x, id);
    }
  }

  lemma UncertainUndone(j: Journal, id: AttemptId)
    requires Inv(j) && id in j.attempts && j.attempts[id].state in {Partial, Unknown}
    ensures !PlanDone(j, Pair(j.attempts[id].grant, j.attempts[id].plan))
  {
    hide Inv, Contiguous, Bound, InOrder, Leased, LastOfPair, PlanDone, Finished, Started, LastOf;
    InvLive(j);
    LastIfOpen(j, id);
    LastIsListed(j, id);
    assert j.attempts[id].Owner() == Pair(j.attempts[id].grant, j.attempts[id].plan);
    UncertainUnfinished(j, j.attempts[id].Owner());
    DoneGuard(j, j.attempts[id].Owner());
  }

  /** Only its last attempt keeps a pair from resting: of an uncertain attempt it is enough that it has no open witness. */
  lemma UncertainRests(j: Journal, id: AttemptId)
    requires Inv(j) && id in j.attempts && j.attempts[id].state in {Partial, Unknown}
    requires forall q | q in j.reconciliations && j.reconciliations[q].attempt == id :: j.reconciliations[q].state != RecClaimed
    ensures AtRest(j, Pair(j.attempts[id].grant, j.attempts[id].plan))
  {
    hide Inv, Contiguous, Bound, InOrder, Leased;
    InvLive(j);
    InvOpen(j);
    OthersCompleted(j, id);
  }

  lemma OnlyLast(j: Journal, x: AttemptId, y: AttemptId)
    requires x in j.attempts && y in j.attempts && LastOfPair(j, x) && LastOfPair(j, y) && j.attempts[x].Owner() == j.attempts[y].Owner()
    ensures x == y
  {
  }

  lemma InvOpen(j: Journal)
    requires Inv(j)
    ensures forall q | q in j.reconciliations && j.reconciliations[q].state == RecClaimed ::
              j.reconciliations[q].attempt in j.attempts && j.attempts[j.reconciliations[q].attempt].state == Unknown
  {
    hide Keyed, Contiguous, Requested, Bound, InOrder, Receipted, Leased, Halts, Retires, HandsOver, Quiet, Historical;
    assert forall q | q in j.reconciliations :: WitnessFits(j, q);
  }

  lemma OneOwner(j: Journal, id: AttemptId)
    requires id in j.attempts
    ensures OwnersOf(j, [id]) == {Pair(j.attempts[id].grant, j.attempts[id].plan)}
  {
  }

  /** An uncertain attempt of an unretired pair with no open witness can always be recovered: a takeover that names it, to
      an admitted, affordable, fresh destination over the same resources, succeeds, retires exactly its pair, and moves
      exactly its leases. */
  lemma UncertainIsRecoverable(j: Journal, id: AttemptId, a: AttemptRecord, snapshot: AdmissionSnapshot, run: PlanRun,
                               recovery: RecoveryTakeover, now: int)
    requires Reachable(j) && Proposal(a, snapshot) && recovery.unresolved == [id]
    requires id in j.attempts && j.attempts[id].state in {Partial, Unknown} && Pair(j.attempts[id].grant, j.attempts[id].plan) !in j.retirements
    requires forall q | q in j.reconciliations && j.reconciliations[q].attempt == id :: j.reconciliations[q].state != RecClaimed
    requires FreshDestination(j, a, run, recovery) && Admitted(j, a, snapshot, now)
    requires Affordable(a.reserved, j.grants[a.grant].remaining) && a.leasedResources == j.attempts[id].leasedResources
    ensures TakeOver(j, a, snapshot, run, recovery, now).Ok?
    ensures HandedOver(j, TakeOver(j, a, snapshot, run, recovery, now).value.journal, Pair(j.attempts[id].grant, j.attempts[id].plan), a)
  {
    hide Reachable, Inv, Proposal, Admitted, PlanDone, AtRest, IsDestination, TakeOver, HandedOver, OwnersOf, FreshDestination;
    ReachableInv(j);
    UncertainRests(j, id);
    UncertainUndone(j, id);
    Recovers(j, id, a, snapshot, run, recovery, now);
  }

  /** Inherited leases can be recovered too: from any attempt of an unretired recovery destination that is at rest and has
      not finished its plan, whether that attempt is an intent, rejected or completed. */
  lemma CarrierIsRecoverable(j: Journal, id: AttemptId, a: AttemptRecord, snapshot: AdmissionSnapshot, run: PlanRun,
                             recovery: RecoveryTakeover, now: int)
    requires Reachable(j) && Proposal(a, snapshot) && recovery.unresolved == [id]
    requires id in j.attempts && j.attempts[id].state in {Intent, Rejected, Completed}
    requires var p := Pair(j.attempts[id].grant, j.attempts[id].plan); IsDestination(j, p) && p !in j.retirements && AtRest(j, p) && !PlanDone(j, p)
    requires FreshDestination(j, a, run, recovery) && Admitted(j, a, snapshot, now)
    requires Affordable(a.reserved, j.grants[a.grant].remaining) && a.leasedResources == j.attempts[id].leasedResources
    ensures TakeOver(j, a, snapshot, run, recovery, now).Ok?
    ensures HandedOver(j, TakeOver(j, a, snapshot, run, recovery, now).value.journal, Pair(j.attempts[id].grant, j.attempts[id].plan), a)
  {
    hide Reachable, Inv, Proposal, Admitted, PlanDone, AtRest, IsDestination, TakeOver, HandedOver, OwnersOf, FreshDestination;
    Recovers(j, id, a, snapshot, run, recovery, now);
  }

  /** Exactly pair `q` was retired, and every lease it held belongs to the destination of `a`. */
  predicate HandedOver(j: Journal, k: Journal, q: Pair, a: AttemptRecord) {
    && k.retirements == j.retirements[q := |j.takeovers|]
    && k.leases.Keys == j.leases.Keys
    && forall r | r in j.leases :: k.leases[r] == if j.leases[r] == q then Pair(a.grant, a.plan) else j.leases[r]
  }

  lemma Recovers(j: Journal, id: AttemptId, a: AttemptRecord, snapshot: AdmissionSnapshot, run: PlanRun, recovery: RecoveryTakeover, now: int)
    requires Reachable(j) && Proposal(a, snapshot) && recovery.unresolved == [id] && MayHandOver(j, id, a.leasedResources)
    requires !PlanDone(j, Pair(j.attempts[id].grant, j.attempts[id].plan))
    requires FreshDestination(j, a, run, recovery) && Admitted(j, a, snapshot, now) && Affordable(a.reserved, j.grants[a.grant].remaining)
    ensures TakeOver(j, a, snapshot, run, recovery, now).Ok?
    ensures HandedOver(j, TakeOver(j, a, snapshot, run, recovery, now).value.journal, Pair(j.attempts[id].grant, j.attempts[id].plan), a)
  {
    var q := Pair(j.attempts[id].grant, j.attempts[id].plan);
    hide Reachable, Inv, Proposal, Admitted, PlanDone, MayHandOver, TakeOver, OwnersOf, HandedOver, Taken, Spent, RetiredUnder, Live, Started;
    OneOwner(j, id);
    assert q in OwnersOf(j, recovery.unresolved);
    TakesOverExactly(j, a, snapshot, run, recovery, now);
    TakeoverChanges(j, a, snapshot, run, recovery, now);
    ReachableInv(j);
    SourceIsLive(j, id, a.leasedResources);
    InvLive(j);
    HandedFrom(j, TakeOver(j, a, snapshot, run, recovery, now).value.journal, q, a);
  }

  lemma HandedFrom(j: Journal, k: Journal, q: Pair, a: AttemptRecord)
    requires Leased(j) && Live(j, q) && ResourcesOf(j, q) == a.leasedResources
    requires Taken(j.leases, k.leases, Pair(a.grant, a.plan), a.leasedResources) && k.leases.Keys == j.leases.Keys
    requires RetiredUnder(j.retirements, k.retirements, {q}, |j.takeovers|)
    ensures HandedOver(j, k, q, a)
  {
    hide Live, ResourcesOf;
    forall r | r in j.leases
      ensures r in a.leasedResources <==> j.leases[r] == q
    {
      HoldsIffLive(j, q, r);
    }
  }
}
