/** Exactly when the transactions on attempts succeed in a reachable journal, and exactly what they then change: the
    guards that the invariant makes redundant are gone, and so is every name the transactions are written with. */
module Enabling {
  import opened Wrappers
  import opened Domain
  import opened Journal
  import opened Actions
  import opened Invariant
  import opened Preservation
  import opened Reconciling
  import opened Admitting
  import opened Histories

  // ----- What the guards come to -----

  /** The grant is stored, belongs to the agent, and is neither revoked nor expired. */
  predicate Usable(j: Journal, id: GrantId, agent: PrincipalId, now: int) {
    && id in j.grants && j.grants[id].agent == agent && !j.grants[id].revoked
    && j.grants[id].expiresAt.Some? && now < j.grants[id].expiresAt.value
  }

  lemma GrantGuard(j: Journal, id: GrantId, agent: PrincipalId, profile: ProfileId, now: int)
    ensures ActiveGrant(j, id, agent, profile, now).Ok? <==> Usable(j, id, agent, now) && j.grants[id].profile == profile
    ensures ActiveGrant(j, id, agent, profile, now).Ok? ==> ActiveGrant(j, id, agent, profile, now).value == j.grants[id]
  {
  }

  /** In an invariant journal every attempt is bound to the records it was admitted with. */
  lemma ContextGuard(j: Journal, id: AttemptId)
    requires Bound(j) && id in j.attempts
    ensures var a := j.attempts[id];
            && a.grant in j.grants && a.plan in j.plans && a.profile in j.profiles && j.grants[a.grant].profile == a.profile
            && a.operationIndex < |j.plans[a.plan].operations| && a.leasedResources == j.profiles[a.profile].PhysicalResources()
            && BoundContext(j, a) == Ok((j.profiles[a.profile], j.plans[a.plan]))
  {
    assert BoundTo(j, j.attempts[id]);
    hide TotalCost;
  }

  /** A pair whose last attempt is still an intent holds all its leases unless it is closed. */
  lemma IntentHolds(j: Journal, id: AttemptId)
    requires Inv(j) && id in j.attempts && j.attempts[id].state == Intent
    ensures var p := j.attempts[id].Owner(); OwnsAll(j.leases, p, j.attempts[id].leasedResources) <==> !ClosedPair(j, p)
  {
    hide Inv, Contiguous, Bound, InOrder, Leased, ResourcesOf, OwnsAll, Destinations, Live;
    InvLive(j);
    LastIfOpen(j, id);
    LastIsListed(j, id);
    ResourcesBound(j, id);
    var p := j.attempts[id].Owner();
    if OwnsAll(j.leases, p, j.attempts[id].leasedResources) {
      HoldsSomething(j, id);
      LiveStanding(j, p);
    }
    if !ClosedPair(j, p) {
      IntentIsLive(j, p);
      LiveHolds(j, p);
    }
  }

  lemma IntentIsLive(j: Journal, p: Pair)
    requires Started(j, p) && LastOf(j, p).state == Intent && !ClosedPair(j, p)
    ensures Live(j, p)
  {
  }

  /** An uncertain attempt's pair holds all its leases unless it is retired. */
  lemma UncertainHolds(j: Journal, id: AttemptId)
    requires Inv(j) && id in j.attempts && j.attempts[id].state in {Partial, Unknown}
    ensures var p := j.attempts[id].Owner(); OwnsAll(j.leases, p, j.attempts[id].leasedResources) <==> p !in j.retirements
  {
    hide Inv, Contiguous, Bound, InOrder, Leased, Halts, Retires, HandsOver, ResourcesOf, OwnsAll, Destinations, Live, Started, LastOf, Finished;
    InvLive(j);
    InvChains(j);
    LastIfOpen(j, id);
    LastIsListed(j, id);
    ResourcesBound(j, id);
    var p := j.attempts[id].Owner();
    if OwnsAll(j.leases, p, j.attempts[id].leasedResources) {
      HoldsSomething(j, id);
      LiveStanding(j, p);
    }
    if p !in j.retirements {
      UncertainUnfinished(j, p);
      EndHolds(j, p);
    }
  }

  // ----- Dispatch -----

  /** A dispatch is claimed exactly when the attempt is an intent of an open pair under a usable grant; the attempt is
      then dispatched and nothing else changes. */
  lemma ClaimsExactly(j: Journal, id: AttemptId, agent: PrincipalId, now: int)
    requires Reachable(j)
    ensures ClaimDispatch(j, id, agent, now).Ok? <==>
            && id in j.attempts && j.attempts[id].state == Intent
            && j.attempts[id].Owner() !in j.haltedPairs && j.attempts[id].Owner() !in j.retirements
            && Usable(j, j.attempts[id].grant, agent, now)
    ensures ClaimDispatch(j, id, agent, now).Ok? ==>
              var claimed := j.attempts[id].(state := Dispatched);
              ClaimDispatch(j, id, agent, now).value == Committed(j.(attempts := j.attempts[id := claimed]), claimed)
  {
    hide Reachable, Inv, ActiveGrant, BoundContext, OwnsAll, Usable, Bound, Contiguous, InOrder, Leased;
    ReachableInv(j);
    InvLive(j);
    if id in j.attempts {
      ContextGuard(j, id);
      GrantGuard(j, j.attempts[id].grant, agent, j.attempts[id].profile, now);
      if j.attempts[id].state == Intent { IntentHolds(j, id); }
    }
  }

  // ----- Receipts -----

  /** The state a receipt stands for. */
  predicate StandsFor(s: AttemptState, receipt: OperationReceipt) {
    && (receipt.CompletedReceipt? ==> s == Completed) && (receipt.PartialReceipt? ==> s == Partial)
    && (receipt.UnknownReceipt? ==> s == Unknown) && (receipt.RejectedReceipt? ==> s == Rejected)
  }

  /** Pair `p` holds nothing any more; every other lease is as it was. */
  predicate Released(before: map<PhysicalResource, Pair>, after: map<PhysicalResource, Pair>, p: Pair) {
    && (forall r | r in after :: r in before && after[r] == before[r] && before[r] != p)
    && (forall r | r in before && before[r] != p :: r in after)
  }

  predicate IsDestination(j: Journal, p: Pair) {
    exists t | t in j.takeovers :: Pair(t.grant, t.plan) == p
  }

  /** Attempt `id` becomes `row`; the only other table that may change is that of leases. */
  predicate OnlyAttempt(j: Journal, k: Journal, id: AttemptId, row: AttemptRecord) {
    k == j.(attempts := j.attempts[id := row], leases := k.leases)
  }

  lemma DestinationGuard(j: Journal, p: Pair)
    ensures IsDestination(j, p) <==> p in Destinations(j.takeovers)
  {
    if IsDestination(j, p) {
      var t :| t in j.takeovers && Pair(t.grant, t.plan) == p;
      assert t.Destination() == p;
    }
    if p in Destinations(j.takeovers) {
      var t :| t in j.takeovers && t.Destination() == p;
      assert Pair(t.grant, t.plan) == p;
    }
  }

  /** Releasing an attempt's resources releases everything its pair holds. */
  lemma ReleaseIsComplete(j: Journal, id: AttemptId)
    requires Leased(j) && Bound(j) && id in j.attempts
    ensures Released(j.leases, ReleaseFrom(j.leases, j.attempts[id].Owner(), j.attempts[id].leasedResources), j.attempts[id].Owner())
  {
    ResourcesBound(j, id);
    hide ResourcesOf, Live, Bound;
  }

  /** A receipt is recorded exactly for a dispatched attempt. A completion of the plan's last step, and a rejection
      outside a recovery destination, release every lease of the pair; nothing else changes a lease. */
  lemma RecordsExactly(j: Journal, id: AttemptId, receipt: OperationReceipt)
    requires Reachable(j)
    ensures RecordBySupervisor(j, id, receipt).Ok? <==> id in j.attempts && j.attempts[id].state == Dispatched
    ensures RecordBySupervisor(j, id, receipt).Ok? ==>
              var a := j.attempts[id]; var tx := RecordBySupervisor(j, id, receipt).value;
              && tx.value == a.(state := tx.value.state, receipt := Some(receipt)) && StandsFor(tx.value.state, receipt)
              && OnlyAttempt(j, tx.journal, id, tx.value)
              && a.plan in j.plans
              && if (receipt.CompletedReceipt? && a.operationIndex + 1 == |j.plans[a.plan].operations|)
                    || (receipt.RejectedReceipt? && !IsDestination(j, Pair(a.grant, a.plan)))
                 then Released(j.leases, tx.journal.leases, Pair(a.grant, a.plan))
                 else tx.journal.leases == j.leases
  {
    hide Reachable, Inv, Bound, Contiguous, InOrder, Leased, ReleaseFrom, Destinations, IsDestination, Released;
    ReachableInv(j);
    InvLive(j);
    if id in j.attempts {
      ContextGuard(j, id);
      ReleaseIsComplete(j, id);
      DestinationGuard(j, j.attempts[id].Owner());
    }
  }

  /** An intent, and only an intent, can be rejected; what it did not inherit is released. */
  lemma RejectsExactly(j: Journal, id: AttemptId, reason: string)
    requires Reachable(j)
    ensures RejectIntent(j, id, reason).Ok? <==> id in j.attempts && j.attempts[id].state == Intent
    ensures RejectIntent(j, id, reason).Ok? ==>
              var a := j.attempts[id]; var tx := RejectIntent(j, id, reason).value;
              && tx.value == a.(state := Rejected, receipt := Some(RejectedReceipt(reason)))
              && OnlyAttempt(j, tx.journal, id, tx.value)
              && if IsDestination(j, Pair(a.grant, a.plan)) then tx.journal.leases == j.leases
                 else Released(j.leases, tx.journal.leases, Pair(a.grant, a.plan))
  {
    hide Reachable, Inv, Bound, Contiguous, InOrder, Leased, ReleaseFrom, Destinations, IsDestination, Released;
    ReachableInv(j);
    InvLive(j);
    if id in j.attempts {
      ReleaseIsComplete(j, id);
      DestinationGuard(j, j.attempts[id].Owner());
    }
  }

  // ----- Reconciliation -----

  /** The plan reviewed an instrument configuration, and reconciling is paid for. */
  predicate Paid(j: Journal, a: AttemptRecord) {
    a.plan in j.plans && j.plans[a.plan].setup.ApplyReviewedInstrumentConfiguration?
  }

  /** The reviewed instrument may be configured under the grant, and what that costs is left. */
  predicate MayConfigure(j: Journal, a: AttemptRecord)
    requires a.grant in j.grants && a.profile in j.profiles && a.plan in j.plans && a.operationIndex < |j.plans[a.plan].operations|
  {
    var grant, profile, planned := j.grants[a.grant], j.profiles[a.profile], j.plans[a.plan].operations[a.operationIndex];
    && !planned.operation.Wait? && planned.operation.instrument in profile.instruments
    && InstrumentConfigure in grant.effects && InstrumentConfigure in profile.instruments[planned.operation.instrument].qualifiedEffects
    && 1 <= grant.remaining.effects && planned.maxMilliseconds <= grant.remaining.milliseconds
  }

  lemma OrdinalIsCount(j: Journal, id: AttemptId)
    requires Witnessed(j)
    ensures NextOrdinal(j, id) == Ok(|HistoryOf(j, id)|)
  {
    hide WitnessFits;
  }

  /** A witness for a new request is opened exactly when the attempt is uncertain, its pair is not retired, no witness
      of it is open, the grant is usable, and a reviewed configuration is allowed and paid for. */
  lemma OpensExactly(j: Journal, id: AttemptId, request: RequestId, principal: PrincipalId, now: int)
    requires Reachable(j) && request !in j.reconciliations
    ensures id in j.attempts ==>
              var a := j.attempts[id];
              a.grant in j.grants && a.profile in j.profiles && a.plan in j.plans && a.operationIndex < |j.plans[a.plan].operations|
    ensures ClaimBySupervisor(j, id, request, principal, now).Ok? <==>
            && id in j.attempts && j.attempts[id].state in {Partial, Unknown} && j.attempts[id].Owner() !in j.retirements
            && (forall q | q in j.reconciliations && j.reconciliations[q].attempt == id :: j.reconciliations[q].state != RecClaimed)
            && Usable(j, j.attempts[id].grant, principal, now)
            && (Paid(j, j.attempts[id]) ==> MayConfigure(j, j.attempts[id]))
  {
    hide Reachable, Inv, ActiveGrant, BoundContext, OwnsAll, Usable, Bound, Contiguous, InOrder, Leased, Witnessed, NextOrdinal, HistoryOf;
    ReachableInv(j);
    InvLive(j);
    assert Witnessed(j) by { InvWitnesses(j); }
    if id in j.attempts {
      ContextGuard(j, id);
      GrantGuard(j, j.attempts[id].grant, principal, j.attempts[id].profile, now);
      OrdinalIsCount(j, id);
      if j.attempts[id].state in {Partial, Unknown} { UncertainHolds(j, id); }
      hide Paid, MayConfigure;
      OpensIff(j, id, request, principal, now);
    }
  }

  lemma InvWitnesses(j: Journal)
    requires Inv(j)
    ensures Witnessed(j) && Keyed(j)
  {
  }

  /** Everything the configuration asks for, in one place. */
  lemma ConfigurationGuard(j: Journal, a: AttemptRecord)
    requires a.grant in j.grants && a.profile in j.profiles && a.plan in j.plans && a.operationIndex < |j.plans[a.plan].operations|
    ensures var charge := ConfigurationCharge(j, a);
            && (charge.Some? <==> Paid(j, a))
            && (charge.Some? ==>
                  && charge.value == Budget(1, 0, j.plans[a.plan].operations[a.operationIndex].maxMilliseconds)
                  && (MayConfigure(j, a) <==>
                        && ConfigurationAuthority(j.grants[a.grant], j.profiles[a.profile], j.plans[a.plan], a.operationIndex).Pass?
                        && j.grants[a.grant].remaining.CheckedSub(charge.value).Some?))
  {
  }

  lemma OpensIff(j: Journal, id: AttemptId, request: RequestId, principal: PrincipalId, now: int)
    requires request !in j.reconciliations && id in j.attempts && NextOrdinal(j, id).Ok?
    requires var a := j.attempts[id];
             && a.grant in j.grants && a.profile in j.profiles && a.plan in j.plans && a.operationIndex < |j.plans[a.plan].operations|
             && BoundContext(j, a) == Ok((j.profiles[a.profile], j.plans[a.plan])) && j.grants[a.grant].profile == a.profile
    ensures var a := j.attempts[id];
            ClaimBySupervisor(j, id, request, principal, now).Ok? <==>
            && a.state in {Partial, Unknown} && OwnsAll(j.leases, a.Owner(), a.leasedResources)
            && (forall q | q in j.reconciliations && j.reconciliations[q].attempt == id :: j.reconciliations[q].state != RecClaimed)
            && Usable(j, a.grant, principal, now) && (Paid(j, a) ==> MayConfigure(j, a))
  {
    hide ActiveGrant, BoundContext, OwnsAll, Usable, NextOrdinal, HistoryOf, ConfigurationAuthority, ConfigurationCharge, Paid, MayConfigure;
    GrantGuard(j, j.attempts[id].grant, principal, j.attempts[id].profile, now);
    ConfigurationGuard(j, j.attempts[id]);
  }

  /** Grant `id` has paid `cost`; nothing else of it, and no other grant, changed. */
  predicate Spent(before: map<GrantId, Grant>, after: map<GrantId, Grant>, id: GrantId, cost: Budget) {
    && id in before && id in after && after == before[id := before[id].(remaining := after[id].remaining)]
    && Plus(after[id].remaining, cost) == before[id].remaining
  }

  /** Opening appends a claimed witness at the next ordinal, makes the attempt unknown, charges a reviewed configuration
      to its grant, and changes nothing else. */
  lemma OpeningChanges(j: Journal, id: AttemptId, request: RequestId, principal: PrincipalId, now: int)
    requires Reachable(j) && request !in j.reconciliations && ClaimBySupervisor(j, id, request, principal, now).Ok?
    ensures id in j.attempts && j.attempts[id].plan in j.plans && j.attempts[id].operationIndex < |j.plans[j.attempts[id].plan].operations|
    ensures var a := j.attempts[id]; var tx := ClaimBySupervisor(j, id, request, principal, now).value;
            var record := ReconciliationRecord(request, id, |HistoryOf(j, id)|, principal, RecClaimed, None);
            && tx.value == ClaimedWitness(record)
            && tx.journal == j.(attempts := j.attempts[id := a.(state := Unknown)],
                                reconciliations := j.reconciliations[request := record],
                                history := j.history[id := HistoryOf(j, id) + [request]],
                                grants := tx.journal.grants)
            && if Paid(j, a) then Spent(j.grants, tx.journal.grants, a.grant, Budget(1, 0, j.plans[a.plan].operations[a.operationIndex].maxMilliseconds))
               else tx.journal.grants == j.grants
  {
    hide Reachable, Inv, ActiveGrant, BoundContext, OwnsAll, Usable, Bound, Contiguous, InOrder, Leased, Witnessed, Keyed, NextOrdinal, HistoryOf;
    hide ClaimBySupervisor, MayConfigure, Paid, Spent;
    ReachableInv(j);
    InvLive(j);
    InvWitnesses(j);
    OpensExactly(j, id, request, principal, now);
    OrdinalIsCount(j, id);
    GrantKey(j, j.attempts[id].grant);
    ContextGuard(j, id);
    OpeningValue(j, id, request, principal, now);
  }

  lemma OpeningValue(j: Journal, id: AttemptId, request: RequestId, principal: PrincipalId, now: int)
    requires request !in j.reconciliations && ClaimBySupervisor(j, id, request, principal, now).Ok?
    requires id in j.attempts && NextOrdinal(j, id) == Ok(|HistoryOf(j, id)|)
    requires var a := j.attempts[id];
             && a.grant in j.grants && j.grants[a.grant].id == a.grant && a.profile in j.profiles && a.plan in j.plans
             && a.operationIndex < |j.plans[a.plan].operations|
    ensures var a := j.attempts[id]; var tx := ClaimBySupervisor(j, id, request, principal, now).value;
            var record := ReconciliationRecord(request, id, |HistoryOf(j, id)|, principal, RecClaimed, None);
            && tx.value == ClaimedWitness(record)
            && tx.journal == j.(attempts := j.attempts[id := a.(state := Unknown)],
                                reconciliations := j.reconciliations[request := record],
                                history := j.history[id := HistoryOf(j, id) + [request]],
                                grants := tx.journal.grants)
            && if Paid(j, a) then Spent(j.grants, tx.journal.grants, a.grant, Budget(1, 0, j.plans[a.plan].operations[a.operationIndex].maxMilliseconds))
               else tx.journal.grants == j.grants
  {
    hide ActiveGrant, BoundContext, OwnsAll, ActivelyReconciled, NextOrdinal, HistoryOf, ConfigurationAuthority, ConfigurationCharge, Paid, MayConfigure;
    GrantGuard(j, j.attempts[id].grant, principal, j.attempts[id].profile, now);
    ConfigurationGuard(j, j.attempts[id]);
  }

  lemma GrantKey(j: Journal, id: GrantId)
    requires Keyed(j) && id in j.grants
    ensures j.grants[id].id == id
  {
  }

  lemma ClaimedAttempt(j: Journal, request: RequestId)
    requires Inv(j) && request in j.reconciliations && j.reconciliations[request].state == RecClaimed
    ensures var id := j.reconciliations[request].attempt;
            && j.reconciliations[request].request == request
            && id in j.attempts && j.attempts[id].state == Unknown && j.attempts[id].plan in j.plans
  {
    hide Keyed, Contiguous, Requested, InOrder, Receipted, Leased, Halts, Retires, HandsOver, Quiet, Historical;
    assert WitnessFits(j, request);
    assert BoundTo(j, j.attempts[j.reconciliations[request].attempt]);
  }

  /** What a finished investigation makes of a witness. */
  function Verdict(outcome: Option<OperationReceipt>): ReconciliationState {
    match outcome
    case None => RecFailed
    case Some(CompletedReceipt(_)) => RecCompleted
    case Some(_) => RecUnknown
  }

  /** A witness is finished exactly while it is claimed. A completion moves its attempt to Completed, and releases
      every lease of the pair after the plan's last step; without one the attempt, and every lease, stays as it is. */
  lemma FinishesExactly(j: Journal, request: RequestId, outcome: Option<OperationReceipt>)
    requires Reachable(j)
    ensures FinishBySupervisor(j, request, outcome).Ok? <==> request in j.reconciliations && j.reconciliations[request].state == RecClaimed
    ensures FinishBySupervisor(j, request, outcome).Ok? ==>
              var record := j.reconciliations[request]; var id := record.attempt; var tx := FinishBySupervisor(j, request, outcome).value;
              && id in j.attempts && j.attempts[id].plan in j.plans
              && var a := j.attempts[id]; var completed := outcome.Some? && outcome.value.CompletedReceipt?;
                 && tx.value == (if completed then a.(state := Completed) else a)
                 && tx.journal == j.(attempts := j.attempts[id := tx.value], leases := tx.journal.leases,
                                     reconciliations := j.reconciliations[request := record.(receipt := outcome, state := Verdict(outcome))])
                 && if completed && a.operationIndex + 1 == |j.plans[a.plan].operations|
                    then Released(j.leases, tx.journal.leases, Pair(a.grant, a.plan))
                    else tx.journal.leases == j.leases
  {
    hide Reachable, Inv, Bound, Contiguous, InOrder, Leased, ReleaseFrom, Released;
    ReachableInv(j);
    InvLive(j);
    if request in j.reconciliations && j.reconciliations[request].state == RecClaimed {
      ClaimedAttempt(j, request);
      ReleaseIsComplete(j, j.reconciliations[request].attempt);
    }
  }

  // ----- Abandonment -----

  /** A new abandonment succeeds exactly for the pair of a stored run that is neither halted nor a recovery destination,
      has recorded attempts that are all settled or never dispatched, and holds exactly the named resources. */
  lemma AbandonsExactly(j: Journal, record: Abandonment)
    requires record.request !in j.abandonments
    ensures Abandon(j, record).Ok? <==>
            var p := Pair(record.grant, record.plan);
            && record.run in j.runs && record.run !in j.haltedRuns && Pair(j.runs[record.run].grant, j.runs[record.run].plan) == p
            && p !in j.haltedPairs && !IsDestination(j, p)
            && (exists id | id in j.attempts :: Pair(j.attempts[id].grant, j.attempts[id].plan) == p)
            && (forall id | id in j.attempts && Pair(j.attempts[id].grant, j.attempts[id].plan) == p ::
                  j.attempts[id].state in {Intent, Completed, Rejected})
            && (forall r :: r in record.resources <==> r in j.leases && j.leases[r] == p)
  {
    hide Destinations, ReleaseFrom, RejectIntentsOf, IsDestination;
    var p := Pair(record.grant, record.plan);
    DestinationGuard(j, p);
    assert forall id | id in j.attempts :: j.attempts[id].Owner() == Pair(j.attempts[id].grant, j.attempts[id].plan);
    assert record.resources == LeaseKeys(j.leases, p) <==> forall r :: r in record.resources <==> r in j.leases && j.leases[r] == p;
    hide LeaseKeys;
  }

  /** It rejects exactly the pair's intents, releases everything the pair holds, and closes pair and run. */
  lemma AbandonmentChanges(j: Journal, record: Abandonment)
    requires record.request !in j.abandonments && Abandon(j, record).Ok?
    ensures var p := Pair(record.grant, record.plan); var tx := Abandon(j, record).value;
            && tx.value == record
            && tx.journal == j.(attempts := tx.journal.attempts, leases := tx.journal.leases,
                                abandonments := j.abandonments[record.request := record],
                                haltedPairs := j.haltedPairs + {p}, haltedRuns := j.haltedRuns + {record.run})
            && Released(j.leases, tx.journal.leases, p)
            && tx.journal.attempts.Keys == j.attempts.Keys
            && forall id | id in j.attempts ::
                 var a := j.attempts[id];
                 if Pair(a.grant, a.plan) == p && a.state == Intent
                 then tx.journal.attempts[id] == a.(state := Rejected, receipt := Some(RejectedReceipt("operator abandoned halted run before dispatch")))
                 else tx.journal.attempts[id] == a
  {
    hide Destinations;
  }

  /** Repeating a reconciliation or an abandonment request finds the same one and changes nothing, or conflicts. */
  lemma ClosingsRepeat(j: Journal, id: AttemptId, request: RequestId, principal: PrincipalId, charge: Option<Budget>, now: int, record: Abandonment)
    ensures request in j.reconciliations ==>
              var existing := j.reconciliations[request];
              ClaimReconciliation(j, id, request, principal, charge, now)
              == if existing.attempt == id && existing.principal == principal then Ok(Committed(j, ExistingWitness(existing))) else Err(Conflict)
    ensures record.request in j.abandonments ==>
              Abandon(j, record) == if j.abandonments[record.request] == record then Ok(Committed(j, record)) else Err(Conflict)
  {
    hide ActiveGrant, BoundContext, ConfigurationAuthority, OwnsAll, ActivelyReconciled, NextOrdinal, RejectIntentsOf, ReleaseFrom, LeaseKeys, Destinations;
  }
}
