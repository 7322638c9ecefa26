/** What saving, revoking and reopening do to the journal, and what follows over whole histories. */
module Enacting {
  import opened Wrappers
  import opened Domain
  import opened Journal
  import opened Actions
  import opened Invariant
  import opened Preservation
  import opened Reconciling
  import opened Admitting
  import opened Histories
  import opened Budgets
  import opened Permissions
  import opened Recovering
  import Entering

  // ----- Immutable records -----

  /** An immutable record is stored when its id is new, found when it is identical, and refused otherwise. */
  predicate Filed<K, V(==)>(before: map<K, V>, after: map<K, V>, key: K, value: V) {
    && (key in before ==> before[key] == value)
    && after == before[key := value]
  }

  lemma SavesExactly(j: Journal, profile: CommissionedProfile, grant: Grant, plan: ReviewedPlan)
    ensures SaveProfile(j, profile).Ok? <==> (profile.id in j.profiles ==> j.profiles[profile.id] == profile)
    ensures SaveGrant(j, grant).Ok? <==> (grant.id in j.grants ==> j.grants[grant.id] == grant)
    ensures SavePlan(j, plan).Ok? <==> (plan.id in j.plans ==> j.plans[plan.id] == plan)
    ensures SaveProfile(j, profile).Ok? ==>
              var k := SaveProfile(j, profile).value.journal; k == j.(profiles := k.profiles) && Filed(j.profiles, k.profiles, profile.id, profile)
    ensures SaveGrant(j, grant).Ok? ==>
              var k := SaveGrant(j, grant).value.journal; k == j.(grants := k.grants) && Filed(j.grants, k.grants, grant.id, grant)
    ensures SavePlan(j, plan).Ok? ==>
              var k := SavePlan(j, plan).value.journal; k == j.(plans := k.plans) && Filed(j.plans, k.plans, plan.id, plan)
  {
    assert profile.id in j.profiles && j.profiles[profile.id] == profile ==> j.profiles[profile.id := profile] == j.profiles;
    assert grant.id in j.grants && j.grants[grant.id] == grant ==> j.grants[grant.id := grant] == j.grants;
    assert plan.id in j.plans && j.plans[plan.id] == plan ==> j.plans[plan.id := plan] == j.plans;
  }

  /** A run is stored when its id is new, and found, at whatever cursor it has reached, when it is the same run. */
  lemma CreatesExactly(j: Journal, run: PlanRun)
    ensures CreateRun(j, run).Ok? <==>
            (run.id in j.runs ==> var stored := j.runs[run.id];
                                  stored.id == run.id && stored.agent == run.agent && stored.grant == run.grant && stored.plan == run.plan && stored.steps == run.steps)
    ensures CreateRun(j, run).Ok? ==>
              CreateRun(j, run).value.journal == if run.id in j.runs then j else j.(runs := j.runs[run.id := run])
  {
  }

  // ----- Revocation -----

  /** Revoking succeeds exactly for a stored grant, which is then revoked; nothing else changes. */
  lemma RevokesExactly(j: Journal, id: GrantId)
    ensures RevokeGrant(j, id).Ok? <==> id in j.grants
    ensures RevokeGrant(j, id).Ok? ==>
              var k := RevokeGrant(j, id).value.journal;
              && k == j.(grants := k.grants) && k.grants.Keys == j.grants.Keys
              && k.grants[id] == j.grants[id].(revoked := true)
              && forall g | g in j.grants && g != id :: k.grants[g] == j.grants[g]
  {
  }

  /** From a revocation on, the grant is revoked for good. */
  lemma RevocationTakesEffect(actions: seq<Action>, n: nat, m: nat, g: GrantId)
    requires AllAdmissible(actions) && n < m <= |actions| && actions[n] == DoRevokeGrant(g) && g in At(actions, n).grants
    ensures g in At(actions, m).grants && At(actions, m).grants[g].revoked
  {
    hide At, RevokeGrant;
    Step(actions, n);
    RevokesExactly(At(actions, n), g);
    RevocationIsPermanent(actions, n + 1, m, g);
  }

  lemma NothingUnderRevoked(j: Journal, action: Action, g: GrantId)
    requires Inv(j) && Admissible(action) && g in j.grants && j.grants[g].revoked
    ensures forall id | id in Apply(j, action).attempts && id !in j.attempts :: Apply(j, action).attempts[id].grant != g
    ensures forall q | q in Apply(j, action).reconciliations && q !in j.reconciliations ::
              Apply(j, action).reconciliations[q].attempt in j.attempts && j.attempts[Apply(j, action).reconciliations[q].attempt].grant != g
  {
    hide Inv, Apply, Keyed, Admissible;
    InvWitnessKeys(j);
    forall id | id in Apply(j, action).attempts && id !in j.attempts
      ensures Apply(j, action).attempts[id].grant != g
    {
      NewIsActive(j, action, id);
    }
    forall q | q in Apply(j, action).reconciliations && q !in j.reconciliations
      ensures Apply(j, action).reconciliations[q].attempt in j.attempts && j.attempts[Apply(j, action).reconciliations[q].attempt].grant != g
    {
      NewWitnessIsActive(j, action, q);
    }
  }

  lemma InvWitnessKeys(j: Journal)
    requires Inv(j)
    ensures Keyed(j)
  {
  }

  lemma AdmissionIsActive(j: Journal, a: AttemptRecord, snapshot: AdmissionSnapshot, now: int)
    requires AdmissionContext(j, a, snapshot, now).Ok?
    ensures a.grant in j.grants && !j.grants[a.grant].revoked
  {
  }

  lemma NewIsActive(j: Journal, action: Action, id: AttemptId)
    requires Keyed(j) && id in Apply(j, action).attempts && id !in j.attempts
    ensures Apply(j, action).attempts[id].grant in j.grants && !j.grants[Apply(j, action).attempts[id].grant].revoked
  {
    hide Keyed, Reserve, TakeOver, AttemptForRequest, AdmissionContext, Available, NextIndex, HeldBy, CheckSources, RepeatedTakeOver, LeaseTo;
    match action {
      case DoReserve(a, snapshot, now) =>
        if AttemptForRequest(j, a.request).Some? { RepeatedReserve(j, a, snapshot, now); } else { ReserveShape(j, a, snapshot, now); }
        AdmissionIsActive(j, a, snapshot, now);
      case DoTakeOver(a, snapshot, run, recovery, now) =>
        if RepeatedTakeOver(j, a, recovery) {
          RepeatedTakeOverKeeps(j, a, snapshot, run, recovery, now);
        } else {
          TakeOverShape(j, a, snapshot, run, recovery, now);
        }
        AdmissionIsActive(j, a, snapshot, now);
      case _ => NoNewAttempt(j, action);
    }
  }

  lemma NewWitnessIsActive(j: Journal, action: Action, q: RequestId)
    requires Keyed(j) && q in Apply(j, action).reconciliations && q !in j.reconciliations
    ensures var id := Apply(j, action).reconciliations[q].attempt;
            id in j.attempts && j.attempts[id].grant in j.grants && !j.grants[j.attempts[id].grant].revoked
  {
    hide Keyed, Apply;
    if action.DoClaimReconciliation? { OpeningIsActive(j, action, q); } else { NoNewWitness(j, action); }
  }

  lemma OpeningIsActive(j: Journal, action: Action, q: RequestId)
    requires action.DoClaimReconciliation? && q in Apply(j, action).reconciliations && q !in j.reconciliations
    ensures var id := Apply(j, action).reconciliations[q].attempt;
            id in j.attempts && j.attempts[id].grant in j.grants && !j.grants[j.attempts[id].grant].revoked
  {
    hide BoundContext, ConfigurationAuthority, OwnsAll, ActivelyReconciled, NextOrdinal, ConfigurationCharge;
  }

  lemma NoNewWitness(j: Journal, action: Action)
    requires Keyed(j) && !action.DoClaimReconciliation?
    ensures Apply(j, action).reconciliations.Keys == j.reconciliations.Keys
  {
    hide Apply, Keyed;
    if action.DoReserve? || action.DoTakeOver? {
      AdmissionWitnesses(j, action);
    } else if TouchesRecords(action) {
      RecordsWitnesses(j, action);
    } else if action.DoFinishReconciliation? || action.DoAbandon? || action.DoReopen? {
      ClosingWitnesses(j, action);
    } else {
      SettlingWitnesses(j, action);
    }
  }

  lemma AdmissionWitnesses(j: Journal, action: Action)
    requires Keyed(j) && (action.DoReserve? || action.DoTakeOver?)
    ensures Apply(j, action).reconciliations == j.reconciliations
  {
    hide Keyed, Reserve, TakeOver, AttemptForRequest, AdmissionContext, Available, NextIndex, HeldBy, CheckSources, RepeatedTakeOver, LeaseTo;
    match action {
      case DoReserve(a, snapshot, now) =>
        if Reserve(j, a, snapshot, now).Ok? {
          if AttemptForRequest(j, a.request).Some? { RepeatedReserve(j, a, snapshot, now); } else { ReserveShape(j, a, snapshot, now); }
        }
      case DoTakeOver(a, snapshot, run, recovery, now) =>
        if TakeOver(j, a, snapshot, run, recovery, now).Ok? {
          if RepeatedTakeOver(j, a, recovery) {
            RepeatedTakeOverKeeps(j, a, snapshot, run, recovery, now);
          } else {
            TakeOverShape(j, a, snapshot, run, recovery, now);
          }
        }
    }
  }

  lemma RecordsWitnesses(j: Journal, action: Action)
    requires TouchesRecords(action)
    ensures Apply(j, action).reconciliations == j.reconciliations
  {
    hide CompletedPrefix;
  }

  lemma ClosingWitnesses(j: Journal, action: Action)
    requires action.DoFinishReconciliation? || action.DoAbandon? || action.DoReopen?
    ensures Apply(j, action).reconciliations.Keys == j.reconciliations.Keys
  {
    hide ReleaseFrom, FinalStep, LeaseKeys, Destinations, RejectIntentsOf;
  }

  lemma SettlingWitnesses(j: Journal, action: Action)
    requires action.DoClaimDispatch? || action.DoRecordReceipt? || action.DoRejectIntent?
    ensures Apply(j, action).reconciliations == j.reconciliations
  {
    hide ActiveGrant, BoundContext, OwnsAll, ReleaseOnOutcome, SupervisorReleases;
  }

  /** After a revocation no action claims a dispatch, records a new attempt or opens a witness under the grant. */
  lemma NothingAfterRevocation(actions: seq<Action>, n: nat, m: nat, g: GrantId)
    requires AllAdmissible(actions) && n < m < |actions| && actions[n] == DoRevokeGrant(g) && g in At(actions, n).grants
    ensures ClaimAt(actions, m).Some? ==> ClaimAt(actions, m).value.grant != g
    ensures forall id | id in At(actions, m + 1).attempts && id !in At(actions, m).attempts :: At(actions, m + 1).attempts[id].grant != g
    ensures forall q | q in At(actions, m + 1).reconciliations && q !in At(actions, m).reconciliations ::
              var id := At(actions, m + 1).reconciliations[q].attempt;
              id in At(actions, m).attempts && At(actions, m).attempts[id].grant != g
  {
    hide At, Inv, Apply, Admissible, ClaimAt;
    RevocationTakesEffect(actions, n, m, g);
    AtKeepsInv(actions, m);
    Step(actions, m);
    assert actions[m] in actions;
    NothingUnderRevoked(At(actions, m), actions[m], g);
    if ClaimAt(actions, m).Some? { ClaimActive(actions, m); }
  }

  // ----- Reopening -----

  predicate NothingInFlight(j: Journal) {
    && (forall id | id in j.attempts :: j.attempts[id].state != Dispatched)
    && (forall q | q in j.reconciliations :: j.reconciliations[q].state != RecClaimed)
  }

  /** Reopening leaves nothing in flight: each dispatched attempt becomes unknown, with a receipt that observed nothing,
      each open witness becomes unknown, and everything else stays exactly as it was. */
  lemma ReopensExactly(j: Journal)
    ensures var k := Reopen(j);
            && k == j.(attempts := k.attempts, reconciliations := k.reconciliations)
            && k.attempts.Keys == j.attempts.Keys && k.reconciliations.Keys == j.reconciliations.Keys
            && (forall id | id in j.attempts ::
                  var a, b := j.attempts[id], k.attempts[id];
                  if a.state == Dispatched
                  then b.state == Unknown && b.receipt.Some? && b.receipt.value.UnknownReceipt? && b.receipt.value.observed == None
                       && b == a.(state := b.state, receipt := b.receipt)
                  else b == a)
            && (forall q | q in j.reconciliations ::
                  k.reconciliations[q] == if j.reconciliations[q].state == RecClaimed then j.reconciliations[q].(state := RecUnknown) else j.reconciliations[q])
            && NothingInFlight(k)
  {
  }

  /** Whatever happened before a crash, the journal after it has nothing dispatched and no open witness. */
  lemma NothingInFlightAfterReopen(actions: seq<Action>, n: nat)
    requires n < |actions| && actions[n].DoReopen?
    ensures NothingInFlight(At(actions, n + 1))
    ensures forall id | id in At(actions, n).attempts && At(actions, n).attempts[id].state == Dispatched ::
              id in At(actions, n + 1).attempts && At(actions, n + 1).attempts[id].state == Unknown
  {
    hide At, Reopen;
    Step(actions, n);
    ReopensExactly(At(actions, n));
  }

  /** What was dispatched when the process died can be recovered afterwards: it meets everything that a recovery
      takeover asks of an uncertain attempt. */
  lemma InterruptedIsRecoverable(j: Journal, id: AttemptId, a: AttemptRecord, snapshot: AdmissionSnapshot, run: PlanRun,
                                 recovery: RecoveryTakeover, now: int)
    requires Reachable(j) && id in j.attempts && j.attempts[id].state == Dispatched
    requires Proposal(a, snapshot) && recovery.unresolved == [id] && a.leasedResources == j.attempts[id].leasedResources
    requires FreshDestination(Reopen(j), a, run, recovery) && Entering.Admitted(Reopen(j), a, snapshot, now)
    requires Entering.Affordable(a.reserved, Reopen(j).grants[a.grant].remaining)
    ensures TakeOver(Reopen(j), a, snapshot, run, recovery, now).Ok?
    ensures HandedOver(Reopen(j), TakeOver(Reopen(j), a, snapshot, run, recovery, now).value.journal, Pair(j.attempts[id].grant, j.attempts[id].plan), a)
  {
    hide Reachable, Proposal, Reopen, TakeOver, HandedOver, FreshDestination, Entering.Admitted, Entering.Affordable;
    ReopensExactly(j);
    ReopenIsReachable(j);
    DispatchedIsUnretired(j, id);
    UncertainIsRecoverable(Reopen(j), id, a, snapshot, run, recovery, now);
  }

  lemma ReopenIsReachable(j: Journal)
    requires Reachable(j)
    ensures Reachable(Reopen(j))
  {
    hide Reopen, Admissible;
    var actions :| AllAdmissible(actions) && RunAll(EMPTY, actions) == j;
    var more := actions + [DoReopen];
    assert more[..|actions|] == actions && more[|more| - 1] == DoReopen;
    assert Admissible(DoReopen) by { ReopenIsAdmissible(); }
    assert AllAdmissible(more);
    assert RunAll(EMPTY, more) == Reopen(j) by { ReopenApplies(j); hide Apply; }
  }

  lemma ReopenIsAdmissible()
    ensures Admissible(DoReopen)
  {
  }

  lemma ReopenApplies(j: Journal)
    ensures Apply(j, DoReopen) == Reopen(j)
  {
    hide Reopen;
  }

  lemma DispatchedIsUnretired(j: Journal, id: AttemptId)
    requires Reachable(j) && id in j.attempts && j.attempts[id].state == Dispatched
    ensures Pair(j.attempts[id].grant, j.attempts[id].plan) !in j.retirements
  {
    hide Reachable, Inv, Contiguous, Bound, InOrder, Leased, Halts, Retires, HandsOver, ResourcesOf, Destinations, Started, LastOf;
    ReachableInv(j);
    InvLive(j);
    InvChains(j);
    LastIfOpen(j, id);
    LastIsListed(j, id);
    if j.attempts[id].Owner() in j.retirements { RetiredRow(j, j.attempts[id].Owner()); }
  }
}
