/** What a grant allows over whole histories: its terms never change, revocation is final, and nothing is ever
    recorded or dispatched that the stored records do not permit. */
module Permissions {
  import opened Wrappers
  import opened Domain
  import opened Journal
  import opened Actions
  import opened Invariant
  import opened Preservation
  import opened Reconciling
  import opened Closing
  import opened Admitting
  import opened Evolution
  import opened Histories
  import opened Isolation
  import opened Budgets
  import opened Authority

  // ----- Terms -----

  /** Only the remaining budget and the revocation of a grant ever change, and revocation is final. */
  predicate SameTerms(g: Grant, h: Grant) {
    h == g.(remaining := h.remaining, revoked := h.revoked) && (g.revoked ==> h.revoked)
  }

  ghost predicate TermsStay(j: Journal, k: Journal) {
    forall g | g in j.grants :: g in k.grants && SameTerms(j.grants[g], k.grants[g])
  }

  lemma StepKeepsTerms(j: Journal, action: Action)
    requires Inv(j)
    ensures TermsStay(j, Apply(j, action))
  {
    hide Inv, Keyed, Contiguous, Bound, Witnessed, Reserve, TakeOver, ClaimDispatch, RecordBySupervisor, RejectIntent, Reopen;
    hide ClaimBySupervisor, FinishBySupervisor, Abandon, SaveGrant, SavePlan, SaveProfile, RevokeGrant, CreateRun, RepairCursor;
    InvBooks(j);
    match action {
      case DoReserve(proposed, snapshot, now) => TermsInReserve(j, proposed, snapshot, now);
      case DoTakeOver(proposed, snapshot, run, recovery, now) => TermsInTakeOver(j, proposed, snapshot, run, recovery, now);
      case DoClaimReconciliation(id, request, principal, now) => TermsInClaim(j, id, request, principal, now);
      case DoClaimDispatch(id, agent, now) => GrantsUntouched(j, action);
      case DoRecordReceipt(id, receipt) => GrantsUntouched(j, action);
      case DoRejectIntent(id, reason) => GrantsUntouched(j, action);
      case DoFinishReconciliation(request, receipt) => GrantsUntouched(j, action);
      case DoAbandon(record) => GrantsUntouched(j, action);
      case DoReopen => GrantsUntouched(j, action);
      case _ => TermsInRecords(j, action);
    }
  }

  lemma TermsInRecords(j: Journal, action: Action)
    requires TouchesRecords(action) && Keyed(j)
    ensures TermsStay(j, Apply(j, action))
  {
    hide SaveGrant, RevokeGrant, Keyed;
    match action {
      case DoRevokeGrant(id) => RevocationTerms(j, id);
      case DoSaveGrant(grant) => SavedTerms(j, grant);
      case _ =>
        hide Apply;
        GrantsKept(j, action);
    }
  }

  lemma RevocationTerms(j: Journal, id: GrantId)
    requires Keyed(j)
    ensures TermsStay(j, After(j, RevokeGrant(j, id)))
  {
    if id in j.grants {
      var revoked := j.grants[id].(revoked := true);
      assert RevokeGrant(j, id).Ok? && RevokeGrant(j, id).value.journal.grants == j.grants[id := revoked];
      hide RevokeGrant;
    }
  }

  lemma SavedTerms(j: Journal, grant: Grant)
    ensures TermsStay(j, After(j, SaveGrant(j, grant)))
  {
    assert After(j, SaveGrant(j, grant)).grants == if grant.id in j.grants then j.grants else j.grants[grant.id := grant];
    hide SaveGrant;
  }

  lemma GrantsUntouched(j: Journal, action: Action)
    requires action.DoClaimDispatch? || action.DoRecordReceipt? || action.DoRejectIntent? || action.DoFinishReconciliation?
             || action.DoAbandon? || action.DoReopen?
    ensures Apply(j, action).grants == j.grants
  {
    hide Apply;
    if action.DoFinishReconciliation? || action.DoAbandon? || action.DoReopen? {
      ClosingGrants(j, action);
    } else {
      SettlingGrants(j, action);
    }
  }

  lemma ClosingGrants(j: Journal, action: Action)
    requires action.DoFinishReconciliation? || action.DoAbandon? || action.DoReopen?
    ensures Apply(j, action).grants == j.grants
  {
    hide ReleaseFrom, FinalStep, RejectIntentsOf, LeaseKeys, Destinations;
  }

  lemma SettlingGrants(j: Journal, action: Action)
    requires action.DoClaimDispatch? || action.DoRecordReceipt? || action.DoRejectIntent?
    ensures Apply(j, action).grants == j.grants
  {
    hide ActiveGrant, BoundContext, OwnsAll, ReleaseOnOutcome, SupervisorReleases;
  }

  lemma TermsInReserve(j: Journal, a: AttemptRecord, snapshot: AdmissionSnapshot, now: int)
    requires Keyed(j)
    ensures TermsStay(j, After(j, Reserve(j, a, snapshot, now)))
  {
    hide Keyed, Reserve, AttemptForRequest, AdmissionContext, Available, NextIndex;
    if Reserve(j, a, snapshot, now).Ok? {
      if AttemptForRequest(j, a.request).Some? {
        RepeatedReserve(j, a, snapshot, now);
      } else {
        ReserveShape(j, a, snapshot, now);
      }
    }
  }

  lemma TermsInTakeOver(j: Journal, a: AttemptRecord, snapshot: AdmissionSnapshot, run: PlanRun, recovery: RecoveryTakeover, now: int)
    requires Keyed(j)
    ensures TermsStay(j, After(j, TakeOver(j, a, snapshot, run, recovery, now)))
  {
    hide Keyed, TakeOver, RepeatedTakeOver, AdmissionContext, HeldBy, CheckSources;
    if TakeOver(j, a, snapshot, run, recovery, now).Ok? {
      if RepeatedTakeOver(j, a, recovery) {
        RepeatedTakeOverKeeps(j, a, snapshot, run, recovery, now);
      } else {
        TakeOverShape(j, a, snapshot, run, recovery, now);
      }
    }
  }

  lemma TermsInClaim(j: Journal, id: AttemptId, request: RequestId, principal: PrincipalId, now: int)
    requires Keyed(j)
    ensures TermsStay(j, After(j, ClaimBySupervisor(j, id, request, principal, now)))
  {
    hide BoundContext, ConfigurationAuthority, OwnsAll, ActivelyReconciled, NextOrdinal, ConfigurationCharge;
  }

  lemma {:induction false} TermsAreFixed(actions: seq<Action>, m: nat, n: nat)
    requires AllAdmissible(actions) && m <= n <= |actions|
    ensures TermsStay(At(actions, m), At(actions, n))
    decreases n - m
  {
    hide At, Inv, Apply, Admissible;
    if m < n {
      TermsAreFixed(actions, m, n - 1);
      AtKeepsInv(actions, n - 1);
      Step(actions, n - 1);
      StepKeepsTerms(At(actions, n - 1), actions[n - 1]);
    }
  }

  /** A revoked grant stays revoked. */
  lemma RevocationIsPermanent(actions: seq<Action>, m: nat, n: nat, g: GrantId)
    requires AllAdmissible(actions) && m <= n <= |actions| && g in At(actions, m).grants && At(actions, m).grants[g].revoked
    ensures g in At(actions, n).grants && At(actions, n).grants[g].revoked
  {
    hide At;
    TermsAreFixed(actions, m, n);
  }

  /** A grant that was revoked before an action is not the grant of any dispatch or reconciliation it makes. */
  lemma RevokedGrantsAreInert(j: Journal, g: GrantId, id: AttemptId, agent: PrincipalId, request: RequestId, charge: Option<Budget>, now: int)
    requires g in j.grants && j.grants[g].revoked && id in j.attempts && j.attempts[id].grant == g
    ensures ClaimDispatch(j, id, agent, now).Err?
    ensures request !in j.reconciliations ==> ClaimReconciliation(j, id, request, agent, charge, now).Err?
  {
    assert ActiveGrant(j, g, agent, j.attempts[id].profile, now).Err?;
    hide ActiveGrant, BoundContext, ConfigurationAuthority, OwnsAll, ActivelyReconciled, NextOrdinal;
  }

  // ----- Permission -----

  /** The records stored in `j` permit the operation of attempt `a`. */
  ghost predicate PermittedIn(j: Journal, a: AttemptRecord) {
    && a.grant in j.grants && a.profile in j.profiles && a.plan in j.plans
    && a.operationIndex < |j.plans[a.plan].operations|
    && Permits(j.grants[a.grant], j.profiles[a.profile], j.plans[a.plan], j.plans[a.plan].operations[a.operationIndex])
  }

  ghost predicate AllPermitted(j: Journal) {
    forall id | id in j.attempts :: PermittedIn(j, j.attempts[id])
  }

  /** The proposed operation is authorized against the grant stored under that id. */
  predicate VettedProposal(j: Journal, a: AttemptRecord, snapshot: AdmissionSnapshot) {
    && a.operationIndex < |snapshot.plan.operations|
    && (a.grant in j.grants ==>
          Permits(j.grants[a.grant], snapshot.profile, snapshot.plan, snapshot.plan.operations[a.operationIndex]))
  }

  predicate Vetted(j: Journal, action: Action) {
    match action
    case DoReserve(proposed, snapshot, _) => VettedProposal(j, proposed, snapshot)
    case DoTakeOver(proposed, snapshot, _, _, _) => VettedProposal(j, proposed, snapshot)
    case _ => true
  }

  predicate VettedFrom(j: Journal, actions: seq<Action>) {
    forall n | 0 <= n < |actions| :: Vetted(RunAll(j, actions[..n]), actions[n])
  }

  /** Histories whose admissions were all authorized; `Supervisor` proves that its methods make only these. */
  predicate AllVetted(actions: seq<Action>) {
    VettedFrom(EMPTY, actions)
  }

  lemma VettedAt(actions: seq<Action>, n: nat)
    requires AllVetted(actions) && n < |actions|
    ensures Vetted(At(actions, n), actions[n])
  {
    hide Vetted, RunAll;
  }

  lemma PermissionStays(j: Journal, k: Journal, a: AttemptRecord, b: AttemptRecord)
    requires PermittedIn(j, a) && TermsStay(j, k) && RecordsEvolve(j, k) && SameIdentity(a, b)
    ensures PermittedIn(k, b)
  {
    hide ReviewedFor, Qualified, WithinLimits;
  }

  lemma AdmissionPermits(j: Journal, a: AttemptRecord, snapshot: AdmissionSnapshot, now: int)
    requires AdmissionContext(j, a, snapshot, now).Ok? && VettedProposal(j, a, snapshot)
    ensures PermittedIn(j, a)
  {
    hide Permits;
  }

  lemma NoNewAttempt(j: Journal, action: Action)
    requires !action.DoReserve? && !action.DoTakeOver?
    ensures Apply(j, action).attempts.Keys == j.attempts.Keys
  {
    hide Apply;
    if TouchesRecords(action) {
      RecordsAttempts(j, action);
    } else if action.DoFinishReconciliation? || action.DoAbandon? || action.DoReopen? {
      ClosingAttempts(j, action);
    } else if action.DoClaimReconciliation? {
      OpeningAttempts(j, action);
    } else {
      SettlingAttempts(j, action);
    }
  }

  lemma RecordsAttempts(j: Journal, action: Action)
    requires TouchesRecords(action)
    ensures Apply(j, action).attempts == j.attempts
  {
    hide CompletedPrefix;
  }

  lemma ClosingAttempts(j: Journal, action: Action)
    requires action.DoFinishReconciliation? || action.DoAbandon? || action.DoReopen?
    ensures Apply(j, action).attempts.Keys == j.attempts.Keys
  {
    hide ReleaseFrom, FinalStep, LeaseKeys, Destinations;
  }

  lemma OpeningAttempts(j: Journal, action: Action)
    requires action.DoClaimReconciliation?
    ensures Apply(j, action).attempts.Keys == j.attempts.Keys
  {
    hide ActiveGrant, BoundContext, ConfigurationAuthority, OwnsAll, ActivelyReconciled, NextOrdinal, ConfigurationCharge;
  }

  lemma SettlingAttempts(j: Journal, action: Action)
    requires action.DoClaimDispatch? || action.DoRecordReceipt? || action.DoRejectIntent?
    ensures Apply(j, action).attempts.Keys == j.attempts.Keys
  {
    hide ClaimDispatch, RecordBySupervisor, RejectIntent;
    match action {
      case DoClaimDispatch(id, agent, now) => ClaimingAttempts(j, id, agent, now);
      case DoRecordReceipt(id, receipt) => RecordingAttempts(j, id, receipt);
      case DoRejectIntent(id, reason) => RejectingAttempts(j, id, reason);
    }
  }

  lemma ClaimingAttempts(j: Journal, id: AttemptId, agent: PrincipalId, now: int)
    ensures After(j, ClaimDispatch(j, id, agent, now)).attempts.Keys == j.attempts.Keys
  {
    hide ActiveGrant, BoundContext, OwnsAll;
    var tx := ClaimDispatch(j, id, agent, now);
    if tx.Ok? {
      assert id in j.attempts && tx.value.journal.attempts == j.attempts[id := tx.value.value];
      hide ClaimDispatch;
    }
  }

  lemma RecordingAttempts(j: Journal, id: AttemptId, receipt: OperationReceipt)
    ensures After(j, RecordBySupervisor(j, id, receipt)).attempts.Keys == j.attempts.Keys
  {
    hide ReleaseOnOutcome, SupervisorReleases;
    var tx := RecordBySupervisor(j, id, receipt);
    if tx.Ok? {
      assert id in j.attempts && tx.value.journal.attempts == j.attempts[id := tx.value.value];
      hide RecordBySupervisor;
    }
  }

  lemma RejectingAttempts(j: Journal, id: AttemptId, reason: string)
    ensures After(j, RejectIntent(j, id, reason)).attempts.Keys == j.attempts.Keys
  {
    hide ReleaseOnOutcome;
    var tx := RejectIntent(j, id, reason);
    if tx.Ok? {
      assert id in j.attempts && tx.value.journal.attempts == j.attempts[id := tx.value.value];
      hide RejectIntent;
    }
  }

  lemma NewAttempt(j: Journal, action: Action, id: AttemptId)
    requires Keyed(j) && Vetted(j, action) && id in Apply(j, action).attempts && id !in j.attempts
    ensures PermittedIn(j, Apply(j, action).attempts[id])
  {
    hide Keyed, Reserve, TakeOver, AttemptForRequest, AdmissionContext, Available, NextIndex, HeldBy, CheckSources, RepeatedTakeOver;
    hide PermittedIn, VettedProposal;
    match action {
      case DoReserve(a, snapshot, now) =>
        if AttemptForRequest(j, a.request).Some? { RepeatedReserve(j, a, snapshot, now); } else { ReserveShape(j, a, snapshot, now); }
        AdmissionPermits(j, a, snapshot, now);
      case DoTakeOver(a, snapshot, run, recovery, now) =>
        if RepeatedTakeOver(j, a, recovery) {
          RepeatedTakeOverKeeps(j, a, snapshot, run, recovery, now);
        } else {
          TakeOverShape(j, a, snapshot, run, recovery, now);
        }
        AdmissionPermits(j, a, snapshot, now);
      case _ => NoNewAttempt(j, action);
    }
  }

  lemma StepKeepsPermitted(j: Journal, action: Action)
    requires Inv(j) && Admissible(action) && Vetted(j, action) && AllPermitted(j)
    ensures AllPermitted(Apply(j, action))
  {
    var k := Apply(j, action);
    hide Inv, Apply, Admissible, Vetted, PermittedIn, TermsStay, RecordsEvolve, StepsEvolve, WitnessesEvolve, ClosuresEvolve, SameIdentity;
    StepKeepsTerms(j, action);
    StepKeepsAndEvolves(j, action);
    InvBooks(j);
    forall id | id in k.attempts
      ensures PermittedIn(k, k.attempts[id])
    {
      if id in j.attempts {
        assert AttemptEvolves(j.attempts[id], k.attempts[id]);
        PermissionStays(j, k, j.attempts[id], k.attempts[id]);
      } else {
        NewAttempt(j, action, id);
        SameAttempt(k.attempts[id]);
        PermissionStays(j, k, k.attempts[id], k.attempts[id]);
      }
    }
  }

  lemma SameAttempt(a: AttemptRecord)
    ensures SameIdentity(a, a)
  {
  }

  /** Every attempt ever recorded is of an operation that the stored grant, profile and plan permit. */
  lemma {:induction false} EveryAttemptIsPermitted(actions: seq<Action>, n: nat)
    requires AllAdmissible(actions) && AllVetted(actions) && n <= |actions|
    ensures AllPermitted(At(actions, n))
    decreases n
  {
    hide At, Inv, Apply, Admissible, Vetted, PermittedIn;
    if n == 0 {
      assert At(actions, 0) == EMPTY by { NothingYet(actions); }
    } else {
      EveryAttemptIsPermitted(actions, n - 1);
      AtKeepsInv(actions, n - 1);
      assert actions[n - 1] in actions;
      Step(actions, n - 1);
      VettedAt(actions, n - 1);
      StepKeepsPermitted(At(actions, n - 1), actions[n - 1]);
    }
  }

  lemma NothingYet(actions: seq<Action>)
    ensures At(actions, 0) == EMPTY
  {
  }

  /** Nothing outside its grant is ever dispatched: at every claim the grant is neither revoked nor expired, and it,
      the commissioned profile and the review, as they stand at any later point, permit the claimed operation. */
  lemma DispatchIsPermitted(actions: seq<Action>, n: nat, later: nat)
    requires AllAdmissible(actions) && AllVetted(actions) && ClaimAt(actions, n).Some? && n < later <= |actions|
    ensures var c := ClaimAt(actions, n).value; var j := At(actions, n);
            && c.grant in j.grants && !j.grants[c.grant].revoked
            && j.grants[c.grant].expiresAt.Some? && actions[n].now < j.grants[c.grant].expiresAt.value
    ensures var c := ClaimAt(actions, n).value; var k := At(actions, later);
            && PermittedIn(k, c)
            && PlannedAt(actions, n) == Some(k.plans[c.plan].operations[c.operationIndex])
  {
    hide At, Inv, Apply, Admissible, Vetted, Permits, ClaimAt, PlannedAt, OwnsAll, RecordsEvolve, StepsEvolve, WitnessesEvolve, ClosuresEvolve, SameIdentity;
    var c := ClaimAt(actions, n).value;
    ClaimActive(actions, n);
    ClaimFacts(actions, n);
    EveryAttemptIsPermitted(actions, later);
    AtEvolves(actions, n + 1, later);
    assert AttemptEvolves(c, At(actions, later).attempts[c.id]);
    SameStepPermitted(At(actions, later), At(actions, later).attempts[c.id], c);
    ClaimedOperation(actions, n, later);
  }

  lemma SameStepPermitted(j: Journal, a: AttemptRecord, b: AttemptRecord)
    requires PermittedIn(j, a) && SameIdentity(b, a)
    ensures PermittedIn(j, b)
  {
    hide Permits;
  }

  lemma ClaimActive(actions: seq<Action>, n: nat)
    requires AllAdmissible(actions) && ClaimAt(actions, n).Some?
    ensures var c := ClaimAt(actions, n).value; var j := At(actions, n);
            && n < |actions| && actions[n].DoClaimDispatch?
            && c.grant in j.grants && !j.grants[c.grant].revoked
            && j.grants[c.grant].expiresAt.Some? && actions[n].now < j.grants[c.grant].expiresAt.value
  {
    hide At, BoundContext, OwnsAll;
  }
}
