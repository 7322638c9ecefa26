/** The supervisor's atomic steps: which transaction each runs and with which arguments it may be run. */
module Actions {
  import opened Wrappers
  import opened Domain
  import opened Journal

  /** One store transaction by one supervisor thread, a crash with reopening, or a torn cursor write.
      Every sequence of these is an interleaving of supervisor threads. */
  datatype Action =
    | DoSaveProfile(profile: CommissionedProfile)
    | DoSaveGrant(issued: Grant)
    | DoSavePlan(plan: ReviewedPlan)
    | DoRevokeGrant(revoked: GrantId)
    | DoCreateRun(created: PlanRun)
    | DoReserve(proposed: AttemptRecord, snapshot: AdmissionSnapshot, now: int)
    | DoTakeOver(proposed: AttemptRecord, snapshot: AdmissionSnapshot, created: PlanRun, recovery: RecoveryTakeover, now: int)
    | DoClaimDispatch(attempt: AttemptId, principal: PrincipalId, now: int)
    | DoRecordReceipt(attempt: AttemptId, receipt: OperationReceipt)
    | DoRejectIntent(attempt: AttemptId, reason: string)
    | DoClaimReconciliation(attempt: AttemptId, request: RequestId, principal: PrincipalId, now: int)
    | DoFinishReconciliation(request: RequestId, outcome: Option<OperationReceipt>)
    | DoAbandon(abandonment: Abandonment)
    | DoRepairCursor(run: RequestId)
    | DoWriteRun(row: PlanRun)
    | DoReopen

  // ----- What the supervisor computes for its calls -----

  function TotalCost(operations: seq<PlannedOperation>): Budget {
    if operations == [] then ZERO
    else Plus(operations[0].WorstCaseBudget(), TotalCost(operations[1..]))
  }

  predicate FinalStep(j: Journal, a: AttemptRecord) {
    a.plan in j.plans && a.operationIndex + 1 == |j.plans[a.plan].operations|
  }

  /** Leases are released for a rejection, and for a completion of the plan's last step. */
  predicate SupervisorReleases(j: Journal, a: AttemptRecord, receipt: OperationReceipt) {
    receipt.RejectedReceipt? || (receipt.CompletedReceipt? && FinalStep(j, a))
  }

  /** Reconciliation is paid for only when the plan reviewed an instrument configuration. */
  function ConfigurationCharge(j: Journal, a: AttemptRecord): Option<Budget> {
    if a.plan in j.plans && j.plans[a.plan].setup.ApplyReviewedInstrumentConfiguration?
       && a.operationIndex < |j.plans[a.plan].operations|
    then Some(Budget(1, 0, j.plans[a.plan].operations[a.operationIndex].maxMilliseconds))
    else None
  }

  /** The attempt that `submit` and `takeover_recovery` build from the profile and plan they read. */
  predicate Proposal(a: AttemptRecord, snapshot: AdmissionSnapshot) {
    && a.state == Intent
    && a.receipt == None
    && a.profile == snapshot.profile.id
    && a.profileDigest == Sha256(snapshot.profile)
    && a.leasedResources == snapshot.profile.PhysicalResources()
    && a.plan == snapshot.plan.id
    && a.planDigest == Sha256(snapshot.plan)
    && a.operationIndex < |snapshot.plan.operations|
    && a.reserved == if a.operationIndex == 0 then TotalCost(snapshot.plan.operations) else ZERO
  }

  /** The takeover record and run name the very attempt they are stored with. */
  predicate Handoff(a: AttemptRecord, run: PlanRun, recovery: RecoveryTakeover) {
    && a.operationIndex == 0
    && recovery.request == a.request
    && recovery.firstAttempt == a.id
    && recovery.Destination() == a.Owner()
    && recovery.resources == a.leasedResources
    && recovery.unresolved != []
    && recovery.run == run.id
    && Pair(run.grant, run.plan) == a.Owner()
    && run.steps != []
    && run.steps[0] == (a.id, a.request)
    && run.cursor == 0
  }

  /** The arguments the supervisor can pass; nothing here depends on what other threads did. */
  predicate Admissible(action: Action) {
    match action
    case DoSavePlan(plan) => plan.operations != []
    case DoReserve(proposed, snapshot, _) => Proposal(proposed, snapshot)
    case DoTakeOver(proposed, snapshot, run, recovery, _) => Proposal(proposed, snapshot) && Handoff(proposed, run, recovery)
    case _ => true
  }

  // ----- Semantics -----

  function After<T>(j: Journal, tx: Transaction<T>): Journal {
    if tx.Ok? then tx.value.journal else j
  }

  function RecordBySupervisor(j: Journal, id: AttemptId, receipt: OperationReceipt): Transaction<AttemptRecord> {
    var attempt :- Lookup(j.attempts, id);
    RecordReceipt(j, id, receipt, SupervisorReleases(j, attempt, receipt))
  }

  function ClaimBySupervisor(j: Journal, id: AttemptId, request: RequestId, principal: PrincipalId, now: int): Transaction<ReconciliationClaim> {
    var attempt :- Lookup(j.attempts, id);
    ClaimReconciliation(j, id, request, principal, ConfigurationCharge(j, attempt), now)
  }

  /** A witness completes its attempt exactly when its receipt is a completion. */
  function FinishBySupervisor(j: Journal, request: RequestId, receipt: Option<OperationReceipt>): Transaction<AttemptRecord> {
    var record :- Lookup(j.reconciliations, request);
    var attempt :- Lookup(j.attempts, record.attempt);
    var completed := receipt.Some? && receipt.value.CompletedReceipt?;
    FinishReconciliation(j, request, receipt, completed, completed && FinalStep(j, attempt))
  }

  function Apply(j: Journal, action: Action): Journal {
    match action
    case DoSaveProfile(profile) => After(j, SaveProfile(j, profile))
    case DoSaveGrant(grant) => After(j, SaveGrant(j, grant))
    case DoSavePlan(plan) => After(j, SavePlan(j, plan))
    case DoRevokeGrant(id) => After(j, RevokeGrant(j, id))
    case DoCreateRun(run) => After(j, CreateRun(j, run))
    case DoReserve(proposed, snapshot, now) => After(j, Reserve(j, proposed, snapshot, now))
    case DoTakeOver(proposed, snapshot, run, recovery, now) => After(j, TakeOver(j, proposed, snapshot, run, recovery, now))
    case DoClaimDispatch(id, agent, now) => After(j, ClaimDispatch(j, id, agent, now))
    case DoRecordReceipt(id, receipt) => After(j, RecordBySupervisor(j, id, receipt))
    case DoRejectIntent(id, reason) => After(j, RejectIntent(j, id, reason))
    case DoClaimReconciliation(id, request, principal, now) => After(j, ClaimBySupervisor(j, id, request, principal, now))
    case DoFinishReconciliation(request, receipt) => After(j, FinishBySupervisor(j, request, receipt))
    case DoAbandon(record) => After(j, Abandon(j, record))
    case DoRepairCursor(run) => After(j, RepairCursor(j, run))
    case DoWriteRun(run) => WriteRun(j, run)
    case DoReopen => Reopen(j)
  }

  /** The journal after a whole interleaving. */
  function RunAll(j: Journal, actions: seq<Action>): Journal
  {
    if actions == [] then j
    else Apply(RunAll(j, actions[..|actions| - 1]), actions[|actions| - 1])
  }

  predicate AllAdmissible(actions: seq<Action>) {
    forall a | a in actions :: Admissible(a)
  }

  ghost predicate Reachable(j: Journal) {
    exists actions :: AllAdmissible(actions) && RunAll(EMPTY, actions) == j
  }
}
