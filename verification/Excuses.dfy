/** What the answers and the failures of supervisor calls mean: a backend's receipt is recorded as it was judged, and a
    call fails only for a cause that the log shows. */
module Excuses {
  import opened Wrappers
  import opened Conditions
  import opened Domain
  import opened Journal
  import opened Actions
  import opened Invariant
  import opened Preservation
  import opened Evolution
  import opened Histories
  import opened Interlocks
  import opened Cursors
  import opened Authority
  import opened Permissions
  import opened Enabling
  import opened Store
  import opened Threads

  /** What lies outside the supervisor during one call: whether artifacts resolve and the backend's preflight accepts,
      what its clock shows, the last representable timestamp, and the receipt with binding evidence that the backend
      gives when asked, if it gives one. */
  datatype Outside = Outside(accepts: bool, clock: nat -> int, latest: int, answer: Option<OperationReceipt>)

  // ----- Answers -----

  /** The recorded row says what the backend answered, judged by the stored plan's postconditions; no answer is an unknown
      outcome without an observation. */
  predicate RecordedAnswer(j: Journal, answer: Option<OperationReceipt>, row: AttemptRecord) {
    && row.plan in j.plans && row.operationIndex < |j.plans[row.plan].operations|
    && row.receipt.Some? && StandsFor(row.state, row.receipt.value)
    && match answer
       case None => row.receipt.value.UnknownReceipt? && row.receipt.value.observed == None
       case Some(x) => JudgedAs(j.plans[row.plan].operations[row.operationIndex], x, row.receipt.value)
  }

  const NO_ANSWER := UnknownReceipt("the backend failed, or its evidence did not bind", None)

  function Heard(answer: Option<OperationReceipt>): OperationReceipt {
    if answer.Some? then answer.value else NO_ANSWER
  }

  lemma AnswerRecorded(earlier: seq<Action>, log: seq<Action>, c: Claimed, answer: Option<OperationReceipt>, receipt: OperationReceipt, row: AttemptRecord)
    requires AllAdmissible(log) && earlier <= log && c.StoredIn(RunAll(EMPTY, earlier))
    requires c.attempt.id in RunAll(EMPTY, log).attempts && RunAll(EMPTY, log).attempts[c.attempt.id] == row
    requires row.receipt == Some(receipt) && row.state == receipt.State()
    requires JudgedAs(c.plan.operations[c.attempt.operationIndex], Heard(answer), receipt)
    ensures RecordedAnswer(RunAll(EMPTY, log), answer, row)
  {
    hide RunAll, AllAdmissible, Evolves;
    LogEvolves(earlier, log);
    RecordsStay(RunAll(EMPTY, earlier), RunAll(EMPTY, log), c);
    RowStays(RunAll(EMPTY, earlier), RunAll(EMPTY, log), c.attempt.id);
  }

  lemma RowStays(j: Journal, k: Journal, id: AttemptId)
    requires Evolves(j, k) && id in j.attempts
    ensures id in k.attempts && SameIdentity(j.attempts[id], k.attempts[id])
  {
    hide StepsEvolve, RecordsEvolve, WitnessesEvolve, ClosuresEvolve;
    assert AttemptEvolves(j.attempts[id], k.attempts[id]);
  }

  lemma AnswerStays(earlier: seq<Action>, log: seq<Action>, answer: Option<OperationReceipt>, row: AttemptRecord)
    requires AllAdmissible(log) && earlier <= log && RecordedAnswer(RunAll(EMPTY, earlier), answer, row)
    ensures RecordedAnswer(RunAll(EMPTY, log), answer, row)
  {
    hide RunAll, AllAdmissible, AttemptsEvolve, StepsEvolve, WitnessesEvolve, ClosuresEvolve, JudgedAs;
    LogEvolves(earlier, log);
  }

  /** What an investigation concludes: an outcome only from an answer that observed something and is no rejection. */
  predicate Concludes(planned: PlannedOperation, asked: bool, answer: Option<OperationReceipt>, outcome: Option<OperationReceipt>) {
    && (outcome.Some? <==> asked && answer.Some? && !answer.value.RejectedReceipt? && !(answer.value.UnknownReceipt? && answer.value.observed.None?))
    && (outcome.Some? ==> JudgedAs(planned, answer.value, outcome.value))
  }

  /** A paid configuration under an interlock on configuring instruments needs a reviewed recovery plan instead. */
  predicate Blocked(profile: CommissionedProfile, plan: ReviewedPlan) {
    plan.setup.ApplyReviewedInstrumentConfiguration? && exists l | l in profile.liveInterlocks :: InstrumentConfigure in l.effects
  }

  // ----- Refused dispatches -----

  /** Every interlock that gates the attempt has a witness that is fresh when its turn comes, with a representable expiry. */
  ghost predicate InTime(j: Journal, attempt: AttemptRecord, profile: CommissionedProfile, plan: ReviewedPlan, outside: Outside)
    requires attempt.operationIndex < |plan.operations|
  {
    forall k | 0 <= k < |profile.liveInterlocks| && Gates(profile.liveInterlocks[k], plan.operations[attempt.operationIndex].operation) ::
      exists e :: e <= outside.latest && Expires(j, attempt, plan, profile.liveInterlocks[k], outside.clock(k), e)
  }

  lemma InTimeByReadings(j: Journal, attempt: AttemptRecord, profile: CommissionedProfile, plan: ReviewedPlan, outside: Outside, times: seq<int>)
    requires attempt.operationIndex < |plan.operations| && |times| == |profile.liveInterlocks|
    requires forall k | 0 <= k < |times| :: times[k] == outside.clock(k)
    ensures InTime(j, attempt, profile, plan, outside) <==>
            forall l | 0 <= l < |times| && Gates(profile.liveInterlocks[l], plan.operations[attempt.operationIndex].operation) ::
              exists e :: e <= outside.latest && Expires(j, attempt, plan, profile.liveInterlocks[l], times[l], e)
  {
    hide Gates, Expires;
  }

  /** Whole-plan preflight accepts the plan. */
  ghost predicate Accepted(grant: Grant, profile: CommissionedProfile, plan: ReviewedPlan, accepts: bool) {
    accepts && Interlocked(profile, plan, |plan.operations|) && AuthorizedUpTo(grant, profile, plan, |plan.operations|)
  }

  /** The claim of the attempt at `n` was not dispatched because preflight refused its plan, or because an interlock was
      not in time at the later point `m`. */
  ghost predicate DeniedAt(log: seq<Action>, n: nat, m: nat, id: AttemptId, outside: Outside) {
    && n < m <= |log| && ClaimAt(log, n).Some?
    && var a := ClaimAt(log, n).value; var j := At(log, n + 1);
       && a.id == id && a.grant in j.grants && a.profile in j.profiles && a.plan in j.plans && a.operationIndex < |j.plans[a.plan].operations|
       && ((a.operationIndex == 0 && !Accepted(j.grants[a.grant], j.profiles[a.profile], j.plans[a.plan], outside.accepts))
           || !InTime(At(log, m), a, j.profiles[a.profile], j.plans[a.plan], outside))
  }

  ghost predicate Denied(log: seq<Action>, from: nat, id: AttemptId, outside: Outside) {
    exists n, m | from <= n :: DeniedAt(log, n, m, id, outside)
  }

  lemma DenialStands(earlier: seq<Action>, checked: seq<Action>, log: seq<Action>, from: nat, c: Claimed, outside: Outside)
    requires earlier <= checked <= log && from < |earlier| && c.StoredIn(RunAll(EMPTY, earlier))
    requires ClaimAt(earlier, |earlier| - 1) == Some(c.attempt)
    requires (c.attempt.operationIndex == 0 && !Accepted(c.grant, c.profile, c.plan, outside.accepts))
             || !InTime(RunAll(EMPTY, checked), c.attempt, c.profile, c.plan, outside)
    ensures Denied(log, from, c.attempt.id, outside)
  {
    hide RunAll, ClaimAt, At, Accepted, InTime;
    ClaimStays(earlier, log, |earlier| - 1);
    AtEnd(earlier);
    AtPrefix(earlier, log, |earlier|);
    AtEnd(checked);
    AtPrefix(checked, log, |checked|);
    assert DeniedAt(log, |earlier| - 1, |checked|, c.attempt.id, outside);
  }

  lemma ClaimFailed(before: seq<Action>, agent: PrincipalId, id: AttemptId, now: int, error: StoreError)
    requires ClaimDispatch(RunAll(EMPTY, before), id, agent, now) == Err(error)
    ensures ExecutionFailed(before + [DoClaimDispatch(id, agent, now)], agent, id, StoreFailed(error))
  {
    hide RunAll, At, ClaimDispatch;
    LastTwo(before, DoClaimDispatch(id, agent, now));
  }

  lemma RecordFailed(before: seq<Action>, agent: PrincipalId, id: AttemptId, receipt: OperationReceipt, release: bool, error: StoreError)
    requires var j := RunAll(EMPTY, before);
             id in j.attempts && release == SupervisorReleases(j, j.attempts[id], receipt) && RecordReceipt(j, id, receipt, release) == Err(error)
    ensures ExecutionFailed(before + [DoRecordReceipt(id, receipt)], agent, id, StoreFailed(error))
  {
    hide RunAll, At, RecordReceipt, SupervisorReleases;
    LastTwo(before, DoRecordReceipt(id, receipt));
  }

  /** The last action of the log was this attempt's claim or receipt, and it failed with the error. */
  ghost predicate ExecutionFailed(log: seq<Action>, agent: PrincipalId, id: AttemptId, error: SupervisorError) {
    && log != [] && error.StoreFailed?
    && var j := At(log, |log| - 1);
       match log[|log| - 1]
       case DoClaimDispatch(x, who, now) => x == id && who == agent && ClaimDispatch(j, x, who, now) == Err(error.error)
       case DoRecordReceipt(x, receipt) => x == id && RecordBySupervisor(j, x, receipt) == Err(error.error)
       case _ => false
  }

  // ----- Reconciliation -----

  /** What the last action, which finished the witness, says about an investigation: the backend was asked unless the
      configuration was blocked, the outcome is what its answer shows, and without one no attempt and no lease changed. */
  ghost predicate Investigated(log: seq<Action>, id: AttemptId, request: RequestId, asked: bool, answer: Option<OperationReceipt>,
                               r: Result<AttemptRecord, SupervisorError>) {
    && log != [] && log[|log| - 1].DoFinishReconciliation? && log[|log| - 1].request == request
    && var outcome := log[|log| - 1].outcome; var j, k := At(log, |log| - 1), At(log, |log|);
       && id in k.attempts
       && var a := k.attempts[id];
          && a.profile in k.profiles && a.plan in k.plans && a.operationIndex < |k.plans[a.plan].operations|
          && (asked <==> !Blocked(k.profiles[a.profile], k.plans[a.plan]))
          && Concludes(k.plans[a.plan].operations[a.operationIndex], asked, answer, outcome)
          && (outcome.None? ==> r.Err? && k.attempts == j.attempts && k.leases == j.leases)
          && (outcome.Some? ==>
                match r
                case Ok(row) => a == row && FinishBySupervisor(j, request, outcome).Ok?
                case Err(e) => e.StoreFailed? && FinishBySupervisor(j, request, outcome) == Err(e.error))
  }

  /** The witness being finished belongs to attempt `id`, whose context is stored. */
  ghost predicate UnderInvestigation(j: Journal, id: AttemptId, request: RequestId, index: nat, profile: CommissionedProfile, plan: ReviewedPlan) {
    && id in j.attempts && request in j.reconciliations && j.reconciliations[request].attempt == id
    && j.attempts[id].operationIndex == index < |plan.operations|
    && j.attempts[id].plan in j.plans && j.plans[j.attempts[id].plan] == plan
    && j.attempts[id].profile in j.profiles && j.profiles[j.attempts[id].profile] == profile
  }

  lemma InvestigationStays(j: Journal, k: Journal, id: AttemptId, request: RequestId, index: nat, profile: CommissionedProfile, plan: ReviewedPlan)
    requires Evolves(j, k) && UnderInvestigation(j, id, request, index, profile, plan)
    ensures UnderInvestigation(k, id, request, index, profile, plan)
  {
    RowStays(j, k, id);
    WitnessStays(j, k, request);
    hide AttemptsEvolve, StepsEvolve, WitnessesEvolve, ClosuresEvolve;
  }

  lemma FinishFacts(j: Journal, id: AttemptId, request: RequestId, outcome: Option<OperationReceipt>)
    requires Inv(j) && request in j.reconciliations && j.reconciliations[request].attempt == id && id in j.attempts
    ensures var k := Apply(j, DoFinishReconciliation(request, outcome));
            && (outcome.None? ==> k.attempts == j.attempts && k.leases == j.leases)
            && (FinishBySupervisor(j, request, outcome).Ok? ==>
                  id in k.attempts && k.attempts[id] == FinishBySupervisor(j, request, outcome).value.value)
  {
    hide Inv, ReleaseFrom, FinalStep;
    if j.reconciliations[request].state == RecClaimed { ClaimedAttempt(j, request); }
  }

  /** Everything `Investigated` asks, from what the finishing call saw and did. */
  lemma Concluded(before: seq<Action>, id: AttemptId, request: RequestId, index: nat, profile: CommissionedProfile, plan: ReviewedPlan,
                  asked: bool, answer: Option<OperationReceipt>, outcome: Option<OperationReceipt>, finished: Result<AttemptRecord, StoreError>,
                  r: Result<AttemptRecord, SupervisorError>)
    requires AllAdmissible(before) && AllAdmissible(before + [DoFinishReconciliation(request, outcome)])
    requires UnderInvestigation(RunAll(EMPTY, before), id, request, index, profile, plan)
    requires (asked <==> !Blocked(profile, plan)) && Concludes(plan.operations[index], asked, answer, outcome)
    requires finished == ValueOf(FinishBySupervisor(RunAll(EMPTY, before), request, outcome))
    requires outcome.None? ==> r.Err?
    requires outcome.Some? ==> r == FromStore(finished)
    ensures Investigated(before + [DoFinishReconciliation(request, outcome)], id, request, asked, answer, r)
  {
    var action := DoFinishReconciliation(request, outcome);
    var log := before + [action];
    var j := RunAll(EMPTY, before);
    hide RunAll, At, Inv, Apply, AllAdmissible, FinishBySupervisor, Blocked, Concludes, Evolves, Keyed, Contiguous, Invariant.Bound;
    LastTwo(before, action);
    LogInv(before);
    FinishFacts(j, id, request, outcome);
    LogEvolves(before, log);
    assert RunAll(EMPTY, log) == Apply(j, action) by { Step(log, |before|); }
    InvestigationStays(j, RunAll(EMPTY, log), id, request, index, profile, plan);
  }

  /** The call returned what is recorded, because the request already has a witness of this attempt. */
  ghost predicate AlreadyInvestigated(log: seq<Action>, from: nat, id: AttemptId, request: RequestId, row: AttemptRecord) {
    && (exists n | from <= n <= |log| :: id in At(log, n).attempts && At(log, n).attempts[id] == row)
    && (exists n | from <= n <= |log| :: HasWitness(At(log, n), id, request))
  }

  predicate HasWitness(j: Journal, id: AttemptId, request: RequestId) {
    request in HistoryOf(j, id) || (request in j.reconciliations && j.reconciliations[request].attempt == id)
  }

  /** The attempt, or a record it refers to, is not stored. */
  predicate LacksContext(j: Journal, id: AttemptId) {
    id in j.attempts ==>
      || j.attempts[id].grant !in j.grants || j.attempts[id].plan !in j.plans
      || j.attempts[id].operationIndex >= |j.plans[j.attempts[id].plan].operations|
  }

  predicate NotThisAgents(j: Journal, id: AttemptId, agent: PrincipalId) {
    id in j.attempts && j.attempts[id].grant in j.grants && j.grants[j.attempts[id].grant].agent != agent
  }

  /** Why a reconciliation that opened no witness failed. */
  ghost predicate ReconcileExcuse(log: seq<Action>, from: nat, agent: PrincipalId, id: AttemptId, request: RequestId, error: SupervisorError) {
    || (error in {StoreFailed(Missing), OutOfBounds} && exists n | from <= n <= |log| :: LacksContext(At(log, n), id))
    || (error == GrantPrincipal && exists n | from <= n <= |log| :: NotThisAgents(At(log, n), id, agent))
    || (error == NotUnknown
        && (exists n | from <= n <= |log| :: id in At(log, n).attempts && At(log, n).attempts[id].state !in {Partial, Unknown})
        && (exists n | from <= n <= |log| :: request !in HistoryOf(At(log, n), id)))
    || (error.StoreFailed? && log != [] && log[|log| - 1].DoClaimReconciliation?
        && var action := log[|log| - 1];
           && action.attempt == id && action.request == request && action.principal == agent
           && ClaimBySupervisor(At(log, |log| - 1), id, request, agent, action.now) == Err(error.error))
  }

  lemma OpeningFailed(before: seq<Action>, agent: PrincipalId, id: AttemptId, request: RequestId, charge: Option<Budget>, now: int,
                      from: nat, error: StoreError)
    requires var j := RunAll(EMPTY, before);
             id in j.attempts && charge == ConfigurationCharge(j, j.attempts[id]) && ClaimReconciliation(j, id, request, agent, charge, now) == Err(error)
    ensures ReconcileExcuse(before + [DoClaimReconciliation(id, request, agent, now)], from, agent, id, request, StoreFailed(error))
  {
    hide RunAll, At, ClaimReconciliation, ConfigurationCharge, LacksContext;
    LastTwo(before, DoClaimReconciliation(id, request, agent, now));
  }

  lemma FoundRow(j: Journal, id: AttemptId, request: RequestId, principal: PrincipalId, charge: Option<Budget>, now: int)
    requires ClaimReconciliation(j, id, request, principal, charge, now).Ok?
    requires ClaimReconciliation(j, id, request, principal, charge, now).value.value.ExistingWitness?
    ensures HasWitness(ClaimReconciliation(j, id, request, principal, charge, now).value.journal, id, request)
  {
    hide ActiveGrant, BoundContext, ConfigurationAuthority, OwnsAll, ActivelyReconciled, NextOrdinal;
  }

  lemma FinishValue(j: Journal, request: RequestId, outcome: Option<OperationReceipt>, release: bool)
    requires request in j.reconciliations && j.reconciliations[request].attempt in j.attempts
    requires release == (outcome.Some? && outcome.value.CompletedReceipt? && FinalStep(j, j.attempts[j.reconciliations[request].attempt]))
    ensures FinishBySupervisor(j, request, outcome)
            == FinishReconciliation(j, request, outcome, outcome.Some? && outcome.value.CompletedReceipt?, release)
  {
    hide FinishReconciliation, FinalStep;
  }

  lemma BeginsInvestigation(j: Journal, id: AttemptId, request: RequestId, index: nat, profile: CommissionedProfile, plan: ReviewedPlan)
    requires id in j.attempts && request in j.reconciliations && j.reconciliations[request].attempt == id
    requires j.attempts[id].operationIndex == index < |plan.operations| && j.attempts[id].plan in j.plans && j.plans[j.attempts[id].plan] == plan
    requires j.attempts[id].profile in j.profiles && j.profiles[j.attempts[id].profile] == profile
    ensures UnderInvestigation(j, id, request, index, profile, plan)
  {
  }

  lemma ProfileIsStored(log: seq<Action>, id: AttemptId)
    requires AllAdmissible(log) && id in RunAll(EMPTY, log).attempts
    ensures RunAll(EMPTY, log).attempts[id].profile in RunAll(EMPTY, log).profiles
  {
    hide RunAll, AllAdmissible, Inv, Keyed, Contiguous, Invariant.Bound;
    LogInv(log);
    ContextGuard(RunAll(EMPTY, log), id);
  }

  lemma LackedNow(log: seq<Action>, from: nat, agent: PrincipalId, id: AttemptId, request: RequestId, error: SupervisorError)
    requires from <= |log| && error in {StoreFailed(Missing), OutOfBounds} && LacksContext(RunAll(EMPTY, log), id)
    ensures ReconcileExcuse(log, from, agent, id, request, error)
  {
    hide RunAll, At, LacksContext;
    AtEnd(log);
  }

  lemma ForeignNow(log: seq<Action>, from: nat, agent: PrincipalId, id: AttemptId, request: RequestId)
    requires from <= |log| && NotThisAgents(RunAll(EMPTY, log), id, agent)
    ensures ReconcileExcuse(log, from, agent, id, request, GrantPrincipal)
  {
    hide RunAll, At, NotThisAgents;
    AtEnd(log);
  }

  lemma FoundBefore(read: seq<Action>, log: seq<Action>, from: nat, id: AttemptId, request: RequestId, row: AttemptRecord)
    requires from <= |read| && read <= log && id in RunAll(EMPTY, read).attempts && RunAll(EMPTY, read).attempts[id] == row
    requires request in HistoryOf(RunAll(EMPTY, log), id)
    ensures AlreadyInvestigated(log, from, id, request, row)
  {
    hide RunAll, At, HistoryOf;
    AtEnd(read);
    AtPrefix(read, log, |read|);
    AtEnd(log);
    assert HasWitness(At(log, |log|), id, request);
  }

  lemma SettledBefore(read: seq<Action>, log: seq<Action>, from: nat, agent: PrincipalId, id: AttemptId, request: RequestId)
    requires from <= |read| && read <= log && id in RunAll(EMPTY, read).attempts && RunAll(EMPTY, read).attempts[id].state !in {Partial, Unknown}
    requires request !in HistoryOf(RunAll(EMPTY, log), id)
    ensures ReconcileExcuse(log, from, agent, id, request, NotUnknown)
  {
    hide RunAll, At, HistoryOf;
    AtEnd(read);
    AtPrefix(read, log, |read|);
    AtEnd(log);
  }

  lemma FoundAlready(begun: seq<Action>, log: seq<Action>, from: nat, agent: PrincipalId, id: AttemptId, request: RequestId, r: Result<AttemptRecord, SupervisorError>)
    requires AllAdmissible(log) && from <= |begun| && begun <= log && HasWitness(RunAll(EMPTY, begun), id, request)
    requires r == FromStore(Lookup(RunAll(EMPTY, log).attempts, id))
    ensures r.Ok? ==> AlreadyInvestigated(log, from, id, request, r.value)
    ensures r.Err? ==> ReconcileExcuse(log, from, agent, id, request, r.error)
  {
    hide RunAll, At, HasWitness, AllAdmissible;
    AtEnd(begun);
    AtPrefix(begun, log, |begun|);
    AtEnd(log);
    if r.Err? { LackedNow(log, from, agent, id, request, r.error); }
  }

  lemma ExcusedFrom(log: seq<Action>, from: nat, later: nat, agent: PrincipalId, id: AttemptId, request: RequestId, error: SupervisorError)
    requires from <= later && ReconcileExcuse(log, later, agent, id, request, error)
    ensures ReconcileExcuse(log, from, agent, id, request, error)
  {
    hide At, LacksContext, NotThisAgents, HistoryOf, ClaimBySupervisor;
  }

  lemma ExcusedEarlier(log: seq<Action>, from: nat, later: nat, agent: PrincipalId, id: AttemptId, request: RequestId,
                       r: Result<AttemptRecord, SupervisorError>, begins: bool)
    requires from <= later
    requires !begins && r.Ok? ==> AlreadyInvestigated(log, later, id, request, r.value)
    requires !begins && r.Err? ==> ReconcileExcuse(log, later, agent, id, request, r.error)
    ensures !begins && r.Ok? ==> AlreadyInvestigated(log, from, id, request, r.value)
    ensures !begins && r.Err? ==> ReconcileExcuse(log, from, agent, id, request, r.error)
  {
    hide At, HasWitness, ReconcileExcuse;
    if !begins && r.Err? { ExcusedFrom(log, from, later, agent, id, request, r.error); }
  }

  // ----- Submission -----

  /** The grant, its profile or the plan is not stored. */
  predicate LacksRecords(j: Journal, grant: GrantId, plan: PlanId) {
    grant !in j.grants || j.grants[grant].profile !in j.profiles || plan !in j.plans
  }

  predicate GrantOfAnother(j: Journal, grant: GrantId, agent: PrincipalId) {
    grant in j.grants && j.grants[grant].agent != agent
  }

  /** The step is past the plan's end, or the whole plan costs more than can be counted. */
  predicate OffPlan(j: Journal, plan: PlanId, index: nat) {
    plan in j.plans && (index >= |j.plans[plan].operations| || (index == 0 && !FitsU64(TotalCost(j.plans[plan].operations))))
  }

  /** The grant as stored in `j` does not authorize the step of the plan stored in `k`. */
  predicate RefusedBy(j: Journal, k: Journal, grant: GrantId, plan: PlanId, index: nat, refusal: Refusal) {
    && grant in j.grants && j.grants[grant].profile in k.profiles && plan in k.plans && index < |k.plans[plan].operations|
    && Authorize(j.grants[grant], k.profiles[j.grants[grant].profile], k.plans[plan], k.plans[plan].operations[index]) == Err(refusal)
  }

  /** The reservation that a submission asks for. */
  predicate SubmitsAs(action: Action, agent: PrincipalId, request: SubmitRequest) {
    && action.DoReserve? && action.snapshot.agent == agent && Proposal(action.proposed, action.snapshot)
    && action.proposed.id == request.attempt && action.proposed.request == request.request
    && Pair(action.proposed.grant, action.proposed.plan) == Pair(request.grant, request.plan) && action.proposed.operationIndex == request.index
  }

  /** Why a submission failed. */
  ghost predicate SubmitExcuse(log: seq<Action>, from: nat, agent: PrincipalId, request: SubmitRequest, error: SupervisorError) {
    || (error == StoreFailed(Missing) && exists n | from <= n <= |log| :: LacksRecords(At(log, n), request.grant, request.plan))
    || (error == GrantPrincipal && exists n | from <= n <= |log| :: GrantOfAnother(At(log, n), request.grant, agent))
    || (error == OutOfBounds && exists n | from <= n <= |log| :: OffPlan(At(log, n), request.plan, request.index))
    || (error.Refused? && exists n, m | from <= n <= m <= |log| ::
          RefusedBy(At(log, n), At(log, m), request.grant, request.plan, request.index, error.refusal))
    || (error.StoreFailed? && log != [] && SubmitsAs(log[|log| - 1], agent, request)
        && var a := log[|log| - 1]; Reserve(At(log, |log| - 1), a.proposed, a.snapshot, a.now) == Err(error.error))
  }

  lemma SubmitExcusedFrom(log: seq<Action>, from: nat, later: nat, agent: PrincipalId, request: SubmitRequest, error: SupervisorError)
    requires from <= later && SubmitExcuse(log, later, agent, request, error)
    ensures SubmitExcuse(log, from, agent, request, error)
  {
    hide At, LacksRecords, GrantOfAnother, OffPlan, RefusedBy, SubmitsAs, Reserve;
  }

  lemma Unstored(read: seq<Action>, log: seq<Action>, from: nat, agent: PrincipalId, request: SubmitRequest)
    requires AllAdmissible(log) && read <= log && from <= |log|
    requires request.grant in RunAll(EMPTY, read).grants ==>
               RunAll(EMPTY, read).grants[request.grant].profile !in RunAll(EMPTY, log).profiles || request.plan !in RunAll(EMPTY, log).plans
    requires request.grant !in RunAll(EMPTY, read).grants ==> read == log
    ensures SubmitExcuse(log, from, agent, request, StoreFailed(Missing))
  {
    hide RunAll, At, AllAdmissible, SubmitsAs, Reserve;
    LogTerms(read, log);
    AtEnd(log);
    assert LacksRecords(At(log, |log|), request.grant, request.plan);
  }

  lemma NotThisAgent(log: seq<Action>, from: nat, agent: PrincipalId, request: SubmitRequest)
    requires from <= |log| && GrantOfAnother(RunAll(EMPTY, log), request.grant, agent)
    ensures SubmitExcuse(log, from, agent, request, GrantPrincipal)
  {
    hide RunAll, At, GrantOfAnother;
    AtEnd(log);
  }

  lemma NoSuchStep(log: seq<Action>, from: nat, agent: PrincipalId, request: SubmitRequest)
    requires from <= |log| && OffPlan(RunAll(EMPTY, log), request.plan, request.index)
    ensures SubmitExcuse(log, from, agent, request, OutOfBounds)
  {
    hide RunAll, At, OffPlan;
    AtEnd(log);
  }

  lemma Unauthorized(read: seq<Action>, log: seq<Action>, from: nat, agent: PrincipalId, request: SubmitRequest, refusal: Refusal)
    requires from <= |read| && read <= log
    requires RefusedBy(RunAll(EMPTY, read), RunAll(EMPTY, log), request.grant, request.plan, request.index, refusal)
    ensures SubmitExcuse(log, from, agent, request, Refused(refusal))
  {
    hide RunAll, At, RefusedBy;
    AtEnd(read);
    AtPrefix(read, log, |read|);
    AtEnd(log);
  }

  lemma ReserveFailed(before: seq<Action>, from: nat, agent: PrincipalId, request: SubmitRequest, action: Action, error: StoreError)
    requires SubmitsAs(action, agent, request)
    requires Reserve(RunAll(EMPTY, before), action.proposed, action.snapshot, action.now) == Err(error)
    ensures SubmitExcuse(before + [action], from, agent, request, StoreFailed(error))
  {
    hide RunAll, At, SubmitsAs, Reserve;
    LastTwo(before, action);
  }

  lemma IsOvertaken(log: seq<Action>, agent: PrincipalId, request: SubmitRequest, s: Submission)
    requires log != [] && SubmitsAs(log[|log| - 1], agent, request) && Submitted(RunAll(EMPTY, log), request, s)
    requires s.AlreadyKnown? && s.attempt.state != Intent
    ensures Overtaken(log, agent, request)
  {
    hide RunAll, At, SubmitsAs;
    AtEnd(log);
  }

  // ----- Plans -----

  /** Preflight does not accept the plan stored in `k` under the grant as stored in `j`. */
  ghost predicate NotAccepted(j: Journal, k: Journal, grant: GrantId, plan: PlanId, accepts: bool) {
    && grant in j.grants && j.grants[grant].profile in k.profiles && plan in k.plans
    && !Accepted(j.grants[grant], k.profiles[j.grants[grant].profile], k.plans[plan], accepts)
  }

  ghost predicate PreflightRefused(log: seq<Action>, from: nat, grant: GrantId, plan: PlanId, accepts: bool) {
    exists n, m | from <= n <= m <= |log| :: NotAccepted(At(log, n), At(log, m), grant, plan, accepts)
  }

  lemma PreflightSeen(read: seq<Action>, log: seq<Action>, from: nat, grant: GrantId, plan: PlanId, accepts: bool)
    requires from <= |read| && read <= log && NotAccepted(RunAll(EMPTY, read), RunAll(EMPTY, log), grant, plan, accepts)
    ensures PreflightRefused(log, from, grant, plan, accepts)
  {
    hide RunAll, At, NotAccepted;
    AtEnd(read);
    AtPrefix(read, log, |read|);
    AtEnd(log);
  }

  /** The submitted step is already recorded, and is no longer an intent. */
  ghost predicate Overtaken(log: seq<Action>, agent: PrincipalId, request: SubmitRequest) {
    && log != [] && SubmitsAs(log[|log| - 1], agent, request)
    && request.attempt in At(log, |log|).attempts && At(log, |log|).attempts[request.attempt].state != Intent
  }

  /** Why a plan was not admitted. */
  ghost predicate AdmitExcuse(log: seq<Action>, from: nat, agent: PrincipalId, run: RequestId, first: AttemptId, grant: GrantId, plan: PlanId,
                              accepts: bool, error: SupervisorError) {
    var request := SubmitRequest(first, run, grant, plan, 0);
    || SubmitExcuse(log, from, agent, request, error)
    || (error == OutOfBounds && exists n | from <= n <= |log| :: ClosedPair(At(log, n), Pair(grant, plan)))
    || PreflightRefused(log, from, grant, plan, accepts)
    || (error == OutOfBounds && Overtaken(log, agent, request))
    || (error.StoreFailed? && log != [] && log[|log| - 1].DoCreateRun?
        && var row := log[|log| - 1].created;
           && row.id == run && row.agent == agent && row.grant == grant && row.plan == plan
           && CreateRun(At(log, |log| - 1), row) == Err(error.error))
  }

  lemma ClosedNow(log: seq<Action>, from: nat, agent: PrincipalId, run: RequestId, first: AttemptId, grant: GrantId, plan: PlanId, accepts: bool)
    requires from <= |log| && ClosedPair(RunAll(EMPTY, log), Pair(grant, plan))
    ensures AdmitExcuse(log, from, agent, run, first, grant, plan, accepts, OutOfBounds)
  {
    hide RunAll, At, ClosedPair, SubmitExcuse, PreflightRefused, Overtaken;
    AtEnd(log);
  }

  lemma CreateFailed(before: seq<Action>, from: nat, agent: PrincipalId, row: PlanRun, first: AttemptId, accepts: bool, error: StoreError)
    requires row.agent == agent && CreateRun(RunAll(EMPTY, before), row) == Err(error)
    ensures AdmitExcuse(before + [DoCreateRun(row)], from, agent, row.id, first, row.grant, row.plan, accepts, StoreFailed(error))
  {
    hide RunAll, At, CreateRun, ClosedPair, SubmitExcuse, PreflightRefused, Overtaken;
    LastTwo(before, DoCreateRun(row));
  }

  // ----- Resumption -----

  predicate RunOfAnother(j: Journal, id: RequestId, agent: PrincipalId) {
    id in j.runs && j.runs[id].agent != agent
  }

  predicate RunClosed(j: Journal, k: Journal, id: RequestId) {
    id in j.runs && (id in k.haltedRuns || Pair(j.runs[id].grant, j.runs[id].plan) in k.retirements)
  }

  /** Step `i` of the run was dispatched and not completed, or rejected: the run cannot go on by itself. */
  predicate StuckAt(j: Journal, k: Journal, id: RequestId, i: nat) {
    && id in j.runs && i < |j.runs[id].steps| && j.runs[id].steps[i].0 in k.attempts
    && k.attempts[j.runs[id].steps[i].0].state !in {Intent, Completed}
  }

  predicate RunFinished(j: Journal, k: Journal, id: RequestId) {
    id in j.runs && forall i | 0 <= i < |j.runs[id].steps| :: CompletedAt(k.attempts, j.runs[id].steps, i)
  }

  /** The submission of step `i` of the run, as stored in `j`. */
  function StepRequest(run: PlanRun, i: nat): SubmitRequest
    requires i < |run.steps|
  {
    SubmitRequest(run.steps[i].0, run.steps[i].1, run.grant, run.plan, i)
  }

  ghost predicate StepNotSubmitted(log: seq<Action>, from: nat, agent: PrincipalId, j: Journal, id: RequestId, i: nat, error: SupervisorError) {
    && id in j.runs && i < |j.runs[id].steps|
    && (SubmitExcuse(log, from, agent, StepRequest(j.runs[id], i), error)
        || (error == OutOfBounds && Overtaken(log, agent, StepRequest(j.runs[id], i))))
  }

  /** Why a run was not resumed. */
  ghost predicate ResumeExcuse(log: seq<Action>, from: nat, agent: PrincipalId, id: RequestId, error: SupervisorError) {
    || (error.StoreFailed? && log != [] && log[|log| - 1] == DoRepairCursor(id) && RepairCursor(At(log, |log| - 1), id) == Err(error.error))
    || (error == GrantPrincipal && exists n | from <= n <= |log| :: RunOfAnother(At(log, n), id, agent))
    || (error == OutOfBounds && exists n, m | from <= n <= m <= |log| :: RunClosed(At(log, n), At(log, m), id))
    || (error == OutOfBounds && exists n, m, i | from <= n <= m <= |log| :: StuckAt(At(log, n), At(log, m), id, i))
    || (error == OutOfBounds && exists n, m | from <= n <= m <= |log| :: RunFinished(At(log, n), At(log, m), id))
    || (exists n, i | from <= n <= |log| :: StepNotSubmitted(log, from, agent, At(log, n), id, i, error))
  }

  lemma RepairFailed(before: seq<Action>, from: nat, agent: PrincipalId, id: RequestId, error: StoreError)
    requires RepairCursor(RunAll(EMPTY, before), id) == Err(error)
    ensures ResumeExcuse(before + [DoRepairCursor(id)], from, agent, id, StoreFailed(error))
  {
    hide RunAll, At, RepairCursor;
    LastTwo(before, DoRepairCursor(id));
  }

  lemma NotThisAgentsRun(log: seq<Action>, from: nat, agent: PrincipalId, id: RequestId)
    requires from <= |log| && RunOfAnother(RunAll(EMPTY, log), id, agent)
    ensures ResumeExcuse(log, from, agent, id, GrantPrincipal)
  {
    hide RunAll, At, RunOfAnother;
    AtEnd(log);
  }

  lemma NotResumable(read: seq<Action>, log: seq<Action>, from: nat, agent: PrincipalId, id: RequestId, i: nat)
    requires from <= |read| && read <= log
    requires var j, k := RunAll(EMPTY, read), RunAll(EMPTY, log); RunClosed(j, k, id) || StuckAt(j, k, id, i) || RunFinished(j, k, id)
    ensures ResumeExcuse(log, from, agent, id, OutOfBounds)
  {
    hide RunAll, At, RunClosed, StuckAt, RunFinished, RepairCursor, StepNotSubmitted;
    AtEnd(read);
    AtPrefix(read, log, |read|);
    AtEnd(log);
  }

  lemma StepFailed(read: seq<Action>, log: seq<Action>, from: nat, agent: PrincipalId, id: RequestId, i: nat, error: SupervisorError)
    requires from <= |read| && read <= log && StepNotSubmitted(log, from, agent, RunAll(EMPTY, read), id, i, error)
    ensures ResumeExcuse(log, from, agent, id, error)
  {
    hide RunAll, At, RepairCursor, StepNotSubmitted;
    AtEnd(read);
    AtPrefix(read, log, |read|);
  }

  // ----- Progress -----

  /** Why a ticket could not be executed and followed up. */
  ghost predicate NextExcuse(log: seq<Action>, from: nat, agent: PrincipalId, t: PlanTicket, error: SupervisorError) {
    || ExecutionFailed(log, agent, t.attempt, error)
    || (error.StoreFailed? && AdvancedRun(At(log, |log|), t.run, t.index) == Err(error.error))
    || (error == StoreFailed(Missing) && t.run !in At(log, |log|).runs)
    || (error == OutOfBounds && t.run in At(log, |log|).runs && t.index + 1 > |At(log, |log|).runs[t.run].steps|)
    || (exists n | from <= n <= |log| :: FollowUpFailed(log, from, agent, At(log, n), t, error))
  }

  ghost predicate FollowUpFailed(log: seq<Action>, from: nat, agent: PrincipalId, j: Journal, t: PlanTicket, error: SupervisorError) {
    && t.run in j.runs && t.index + 1 < |j.runs[t.run].steps|
    && var step := j.runs[t.run].steps[t.index + 1]; var request := SubmitRequest(step.0, step.1, t.grant, t.plan, t.index + 1);
       SubmitExcuse(log, from, agent, request, error) || (error == OutOfBounds && Overtaken(log, agent, request))
  }

  /** The executed step was the last of its run. */
  predicate LastStep(j: Journal, t: PlanTicket) {
    t.run in j.runs && |j.runs[t.run].steps| == t.index + 1
  }

  lemma NotAdvanced(log: seq<Action>, from: nat, agent: PrincipalId, t: PlanTicket, error: SupervisorError)
    requires from <= |log|
    requires var j := RunAll(EMPTY, log);
             || (error.StoreFailed? && AdvancedRun(j, t.run, t.index) == Err(error.error))
             || (error == StoreFailed(Missing) && t.run !in j.runs)
             || (error == OutOfBounds && t.run in j.runs && t.index + 1 > |j.runs[t.run].steps|)
    ensures NextExcuse(log, from, agent, t, error)
  {
    hide RunAll, At, AdvancedRun, ExecutionFailed, FollowUpFailed;
    AtEnd(log);
  }

  lemma FollowUpRefused(read: seq<Action>, log: seq<Action>, from: nat, agent: PrincipalId, t: PlanTicket, error: SupervisorError)
    requires from <= |read| && read <= log && FollowUpFailed(log, from, agent, RunAll(EMPTY, read), t, error)
    ensures NextExcuse(log, from, agent, t, error)
  {
    hide RunAll, At, AdvancedRun, ExecutionFailed, FollowUpFailed;
    AtEnd(read);
    AtPrefix(read, log, |read|);
  }

  lemma LastSeen(log: seq<Action>, from: nat, t: PlanTicket)
    requires from <= |log| && LastStep(RunAll(EMPTY, log), t)
    ensures exists n | from <= n <= |log| :: LastStep(At(log, n), t)
  {
    hide RunAll, At, LastStep;
    AtEnd(log);
  }

  // ----- Recovery -----

  /** The takeover that a recovery request asks for. */
  predicate RecoversAs(action: Action, authority: PrincipalId, unresolved: seq<AttemptId>, request: RequestId, run: RequestId, first: AttemptId,
                       grant: GrantId, plan: PlanId, justification: string) {
    && action.DoTakeOver?
    && action.created.id == run && action.recovery.run == run && action.recovery.request == request && action.recovery.unresolved == unresolved
    && action.recovery.firstAttempt == first && action.recovery.justification == justification && action.recovery.authorizedBy == authority
    && action.proposed.id == first && action.proposed.request == request && Pair(action.proposed.grant, action.proposed.plan) == Pair(grant, plan)
    && Proposal(action.proposed, action.snapshot) && Handoff(action.proposed, action.created, action.recovery)
  }

  /** Why a recovery was not taken over. */
  ghost predicate TakeoverExcuse(log: seq<Action>, from: nat, authority: PrincipalId, unresolved: seq<AttemptId>, request: RequestId, run: RequestId,
                                 first: AttemptId, grant: GrantId, plan: PlanId, justification: string, accepts: bool, error: SupervisorError) {
    || (error == OutOfBounds && unresolved == [])
    || (error == StoreFailed(Missing) && exists n | from <= n <= |log| :: LacksRecords(At(log, n), grant, plan))
    || PreflightRefused(log, from, grant, plan, accepts)
    || (error == OutOfBounds && exists n | from <= n <= |log| :: OffPlan(At(log, n), plan, 0))
    || (error.StoreFailed? && log != []
        && RecoversAs(log[|log| - 1], authority, unresolved, request, run, first, grant, plan, justification)
        && var a := log[|log| - 1]; TakeOver(At(log, |log| - 1), a.proposed, a.snapshot, a.created, a.recovery, a.now) == Err(error.error))
  }

  lemma TakeoverUnstored(read: seq<Action>, log: seq<Action>, from: nat, authority: PrincipalId, unresolved: seq<AttemptId>, request: RequestId,
                         run: RequestId, first: AttemptId, grant: GrantId, plan: PlanId, justification: string, accepts: bool)
    requires AllAdmissible(log) && read <= log && from <= |log|
    requires grant in RunAll(EMPTY, read).grants ==>
               RunAll(EMPTY, read).grants[grant].profile !in RunAll(EMPTY, log).profiles || plan !in RunAll(EMPTY, log).plans
    requires grant !in RunAll(EMPTY, read).grants ==> read == log
    ensures TakeoverExcuse(log, from, authority, unresolved, request, run, first, grant, plan, justification, accepts, StoreFailed(Missing))
  {
    hide RunAll, At, AllAdmissible, TakeOver, RecoversAs, PreflightRefused;
    LogTerms(read, log);
    AtEnd(log);
    assert LacksRecords(At(log, |log|), grant, plan);
  }

  lemma TakeoverOffPlan(log: seq<Action>, from: nat, authority: PrincipalId, unresolved: seq<AttemptId>, request: RequestId,
                        run: RequestId, first: AttemptId, grant: GrantId, plan: PlanId, justification: string, accepts: bool)
    requires from <= |log| && OffPlan(RunAll(EMPTY, log), plan, 0)
    ensures TakeoverExcuse(log, from, authority, unresolved, request, run, first, grant, plan, justification, accepts, OutOfBounds)
  {
    hide RunAll, At, OffPlan, TakeOver, RecoversAs, PreflightRefused;
    AtEnd(log);
  }

  lemma TakeoverFailed(before: seq<Action>, from: nat, action: Action, authority: PrincipalId, unresolved: seq<AttemptId>, request: RequestId,
                       run: RequestId, first: AttemptId, grant: GrantId, plan: PlanId, justification: string, accepts: bool, error: StoreError)
    requires RecoversAs(action, authority, unresolved, request, run, first, grant, plan, justification)
    requires TakeOver(RunAll(EMPTY, before), action.proposed, action.snapshot, action.created, action.recovery, action.now) == Err(error)
    ensures TakeoverExcuse(before + [action], from, authority, unresolved, request, run, first, grant, plan, justification, accepts, StoreFailed(error))
  {
    hide RunAll, At, TakeOver, RecoversAs, PreflightRefused;
    LastTwo(before, action);
  }

  lemma NothingNamed(log: seq<Action>, from: nat, authority: PrincipalId, request: RequestId, run: RequestId, first: AttemptId,
                     grant: GrantId, plan: PlanId, justification: string, accepts: bool)
    ensures TakeoverExcuse(log, from, authority, [], request, run, first, grant, plan, justification, accepts, OutOfBounds)
  {
    hide At, TakeOver, RecoversAs, PreflightRefused;
  }

  lemma TakeoverNotAccepted(log: seq<Action>, from: nat, authority: PrincipalId, unresolved: seq<AttemptId>, request: RequestId,
                            run: RequestId, first: AttemptId, grant: GrantId, plan: PlanId, justification: string, accepts: bool, error: SupervisorError)
    requires PreflightRefused(log, from, grant, plan, accepts)
    ensures TakeoverExcuse(log, from, authority, unresolved, request, run, first, grant, plan, justification, accepts, error)
  {
    hide At, TakeOver, RecoversAs, PreflightRefused;
  }

  lemma FirstIsVetted(grant: Grant, profile: CommissionedProfile, plan: ReviewedPlan, j: Journal, a: AttemptRecord, snapshot: AdmissionSnapshot)
    requires AuthorizedUpTo(grant, profile, plan, |plan.operations|) && a.grant in j.grants && j.grants[a.grant] == grant
    requires snapshot.profile == profile && snapshot.plan == plan && a.operationIndex < |plan.operations|
    ensures VettedProposal(j, a, snapshot)
  {
    hide Permits;
  }

  lemma AdmitExcused(log: seq<Action>, from: nat, agent: PrincipalId, run: RequestId, first: AttemptId, grant: GrantId, plan: PlanId,
                     accepts: bool, error: SupervisorError)
    requires var request := SubmitRequest(first, run, grant, plan, 0);
             || SubmitExcuse(log, from, agent, request, error)
             || PreflightRefused(log, from, grant, plan, accepts)
             || (error == OutOfBounds && Overtaken(log, agent, request))
    ensures AdmitExcuse(log, from, agent, run, first, grant, plan, accepts, error)
  {
    hide At, SubmitExcuse, PreflightRefused, Overtaken, CreateRun;
  }

  lemma AdmitExcusedFrom(log: seq<Action>, from: nat, later: nat, agent: PrincipalId, run: RequestId, first: AttemptId, grant: GrantId, plan: PlanId,
                         accepts: bool, error: SupervisorError)
    requires from <= later && AdmitExcuse(log, later, agent, run, first, grant, plan, accepts, error)
    ensures AdmitExcuse(log, from, agent, run, first, grant, plan, accepts, error)
  {
    var request := SubmitRequest(first, run, grant, plan, 0);
    hide At, SubmitExcuse, Overtaken, CreateRun, NotAccepted, ClosedPair;
    if SubmitExcuse(log, later, agent, request, error) { SubmitExcusedFrom(log, from, later, agent, request, error); }
  }

  lemma ExecutionExcused(log: seq<Action>, from: nat, agent: PrincipalId, t: PlanTicket, error: SupervisorError)
    requires ExecutionFailed(log, agent, t.attempt, error)
    ensures NextExcuse(log, from, agent, t, error)
  {
    hide At, ExecutionFailed, FollowUpFailed, AdvancedRun;
  }

  lemma NextExcusedFrom(log: seq<Action>, from: nat, later: nat, agent: PrincipalId, t: PlanTicket, error: SupervisorError)
    requires from <= later && NextExcuse(log, later, agent, t, error)
    ensures NextExcuse(log, from, agent, t, error)
  {
    hide At, ExecutionFailed, AdvancedRun, SubmitExcuse, Overtaken;
    if n :| later <= n <= |log| && FollowUpFailed(log, later, agent, At(log, n), t, error) {
      var step := At(log, n).runs[t.run].steps[t.index + 1];
      var request := SubmitRequest(step.0, step.1, t.grant, t.plan, t.index + 1);
      if SubmitExcuse(log, later, agent, request, error) { SubmitExcusedFrom(log, from, later, agent, request, error); }
      assert FollowUpFailed(log, from, agent, At(log, n), t, error);
    }
  }

  lemma AnswerKept(earlier: seq<Action>, log: seq<Action>, executed: bool, answer: Option<OperationReceipt>, row: AttemptRecord)
    requires AllAdmissible(log) && earlier <= log && (executed ==> RecordedAnswer(RunAll(EMPTY, earlier), answer, row))
    ensures executed ==> RecordedAnswer(RunAll(EMPTY, log), answer, row)
  {
    hide RunAll, AllAdmissible, RecordedAnswer;
    if executed { AnswerStays(earlier, log, answer, row); }
  }

  lemma ProfileStays(earlier: seq<Action>, log: seq<Action>, id: ProfileId)
    requires AllAdmissible(log) && earlier <= log && id in RunAll(EMPTY, earlier).profiles
    ensures id in RunAll(EMPTY, log).profiles && RunAll(EMPTY, log).profiles[id] == RunAll(EMPTY, earlier).profiles[id]
  {
    hide RunAll, AllAdmissible, AttemptsEvolve, StepsEvolve, WitnessesEvolve, ClosuresEvolve;
    LogEvolves(earlier, log);
  }

  lemma ProfileKey(log: seq<Action>, id: ProfileId)
    requires AllAdmissible(log) && id in RunAll(EMPTY, log).profiles
    ensures RunAll(EMPTY, log).profiles[id].id == id
  {
    hide Inv, RunAll, Contiguous, Invariant.Bound;
    LogInv(log);
  }
}
