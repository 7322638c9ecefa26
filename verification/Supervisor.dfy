/** The supervisor drives the store; between any two of its store calls other threads may run anything admissible. */
module Supervisor {
  import opened Wrappers
  import opened Conditions
  import opened Domain
  import opened Journal
  import opened Actions
  import opened Invariant
  import opened Preservation
  import opened Admitting
  import opened Evolution
  import opened Histories
  import opened Interlocks
  import opened Cursors
  import opened Store
  import opened Authority
  import opened Permissions
  import opened Isolation
  import opened Guarding
  import opened Threads
  import opened Excuses

  class Supervisor {
    const store: SqliteStore
    ghost var log: seq<Action>

    /** The log is an admissible history from an empty database to the committed tables. */
    ghost predicate Valid()
      reads this, store
    {
      AllAdmissible(log) && AllVetted(log) && store.tables == RunAll(EMPTY, log)
    }

    constructor ()
      ensures Valid() && fresh(store) && log == []
    {
      store := new SqliteStore();
      log := [];
    }

    /** Other supervisor threads, crashes and reopenings: any admissible actions at all. */
    method Yield()
      requires Valid()
      modifies this, store
      ensures Valid() && old(log) <= log
    {
      hide Apply, Admissible, RunAll, Vetted, AllVetted;
      var others: seq<Action> := *;
      if !AllAdmissible(others) || !VettedFrom(store.tables, others) { others := []; }
      RunAllConcat(EMPTY, log, others);
      VettedConcat(log, others);
      store.tables := RunAll(store.tables, others);
      log := log + others;
    }

    // ----- Admission of one step -----

    /** Submits one step: authorizes it against what is stored and reserves it. */
    method Submit(agent: PrincipalId, request: SubmitRequest) returns (r: Result<Submission, SupervisorError>)
      requires Valid()
      modifies this, store
      ensures Valid() && old(log) <= log
      ensures r.Ok? ==> Submitted(store.tables, request, r.value) && log != [] && SubmitsAs(log[|log| - 1], agent, request)
      ensures r.Err? ==> SubmitExcuse(log, |old(log)|, agent, request, r.error)
    {
      hide Inv, Submitted, RunAll, Admissible, AllAdmissible, AllVetted, TotalCost, Permits, CommissionedProfile.PhysicalResources;
      hide SubmitExcuse, SubmitsAs, Authorize, FitsU64;
      Yield();
      ghost var read := log;
      if request.grant !in store.tables.grants {
        Unstored(read, log, |old(log)|, agent, request);
        return Err(StoreFailed(Missing));
      }
      var grant := store.tables.grants[request.grant];
      if grant.agent != agent {
        NotThisAgent(log, |old(log)|, agent, request);
        return Err(GrantPrincipal);
      }
      Yield();
      if grant.profile !in store.tables.profiles {
        Unstored(read, log, |old(log)|, agent, request);
        return Err(StoreFailed(Missing));
      }
      var profile := store.tables.profiles[grant.profile];
      ghost var loaded := log;
      Yield();
      ProfileStays(loaded, log, grant.profile);
      if request.plan !in store.tables.plans {
        Unstored(read, log, |old(log)|, agent, request);
        return Err(StoreFailed(Missing));
      }
      var plan := store.tables.plans[request.plan];
      PlanKey(log, request.plan);
      if request.index >= |plan.operations| {
        NoSuchStep(log, |old(log)|, agent, request);
        return Err(OutOfBounds);
      }
      var authorized := Authorize(grant, profile, plan, plan.operations[request.index]);
      if authorized.Err? {
        Unauthorized(read, log, |old(log)|, agent, request, authorized.error);
        return Err(Refused(authorized.error));
      }
      assert Permits(grant, profile, plan, plan.operations[request.index]);
      var total := PlanBudget(plan.operations);
      if request.index == 0 && total.None? {
        NoSuchStep(log, |old(log)|, agent, request);
        return Err(OutOfBounds);
      }
      var proposed := AttemptRecord(request.attempt, request.request, request.grant, request.plan, request.index, Sha256(plan),
                                    if request.index == 0 then total.value else ZERO,
                                    profile.id, Sha256(profile), profile.PhysicalResources(), Intent, None);
      assert Proposal(proposed, AdmissionSnapshot(agent, profile, plan));
      ghost var entered := log;
      var outcome := ReserveNow(proposed, AdmissionSnapshot(agent, profile, plan), agent, request, read);
      if outcome.Err? {
        SubmitExcusedFrom(log, |old(log)|, |entered|, agent, request, StoreFailed(outcome.error));
        return Err(StoreFailed(outcome.error));
      }
      return Ok(if outcome.value.Existing? then AlreadyKnown(outcome.value.attempt) else Admitted(proposed.id));
    }

    /** The reservation itself, after whatever other threads did meanwhile. */
    method ReserveNow(proposed: AttemptRecord, snapshot: AdmissionSnapshot, ghost agent: PrincipalId, ghost request: SubmitRequest, ghost read: seq<Action>)
      returns (r: Result<ReservationOutcome, StoreError>)
      requires Valid() && Proposal(proposed, snapshot) && read <= log && VettedProposal(RunAll(EMPTY, read), proposed, snapshot)
      requires proposed.grant in RunAll(EMPTY, read).grants && snapshot.agent == agent
      requires proposed.id == request.attempt && proposed.request == request.request && proposed.Owner() == Pair(request.grant, request.plan)
      requires proposed.operationIndex == request.index
      modifies this, store
      ensures Valid() && old(log) <= log
      ensures r.Ok? ==> Submitted(store.tables, request, if r.value.Existing? then AlreadyKnown(r.value.attempt) else Admitted(proposed.id))
      ensures log != [] && SubmitsAs(log[|log| - 1], agent, request)
      ensures r.Err? ==> SubmitExcuse(log, |old(log)|, agent, request, StoreFailed(r.error))
    {
      hide Inv, Proposal, Reserve, Submitted, Contiguous, Keyed, Bound, RunAll, Apply, AllAdmissible, AllVetted, VettedProposal, SubmitExcuse;
      ProposesIntent(proposed, snapshot);
      Yield();
      var now: int := *;
      ghost var before, j := log, store.tables;
      LogInv(log);
      r := store.Reserve(proposed, snapshot, now);
      if r.Ok? { ReservedOutcome(j, proposed, snapshot, now, request); }
      ReserveLogged(read, log, j, proposed, snapshot, now);
      log := log + [DoReserve(proposed, snapshot, now)];
      assert SubmitsAs(DoReserve(proposed, snapshot, now), agent, request);
      hide SubmitsAs;
      if r.Err? { ReserveFailed(before, |old(log)|, agent, request, DoReserve(proposed, snapshot, now), r.error); }
    }

    // ----- Execution -----

    /** Records a receipt for an attempt claimed earlier, and releases its leases as the supervisor decides. */
    method RecordNow(agent: PrincipalId, attempt: AttemptRecord, plan: ReviewedPlan, receipt: OperationReceipt, ghost earlier: seq<Action>)
      returns (r: Result<AttemptRecord, SupervisorError>)
      requires Valid() && earlier <= log
      requires var j := RunAll(EMPTY, earlier);
               attempt.id in j.attempts && j.attempts[attempt.id] == attempt && attempt.plan in j.plans && j.plans[attempt.plan] == plan
      modifies this, store
      ensures Valid() && old(log) <= log
      ensures r.Ok? ==> attempt.id in store.tables.attempts && store.tables.attempts[attempt.id] == r.value
                        && r.value.id == attempt.id && r.value.state == receipt.State() && r.value.receipt == Some(receipt)
      ensures r.Err? ==> ExecutionFailed(log, agent, attempt.id, r.error)
      ensures log != [] && log[|log| - 1] == DoRecordReceipt(attempt.id, receipt)
      ensures var j := RunAll(EMPTY, log[..|log| - 1]);
              && attempt.id in j.attempts
              && SupervisorReleases(j, j.attempts[attempt.id], receipt)
                 == (receipt.RejectedReceipt? || (receipt.CompletedReceipt? && attempt.operationIndex + 1 == |plan.operations|))
              && store.tables == After(j, RecordReceipt(j, attempt.id, receipt, SupervisorReleases(j, j.attempts[attempt.id], receipt)))
    {
      hide Inv, RunAll, Apply, AllAdmissible, AllVetted, Evolves, RecordReceipt, ExecutionFailed;
      Yield();
      ghost var j := store.tables;
      var release := receipt.RejectedReceipt? || (receipt.CompletedReceipt? && attempt.operationIndex + 1 == |plan.operations|);
      assert release == SupervisorReleases(RunAll(EMPTY, earlier), attempt, receipt);
      hide SupervisorReleases;
      LogEvolves(earlier, log);
      ReleaseIsStillRight(RunAll(EMPTY, earlier), j, attempt.id, receipt);
      var recorded := store.RecordReceipt(attempt.id, receipt, release);
      ApplyRecord(j, attempt.id, receipt, release);
      if recorded.Ok? { RecordedRow(j, attempt.id, receipt, release); } else { RecordFailed(log, agent, attempt.id, receipt, release, recorded.error); }
      Logged(log, j, DoRecordReceipt(attempt.id, receipt), store.tables);
      assert (log + [DoRecordReceipt(attempt.id, receipt)])[..|log|] == log;
      log := log + [DoRecordReceipt(attempt.id, receipt)];
      return FromStore(recorded);
    }
  
    /** The dispatch claim itself, after whatever other threads did meanwhile. */
    method ClaimNow(agent: PrincipalId, id: AttemptId) returns (r: Result<Claimed, SupervisorError>)
      requires Valid()
      modifies this, store
      ensures Valid() && old(log) <= log && |old(log)| < |log|
      ensures r.Ok? ==> r.value.StoredIn(store.tables) && r.value.attempt.id == id && ClaimAt(log, |log| - 1) == Some(r.value.attempt)
      ensures r.Err? ==> ExecutionFailed(log, agent, id, r.error)
    {
      hide ExecutionFailed, Inv, RunAll, Apply, AllAdmissible, AllVetted, ClaimDispatch, ClaimAt, At, Contiguous, Bound, Keyed, Claimed.StoredIn;
      Yield();
      var now: int := *;
      ghost var before, j := log, store.tables;
      var claimed := store.ClaimDispatch(id, agent, now);
      ApplyClaim(j, id, agent, now);
      Logged(log, j, DoClaimDispatch(id, agent, now), store.tables);
      log := log + [DoClaimDispatch(id, agent, now)];
      if claimed.Err? {
        ClaimFailed(before, agent, id, now, claimed.error);
        return Err(StoreFailed(claimed.error));
      }
      LogInv(before);
      ClaimLogged(before, id, agent, now);
      ClaimContext(j, id, agent, now);
      return Ok(Claimed(claimed.value, store.tables.grants[claimed.value.grant], store.tables.profiles[claimed.value.profile], store.tables.plans[claimed.value.plan]));
    }

    /** Whole-plan preflight passes exactly when every gated step has its witnessing step, every operation is authorized,
        and everything outside accepts. */
    method PreflightPlan(grant: Grant, profile: CommissionedProfile, plan: ReviewedPlan, accepts: bool) returns (r: Result<(), SupervisorError>)
      ensures r.Ok? <==> Accepted(grant, profile, plan, accepts)
      ensures r.Ok? ==> AuthorizedUpTo(grant, profile, plan, |plan.operations|)
      ensures r.Err? && r.error.Refused? ==>
                exists i | 0 <= i < |plan.operations| :: Authorize(grant, profile, plan, plan.operations[i]) == Err(r.error.refusal)
    {
      hide Interlocked, Authorize, AuthorizedUpTo;
      var interlocked := ValidatePlan(profile, plan);
      if interlocked.Fail? { return Err(OutOfBounds); }
      NoneAuthorized(grant, profile, plan);
      for i := 0 to |plan.operations|
        invariant AuthorizedUpTo(grant, profile, plan, i)
      {
        var authorized := Authorize(grant, profile, plan, plan.operations[i]);
        if authorized.Err? {
          OneIsRefused(grant, profile, plan, i);
          return Err(Refused(authorized.error));
        }
        OneMoreAuthorized(grant, profile, plan, i);
      }
      return if accepts then Ok(()) else Err(BackendFailed);
    }

    /** Live interlocks are read after the claim, from whatever the journal has become. */
    method ClearInterlocks(c: Claimed, outside: Outside) returns (ok: bool)
      requires Valid() && c.attempt.operationIndex < |c.plan.operations|
      modifies this, store
      ensures Valid() && old(log) <= log
      ensures ok <==> InTime(store.tables, c.attempt, c.profile, c.plan, outside)
      ensures ok ==> Cleared(store.tables, c.attempt, c.profile, c.plan)
    {
      hide RunAll, AllAdmissible, AllVetted, Fresh, Gates, InTime;
      Yield();
      var times := seq(|c.profile.liveInterlocks|, k requires 0 <= k < |c.profile.liveInterlocks| => outside.clock(k));
      var expiry := CheckLiveInterlocks(store.tables, c.attempt, c.profile, c.plan, times, outside.latest);
      InTimeByReadings(store.tables, c.attempt, c.profile, c.plan, outside, times);
      if expiry.Ok? {
        forall l | l in c.profile.liveInterlocks && Gates(l, c.plan.operations[c.attempt.operationIndex].operation)
          ensures exists now, captured :: Fresh(store.tables, c.attempt, c.plan, l, now, captured)
        {
          var k :| 0 <= k < |c.profile.liveInterlocks| && c.profile.liveInterlocks[k] == l;
          var e :| Expires(store.tables, c.attempt, c.plan, c.profile.liveInterlocks[k], times[k], e);
        }
      }
      return expiry.Ok?;
    }

    /** Claims an attempt, executes it at most once, and records what came back, judged by the reviewed postconditions.
        The backend is called exactly when the claim of a permitted operation succeeded and nothing denied it. */
    method Execute(agent: PrincipalId, id: AttemptId, outside: Outside) returns (r: Result<AttemptRecord, SupervisorError>, executed: bool)
      requires Valid()
      modifies this, store
      ensures Valid() && old(log) <= log
      ensures r.Ok? ==> id in store.tables.attempts && store.tables.attempts[id] == r.value && r.value.id == id
      ensures executed && r.Ok? ==> RecordedAnswer(store.tables, outside.answer, r.value)
      ensures executed ==> exists n, m | |old(log)| <= n :: ClaimedAndCleared(log, n, m, id)
      ensures r.Ok? && !executed ==>
                r.value.state == Rejected && r.value.receipt.Some? && r.value.receipt.value.RejectedReceipt? && Denied(log, |old(log)|, id, outside)
      ensures r.Err? ==> ExecutionFailed(log, agent, id, r.error)
    {
      hide Inv, RunAll, AllAdmissible, AllVetted, ClaimAt, At, Cleared, Interlocked, Permits, PermittedIn, InTime, Accepted, Denied, ExecutionFailed;
      hide SupervisorReleases, RecordReceipt, After, ClaimedAndCleared, Authorize, RecordedAnswer, JudgedAs, Satisfies;
      executed := false;
      var claimed := ClaimNow(agent, id);
      if claimed.Err? { return Err(claimed.error), executed; }
      var c := claimed.value;
      ghost var earlier := log;
      var ready: Result<(), SupervisorError> := Ok(());
      if c.attempt.operationIndex == 0 { ready := PreflightPlan(c.grant, c.profile, c.plan, outside.accepts); }
      var authorized := Authorize(c.grant, c.profile, c.plan, c.plan.operations[c.attempt.operationIndex]);
      assert authorized.Ok? by { ClaimedIsAuthorized(log, c); }
      var clear := false;
      if ready.Ok? && authorized.Ok? { clear := ClearInterlocks(c, outside); }
      ghost var checked := log;
      if !clear {
        r := RecordNow(agent, c.attempt, c.plan, RejectedReceipt("denied before dispatch"), earlier);
        DenialStands(earlier, checked, log, |old(log)|, c, outside);
        return r, executed;
      }
      executed := true;
      r := Dispatch(agent, c, outside.answer, earlier);
      DispatchStands(earlier, checked, log, c);
    }

    /** Asks the backend and records its answer as judged by the reviewed postconditions. */
    method Dispatch(agent: PrincipalId, c: Claimed, answer: Option<OperationReceipt>, ghost earlier: seq<Action>) returns (r: Result<AttemptRecord, SupervisorError>)
      requires Valid() && earlier <= log && c.StoredIn(RunAll(EMPTY, earlier))
      modifies this, store
      ensures Valid() && old(log) <= log
      ensures r.Ok? ==> c.attempt.id in store.tables.attempts && store.tables.attempts[c.attempt.id] == r.value && r.value.id == c.attempt.id
      ensures r.Ok? ==> RecordedAnswer(store.tables, answer, r.value)
      ensures r.Err? ==> ExecutionFailed(log, agent, c.attempt.id, r.error)
    {
      hide Inv, RunAll, AllAdmissible, AllVetted, ExecutionFailed, SupervisorReleases, RecordReceipt, After, RecordedAnswer, JudgedAs, Satisfies;
      var receipt := CheckPostconditions(c.plan.operations[c.attempt.operationIndex], Heard(answer));
      r := RecordNow(agent, c.attempt, c.plan, receipt, earlier);
      if r.Ok? { AnswerRecorded(earlier, log, c, answer, receipt, r.value); }
    }

    // ----- Reconciliation -----

    /** Opens a witness, paying the charge computed from the plan that was read earlier. */
    method OpenNow(agent: PrincipalId, id: AttemptId, request: RequestId, charge: Option<Budget>, ghost earlier: seq<Action>)
      returns (r: Result<ReconciliationClaim, StoreError>)
      requires Valid() && earlier <= log
      requires var j := RunAll(EMPTY, earlier);
               id in j.attempts && j.attempts[id].plan in j.plans && charge == ConfigurationCharge(j, j.attempts[id])
      modifies this, store
      ensures Valid() && old(log) <= log && |old(log)| < |log|
      ensures r.Ok? && r.value.ClaimedWitness? ==>
                OpensAt(log, |log| - 1, id, request) && request in store.tables.reconciliations && store.tables.reconciliations[request].attempt == id
      ensures r.Ok? && r.value.ExistingWitness? ==> HasWitness(store.tables, id, request)
      ensures r.Err? ==> ReconcileExcuse(log, |old(log)|, agent, id, request, StoreFailed(r.error))
    {
      hide Inv, RunAll, Apply, AllAdmissible, AllVetted, Evolves, ClaimReconciliation, ConfigurationCharge, OpensAt, SupervisorReleases, FinalStep;
      hide ReconcileExcuse, HasWitness;
      Yield();
      ghost var before, j := log, store.tables;
      LogEvolves(earlier, log);
      ReleaseIsStillRight(RunAll(EMPTY, earlier), j, id, RejectedReceipt(""));
      var now: int := *;
      r := store.ClaimReconciliation(id, request, agent, charge, now);
      ApplyWitness(j, id, request, agent, charge, now);
      Logged(log, j, DoClaimReconciliation(id, request, agent, now), store.tables);
      log := log + [DoClaimReconciliation(id, request, agent, now)];
      if r.Err? {
        OpeningFailed(before, agent, id, request, charge, now, |old(log)|, r.error);
      } else if r.value.ClaimedWitness? {
        OpenedRow(j, id, request, agent, charge, now);
        OpensLogged(before, DoClaimReconciliation(id, request, agent, now), store.tables, id, request);
      } else {
        FoundRow(j, id, request, agent, charge, now);
      }
    }

    /** Finishes a witness; leases are released when it completes the last step of the plan read earlier. */
    method FinishNow(id: AttemptId, request: RequestId, outcome: Option<OperationReceipt>, index: nat, profile: CommissionedProfile, plan: ReviewedPlan,
                     ghost earlier: seq<Action>)
      returns (r: Result<AttemptRecord, StoreError>, ghost before: seq<Action>)
      requires Valid() && earlier <= log && UnderInvestigation(RunAll(EMPTY, earlier), id, request, index, profile, plan)
      modifies this, store
      ensures Valid() && old(log) <= before && log == before + [DoFinishReconciliation(request, outcome)] && AllAdmissible(before)
      ensures UnderInvestigation(RunAll(EMPTY, before), id, request, index, profile, plan)
      ensures r == ValueOf(FinishBySupervisor(RunAll(EMPTY, before), request, outcome))
    {
      hide Inv, RunAll, Apply, AllAdmissible, AllVetted, Evolves, FinishReconciliation, ConfigurationCharge, SupervisorReleases, FinishBySupervisor;
      Yield();
      before := log;
      ghost var j := store.tables;
      var completed := outcome.Some? && outcome.value.CompletedReceipt?;
      var release := completed && index + 1 == |plan.operations|;
      LogEvolves(earlier, log);
      InvestigationStays(RunAll(EMPTY, earlier), j, id, request, index, profile, plan);
      assert FinalStep(j, j.attempts[id]) <==> index + 1 == |plan.operations|;
      hide FinalStep;
      r := store.FinishReconciliation(request, outcome, completed, release);
      ApplyFinish(j, request, outcome, release);
      FinishValue(j, request, outcome, release);
      Logged(log, j, DoFinishReconciliation(request, outcome), store.tables);
      log := log + [DoFinishReconciliation(request, outcome)];
    }

    /** Investigates an uncertain attempt. The backend is asked at most once per request, and only by the thread whose call
        opens the witness; that call finishes the witness with what the answer shows, and fails without an outcome. */
    method Reconcile(agent: PrincipalId, id: AttemptId, request: RequestId, answer: Option<OperationReceipt>)
      returns (r: Result<AttemptRecord, SupervisorError>, begins: bool, asked: bool)
      requires Valid()
      modifies this, store
      ensures Valid() && old(log) <= log
      ensures asked ==> begins
      ensures begins ==> exists n | |old(log)| <= n < |log| :: OpensAt(log, n, id, request)
      ensures begins ==> Investigated(log, id, request, asked, answer, r)
      ensures !begins && r.Ok? ==> AlreadyInvestigated(log, |old(log)|, id, request, r.value)
      ensures !begins && r.Err? ==> ReconcileExcuse(log, |old(log)|, agent, id, request, r.error)
    {
      hide RunAll, AllAdmissible, AllVetted, OpensAt, ReconcileExcuse, AlreadyInvestigated, Investigated, Evolves;
      begins, asked := false, false;
      Yield();
      if id !in store.tables.attempts {
        LackedNow(log, |old(log)|, agent, id, request, StoreFailed(Missing));
        return Err(StoreFailed(Missing)), begins, asked;
      }
      var attempt := store.tables.attempts[id];
      ghost var read := log;
      Yield();
      AttemptRead(read, log, id, attempt);
      SameStep(attempt, store.tables.attempts[id]);
      if attempt.grant !in store.tables.grants {
        LackedNow(log, |old(log)|, agent, id, request, StoreFailed(Missing));
        return Err(StoreFailed(Missing)), begins, asked;
      }
      if store.tables.grants[attempt.grant].agent != agent {
        ForeignNow(log, |old(log)|, agent, id, request);
        return Err(GrantPrincipal), begins, asked;
      }
      if !Uncertain(attempt.state) {
        Yield();
        if request in HistoryOf(store.tables, id) {
          FoundBefore(read, log, |old(log)|, id, request, attempt);
          return Ok(attempt), begins, asked;
        }
        SettledBefore(read, log, |old(log)|, agent, id, request);
        return Err(NotUnknown), begins, asked;
      }
      ghost var entered := log;
      r, begins, asked := ReconcileUncertain(agent, id, request, attempt, answer, read);
      ExcusedEarlier(log, |old(log)|, |entered|, agent, id, request, r, begins);
    }

    method ReconcileUncertain(agent: PrincipalId, id: AttemptId, request: RequestId, attempt: AttemptRecord, answer: Option<OperationReceipt>,
                              ghost read: seq<Action>)
      returns (r: Result<AttemptRecord, SupervisorError>, begins: bool, asked: bool)
      requires Valid() && read <= log && id in RunAll(EMPTY, read).attempts && RunAll(EMPTY, read).attempts[id] == attempt
      modifies this, store
      ensures Valid() && old(log) <= log
      ensures asked ==> begins
      ensures begins ==> exists n | |old(log)| <= n < |log| :: OpensAt(log, n, id, request)
      ensures begins ==> Investigated(log, id, request, asked, answer, r)
      ensures !begins && r.Ok? ==> AlreadyInvestigated(log, |old(log)|, id, request, r.value)
      ensures !begins && r.Err? ==> ReconcileExcuse(log, |old(log)|, agent, id, request, r.error)
    {
      hide RunAll, AllAdmissible, AllVetted, Evolves, OpensAt, ConfigurationCharge, SameIdentity, ReconcileExcuse, AlreadyInvestigated, Investigated;
      hide HasWitness, UnderInvestigation;
      begins, asked := false, false;
      Yield();
      ghost var earlier := log;
      AttemptRead(read, earlier, id, attempt);
      SameStep(attempt, store.tables.attempts[id]);
      if attempt.plan !in store.tables.plans {
        LackedNow(log, |old(log)|, agent, id, request, StoreFailed(Missing));
        return Err(StoreFailed(Missing)), begins, asked;
      }
      var plan := store.tables.plans[attempt.plan];
      if attempt.operationIndex >= |plan.operations| {
        LackedNow(log, |old(log)|, agent, id, request, OutOfBounds);
        return Err(OutOfBounds), begins, asked;
      }
      var planned := plan.operations[attempt.operationIndex];
      var charge := if plan.setup.ApplyReviewedInstrumentConfiguration? then Some(Budget(1, 0, planned.maxMilliseconds)) else None;
      ChargeIsRead(store.tables, id, attempt, plan, charge);
      var claimed := OpenNow(agent, id, request, charge, earlier);
      if claimed.Err? {
        ExcusedFrom(log, |old(log)|, |earlier|, agent, id, request, StoreFailed(claimed.error));
        return Err(StoreFailed(claimed.error)), begins, asked;
      }
      ghost var begun := log;
      RowRead(earlier, begun, id, attempt, plan);
      SameStep(attempt, store.tables.attempts[id]);
      if claimed.value.ExistingWitness? {
        Yield();
        r := FromStore(Lookup(store.tables.attempts, id));
        FoundAlready(begun, log, |old(log)|, agent, id, request, r);
        return r, begins, asked;
      }
      begins := true;
      ProfileIsStored(begun, id);
      var profile := store.tables.profiles[store.tables.attempts[id].profile];
      BeginsInvestigation(store.tables, id, request, attempt.operationIndex, profile, plan);
      r, asked := Investigate(id, request, attempt.operationIndex, profile, plan, answer, begun);
      OpensStays(begun, log, |begun| - 1, id, request);
    }

    /** Everything after the witness is open: ask the backend and finish with what it proves. */
    method Investigate(id: AttemptId, request: RequestId, index: nat, profile: CommissionedProfile, plan: ReviewedPlan,
                       answer: Option<OperationReceipt>, ghost begun: seq<Action>)
      returns (r: Result<AttemptRecord, SupervisorError>, asked: bool)
      requires Valid() && begun <= log && UnderInvestigation(RunAll(EMPTY, begun), id, request, index, profile, plan)
      modifies this, store
      ensures Valid() && old(log) <= log
      ensures Investigated(log, id, request, asked, answer, r)
    {
      assert index < |plan.operations|;
      hide RunAll, AllAdmissible, AllVetted, UnderInvestigation, Investigated, FinishBySupervisor, JudgedAs, Satisfies, Apply, ValueOf;
      asked := false;
      if plan.setup.ApplyReviewedInstrumentConfiguration? && exists l | l in profile.liveInterlocks :: InstrumentConfigure in l.effects {
        var finished, before := FinishNow(id, request, None, index, profile, plan, begun);
        r := Err(if finished.Err? then StoreFailed(finished.error) else OutOfBounds);
        Concluded(before, id, request, index, profile, plan, asked, answer, None, finished, r);
        return r, asked;
      }
      asked := true;
      if answer.None? || answer.value.RejectedReceipt? || (answer.value.UnknownReceipt? && answer.value.observed.None?) {
        var finished, before := FinishNow(id, request, None, index, profile, plan, begun);
        r := Err(if finished.Err? then StoreFailed(finished.error) else BackendFailed);
        Concluded(before, id, request, index, profile, plan, asked, answer, None, finished, r);
        return r, asked;
      }
      var receipt := CheckPostconditions(plan.operations[index], answer.value);
      var recorded, before := FinishNow(id, request, Some(receipt), index, profile, plan, begun);
      r := FromStore(recorded);
      Concluded(before, id, request, index, profile, plan, asked, answer, Some(receipt), recorded, r);
      return r, asked;
    }

    // ----- Plans -----

    /** Creates the run and submits its first step. */
    method AdmitPlan(agent: PrincipalId, run: RequestId, first: AttemptId, grant: GrantId, plan: PlanId, accepts: bool)
      returns (r: Result<PlanTicket, SupervisorError>)
      requires Valid()
      modifies this, store
      ensures Valid() && old(log) <= log
      ensures r.Ok? ==> PlanPermitted(store.tables, grant, plan)
      ensures r.Ok? ==> Issued(log, |old(log)|, r.value) && r.value == PlanTicket(run, grant, plan, first, 0)
                        && first in store.tables.attempts && store.tables.attempts[first].state == Intent
      ensures r.Err? ==> AdmitExcuse(log, |old(log)|, agent, run, first, grant, plan, accepts, r.error)
    {
      hide Inv, RunAll, AllAdmissible, AllVetted, Issued, Apply, CreateRun, Matches, Permits, PlanPermitted, Interlocked, Accepted, AuthorizedUpTo;
      hide AdmitExcuse, SubmitExcuse, SubmitsAs, Overtaken, PreflightRefused, Submitted;
      ghost var request := SubmitRequest(first, run, grant, plan, 0);
      Yield();
      ghost var read := log;
      if grant !in store.tables.grants {
        Unstored(read, log, |old(log)|, agent, request);
        AdmitExcused(log, |old(log)|, agent, run, first, grant, plan, accepts, StoreFailed(Missing));
        return Err(StoreFailed(Missing));
      }
      var stored := store.tables.grants[grant];
      if stored.agent != agent {
        NotThisAgent(log, |old(log)|, agent, request);
        AdmitExcused(log, |old(log)|, agent, run, first, grant, plan, accepts, GrantPrincipal);
        return Err(GrantPrincipal);
      }
      Yield();
      if Pair(grant, plan) in store.tables.haltedPairs {
        ClosedNow(log, |old(log)|, agent, run, first, grant, plan, accepts);
        return Err(OutOfBounds);
      }
      Yield();
      if Pair(grant, plan) in store.tables.retirements {
        ClosedNow(log, |old(log)|, agent, run, first, grant, plan, accepts);
        return Err(OutOfBounds);
      }
      var profile, reviewed, missing := ReadRecords(stored.profile, plan);
      if missing {
        Unstored(read, log, |old(log)|, agent, request);
        AdmitExcused(log, |old(log)|, agent, run, first, grant, plan, accepts, StoreFailed(Missing));
        return Err(StoreFailed(Missing));
      }
      ghost var loaded := log;
      var ready := PreflightPlan(stored, profile, reviewed, accepts);
      if ready.Err? {
        PreflightSeen(read, log, |old(log)|, grant, plan, accepts);
        AdmitExcused(log, |old(log)|, agent, run, first, grant, plan, accepts, ready.error);
        return Err(ready.error);
      }
      r := AdmitAccepted(agent, run, first, grant, plan, |reviewed.operations|, accepts);
      if r.Err? {
        AdmitExcusedFrom(log, |old(log)|, |loaded|, agent, run, first, grant, plan, accepts, r.error);
        return r;
      }
      IssuedFrom(log, |old(log)|, |loaded|, r.value);
      PreflightStands(read, loaded, log, grant, plan);
    }

    /** Everything after preflight: stores the run and submits its first step. */
    method AdmitAccepted(agent: PrincipalId, run: RequestId, first: AttemptId, grant: GrantId, plan: PlanId, count: nat, accepts: bool)
      returns (r: Result<PlanTicket, SupervisorError>)
      requires Valid() && count > 0
      modifies this, store
      ensures Valid() && old(log) <= log
      ensures r.Ok? ==> Issued(log, |old(log)|, r.value) && r.value == PlanTicket(run, grant, plan, first, 0)
                        && first in store.tables.attempts && store.tables.attempts[first].state == Intent
      ensures r.Err? ==> AdmitExcuse(log, |old(log)|, agent, run, first, grant, plan, accepts, r.error)
    {
      hide Inv, RunAll, AllAdmissible, AllVetted, Issued, Apply, CreateRun, Matches, AdmitExcuse, SubmitExcuse, SubmitsAs, Overtaken, Submitted;
      var request := SubmitRequest(first, run, grant, plan, 0);
      var row := PlanRun(run, agent, grant, plan, PlanSteps(run, first, run, count), 0);
      var created := CreateNow(row, first, accepts);
      if created.Err? { return Err(StoreFailed(created.error)); }
      var ticket := PlanTicket(run, grant, plan, first, 0);
      ghost var issued := log;
      FirstStepMatches(store.tables, row, ticket);
      IssuedNow(issued, |old(log)|, ticket);
      var submission := Submit(agent, request);
      IssuedStays(issued, log, |old(log)|, ticket);
      if submission.Err? {
        SubmitExcusedFrom(log, |old(log)|, |issued|, agent, request, submission.error);
        AdmitExcused(log, |old(log)|, agent, run, first, grant, plan, accepts, submission.error);
        return Err(submission.error);
      }
      if submission.value.AlreadyKnown? && submission.value.attempt.state != Intent {
        IsOvertaken(log, agent, request, submission.value);
        AdmitExcused(log, |old(log)|, agent, run, first, grant, plan, accepts, OutOfBounds);
        return Err(OutOfBounds);
      }
      SubmittedIsOpen(store.tables, request, submission.value);
      return Ok(ticket);
    }

    /** Reads profile and plan, one after the other. */
    method ReadRecords(profileId: ProfileId, planId: PlanId) returns (profile: CommissionedProfile, plan: ReviewedPlan, missing: bool)
      requires Valid()
      modifies this, store
      ensures Valid() && old(log) <= log
      ensures missing <==> profileId !in store.tables.profiles || planId !in store.tables.plans
      ensures !missing ==> store.tables.profiles[profileId] == profile && store.tables.plans[planId] == plan && plan.id == planId && plan.operations != []
      ensures !missing ==> profile.id == profileId
    {
      hide Inv, RunAll, AllAdmissible, AllVetted;
      profile, plan, missing := *, *, true;
      Yield();
      if profileId !in store.tables.profiles { return; }
      profile := store.tables.profiles[profileId];
      ghost var loaded := log;
      Yield();
      ProfileStays(loaded, log, profileId);
      if planId !in store.tables.plans { return; }
      plan := store.tables.plans[planId];
      PlanKey(log, planId);
      ProfileKey(log, profileId);
      missing := false;
    }

    method CreateNow(row: PlanRun, ghost first: AttemptId, ghost accepts: bool) returns (r: Result<(), StoreError>)
      requires Valid()
      modifies this, store
      ensures Valid() && old(log) <= log
      ensures r.Ok? ==> row.id in store.tables.runs && store.tables.runs[row.id].steps == row.steps
      ensures r.Err? ==> AdmitExcuse(log, |old(log)|, row.agent, row.id, first, row.grant, row.plan, accepts, StoreFailed(r.error))
    {
      hide Inv, RunAll, AllAdmissible, AllVetted, Apply, CreateRun, AdmitExcuse;
      Yield();
      ghost var before, j := log, store.tables;
      r := store.CreateRun(row);
      ApplyRuns(j, DoCreateRun(row));
      if r.Ok? { CreatedRun(j, row); } else { CreateFailed(before, |old(log)|, row.agent, row, first, accepts, r.error); }
      Logged(log, j, DoCreateRun(row), store.tables);
      log := log + [DoCreateRun(row)];
    }

    method RepairNow(ghost agent: PrincipalId, id: RequestId) returns (r: Result<PlanRun, StoreError>)
      requires Valid()
      modifies this, store
      ensures Valid() && old(log) <= log
      ensures r.Ok? ==> id in store.tables.runs && store.tables.runs[id] == r.value
      ensures r.Err? ==> ResumeExcuse(log, |old(log)|, agent, id, StoreFailed(r.error))
    {
      hide Inv, RunAll, AllAdmissible, AllVetted, Apply, RepairCursor, ResumeExcuse;
      Yield();
      ghost var before, j := log, store.tables;
      r := store.RepairRunCursor(id);
      ApplyRuns(j, DoRepairCursor(id));
      if r.Ok? { RepairedRow(j, id); } else { RepairFailed(before, |old(log)|, agent, id, r.error); }
      Logged(log, j, DoRepairCursor(id), store.tables);
      log := log + [DoRepairCursor(id)];
    }

    /** Resumes a run at its first step that is not completed; `steps` are the run's steps as repaired by this call. */
    method ResumePlan(agent: PrincipalId, id: RequestId) returns (r: Result<PlanTicket, SupervisorError>, ghost steps: seq<(AttemptId, RequestId)>)
      requires Valid()
      modifies this, store
      ensures Valid() && old(log) <= log
      ensures r.Ok? ==> r.value.run == id && Issued(log, |old(log)|, r.value)
      ensures r.Ok? ==> StoredSteps(log, |old(log)|, id, steps) && ForFirstOpenStep(store.tables, steps, r.value)
      ensures r.Err? ==> ResumeExcuse(log, |old(log)|, agent, id, r.error)
    {
      hide StoredSteps, Inv, RunAll, AllAdmissible, AllVetted, Issued, Submitted, ResumeExcuse, SubmitExcuse, SubmitsAs, Overtaken;
      steps := [];
      var repaired := RepairNow(agent, id);
      if repaired.Err? { return Err(StoreFailed(repaired.error)), steps; }
      var run := repaired.value;
      steps := run.steps;
      ghost var read, before := log, store.tables;
      if run.agent != agent {
        NotThisAgentsRun(log, |old(log)|, agent, id);
        return Err(GrantPrincipal), steps;
      }
      Yield();
      if id in store.tables.haltedRuns {
        NotResumable(read, log, |old(log)|, agent, id, 0);
        return Err(OutOfBounds), steps;
      }
      Yield();
      if Pair(run.grant, run.plan) in store.tables.retirements {
        NotResumable(read, log, |old(log)|, agent, id, 0);
        return Err(OutOfBounds), steps;
      }
      for index := 0 to |run.steps|
        invariant Valid() && old(log) <= read <= log && steps == run.steps
        invariant forall i | 0 <= i < index :: CompletedAt(store.tables.attempts, run.steps, i)
        invariant id in before.runs && before.runs[id] == run && before == RunAll(EMPTY, read)
      {
        ghost var earlier := log;
        Yield();
        CompletedStepsStay(earlier, log, run.steps, index);
        var attempt := run.steps[index].0;
        var ticket := PlanTicket(id, run.grant, run.plan, attempt, index);
        IssuedNow(read, |old(log)|, ticket);
        IssuedStays(read, log, |old(log)|, ticket);
        if attempt in store.tables.attempts {
          var state := store.tables.attempts[attempt].state;
          StepsRead(read, log, |old(log)|, id, steps);
          if state == Intent { return Ok(ticket), steps; }
          if state != Completed {
            NotResumable(read, log, |old(log)|, agent, id, index);
            return Err(OutOfBounds), steps;
          }
        } else {
          ghost var submitted := log;
          var submission := Submit(agent, SubmitRequest(attempt, run.steps[index].1, run.grant, run.plan, index));
          CompletedStepsStay(submitted, log, run.steps, index);
          StepsRead(read, log, |old(log)|, id, steps);
          IssuedStays(submitted, log, |old(log)|, ticket);
          if submission.Err? {
            SubmitExcusedFrom(log, |old(log)|, |submitted|, agent, StepRequest(run, index), submission.error);
            StepFailed(read, log, |old(log)|, agent, id, index, submission.error);
            return Err(submission.error), steps;
          }
          if submission.value.AlreadyKnown? && submission.value.attempt.state != Intent {
            IsOvertaken(log, agent, StepRequest(run, index), submission.value);
            StepFailed(read, log, |old(log)|, agent, id, index, OutOfBounds);
            return Err(OutOfBounds), steps;
          }
          SubmittedIsOpen(store.tables, SubmitRequest(attempt, run.steps[index].1, run.grant, run.plan, index), submission.value);
          return Ok(ticket), steps;
        }
      }
      NotResumable(read, log, |old(log)|, agent, id, 0);
      return Err(OutOfBounds), steps;
    }

    /** Executes a ticket's step, advances its run in two separately locked halves, and submits the next step. */
    method ExecuteNext(agent: PrincipalId, ticket: PlanTicket, outside: Outside)
      returns (r: Result<(AttemptRecord, Option<PlanTicket>), SupervisorError>, executed: bool, ghost m: nat, ghost n: nat)
      requires Valid()
      modifies this, store
      ensures Valid() && old(log) <= log
      ensures r.Ok? && executed ==> RecordedAnswer(store.tables, outside.answer, r.value.0)
      ensures r.Ok? && !executed ==> r.value.0.state == Rejected && Denied(log, |old(log)|, ticket.attempt, outside)
      ensures r.Ok? && r.value.0.state == Completed ==> |old(log)| <= m <= n && Advances(log, m, n, ticket)
      ensures r.Ok? && r.value.1.Some? ==>
                r.value.0.state == Completed && r.value.1.value.index == ticket.index + 1 && r.value.1.value.run == ticket.run
                && Issued(log, |old(log)|, r.value.1.value)
      ensures r.Ok? && r.value.1.None? && r.value.0.state == Completed ==> exists k | |old(log)| <= k <= |log| :: LastStep(At(log, k), ticket)
      ensures r.Err? ==> NextExcuse(log, |old(log)|, agent, ticket, r.error)
    {
      hide Inv, RunAll, AllAdmissible, AllVetted, Issued, Apply, Advances, ClaimedAndCleared, RecordedAnswer, Denied, NextExcuse, At;
      hide SubmitExcuse, SubmitsAs, Overtaken, Submitted, ExecutionFailed, AdvancedRun;
      m, n := 0, 0;
      var attempt, ran := Execute(agent, ticket.attempt, outside);
      executed := ran;
      if attempt.Err? {
        ExecutionExcused(log, |old(log)|, agent, ticket, attempt.error);
        return Err(attempt.error), executed, m, n;
      }
      if attempt.value.state != Completed { return Ok((attempt.value, None)), executed, m, n; }
      ghost var ended := log;
      var advanced, read, written := AdvanceNow(agent, ticket, attempt.value);
      m, n := read, written;
      ghost var advancedLog := log;
      if advanced.Err? {
        NextExcusedFrom(log, |old(log)|, |ended|, agent, ticket, StoreFailed(advanced.error));
        return Err(StoreFailed(advanced.error)), executed, m, n;
      }
      Yield();
      AdvancesStays(advancedLog, log, m, n, ticket);
      if ticket.run !in store.tables.runs {
        NotAdvanced(log, |old(log)|, agent, ticket, StoreFailed(Missing));
        return Err(StoreFailed(Missing)), executed, m, n;
      }
      var steps := store.tables.runs[ticket.run].steps;
      var next := ticket.index + 1;
      AnswerKept(ended, log, executed, outside.answer, attempt.value);
      if next == |steps| {
        LastSeen(log, |old(log)|, ticket);
        return Ok((attempt.value, None)), executed, m, n;
      }
      if next > |steps| {
        NotAdvanced(log, |old(log)|, agent, ticket, OutOfBounds);
        return Err(OutOfBounds), executed, m, n;
      }
      var following := PlanTicket(ticket.run, ticket.grant, ticket.plan, steps[next].0, next);
      IssuedNow(log, |old(log)|, following);
      ghost var issued := log;
      var request := SubmitRequest(steps[next].0, steps[next].1, ticket.grant, ticket.plan, next);
      var submission := Submit(agent, request);
      IssuedStays(issued, log, |old(log)|, following);
      AdvancesStays(issued, log, m, n, ticket);
      AnswerKept(issued, log, executed, outside.answer, attempt.value);
      if submission.Err? {
        SubmitExcusedFrom(log, |old(log)|, |issued|, agent, request, submission.error);
        FollowUpRefused(issued, log, |old(log)|, agent, ticket, submission.error);
        return Err(submission.error), executed, m, n;
      }
      if submission.value.AlreadyKnown? && submission.value.attempt.state != Intent {
        IsOvertaken(log, agent, request, submission.value);
        FollowUpRefused(issued, log, |old(log)|, agent, ticket, OutOfBounds);
        return Err(OutOfBounds), executed, m, n;
      }
      return Ok((attempt.value, Some(following))), executed, m, n;
    }

    /** Reads the run under one lock and writes it back under another. */
    method AdvanceNow(ghost agent: PrincipalId, ticket: PlanTicket, attempt: AttemptRecord) returns (r: Result<(), StoreError>, ghost m: nat, ghost n: nat)
      requires Valid() && attempt.state == Completed
      requires ticket.attempt in store.tables.attempts && store.tables.attempts[ticket.attempt] == attempt
      modifies this, store
      ensures Valid() && old(log) <= log
      ensures r.Ok? ==> |old(log)| <= m <= n && Advances(log, m, n, ticket)
      ensures r.Err? ==> NextExcuse(log, |old(log)|, agent, ticket, StoreFailed(r.error))
    {
      hide Inv, RunAll, AllAdmissible, AllVetted, Apply, NextExcuse;
      m, n := 0, 0;
      ghost var earlier := log;
      Yield();
      m := |log|;
      ghost var read := log;
      var row := store.ReadRun(ticket.run, ticket.index);
      if row.Err? {
        NotAdvanced(log, |old(log)|, agent, ticket, StoreFailed(row.error));
        return Err(row.error), m, n;
      }
      CompletedStays(earlier, read, ticket.attempt);
      Yield();
      ghost var before, j := log, store.tables;
      n := |before|;
      store.SaveRun(row.value);
      ApplyRuns(j, DoWriteRun(row.value));
      Logged(log, j, DoWriteRun(row.value), store.tables);
      log := log + [DoWriteRun(row.value)];
      AdvancesLogged(read, before, row.value, ticket);
      return Ok(()), m, n;
    }

    /** Hands unresolved leases to a recovery run, and returns its first ticket. */
    method TakeoverRecovery(authority: PrincipalId, unresolved: seq<AttemptId>, request: RequestId, run: RequestId, first: AttemptId,
                            grant: GrantId, plan: PlanId, justification: string, accepts: bool)
      returns (r: Result<PlanTicket, SupervisorError>, ghost outcome: ReservationOutcome)
      requires Valid()
      modifies this, store
      ensures Valid() && old(log) <= log
      ensures r.Ok? ==> PlanPermitted(store.tables, grant, plan) && r.value == PlanTicket(run, grant, plan, first, 0)
      ensures r.Ok? ==>
                && log != [] && RecoversAs(log[|log| - 1], authority, unresolved, request, run, first, grant, plan, justification)
                && var a := log[|log| - 1]; var tx := TakeOver(At(log, |log| - 1), a.proposed, a.snapshot, a.created, a.recovery, a.now);
                   tx.Ok? && tx.value.value == outcome && r.value.Ticket() == TakeoverTicket(a.created, outcome)
      ensures r.Err? ==> TakeoverExcuse(log, |old(log)|, authority, unresolved, request, run, first, grant, plan, justification, accepts, r.error)
    {
      hide Inv, RunAll, AllAdmissible, AllVetted, Apply, TakeOver, TotalCost, Handoff, Proposal, At, CommissionedProfile.PhysicalResources;
      hide Permits, PlanPermitted, Interlocked, Admissible, Vetted, Keyed, Contiguous, Bound, Accepted, AuthorizedUpTo, TakeoverExcuse, PreflightRefused, FitsU64;
      outcome := *;
      if unresolved == [] {
        NothingNamed(log, |old(log)|, authority, request, run, first, grant, plan, justification, accepts);
        return Err(OutOfBounds), outcome;
      }
      Yield();
      ghost var read := log;
      if grant !in store.tables.grants {
        TakeoverUnstored(read, log, |old(log)|, authority, unresolved, request, run, first, grant, plan, justification, accepts);
        return Err(StoreFailed(Missing)), outcome;
      }
      var stored := store.tables.grants[grant];
      var profile, reviewed, missing := ReadRecords(stored.profile, plan);
      if missing {
        TakeoverUnstored(read, log, |old(log)|, authority, unresolved, request, run, first, grant, plan, justification, accepts);
        return Err(StoreFailed(Missing)), outcome;
      }
      ghost var loaded := log;
      var ready := PreflightPlan(stored, profile, reviewed, accepts);
      if ready.Err? {
        PreflightSeen(read, log, |old(log)|, grant, plan, accepts);
        TakeoverNotAccepted(log, |old(log)|, authority, unresolved, request, run, first, grant, plan, justification, accepts, ready.error);
        return Err(ready.error), outcome;
      }
      var total := PlanBudget(reviewed.operations);
      if total.None? {
        TakeoverOffPlan(log, |old(log)|, authority, unresolved, request, run, first, grant, plan, justification, accepts);
        return Err(OutOfBounds), outcome;
      }
      var row := PlanRun(run, stored.agent, grant, plan, PlanSteps(run, first, request, |reviewed.operations|), 0);
      var proposed := AttemptRecord(first, request, grant, plan, 0, Sha256(reviewed), total.value, profile.id, Sha256(profile),
                                    profile.PhysicalResources(), Intent, None);
      var recovery := RecoveryTakeover(request, run, first, unresolved, grant, plan, proposed.leasedResources, justification, authority);
      var snapshot := AdmissionSnapshot(stored.agent, profile, reviewed);
      assert Proposal(proposed, snapshot) && Handoff(proposed, row, recovery) by { HandoffBuilt(proposed, snapshot, row, recovery); }
      assert VettedProposal(RunAll(EMPTY, read), proposed, snapshot) by { FirstIsVetted(stored, profile, reviewed, RunAll(EMPTY, read), proposed, snapshot); }
      Yield();
      var now: int := *;
      ghost var before, j := log, store.tables;
      ghost var action := DoTakeOver(proposed, snapshot, row, recovery, now);
      assert RecoversAs(action, authority, unresolved, request, run, first, grant, plan, justification);
      hide RecoversAs, VettedProposal;
      var taken := store.TakeoverRecovery(proposed, snapshot, row, recovery, now);
      ApplyRuns(j, action);
      StillVetted(read, log, proposed, snapshot);
      HandoffVetted(j, proposed, snapshot, row, recovery, now);
      Logged(log, j, action, store.tables);
      log := log + [action];
      if taken.Err? {
        TakeoverFailed(before, |old(log)|, action, authority, unresolved, request, run, first, grant, plan, justification, accepts, taken.error);
        return Err(StoreFailed(taken.error)), outcome;
      }
      outcome := taken.value;
      LogInv(before);
      TakenAttempt(j, proposed, snapshot, row, recovery, now);
      LastTwo(before, action);
      PreflightStands(read, loaded, log, grant, plan);
      return Ok(PlanTicket(run, grant, plan, taken.value.attempt.id, 0)), outcome;
    }
  }
}
