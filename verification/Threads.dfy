/** What the supervisor's threads rely on: its requests and answers, and what a log of committed actions says about any
    later point of it. */
module Threads {
  import opened Wrappers
  import opened Conditions
  import opened Domain
  import opened Journal
  import opened Actions
  import opened Invariant
  import opened Preservation
  import opened Admitting
  import opened Evolution
  import opened Histories
  import opened Interlocks
  import opened Cursors
  import opened Store
  import opened Authority
  import opened Permissions
  import opened Isolation
  import opened Guarding

  datatype SupervisorError =
    | StoreFailed(error: StoreError)
    | GrantPrincipal
    | OutOfBounds
    | NotUnknown
    | BackendFailed
    | Refused(refusal: Refusal)

  datatype SubmitRequest = SubmitRequest(attempt: AttemptId, request: RequestId, grant: GrantId, plan: PlanId, index: nat)

  datatype Submission = AlreadyKnown(attempt: AttemptRecord) | Admitted(id: AttemptId)

  datatype PlanTicket = PlanTicket(run: RequestId, grant: GrantId, plan: PlanId, attempt: AttemptId, index: nat) {
    function Ticket(): Cursors.Ticket {
      Cursors.Ticket(run, attempt, index)
    }
  }

  function FromStore<T>(r: Result<T, StoreError>): Result<T, SupervisorError> {
    if r.Ok? then Ok(r.value) else Err(StoreFailed(r.error))
  }

  // ----- Budgets and step identities -----

  lemma {:induction false} TotalCostSplits(operations: seq<PlannedOperation>, n: nat)
    requires n < |operations|
    ensures TotalCost(operations[n..]) == Plus(operations[n].WorstCaseBudget(), TotalCost(operations[n + 1..]))
  {
    assert operations[n..][1..] == operations[n + 1..];
  }

  predicate FitsU64(b: Budget) {
    b.effects < U64_LIMIT && b.bytes < U64_LIMIT && b.milliseconds < U64_LIMIT
  }

  /** The checked fold succeeds exactly when the exact total fits 64 bits, and then it is the exact total. */
  method PlanBudget(operations: seq<PlannedOperation>) returns (r: Option<Budget>)
    ensures r == if FitsU64(TotalCost(operations)) then Some(TotalCost(operations)) else None
  {
    var total := ZERO;
    assert operations[0..] == operations;
    for n := 0 to |operations|
      invariant FitsU64(total) && Plus(total, TotalCost(operations[n..])) == TotalCost(operations)
    {
      hide PlannedOperation.WorstCaseBudget, TotalCost;
      TotalCostSplits(operations, n);
      var next := total.CheckedAdd(operations[n].WorstCaseBudget());
      if next.None? { return None; }
      total := next.value;
    }
    return Some(total);
  }

  /** Later steps get identities derived from the run and the step number; the digest is taken as injective. */
  function StepToken(run: RequestId, index: nat): string {
    "plan-step:" + run.name + ":" + DecimalOf(index)
  }

  function PlanSteps(run: RequestId, attempt: AttemptId, request: RequestId, count: nat): (steps: seq<(AttemptId, RequestId)>)
    requires count > 0
    ensures |steps| == count && steps[0] == (attempt, request)
  {
    [(attempt, request)]
    + seq(count - 1, i requires 0 <= i < count - 1 =>
          (AttemptId("a" + StepToken(run, i + 1)), RequestId("r" + StepToken(run, i + 1))))
  }

  lemma TokensDiffer(run: RequestId, i: nat, k: nat)
    requires i != k
    ensures StepToken(run, i) != StepToken(run, k)
  {
    hide StepToken, DecimalOf;
    DecimalRoundTrip(i);
    DecimalRoundTrip(k);
    TokenDecimal(run, i);
    TokenDecimal(run, k);
  }

  lemma PrefixedDiffer(prefix: string, a: string, b: string)
    requires a != b
    ensures prefix + a != prefix + b
  {
    assert (prefix + a)[|prefix|..] == a && (prefix + b)[|prefix|..] == b;
  }

  /** Derived step identities never collide within a run. */
  lemma StepIdentitiesAreDistinct(run: RequestId, attempt: AttemptId, request: RequestId, count: nat, i: nat, k: nat)
    requires 0 < i < k < count
    ensures PlanSteps(run, attempt, request, count)[i].0 != PlanSteps(run, attempt, request, count)[k].0
    ensures PlanSteps(run, attempt, request, count)[i].1 != PlanSteps(run, attempt, request, count)[k].1
  {
    hide StepToken;
    TokensDiffer(run, i, k);
    PrefixedDiffer("a", StepToken(run, i), StepToken(run, k));
    PrefixedDiffer("r", StepToken(run, i), StepToken(run, k));
  }

  lemma TokenDecimal(run: RequestId, index: nat)
    ensures var prefix := "plan-step:" + run.name + ":";
            |prefix| <= |StepToken(run, index)| && StepToken(run, index)[|prefix|..] == DecimalOf(index)
  {
    var prefix := "plan-step:" + run.name + ":";
    assert StepToken(run, index) == prefix + DecimalOf(index);
    hide DecimalOf;
  }

  // ----- Histories as logs -----

  lemma {:induction false} RunAllConcat(j: Journal, a: seq<Action>, b: seq<Action>)
    ensures RunAll(j, a + b) == RunAll(RunAll(j, a), b)
    decreases |b|
  {
    hide Apply;
    if b == [] {
      assert a + b == a;
    } else {
      RunAllConcat(j, a, b[..|b| - 1]);
      assert (a + b)[..|a + b| - 1] == a + b[..|b| - 1];
    }
  }

  lemma AtPrefix(a: seq<Action>, b: seq<Action>, n: nat)
    requires a <= b && n <= |a|
    ensures At(b, n) == At(a, n)
  {
    assert b[..n] == a[..n];
  }

  lemma AtEnd(a: seq<Action>)
    ensures At(a, |a|) == RunAll(EMPTY, a)
  {
    assert a[..|a|] == a;
  }

  /** One more action of a log. */
  lemma Logged(log: seq<Action>, j: Journal, action: Action, k: Journal)
    requires AllAdmissible(log) && AllVetted(log) && j == RunAll(EMPTY, log)
    requires Admissible(action) && Vetted(j, action) && k == Apply(j, action)
    ensures AllAdmissible(log + [action]) && AllVetted(log + [action]) && k == RunAll(EMPTY, log + [action])
  {
    hide Apply, Admissible, Vetted;
    var more := log + [action];
    assert more[..|log|] == log;
    assert [action][..0] == [] && [action][0] == action;
    VettedConcat(log, [action]);
  }

  /** Other threads authorize what they admit, too. */
  lemma VettedConcat(log: seq<Action>, others: seq<Action>)
    requires AllVetted(log) && VettedFrom(RunAll(EMPTY, log), others)
    ensures AllVetted(log + others)
  {
    hide Apply, Vetted, RunAll;
    forall n | 0 <= n < |log + others|
      ensures Vetted(RunAll(EMPTY, (log + others)[..n]), (log + others)[n])
    {
      if n < |log| {
        assert (log + others)[..n] == log[..n];
      } else {
        assert (log + others)[..n] == log + others[..n - |log|];
        RunAllConcat(EMPTY, log, others[..n - |log|]);
      }
    }
  }

  /** The grant terms that authorized a proposal still stand. */
  lemma StillVetted(earlier: seq<Action>, log: seq<Action>, a: AttemptRecord, snapshot: AdmissionSnapshot)
    requires AllAdmissible(log) && earlier <= log && a.grant in RunAll(EMPTY, earlier).grants
    requires VettedProposal(RunAll(EMPTY, earlier), a, snapshot)
    ensures VettedProposal(RunAll(EMPTY, log), a, snapshot)
  {
    hide RunAll, ReviewedFor, Qualified, WithinLimits;
    LogTerms(earlier, log);
  }

  lemma LogTerms(earlier: seq<Action>, log: seq<Action>)
    requires AllAdmissible(log) && earlier <= log
    ensures TermsStay(RunAll(EMPTY, earlier), RunAll(EMPTY, log))
  {
    hide RunAll, TermsStay;
    AtEnd(earlier);
    AtEnd(log);
    AtPrefix(earlier, log, |earlier|);
    TermsAreFixed(log, |earlier|, |log|);
  }

  lemma LogInv(log: seq<Action>)
    requires AllAdmissible(log)
    ensures Inv(RunAll(EMPTY, log)) && Keyed(RunAll(EMPTY, log)) && Contiguous(RunAll(EMPTY, log)) && Bound(RunAll(EMPTY, log))
  {
    AtEnd(log);
    AtKeepsInv(log, |log|);
    hide At, RunAll;
  }

  /** What an earlier point of a log says about a later one. */
  lemma LogEvolves(earlier: seq<Action>, later: seq<Action>)
    requires AllAdmissible(later) && earlier <= later
    ensures Evolves(RunAll(EMPTY, earlier), RunAll(EMPTY, later))
  {
    hide Evolves;
    AtEnd(earlier);
    AtEnd(later);
    AtPrefix(earlier, later, |earlier|);
    AtEvolves(later, |earlier|, |later|);
  }

  lemma PlanKey(log: seq<Action>, id: PlanId)
    requires AllAdmissible(log) && id in RunAll(EMPTY, log).plans
    ensures RunAll(EMPTY, log).plans[id].id == id && RunAll(EMPTY, log).plans[id].operations != []
  {
    hide Inv, RunAll, Contiguous, Bound;
    LogInv(log);
  }

  /** The stored records permit every operation of the plan. */
  ghost predicate PlanPermitted(j: Journal, grant: GrantId, plan: PlanId) {
    && grant in j.grants && plan in j.plans && j.grants[grant].profile in j.profiles
    && forall i | 0 <= i < |j.plans[plan].operations| ::
         Permits(j.grants[grant], j.profiles[j.grants[grant].profile], j.plans[plan], j.plans[plan].operations[i])
  }

  lemma PlanStaysPermitted(j: Journal, k: Journal, grant: GrantId, plan: PlanId)
    requires PlanPermitted(j, grant, plan) && TermsStay(j, k) && RecordsEvolve(j, k)
    ensures PlanPermitted(k, grant, plan)
  {
    hide ReviewedFor, Qualified, WithinLimits;
  }

  /** What preflight checked of records read at different times still holds of the records stored now. */
  lemma PreflightStands(read: seq<Action>, loaded: seq<Action>, log: seq<Action>, grant: GrantId, plan: PlanId)
    requires AllAdmissible(log) && read <= loaded <= log
    requires grant in RunAll(EMPTY, read).grants && plan in RunAll(EMPTY, loaded).plans
    requires RunAll(EMPTY, read).grants[grant].profile in RunAll(EMPTY, loaded).profiles
    requires var g := RunAll(EMPTY, read).grants[grant]; var p := RunAll(EMPTY, loaded).plans[plan];
             AuthorizedUpTo(g, RunAll(EMPTY, loaded).profiles[g.profile], p, |p.operations|)
    ensures PlanPermitted(RunAll(EMPTY, log), grant, plan)
  {
    assert AllAdmissible(loaded);
    LogTerms(read, loaded);
    LogTerms(loaded, log);
    LogEvolves(loaded, log);
    hide RunAll, AllAdmissible, StepsEvolve, WitnessesEvolve, ClosuresEvolve, AttemptsEvolve, ReviewedFor, Qualified, WithinLimits;
    assert PlanPermitted(RunAll(EMPTY, loaded), grant, plan);
    hide TermsStay, Permits, PlanPermitted, RecordsEvolve;
    PlanStaysPermitted(RunAll(EMPTY, loaded), RunAll(EMPTY, log), grant, plan);
  }

  /** The authorization repeated between claim and dispatch cannot fail. */
  lemma ClaimedIsAuthorized(log: seq<Action>, c: Claimed)
    requires AllAdmissible(log) && AllVetted(log) && log != []
    requires ClaimAt(log, |log| - 1) == Some(c.attempt) && c.StoredIn(RunAll(EMPTY, log))
    ensures Authorize(c.grant, c.profile, c.plan, c.plan.operations[c.attempt.operationIndex]).Ok?
  {
    hide At, RunAll, AllAdmissible, AllVetted, ClaimAt, Permits;
    DispatchIsPermitted(log, |log| - 1, |log|);
    AtEnd(log);
    ClaimKeepsGrants(log);
  }

  lemma ClaimKeepsGrants(log: seq<Action>)
    requires log != [] && ClaimAt(log, |log| - 1).Some?
    ensures At(log, |log|).grants == At(log, |log| - 1).grants
  {
    hide At, Apply, ClaimDispatch;
    Step(log, |log| - 1);
    GrantsUntouched(At(log, |log| - 1), log[|log| - 1]);
  }

  /** What a submission promises about the journal it returns from. */
  predicate Submitted(j: Journal, request: SubmitRequest, s: Submission) {
    var id := if s.Admitted? then s.id else s.attempt.id;
    && id == request.attempt && id in j.attempts
    && j.attempts[id].Owner() == Pair(request.grant, request.plan)
    && j.attempts[id].operationIndex == request.index
    && (s.Admitted? ==> j.attempts[id].state == Intent)
    && (s.AlreadyKnown? ==> s.attempt == j.attempts[id])
  }

  lemma ApplyReserve(j: Journal, proposed: AttemptRecord, snapshot: AdmissionSnapshot, now: int)
    ensures Apply(j, DoReserve(proposed, snapshot, now)) == After(j, Reserve(j, proposed, snapshot, now))
    ensures Proposal(proposed, snapshot) ==> Admissible(DoReserve(proposed, snapshot, now))
    ensures VettedProposal(j, proposed, snapshot) ==> Vetted(j, DoReserve(proposed, snapshot, now))
  {
    hide Reserve, After, Proposal, VettedProposal;
  }

  lemma ReserveLogged(read: seq<Action>, log: seq<Action>, j: Journal, proposed: AttemptRecord, snapshot: AdmissionSnapshot, now: int)
    requires AllAdmissible(log) && AllVetted(log) && j == RunAll(EMPTY, log) && read <= log
    requires Proposal(proposed, snapshot) && proposed.grant in RunAll(EMPTY, read).grants && VettedProposal(RunAll(EMPTY, read), proposed, snapshot)
    ensures var more := log + [DoReserve(proposed, snapshot, now)];
            AllAdmissible(more) && AllVetted(more) && After(j, Reserve(j, proposed, snapshot, now)) == RunAll(EMPTY, more)
  {
    hide Proposal, Reserve, RunAll, Apply, AllAdmissible, AllVetted, Vetted, VettedProposal, Admissible, After;
    ApplyReserve(j, proposed, snapshot, now);
    StillVetted(read, log, proposed, snapshot);
    Logged(log, j, DoReserve(proposed, snapshot, now), After(j, Reserve(j, proposed, snapshot, now)));
  }

  lemma ReservedOutcome(j: Journal, proposed: AttemptRecord, snapshot: AdmissionSnapshot, now: int, request: SubmitRequest)
    requires Contiguous(j) && Keyed(j) && proposed.state == Intent && Reserve(j, proposed, snapshot, now).Ok?
    requires proposed.id == request.attempt && proposed.Owner() == Pair(request.grant, request.plan) && proposed.operationIndex == request.index
    ensures var tx := Reserve(j, proposed, snapshot, now).value;
            Submitted(tx.journal, request, if tx.value.Existing? then AlreadyKnown(tx.value.attempt) else Admitted(proposed.id))
  {
    hide Contiguous, Keyed, AdmissionContext, NextIndex, SameRun, Available, LeaseTo;
    if AttemptForRequest(j, proposed.request).Some? {
      RepeatedReserve(j, proposed, snapshot, now);
      AttemptKey(j, j.byRequest[proposed.request]);
    } else {
      ReserveShape(j, proposed, snapshot, now);
    }
  }

  // ----- Execution -----

  /** Whatever other threads did since the claim, the release decision made from the claimed plan is still the
      decision the stored plan calls for. */
  lemma ReleaseIsStillRight(j: Journal, k: Journal, id: AttemptId, receipt: OperationReceipt)
    requires Evolves(j, k) && id in j.attempts && j.attempts[id].plan in j.plans
    ensures id in k.attempts && k.attempts[id] == j.attempts[id].(state := k.attempts[id].state, receipt := k.attempts[id].receipt)
    ensures SupervisorReleases(k, k.attempts[id], receipt) == SupervisorReleases(j, j.attempts[id], receipt)
    ensures ConfigurationCharge(k, k.attempts[id]) == ConfigurationCharge(j, j.attempts[id])
    ensures FinalStep(k, k.attempts[id]) == FinalStep(j, j.attempts[id])
  {
    assert AttemptEvolves(j.attempts[id], k.attempts[id]);
    hide AttemptsEvolve, StepsEvolve, WitnessesEvolve, ClosuresEvolve;
  }

  lemma ApplyRecord(j: Journal, id: AttemptId, receipt: OperationReceipt, release: bool)
    requires id in j.attempts && release == SupervisorReleases(j, j.attempts[id], receipt)
    ensures Apply(j, DoRecordReceipt(id, receipt)) == After(j, RecordReceipt(j, id, receipt, release))
  {
    hide RecordReceipt, SupervisorReleases, After;
  }

  lemma RecordedRow(j: Journal, id: AttemptId, receipt: OperationReceipt, release: bool)
    requires RecordReceipt(j, id, receipt, release).Ok?
    ensures var tx := RecordReceipt(j, id, receipt, release).value;
            && id in tx.journal.attempts && tx.journal.attempts[id] == tx.value && tx.value.state == receipt.State()
            && id in j.attempts && tx.value.id == j.attempts[id].id
            && tx.value.receipt == Some(receipt)
  {
    hide ReleaseOnOutcome;
  }

  lemma ApplyClaim(j: Journal, id: AttemptId, agent: PrincipalId, now: int)
    ensures Apply(j, DoClaimDispatch(id, agent, now)) == After(j, ClaimDispatch(j, id, agent, now))
  {
    hide ClaimDispatch, After;
  }

  /** A successful claim at the end of a log is a claim of the history, with its stored context. */
  lemma ClaimLogged(log: seq<Action>, id: AttemptId, agent: PrincipalId, now: int)
    requires AllAdmissible(log) && ClaimDispatch(RunAll(EMPTY, log), id, agent, now).Ok?
    ensures var action := DoClaimDispatch(id, agent, now); var c := ClaimDispatch(RunAll(EMPTY, log), id, agent, now).value.value;
            ClaimAt(log + [action], |log|) == Some(c) && c.id == id
  {
    hide ClaimDispatch, Inv, Keyed, Bound, Contiguous, RunAll, At;
    AtPrefix(log, log + [DoClaimDispatch(id, agent, now)], |log|);
    AtEnd(log);
    LogInv(log);
    ClaimedRecord(RunAll(EMPTY, log), id, agent, now);
    AttemptKeyOf(RunAll(EMPTY, log), id, agent, now);
  }

  lemma AttemptKeyOf(j: Journal, id: AttemptId, agent: PrincipalId, now: int)
    requires Contiguous(j) && ClaimDispatch(j, id, agent, now).Ok?
    ensures ClaimDispatch(j, id, agent, now).value.value.id == id
  {
    AttemptKey(j, id);
    hide Contiguous, ActiveGrant, BoundContext, OwnsAll;
  }

  /** Later actions do not change what an earlier action of the log claimed. */
  lemma ClaimStays(a: seq<Action>, b: seq<Action>, n: nat)
    requires a <= b && n < |a|
    ensures ClaimAt(b, n) == ClaimAt(a, n)
  {
    AtPrefix(a, b, n);
    hide At, ClaimDispatch;
  }

  /** What one dispatch claim hands to the executing thread. */
  datatype Claimed = Claimed(attempt: AttemptRecord, grant: Grant, profile: CommissionedProfile, plan: ReviewedPlan) {
    /** The claim is stored in `j` together with the records it was bound to. */
    ghost predicate StoredIn(j: Journal) {
      && attempt.id in j.attempts && j.attempts[attempt.id] == attempt
      && attempt.grant in j.grants && j.grants[attempt.grant] == grant
      && attempt.plan in j.plans && j.plans[attempt.plan] == plan
      && attempt.profile in j.profiles && j.profiles[attempt.profile] == profile
      && attempt.operationIndex < |plan.operations|
    }
  }

  lemma ClaimContext(j: Journal, id: AttemptId, agent: PrincipalId, now: int)
    requires Contiguous(j) && Bound(j) && ClaimDispatch(j, id, agent, now).Ok?
    ensures var tx := ClaimDispatch(j, id, agent, now).value;
            && tx.value.grant in tx.journal.grants && tx.value.profile in tx.journal.profiles && tx.value.plan in tx.journal.plans
            && Claimed(tx.value, tx.journal.grants[tx.value.grant], tx.journal.profiles[tx.value.profile], tx.journal.plans[tx.value.plan]).StoredIn(tx.journal)
  {
    assert BoundTo(j, j.attempts[id]);
    ClaimedRecord(j, id, agent, now);
    hide Bound, Contiguous, BoundTo, ClaimDispatch, OwnsAll;
    PlanBound(j, id, agent, now);
  }

  lemma PlanBound(j: Journal, id: AttemptId, agent: PrincipalId, now: int)
    requires Bound(j) && ClaimDispatch(j, id, agent, now).Ok?
    ensures var c := ClaimDispatch(j, id, agent, now).value.value;
            && c.grant in j.grants && c.profile in j.profiles && c.plan in j.plans && c.operationIndex < |j.plans[c.plan].operations|
  {
    assert BoundTo(j, j.attempts[id]);
    hide Bound, ActiveGrant, BoundContext, OwnsAll, TotalCost;
  }

  /** Every interlock that gates the attempt has a fresh, satisfied witness. */
  ghost predicate Cleared(j: Journal, attempt: AttemptRecord, profile: CommissionedProfile, plan: ReviewedPlan)
    requires attempt.operationIndex < |plan.operations|
  {
    forall l | l in profile.liveInterlocks && Gates(l, plan.operations[attempt.operationIndex].operation) ::
      exists now, captured :: Fresh(j, attempt, plan, l, now, captured)
  }

  /** Action `n` of the log claimed attempt `id`; at the later point `m` the stored records permitted its operation
      and its interlocks were clear. */
  ghost predicate ClaimedAndCleared(log: seq<Action>, n: nat, m: nat, id: AttemptId) {
    && n < m <= |log| && ClaimAt(log, n).Some?
    && var a := ClaimAt(log, n).value;
       && a.id == id && a.profile in At(log, m).profiles && a.plan in At(log, m).plans
       && a.operationIndex < |At(log, m).plans[a.plan].operations|
       && PermittedIn(At(log, m), a)
       && Cleared(At(log, m), a, At(log, m).profiles[a.profile], At(log, m).plans[a.plan])
  }

  lemma Clears(earlier: seq<Action>, log: seq<Action>, c: Claimed)
    requires AllAdmissible(log) && AllVetted(log) && earlier <= log && |earlier| > 0
    requires c.StoredIn(RunAll(EMPTY, earlier)) && ClaimAt(earlier, |earlier| - 1) == Some(c.attempt)
    requires Cleared(RunAll(EMPTY, log), c.attempt, c.profile, c.plan)
    ensures ClaimedAndCleared(log, |earlier| - 1, |log|, c.attempt.id)
  {
    hide RunAll, AllAdmissible, AllVetted, ClaimAt, At, Cleared, Evolves, PermittedIn;
    ClaimStays(earlier, log, |earlier| - 1);
    DispatchIsPermitted(log, |earlier| - 1, |log|);
    AtEnd(log);
    LogEvolves(earlier, log);
    RecordsStay(RunAll(EMPTY, earlier), RunAll(EMPTY, log), c);
  }

  lemma RecordsStay(j: Journal, k: Journal, c: Claimed)
    requires Evolves(j, k) && c.StoredIn(j)
    ensures c.attempt.plan in k.plans && k.plans[c.attempt.plan] == c.plan
    ensures c.attempt.profile in k.profiles && k.profiles[c.attempt.profile] == c.profile
  {
    hide AttemptsEvolve, StepsEvolve, WitnessesEvolve, ClosuresEvolve;
  }

  lemma ClearedStays(a: seq<Action>, b: seq<Action>, n: nat, m: nat, id: AttemptId)
    requires a <= b && ClaimedAndCleared(a, n, m, id)
    ensures ClaimedAndCleared(b, n, m, id)
  {
    hide At, ClaimAt, Cleared, PermittedIn;
    ClaimStays(a, b, n);
    AtPrefix(a, b, m);
  }

  /** What `Execute` ensures is enough for isolation: under every interlock that gates the dispatched operation, the
      same run dispatched the witnessing step earlier, and nothing in between interferes. */
  lemma ExecutionIsIsolated(log: seq<Action>, n: nat, m: nat, id: AttemptId, interlock: LiveInterlock) returns (observed: nat)
    requires AllAdmissible(log) && ClaimedAndCleared(log, n, m, id)
    requires var a, j := ClaimAt(log, n).value, At(log, m);
             interlock in j.profiles[a.profile].liveInterlocks && Gates(interlock, j.plans[a.plan].operations[a.operationIndex].operation)
    ensures Guards(log, observed, n, interlock)
    ensures forall between | observed < between < n :: Isolated(log, between, n)
  {
    hide At, ClaimAt, PermittedIn, Gates, Fresh, Guards, Isolated, AllAdmissible;
    var a, j := ClaimAt(log, n).value, At(log, m);
    assert Cleared(j, a, j.profiles[a.profile], j.plans[a.plan]);
    var now, captured :| Fresh(j, a, j.plans[a.plan], interlock, now, captured);
    observed := AcceptedIsGuarded(log, n, m, interlock, now, captured);
    forall between | observed < between < n
      ensures Isolated(log, between, n)
    {
      InterlockIsolation(log, observed, between, n, interlock);
    }
  }

  /** What was claimed and cleared stays so in every later log. */
  lemma DispatchStands(earlier: seq<Action>, checked: seq<Action>, log: seq<Action>, c: Claimed)
    requires AllAdmissible(checked) && AllVetted(checked) && earlier <= checked <= log && |earlier| > 0
    requires c.StoredIn(RunAll(EMPTY, earlier)) && ClaimAt(earlier, |earlier| - 1) == Some(c.attempt)
    requires Cleared(RunAll(EMPTY, checked), c.attempt, c.profile, c.plan)
    ensures ClaimedAndCleared(log, |earlier| - 1, |checked|, c.attempt.id)
  {
    hide RunAll, AllAdmissible, AllVetted, ClaimAt, Cleared, ClaimedAndCleared, Claimed.StoredIn;
    Clears(earlier, checked, c);
    ClearedStays(checked, log, |earlier| - 1, |checked|, c.attempt.id);
  }

  // ----- Reconciliation -----

  /** Action `n` of the log begun the witness `request` of attempt `id`. */
  ghost predicate OpensAt(log: seq<Action>, n: nat, id: AttemptId, request: RequestId) {
    && n < |log| && request !in At(log, n).reconciliations
    && request in At(log, n + 1).reconciliations && At(log, n + 1).reconciliations[request].attempt == id
  }

  /** A reconciliation request opens at most one witness, and so is investigated at most once. */
  lemma OpenedOnlyOnce(log: seq<Action>, m: nat, n: nat, a: AttemptId, b: AttemptId, request: RequestId)
    requires AllAdmissible(log) && OpensAt(log, m, a, request) && OpensAt(log, n, b, request)
    ensures m == n && a == b
  {
    hide At, AttemptsEvolve, StepsEvolve, RecordsEvolve, ClosuresEvolve;
    if m < n {
      AtEvolves(log, m + 1, n);
      assert false;
    } else if n < m {
      AtEvolves(log, n + 1, m);
      assert false;
    }
  }

  lemma OpensStays(a: seq<Action>, b: seq<Action>, n: nat, id: AttemptId, request: RequestId)
    requires a <= b && OpensAt(a, n, id, request)
    ensures OpensAt(b, n, id, request)
  {
    hide At;
    AtPrefix(a, b, n);
    AtPrefix(a, b, n + 1);
  }

  lemma LastTwo(log: seq<Action>, action: Action)
    ensures At(log + [action], |log|) == RunAll(EMPTY, log)
    ensures At(log + [action], |log| + 1) == RunAll(EMPTY, log + [action])
  {
    hide RunAll;
    assert (log + [action])[..|log|] == log;
    assert (log + [action])[..|log| + 1] == log + [action];
  }

  lemma OpensLogged(log: seq<Action>, action: Action, k: Journal, id: AttemptId, request: RequestId)
    requires k == RunAll(EMPTY, log + [action]) && request !in RunAll(EMPTY, log).reconciliations
    requires request in k.reconciliations && k.reconciliations[request].attempt == id
    ensures OpensAt(log + [action], |log|, id, request)
  {
    hide RunAll, At, Apply;
    LastTwo(log, action);
  }

  lemma ApplyWitness(j: Journal, id: AttemptId, request: RequestId, principal: PrincipalId, charge: Option<Budget>, now: int)
    requires id in j.attempts && charge == ConfigurationCharge(j, j.attempts[id])
    ensures Apply(j, DoClaimReconciliation(id, request, principal, now)) == After(j, ClaimReconciliation(j, id, request, principal, charge, now))
  {
    hide ClaimReconciliation, ConfigurationCharge, After;
  }

  lemma OpenedRow(j: Journal, id: AttemptId, request: RequestId, principal: PrincipalId, charge: Option<Budget>, now: int)
    requires ClaimReconciliation(j, id, request, principal, charge, now).Ok?
    requires ClaimReconciliation(j, id, request, principal, charge, now).value.value.ClaimedWitness?
    ensures request !in j.reconciliations
    ensures var k := ClaimReconciliation(j, id, request, principal, charge, now).value.journal;
            request in k.reconciliations && k.reconciliations[request].attempt == id
  {
    hide ActiveGrant, BoundContext, ConfigurationAuthority, OwnsAll, ActivelyReconciled, NextOrdinal;
  }

  lemma ApplyFinish(j: Journal, request: RequestId, outcome: Option<OperationReceipt>, release: bool)
    requires request in j.reconciliations && j.reconciliations[request].attempt in j.attempts
    requires release == (outcome.Some? && outcome.value.CompletedReceipt? && FinalStep(j, j.attempts[j.reconciliations[request].attempt]))
    ensures var completed := outcome.Some? && outcome.value.CompletedReceipt?;
            Apply(j, DoFinishReconciliation(request, outcome)) == After(j, FinishReconciliation(j, request, outcome, completed, release))
  {
    hide FinishReconciliation, FinalStep, After;
  }

  lemma WitnessStays(j: Journal, k: Journal, request: RequestId)
    requires Evolves(j, k) && request in j.reconciliations
    ensures request in k.reconciliations && k.reconciliations[request].attempt == j.reconciliations[request].attempt
  {
    hide AttemptsEvolve, StepsEvolve, RecordsEvolve, ClosuresEvolve;
    assert WitnessEvolves(j.reconciliations[request], k.reconciliations[request]);
  }

  lemma AttemptRead(read: seq<Action>, log: seq<Action>, id: AttemptId, attempt: AttemptRecord)
    requires AllAdmissible(log) && read <= log && id in RunAll(EMPTY, read).attempts && RunAll(EMPTY, read).attempts[id] == attempt
    ensures id in RunAll(EMPTY, log).attempts && SameIdentity(attempt, RunAll(EMPTY, log).attempts[id])
  {
    hide RunAll, AllAdmissible, StepsEvolve, RecordsEvolve, WitnessesEvolve, ClosuresEvolve;
    LogEvolves(read, log);
    assert AttemptEvolves(attempt, RunAll(EMPTY, log).attempts[id]);
  }

  lemma SameStep(a: AttemptRecord, b: AttemptRecord)
    requires SameIdentity(a, b)
    ensures b.plan == a.plan && b.operationIndex == a.operationIndex
  {
  }

  lemma ChargeIsRead(j: Journal, id: AttemptId, attempt: AttemptRecord, plan: ReviewedPlan, charge: Option<Budget>)
    requires id in j.attempts && SameIdentity(attempt, j.attempts[id]) && attempt.plan in j.plans && j.plans[attempt.plan] == plan
    requires attempt.operationIndex < |plan.operations|
    requires charge == if plan.setup.ApplyReviewedInstrumentConfiguration?
                       then Some(Budget(1, 0, plan.operations[attempt.operationIndex].maxMilliseconds)) else None
    ensures charge == ConfigurationCharge(j, j.attempts[id])
  {
  }

  lemma RowRead(earlier: seq<Action>, log: seq<Action>, id: AttemptId, attempt: AttemptRecord, plan: ReviewedPlan)
    requires AllAdmissible(log) && earlier <= log
    requires var j := RunAll(EMPTY, earlier); id in j.attempts && SameIdentity(attempt, j.attempts[id]) && attempt.plan in j.plans && j.plans[attempt.plan] == plan
    ensures var k := RunAll(EMPTY, log); id in k.attempts && SameIdentity(attempt, k.attempts[id]) && attempt.plan in k.plans && k.plans[attempt.plan] == plan
  {
    hide RunAll, AllAdmissible, StepsEvolve, WitnessesEvolve, ClosuresEvolve;
    LogEvolves(earlier, log);
    assert AttemptEvolves(RunAll(EMPTY, earlier).attempts[id], RunAll(EMPTY, log).attempts[id]);
  }

  // ----- Plan tickets -----

  /** The ticket matched its run at some point of the log no earlier than `from`. */
  ghost predicate Issued(log: seq<Action>, from: nat, t: PlanTicket) {
    exists n | from <= n <= |log| :: Matches(At(log, n), t.Ticket())
  }

  lemma IssuedStays(a: seq<Action>, b: seq<Action>, from: nat, t: PlanTicket)
    requires a <= b && Issued(a, from, t)
    ensures Issued(b, from, t)
  {
    hide At, Matches;
    var n :| from <= n <= |a| && Matches(At(a, n), t.Ticket());
    AtPrefix(a, b, n);
  }

  lemma IssuedFrom(log: seq<Action>, from: nat, later: nat, t: PlanTicket)
    requires from <= later && Issued(log, later, t)
    ensures Issued(log, from, t)
  {
    hide At, Matches;
  }

  lemma IssuedNow(log: seq<Action>, from: nat, t: PlanTicket)
    requires from <= |log| && Matches(RunAll(EMPTY, log), t.Ticket())
    ensures Issued(log, from, t)
  {
    hide RunAll, Matches;
    AtEnd(log);
  }

  lemma CreatedRun(j: Journal, run: PlanRun)
    requires CreateRun(j, run).Ok?
    ensures var k := CreateRun(j, run).value.journal; run.id in k.runs && k.runs[run.id].steps == run.steps
    ensures Apply(j, DoCreateRun(run)) == CreateRun(j, run).value.journal
  {
  }

  lemma ApplyRuns(j: Journal, action: Action)
    ensures action.DoCreateRun? ==> Apply(j, action) == After(j, CreateRun(j, action.created))
    ensures action.DoRepairCursor? ==> Apply(j, action) == After(j, RepairCursor(j, action.run))
    ensures action.DoWriteRun? ==> Apply(j, action) == WriteRun(j, action.row)
    ensures action.DoTakeOver? ==> Apply(j, action) == After(j, TakeOver(j, action.proposed, action.snapshot, action.created, action.recovery, action.now))
  {
    hide CreateRun, RepairCursor, TakeOver, After;
  }

  lemma FirstStepMatches(j: Journal, row: PlanRun, t: PlanTicket)
    requires row.id in j.runs && j.runs[row.id].steps == row.steps && row.steps != [] && t.run == row.id && t.index == 0 && row.steps[0].0 == t.attempt
    ensures Matches(j, t.Ticket())
  {
  }

  lemma RepairedRow(j: Journal, id: RequestId)
    requires RepairCursor(j, id).Ok?
    ensures var tx := RepairCursor(j, id).value; id in tx.journal.runs && tx.journal.runs[id] == tx.value
  {
    hide CompletedPrefix;
  }

  lemma CompletedStepsStay(earlier: seq<Action>, log: seq<Action>, steps: seq<(AttemptId, RequestId)>, count: nat)
    requires AllAdmissible(log) && earlier <= log
    requires forall i | 0 <= i < count :: CompletedAt(RunAll(EMPTY, earlier).attempts, steps, i)
    ensures forall i | 0 <= i < count :: CompletedAt(RunAll(EMPTY, log).attempts, steps, i)
  {
    hide RunAll, AllAdmissible, StepsEvolve, RecordsEvolve, WitnessesEvolve, ClosuresEvolve, AttemptsEvolve;
    LogEvolves(earlier, log);
    var j, k := RunAll(EMPTY, earlier), RunAll(EMPTY, log);
    CompletionsStay(j, k);
    forall i | 0 <= i < count
      ensures CompletedAt(k.attempts, steps, i)
    {
      assert CompletedAt(j.attempts, steps, i);
    }
  }

  /** The ticket is for the first step of its run that is not completed, and that step is an intent. */
  ghost predicate ForFirstOpenStep(j: Journal, steps: seq<(AttemptId, RequestId)>, t: PlanTicket) {
    && t.index < |steps| && steps[t.index].0 == t.attempt
    && (forall i | 0 <= i < t.index :: CompletedAt(j.attempts, steps, i))
    && t.attempt in j.attempts && j.attempts[t.attempt].state == Intent
  }

  /** The run was stored with these steps at some point of the log no earlier than `from`. */
  ghost predicate StoredSteps(log: seq<Action>, from: nat, run: RequestId, steps: seq<(AttemptId, RequestId)>) {
    exists n | from <= n <= |log| :: run in At(log, n).runs && At(log, n).runs[run].steps == steps
  }

  lemma StepsRead(read: seq<Action>, log: seq<Action>, from: nat, run: RequestId, steps: seq<(AttemptId, RequestId)>)
    requires read <= log && from <= |read| && run in RunAll(EMPTY, read).runs && RunAll(EMPTY, read).runs[run].steps == steps
    ensures StoredSteps(log, from, run, steps)
  {
    hide RunAll, At;
    AtEnd(read);
    AtPrefix(read, log, |read|);
  }

  lemma SubmittedIsOpen(j: Journal, request: SubmitRequest, s: Submission)
    requires Submitted(j, request, s) && (s.AlreadyKnown? ==> s.attempt.state == Intent)
    ensures request.attempt in j.attempts && j.attempts[request.attempt].state == Intent
  {
  }

  /** Point `m` read the ticket's run after the ticket's attempt had completed, and action `n` wrote the advanced row. */
  ghost predicate Advances(log: seq<Action>, m: nat, n: nat, t: PlanTicket) {
    && m <= n < |log|
    && t.attempt in At(log, m).attempts && At(log, m).attempts[t.attempt].state == Completed
    && AdvancedRun(At(log, m), t.run, t.index).Ok?
    && log[n] == DoWriteRun(AdvancedRun(At(log, m), t.run, t.index).value)
  }

  lemma AdvancesStays(a: seq<Action>, b: seq<Action>, m: nat, n: nat, t: PlanTicket)
    requires a <= b && Advances(a, m, n, t)
    ensures Advances(b, m, n, t)
  {
    hide At;
    AtPrefix(a, b, m);
  }

  lemma AdvancesLogged(read: seq<Action>, before: seq<Action>, row: PlanRun, t: PlanTicket)
    requires read <= before
    requires var j := RunAll(EMPTY, read); t.attempt in j.attempts && j.attempts[t.attempt].state == Completed && AdvancedRun(j, t.run, t.index) == Ok(row)
    ensures Advances(before + [DoWriteRun(row)], |read|, |before|, t)
  {
    hide RunAll, At, AdvancedRun;
    AtEnd(read);
    AtPrefix(read, before + [DoWriteRun(row)], |read|);
  }

  lemma CompletedStays(earlier: seq<Action>, log: seq<Action>, id: AttemptId)
    requires AllAdmissible(log) && earlier <= log
    requires id in RunAll(EMPTY, earlier).attempts && RunAll(EMPTY, earlier).attempts[id].state == Completed
    ensures id in RunAll(EMPTY, log).attempts && RunAll(EMPTY, log).attempts[id].state == Completed
  {
    hide RunAll, AllAdmissible, StepsEvolve, RecordsEvolve, WitnessesEvolve, ClosuresEvolve, AttemptsEvolve;
    LogEvolves(earlier, log);
    CompletionsStay(RunAll(EMPTY, earlier), RunAll(EMPTY, log));
  }

  lemma HandoffBuilt(a: AttemptRecord, snapshot: AdmissionSnapshot, run: PlanRun, recovery: RecoveryTakeover)
    requires snapshot.plan.operations != [] && a.plan == snapshot.plan.id
    requires a == AttemptRecord(a.id, a.request, a.grant, a.plan, 0, Sha256(snapshot.plan), TotalCost(snapshot.plan.operations), snapshot.profile.id,
                                Sha256(snapshot.profile), snapshot.profile.PhysicalResources(), Intent, None)
    requires recovery.request == a.request && recovery.firstAttempt == a.id && recovery.Destination() == a.Owner()
    requires recovery.resources == a.leasedResources && recovery.unresolved != [] && recovery.run == run.id
    requires Pair(run.grant, run.plan) == a.Owner() && run.steps != [] && run.steps[0] == (a.id, a.request) && run.cursor == 0
    ensures Proposal(a, snapshot) && Handoff(a, run, recovery)
  {
    hide TotalCost;
  }

  /** The grant is not revoked, and permits the first `n` operations of the plan. */
  ghost predicate AuthorizedUpTo(grant: Grant, profile: CommissionedProfile, plan: ReviewedPlan, n: nat)
    requires n <= |plan.operations|
  {
    forall i | 0 <= i < n :: !grant.revoked && Permits(grant, profile, plan, plan.operations[i])
  }

  lemma NoneAuthorized(grant: Grant, profile: CommissionedProfile, plan: ReviewedPlan)
    ensures AuthorizedUpTo(grant, profile, plan, 0)
  {
  }

  lemma OneMoreAuthorized(grant: Grant, profile: CommissionedProfile, plan: ReviewedPlan, n: nat)
    requires n < |plan.operations| && AuthorizedUpTo(grant, profile, plan, n) && Authorize(grant, profile, plan, plan.operations[n]).Ok?
    ensures AuthorizedUpTo(grant, profile, plan, n + 1)
  {
    hide Permits;
  }

  lemma OneIsRefused(grant: Grant, profile: CommissionedProfile, plan: ReviewedPlan, n: nat)
    requires n < |plan.operations| && Authorize(grant, profile, plan, plan.operations[n]).Err?
    ensures !AuthorizedUpTo(grant, profile, plan, |plan.operations|)
  {
    hide Permits;
  }

  /** Whether new or repeated, a takeover call returns the attempt it names. */
  lemma TakenAttempt(j: Journal, a: AttemptRecord, snapshot: AdmissionSnapshot, run: PlanRun, recovery: RecoveryTakeover, now: int)
    requires Keyed(j) && Contiguous(j) && Handoff(a, run, recovery) && TakeOver(j, a, snapshot, run, recovery, now).Ok?
    ensures TakeOver(j, a, snapshot, run, recovery, now).value.value.attempt.id == a.id
  {
    hide Keyed, AdmissionContext, CheckSources, HeldBy, LeaseTo, InsertAttempt;
    if RepeatedTakeOver(j, a, recovery) {
      if FindTakeover(j.takeovers, recovery.request).Some? { AttemptKey(j, recovery.firstAttempt); }
      hide Contiguous;
    } else {
      hide Contiguous, TakeOver, RepeatedTakeOver;
      TakeOverShape(j, a, snapshot, run, recovery, now);
    }
  }

  lemma HandoffVetted(j: Journal, a: AttemptRecord, snapshot: AdmissionSnapshot, run: PlanRun, recovery: RecoveryTakeover, now: int)
    requires Proposal(a, snapshot) && Handoff(a, run, recovery) && VettedProposal(j, a, snapshot)
    ensures Admissible(DoTakeOver(a, snapshot, run, recovery, now)) && Vetted(j, DoTakeOver(a, snapshot, run, recovery, now))
  {
    hide Proposal, Handoff, VettedProposal;
  }
}
