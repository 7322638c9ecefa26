/** Budgets over whole histories: conservation, and a bound on everything ever dispatched. */
module Spending {
  import opened Wrappers
  import opened Domain
  import opened Journal
  import opened Actions
  import opened Invariant
  import opened Preservation
  import opened Reconciling
  import opened Closing
  import opened Admitting
  import opened Evolution
  import opened Histories
  import opened Isolation
  import opened Budgets

  lemma DispatchBalances(j: Journal, id: AttemptId, agent: PrincipalId, now: int, g: GrantId)
    requires Inv(j)
    ensures Balanced(j, After(j, ClaimDispatch(j, id, agent, now)), g)
  {
    hide Inv, Keyed, Contiguous, Bound, Witnessed, Open, Settles, Live, Balanced;
    InvBooks(j);
    NothingBalances(j, g);
    var tx := ClaimDispatch(j, id, agent, now);
    if tx.Ok? {
      IsOpen(j, id);
      ClaimSettles(j, id, agent, now);
      SettlingBalances(j, tx.value.journal, id, g);
    }
  }

  lemma ReceiptBalances(j: Journal, id: AttemptId, receipt: OperationReceipt, g: GrantId)
    requires Inv(j)
    ensures Balanced(j, After(j, RecordBySupervisor(j, id, receipt)), g)
  {
    hide Inv, Keyed, Contiguous, Bound, Witnessed, Open, Settles, Live, Balanced, SupervisorReleases, ReleaseFrom, ReleaseOnOutcome;
    InvBooks(j);
    NothingBalances(j, g);
    var tx := RecordBySupervisor(j, id, receipt);
    if tx.Ok? {
      IsOpen(j, id);
      RecordSettles(j, id, receipt);
      SettlingBalances(j, tx.value.journal, id, g);
    }
  }

  lemma RejectionBalances(j: Journal, id: AttemptId, reason: string, g: GrantId)
    requires Inv(j)
    ensures Balanced(j, After(j, RejectIntent(j, id, reason)), g)
  {
    hide Inv, Keyed, Contiguous, Bound, Witnessed, Open, Settles, Live, Balanced, ReleaseFrom, ReleaseOnOutcome;
    InvBooks(j);
    NothingBalances(j, g);
    var tx := RejectIntent(j, id, reason);
    if tx.Ok? {
      IsOpen(j, id);
      RejectSettles(j, id, reason);
      SettlingBalances(j, tx.value.journal, id, g);
    }
  }

  lemma OpeningStepBalances(j: Journal, id: AttemptId, request: RequestId, principal: PrincipalId, now: int, g: GrantId)
    requires Inv(j)
    ensures Balanced(j, After(j, ClaimBySupervisor(j, id, request, principal, now)), g)
  {
    hide Inv, Balanced, ClaimReconciliation, ConfigurationCharge;
    NothingBalances(j, g);
    var tx := ClaimBySupervisor(j, id, request, principal, now);
    if tx.Ok? {
      if request in j.reconciliations {
        RepeatedClaim(j, id, request, principal, ConfigurationCharge(j, j.attempts[id]), now);
      } else {
        ClaimingBalances(j, id, request, principal, now, g);
      }
    }
  }

  lemma FinishingStepBalances(j: Journal, request: RequestId, receipt: Option<OperationReceipt>, g: GrantId)
    requires Inv(j)
    ensures Balanced(j, After(j, FinishBySupervisor(j, request, receipt)), g)
  {
    hide Inv, Keyed, Contiguous, Bound, Witnessed, Balanced, FinishBySupervisor, ClosesWitness;
    InvBooks(j);
    NothingBalances(j, g);
    var tx := FinishBySupervisor(j, request, receipt);
    if tx.Ok? {
      FinishCloses(j, request, receipt);
      ClosingBalances(j, tx.value.journal, request, g);
    }
  }

  lemma AbandonBalances(j: Journal, record: Abandonment, g: GrantId)
    requires Inv(j)
    ensures Balanced(j, After(j, Abandon(j, record)), g)
  {
    hide Inv, Keyed, Contiguous, Bound, Witnessed, Balanced, HaltsPair, RejectIntentsOf;
    InvBooks(j);
    NothingBalances(j, g);
    var tx := Abandon(j, record);
    if tx.Ok? && record.request !in j.abandonments {
      AbandonHalts(j, record);
      HaltingBalances(j, tx.value.journal, record.Closed(), g);
    }
  }

  lemma ReserveBalances(j: Journal, a: AttemptRecord, snapshot: AdmissionSnapshot, now: int, g: GrantId)
    requires Inv(j) && Proposal(a, snapshot)
    ensures Balanced(j, After(j, Reserve(j, a, snapshot, now)), g)
  {
    hide Inv, Proposal, Reserve, Balanced, AttemptForRequest;
    NothingBalances(j, g);
    if Reserve(j, a, snapshot, now).Ok? {
      if AttemptForRequest(j, a.request).Some? {
        RepeatedReserve(j, a, snapshot, now);
      } else {
        ReservingBalances(j, a, snapshot, now, g);
      }
    }
  }

  lemma TakeOverBalances(j: Journal, a: AttemptRecord, snapshot: AdmissionSnapshot, run: PlanRun, recovery: RecoveryTakeover, now: int, g: GrantId)
    requires Inv(j) && Proposal(a, snapshot) && Handoff(a, run, recovery)
    ensures Balanced(j, After(j, TakeOver(j, a, snapshot, run, recovery, now)), g)
  {
    hide Inv, Proposal, TakeOver, Balanced, RepeatedTakeOver;
    NothingBalances(j, g);
    if TakeOver(j, a, snapshot, run, recovery, now).Ok? {
      if RepeatedTakeOver(j, a, recovery) {
        RepeatedTakeOverKeeps(j, a, snapshot, run, recovery, now);
      } else {
        HandingBalances(j, a, snapshot, run, recovery, now, g);
      }
    }
  }

  /** No step changes the account of an existing grant: retries never charge twice and nothing is refunded. */
  lemma StepBalances(j: Journal, action: Action, g: GrantId)
    requires Inv(j) && Admissible(action)
    ensures Balanced(j, Apply(j, action), g)
  {
    hide Inv, Proposal, Handoff, Reserve, TakeOver, ClaimDispatch, RecordBySupervisor, RejectIntent, Balanced;
    hide ClaimBySupervisor, FinishBySupervisor, Abandon, Reopen, After, Keyed, Contiguous, Bound, Witnessed;
    match action {
      case DoReserve(proposed, snapshot, now) => ReserveBalances(j, proposed, snapshot, now, g);
      case DoTakeOver(proposed, snapshot, run, recovery, now) => TakeOverBalances(j, proposed, snapshot, run, recovery, now, g);
      case DoClaimDispatch(id, agent, now) => DispatchBalances(j, id, agent, now, g);
      case DoRecordReceipt(id, receipt) => ReceiptBalances(j, id, receipt, g);
      case DoRejectIntent(id, reason) => RejectionBalances(j, id, reason, g);
      case DoClaimReconciliation(id, request, principal, now) => OpeningStepBalances(j, id, request, principal, now, g);
      case DoFinishReconciliation(request, receipt) => FinishingStepBalances(j, request, receipt, g);
      case DoAbandon(record) => AbandonBalances(j, record, g);
      case DoReopen =>
        InvBooks(j);
        ReopeningBalances(j, g);
      case _ => RecordingBalances(j, action, g);
    }
  }

  // ----- Over histories -----

  lemma {:induction false} AccountIsConstant(actions: seq<Action>, m: nat, n: nat, g: GrantId)
    requires AllAdmissible(actions) && m <= n <= |actions| && g in At(actions, m).grants
    ensures g in At(actions, n).grants && Account(At(actions, n), g) == Account(At(actions, m), g)
    decreases n - m
  {
    hide At, Inv, Apply, Admissible, Account, Funded;
    if m < n {
      AccountIsConstant(actions, m, n - 1, g);
      AtKeepsInv(actions, n - 1);
      assert actions[n - 1] in actions;
      Step(actions, n - 1);
      StepBalances(At(actions, n - 1), actions[n - 1], g);
    }
  }

  lemma NothingFunded(actions: seq<Action>, g: GrantId)
    ensures Funded(At(actions, 0), g)
  {
    assert At(actions, 0) == EMPTY;
    assert Weights(EMPTY, g) == map[] && Reservations(EMPTY, g) == map[];
  }

  lemma {:induction false} AlwaysFunded(actions: seq<Action>, n: nat, g: GrantId)
    requires AllAdmissible(actions) && n <= |actions|
    ensures Funded(At(actions, n), g)
    decreases n
  {
    hide At, Inv, Apply, Admissible, Account, Funded;
    if n == 0 {
      NothingFunded(actions, g);
    } else {
      AlwaysFunded(actions, n - 1, g);
      AtKeepsInv(actions, n - 1);
      assert actions[n - 1] in actions;
      Step(actions, n - 1);
      StepBalances(At(actions, n - 1), actions[n - 1], g);
    }
  }

  lemma SavedGrant(j: Journal, issued: Grant)
    requires issued.id !in j.grants
    ensures var k := Apply(j, DoSaveGrant(issued));
            k.grants == j.grants[issued.id := issued] && k.attempts == j.attempts && k.reconciliations == j.reconciliations
  {
  }

  lemma NewGrantAccount(j: Journal, issued: Grant)
    requires Bound(j) && WitnessesOwned(j) && issued.id !in j.grants
    ensures var k := Apply(j, DoSaveGrant(issued)); issued.id in k.grants && Account(k, issued.id) == issued.remaining
  {
    hide Bound, Apply, WitnessesOwned, Reservations, Charges, ChargeFor;
    BoundPlans(j);
    SavedGrant(j, issued);
    UnusedGrant(Apply(j, DoSaveGrant(issued)), issued.id);
  }

  lemma UnusedGrant(j: Journal, g: GrantId)
    requires forall id | id in j.attempts :: j.attempts[id].grant != g
    ensures Reservations(j, g) == map[] && Charges(j, g) == map[]
  {
    hide ChargeFor;
    assert Reservations(j, g).Keys == {} && Charges(j, g).Keys == {};
  }

  /** Action `m` stores grant `issued` for the first time. */
  predicate IssuesAt(actions: seq<Action>, m: nat, issued: Grant) {
    m < |actions| && actions[m] == DoSaveGrant(issued) && issued.id !in At(actions, m).grants
  }

  /** A grant's initial budget is always its remaining budget, plus every reservation made under it, plus
      every configuration charge of its reconciliations. */
  lemma BudgetIsConserved(actions: seq<Action>, m: nat, n: nat, issued: Grant)
    requires AllAdmissible(actions) && IssuesAt(actions, m, issued) && m < n <= |actions|
    ensures issued.id in At(actions, n).grants
    ensures Plus(Plus(At(actions, n).grants[issued.id].remaining, Sum(Reservations(At(actions, n), issued.id))),
                 Sum(Charges(At(actions, n), issued.id))) == issued.remaining
  {
    hide At, Inv, Apply, Keyed, Contiguous, Bound, Witnessed, WitnessesOwned, Reservations, Charges;
    AtKeepsInv(actions, m);
    InvBooks(At(actions, m));
    WitnessedOwned(At(actions, m));
    Step(actions, m);
    NewGrantAccount(At(actions, m), issued);
    AccountIsConstant(actions, m + 1, n, issued.id);
  }

  // ----- What was dispatched -----

  ghost function StepCost(j: Journal, a: AttemptRecord): Budget {
    if a.plan in j.plans && a.operationIndex < |j.plans[a.plan].operations|
    then j.plans[a.plan].operations[a.operationIndex].WorstCaseBudget()
    else ZERO
  }

  /** The cost of every attempt that has left Intent. */
  ghost function Used(j: Journal, g: GrantId): map<AttemptId, Budget> {
    map id | id in j.attempts && j.attempts[id].grant == g && j.attempts[id].state != Intent :: StepCost(j, j.attempts[id])
  }

  /** The worst-case cost of the operation that action `n` dispatched under grant `g`, if it did. */
  ghost function DispatchedAt(actions: seq<Action>, n: nat, g: GrantId): Budget {
    if ClaimAt(actions, n).Some? && ClaimAt(actions, n).value.grant == g && PlannedAt(actions, n).Some?
    then PlannedAt(actions, n).value.WorstCaseBudget()
    else ZERO
  }

  /** The summed worst-case cost of every dispatch under `g` among the first `n` actions. */
  ghost function Dispatched(actions: seq<Action>, n: nat, g: GrantId): Budget {
    if n == 0 then ZERO else Plus(Dispatched(actions, n - 1, g), DispatchedAt(actions, n - 1, g))
  }

  lemma UsedBelowWeights(j: Journal, g: GrantId)
    ensures Below(Used(j, g), Weights(j, g))
  {
    forall id | id in j.attempts
      ensures StepCost(j, j.attempts[id]).FitsWithin(Weight(j, j.attempts[id]))
    {
    }
    hide StepCost, Weight;
  }

  lemma UsedGrows(j: Journal, k: Journal, g: GrantId)
    requires AttemptsEvolve(j, k) && RecordsEvolve(j, k) && Bound(j)
    ensures Below(Used(j, g), Used(k, g))
  {
    BoundPlans(j);
    forall id | id in j.attempts && j.attempts[id].state != Intent
      ensures id in k.attempts && k.attempts[id].grant == j.attempts[id].grant && k.attempts[id].state != Intent
      ensures StepCost(k, k.attempts[id]) == StepCost(j, j.attempts[id])
    {
      CostStays(j, k, id);
    }
    hide StepCost, Bound, AttemptsEvolve, RecordsEvolve;
  }

  lemma CostStays(j: Journal, k: Journal, id: AttemptId)
    requires AttemptsEvolve(j, k) && RecordsEvolve(j, k) && id in j.attempts && j.attempts[id].plan in j.plans
    ensures id in k.attempts && k.attempts[id].grant == j.attempts[id].grant
    ensures j.attempts[id].state != Intent ==> k.attempts[id].state != Intent
    ensures StepCost(k, k.attempts[id]) == StepCost(j, j.attempts[id])
  {
    assert AttemptEvolves(j.attempts[id], k.attempts[id]);
    hide AttemptsEvolve;
  }

  /** A dispatch adds exactly its own entry to what is used. */
  lemma UsedByClaim(actions: seq<Action>, n: nat)
    requires AllAdmissible(actions) && ClaimAt(actions, n).Some?
    requires Below(Used(At(actions, n), ClaimAt(actions, n).value.grant), Used(At(actions, n + 1), ClaimAt(actions, n).value.grant))
    ensures PlannedAt(actions, n).Some?
    ensures var c := ClaimAt(actions, n).value;
            && c.id !in Used(At(actions, n), c.grant)
            && Below(Used(At(actions, n), c.grant)[c.id := PlannedAt(actions, n).value.WorstCaseBudget()], Used(At(actions, n + 1), c.grant))
  {
    hide At, ClaimAt, PlannedAt, OwnsAll;
    ClaimFacts(actions, n);
    ClaimedOperation(actions, n, n + 1);
  }

  lemma {:induction false} DispatchedBelowUsed(actions: seq<Action>, n: nat, g: GrantId)
    requires AllAdmissible(actions) && n <= |actions|
    ensures Dispatched(actions, n, g).FitsWithin(Sum(Used(At(actions, n), g)))
    decreases n
  {
    hide At, ClaimAt, PlannedAt, Inv, Used, Keyed, Contiguous, Bound, Witnessed;
    if n > 0 {
      DispatchedBelowUsed(actions, n - 1, g);
      AtKeepsInv(actions, n - 1);
      InvBooks(At(actions, n - 1));
      EvolvesParts(actions, n - 1);
      UsedGrows(At(actions, n - 1), At(actions, n), g);
      var before, after := Used(At(actions, n - 1), g), Used(At(actions, n), g);
      SumBelow(before, after);
      if ClaimAt(actions, n - 1).Some? && ClaimAt(actions, n - 1).value.grant == g {
        UsedByClaim(actions, n - 1);
        var id, cost := ClaimAt(actions, n - 1).value.id, PlannedAt(actions, n - 1).value.WorstCaseBudget();
        SumAdd(before, id, cost);
        SumBelow(before[id := cost], after);
      }
    }
  }

  lemma EvolvesParts(actions: seq<Action>, n: nat)
    requires AllAdmissible(actions) && n < |actions|
    ensures AttemptsEvolve(At(actions, n), At(actions, n + 1)) && RecordsEvolve(At(actions, n), At(actions, n + 1))
  {
    hide At;
    AtEvolves(actions, n, n + 1);
  }

  /** Everything ever dispatched under a grant, in any interleaving, was paid for by its initial budget: the
      summed worst-case cost is at most the initial budget less what remains and what reconciliation charged. */
  lemma DispatchesArePaidFor(actions: seq<Action>, m: nat, n: nat, issued: Grant)
    requires AllAdmissible(actions) && IssuesAt(actions, m, issued) && m < n <= |actions|
    ensures issued.id in At(actions, n).grants
    ensures Plus(Dispatched(actions, n, issued.id), Plus(At(actions, n).grants[issued.id].remaining, Sum(Charges(At(actions, n), issued.id))))
            .FitsWithin(issued.remaining)
  {
    hide At, Reservations, Charges, Used, Weights, IssuesAt, Dispatched;
    BudgetIsConserved(actions, m, n, issued);
    AlwaysFunded(actions, n, issued.id);
    DispatchedBelowUsed(actions, n, issued.id);
    UsedBelowWeights(At(actions, n), issued.id);
    SumBelow(Used(At(actions, n), issued.id), Weights(At(actions, n), issued.id));
  }
}
