/** What one supervisor step may change: rows are only added, settled facts never change. */
module Evolution {
  import opened Wrappers
  import opened Domain
  import opened Journal
  import opened Actions
  import opened Invariant
  import opened Preservation
  import opened Reconciling
  import opened Closing
  import opened Admitting

  /** Completed and Rejected absorb; nothing returns to Intent or Dispatched. */
  predicate Leads(s: AttemptState, t: AttemptState) {
    s == t ||
    match s
    case Intent => true
    case Dispatched => t != Intent
    case Partial => t == Unknown || t == Completed
    case Unknown => t == Completed
    case _ => false
  }

  /** Same identity, a state further along, and a receipt that is written at most once. */
  ghost predicate AttemptEvolves(a: AttemptRecord, b: AttemptRecord) {
    SameIdentity(a, b) && Leads(a.state, b.state) && (a.receipt.Some? ==> b.receipt == a.receipt)
  }

  ghost predicate AttemptsEvolve(j: Journal, k: Journal) {
    forall id | id in j.attempts :: id in k.attempts && AttemptEvolves(j.attempts[id], k.attempts[id])
  }

  ghost predicate RecordsEvolve(j: Journal, k: Journal) {
    && (forall id | id in j.profiles :: id in k.profiles && k.profiles[id] == j.profiles[id])
    && (forall id | id in j.plans :: id in k.plans && k.plans[id] == j.plans[id])
    && (forall id | id in j.grants :: id in k.grants && k.grants[id].profile == j.grants[id].profile)
  }

  ghost predicate StepsEvolve(j: Journal, k: Journal) {
    forall p :: Listing(j, p) <= Listing(k, p)
  }

  /** A finished witness never changes; a claimed one keeps its identity. */
  ghost predicate WitnessEvolves(v: ReconciliationRecord, w: ReconciliationRecord) {
    w == v.(state := w.state, receipt := w.receipt) && (v.state != RecClaimed ==> w == v)
  }

  ghost predicate WitnessesEvolve(j: Journal, k: Journal) {
    && (forall q | q in j.reconciliations :: q in k.reconciliations && WitnessEvolves(j.reconciliations[q], k.reconciliations[q]))
    && (forall a :: HistoryOf(j, a) <= HistoryOf(k, a))
  }

  /** Closures are permanent, and a pair that has started never becomes a destination. */
  ghost predicate ClosuresEvolve(j: Journal, k: Journal) {
    && j.haltedPairs <= k.haltedPairs
    && (forall p | p in j.retirements :: p in k.retirements && k.retirements[p] == j.retirements[p])
    && j.takeovers <= k.takeovers
    && (forall p | Started(j, p) && p in Destinations(k.takeovers) :: p in Destinations(j.takeovers))
  }

  ghost predicate Evolves(j: Journal, k: Journal) {
    && AttemptsEvolve(j, k)
    && RecordsEvolve(j, k)
    && StepsEvolve(j, k)
    && WitnessesEvolve(j, k)
    && ClosuresEvolve(j, k)
  }

  lemma EvolvesReflexive(j: Journal)
    ensures Evolves(j, j)
  {
  }

  lemma StartedEvolves(j: Journal, k: Journal, p: Pair)
    requires AttemptsEvolve(j, k) && StepsEvolve(j, k) && Contiguous(k) && Started(j, p)
    ensures Started(k, p)
  {
  }

  lemma ClosuresTransitive(j: Journal, k: Journal, l: Journal)
    requires ClosuresEvolve(j, k) && ClosuresEvolve(k, l)
    requires forall p | Started(j, p) :: Started(k, p)
    ensures ClosuresEvolve(j, l)
  {
    hide Started, Destinations;
  }

  lemma WitnessesTransitive(j: Journal, k: Journal, l: Journal)
    requires WitnessesEvolve(j, k) && WitnessesEvolve(k, l)
    ensures WitnessesEvolve(j, l)
  {
    forall a
      ensures HistoryOf(j, a) <= HistoryOf(l, a)
    {
      assert HistoryOf(j, a) <= HistoryOf(k, a) <= HistoryOf(l, a);
    }
    hide HistoryOf;
  }

  lemma StepsTransitive(j: Journal, k: Journal, l: Journal)
    requires StepsEvolve(j, k) && StepsEvolve(k, l)
    ensures StepsEvolve(j, l)
  {
    forall p
      ensures Listing(j, p) <= Listing(l, p)
    {
      assert Listing(j, p) <= Listing(k, p) <= Listing(l, p);
    }
  }

  lemma AttemptsTransitive(j: Journal, k: Journal, l: Journal)
    requires AttemptsEvolve(j, k) && AttemptsEvolve(k, l)
    ensures AttemptsEvolve(j, l)
  {
    forall id | id in j.attempts
      ensures id in l.attempts && AttemptEvolves(j.attempts[id], l.attempts[id])
    {
      assert AttemptEvolves(j.attempts[id], k.attempts[id]) && AttemptEvolves(k.attempts[id], l.attempts[id]);
    }
  }

  lemma EvolvesTransitive(j: Journal, k: Journal, l: Journal)
    requires Evolves(j, k) && Evolves(k, l) && Contiguous(k)
    ensures Evolves(j, l)
  {
    assert RecordsEvolve(j, l);
    hide AttemptsEvolve, RecordsEvolve, StepsEvolve, WitnessesEvolve, ClosuresEvolve, Contiguous, Started;
    AttemptsTransitive(j, k, l);
    StepsTransitive(j, k, l);
    WitnessesTransitive(j, k, l);
    forall p | Started(j, p)
      ensures Started(k, p)
    {
      StartedEvolves(j, k, p);
    }
    ClosuresTransitive(j, k, l);
  }

  // ----- Each kind of change is an evolution -----

  lemma ExtendsEvolves(j: Journal, k: Journal)
    requires Extends(j, k)
    ensures Evolves(j, k)
  {
    hide Keyed;
    assert AttemptsEvolve(j, k) && StepsEvolve(j, k) && ClosuresEvolve(j, k);
    hide AttemptsEvolve, StepsEvolve, ClosuresEvolve;
    assert RecordsEvolve(j, k);
    assert WitnessesEvolve(j, k);
  }

  lemma SettlesEvolves(j: Journal, k: Journal, id: AttemptId)
    requires Settles(j, k, id) && Open(j, id)
    requires j.attempts[id].state == Dispatched ==> k.attempts[id].state != Dispatched
    ensures Evolves(j, k)
  {
    assert j.attempts[id].receipt == None;
    hide Open;
    assert AttemptsEvolve(j, k);
    assert StepsEvolve(j, k) && ClosuresEvolve(j, k);
    hide AttemptsEvolve, StepsEvolve, ClosuresEvolve;
    assert RecordsEvolve(j, k);
    assert WitnessesEvolve(j, k);
  }

  lemma OpensEvolves(j: Journal, k: Journal, id: AttemptId, request: RequestId)
    requires OpensWitness(j, k, id, request)
    ensures Evolves(j, k)
  {
    hide NextOrdinal, OwnsAll, ActivelyReconciled;
    assert AttemptsEvolve(j, k);
    assert StepsEvolve(j, k) && ClosuresEvolve(j, k);
    hide AttemptsEvolve, StepsEvolve, ClosuresEvolve;
    assert RecordsEvolve(j, k);
    assert WitnessesEvolve(j, k);
  }

  lemma ClosesEvolves(j: Journal, k: Journal, request: RequestId)
    requires ClosesWitness(j, k, request) && j.attempts[j.reconciliations[request].attempt].state == Unknown
    ensures Evolves(j, k)
  {
    hide ReleaseFrom, FinalStep, WitnessesEvolve, RecordsEvolve;
    assert AttemptsEvolve(j, k) by { hide StepsEvolve, ClosuresEvolve; }
    hide AttemptsEvolve;
    assert StepsEvolve(j, k) && ClosuresEvolve(j, k);
    hide StepsEvolve, ClosuresEvolve;
    ClosesRecords(j, k, request);
  }

  lemma ClosesRecords(j: Journal, k: Journal, request: RequestId)
    requires ClosesWitness(j, k, request)
    ensures RecordsEvolve(j, k) && WitnessesEvolve(j, k)
  {
    hide ReleaseFrom, FinalStep;
    assert RecordsEvolve(j, k);
    hide RecordsEvolve;
  }

  lemma HaltsEvolves(j: Journal, k: Journal, p: Pair)
    requires HaltsPair(j, k, p) && Receipted(j)
    ensures Evolves(j, k)
  {
    hide ReleaseFrom, LeaseKeys;
    HaltsAttemptsEvolve(j, k, p);
    hide AttemptsEvolve, Receipted, RejectIntentsOf, Abandonable;
    assert StepsEvolve(j, k) && ClosuresEvolve(j, k);
    hide StepsEvolve, ClosuresEvolve;
    assert RecordsEvolve(j, k);
    assert WitnessesEvolve(j, k);
  }

  lemma HaltsAttemptsEvolve(j: Journal, k: Journal, p: Pair)
    requires k.attempts == RejectIntentsOf(j.attempts, p) && Receipted(j)
    ensures AttemptsEvolve(j, k)
  {
    forall id | id in j.attempts
      ensures id in k.attempts && AttemptEvolves(j.attempts[id], k.attempts[id])
    {
      assert ReceiptFits(j, j.attempts[id]);
    }
  }

  lemma ReopenEvolves(j: Journal)
    requires Receipted(j)
    ensures Evolves(j, Reopen(j))
  {
    var k := Reopen(j);
    forall id | id in j.attempts
      ensures id in k.attempts && AttemptEvolves(j.attempts[id], k.attempts[id])
    {
      assert ReceiptFits(j, j.attempts[id]);
    }
    assert StepsEvolve(j, k) && ClosuresEvolve(j, k);
    hide Receipted, StepsEvolve, ClosuresEvolve;
    assert RecordsEvolve(j, k);
    assert WitnessesEvolve(j, k);
  }

  lemma AppendsEvolves(j: Journal, k: Journal, a: AttemptRecord)
    requires Appends(j, k, a) && ClosuresEvolve(j, k)
    ensures Evolves(j, k)
  {
    hide BoundTo, NextIndex, AttemptForRequest, ClosuresEvolve;
    assert AttemptsEvolve(j, k);
    assert StepsEvolve(j, k);
    hide AttemptsEvolve, StepsEvolve;
    assert RecordsEvolve(j, k);
    assert WitnessesEvolve(j, k);
  }

  lemma ReservesEvolves(j: Journal, k: Journal, a: AttemptRecord)
    requires Reserves(j, k, a)
    ensures Evolves(j, k)
  {
    assert ClosuresEvolve(j, k);
    assert Appends(j, k, a);
    hide Reserves, Appends, ClosuresEvolve, Evolves;
    AppendsEvolves(j, k, a);
  }

  lemma HandsTables(j: Journal, k: Journal, a: AttemptRecord, recovery: RecoveryTakeover, owners: set<Pair>)
    requires Hands(j, k, a, recovery, owners)
    ensures k.haltedPairs == j.haltedPairs && k.takeovers == j.takeovers + [recovery]
    ensures forall p | p in j.retirements :: p in k.retirements && k.retirements[p] == j.retirements[p]
  {
    hide HeldBy, LeaseTo, Appends, Destinations, ResourcesOf, Started, LastOf, Listing, HasActiveReconciliation;
    forall p | p in j.retirements
      ensures p !in owners
    {
      assert p in owners ==> SourceFits(j, p, a.leasedResources);
    }
  }

  lemma HandsClosuresEvolve(j: Journal, k: Journal, a: AttemptRecord, recovery: RecoveryTakeover, owners: set<Pair>)
    requires Hands(j, k, a, recovery, owners)
    ensures ClosuresEvolve(j, k)
  {
    hide Hands, HeldBy, LeaseTo, Appends, Destinations, ResourcesOf, Started, LastOf, SourceFits;
    HandsShape(j, k, a, recovery, owners);
    HandsTables(j, k, a, recovery, owners);
  }

  lemma HandsEvolves(j: Journal, k: Journal, a: AttemptRecord, recovery: RecoveryTakeover, owners: set<Pair>)
    requires Hands(j, k, a, recovery, owners)
    ensures Evolves(j, k)
  {
    hide Hands, Appends, ClosuresEvolve, Evolves;
    HandsClosuresEvolve(j, k, a, recovery, owners);
    HandsAppends(j, k, a, recovery, owners);
    AppendsEvolves(j, k, a);
  }

  // ----- Each action -----

  lemma ClaimDispatchEvolves(j: Journal, id: AttemptId, agent: PrincipalId, now: int)
    requires Inv(j)
    ensures Evolves(j, After(j, ClaimDispatch(j, id, agent, now)))
  {
    hide Inv, Open, Settles, Evolves, Live;
    EvolvesReflexive(j);
    var tx := ClaimDispatch(j, id, agent, now);
    if tx.Ok? {
      IsOpen(j, id);
      ClaimSettles(j, id, agent, now);
      SettlesEvolves(j, tx.value.journal, id);
    }
  }

  lemma RecordReceiptEvolves(j: Journal, id: AttemptId, receipt: OperationReceipt)
    requires Inv(j)
    ensures Evolves(j, After(j, RecordBySupervisor(j, id, receipt)))
  {
    hide Inv, Open, Settles, Evolves, Live, SupervisorReleases, ReleaseFrom, ReleaseOnOutcome;
    EvolvesReflexive(j);
    var tx := RecordBySupervisor(j, id, receipt);
    if tx.Ok? {
      IsOpen(j, id);
      RecordSettles(j, id, receipt);
      SettlesEvolves(j, tx.value.journal, id);
    }
  }

  lemma RejectIntentEvolves(j: Journal, id: AttemptId, reason: string)
    requires Inv(j)
    ensures Evolves(j, After(j, RejectIntent(j, id, reason)))
  {
    hide Inv, Open, Settles, Evolves, Live, ReleaseFrom, ReleaseOnOutcome;
    EvolvesReflexive(j);
    var tx := RejectIntent(j, id, reason);
    if tx.Ok? {
      IsOpen(j, id);
      RejectSettles(j, id, reason);
      SettlesEvolves(j, tx.value.journal, id);
    }
  }

  lemma ClaimReconciliationEvolves(j: Journal, id: AttemptId, request: RequestId, principal: PrincipalId, now: int)
    requires Inv(j)
    ensures Evolves(j, After(j, ClaimBySupervisor(j, id, request, principal, now)))
  {
    hide Inv, ConfigurationCharge, OpensWitness, Keyed, ClaimReconciliation, Evolves;
    InvIsKeyed(j);
    EvolvesReflexive(j);
    var tx := ClaimBySupervisor(j, id, request, principal, now);
    if tx.Ok? {
      var charge := ConfigurationCharge(j, j.attempts[id]);
      if request in j.reconciliations {
        RepeatedClaim(j, id, request, principal, charge, now);
      } else {
        ClaimOpens(j, id, request, principal, charge, now);
        OpensEvolves(j, tx.value.journal, id, request);
      }
    }
  }

  lemma FinishReconciliationEvolves(j: Journal, request: RequestId, receipt: Option<OperationReceipt>)
    requires Inv(j)
    ensures Evolves(j, After(j, FinishBySupervisor(j, request, receipt)))
  {
    hide Inv, Doubtful, WitnessFits, FinishBySupervisor, Evolves;
    EvolvesReflexive(j);
    var tx := FinishBySupervisor(j, request, receipt);
    if tx.Ok? {
      FinishCloses(j, request, receipt);
      assert request in j.reconciliations && j.reconciliations[request].state == RecClaimed;
      hide ClosesWitness;
      ClaimedWitnessFits(j, request);
      ClosesEvolves(j, tx.value.journal, request);
    }
  }

  lemma AbandonEvolves(j: Journal, record: Abandonment)
    requires Inv(j)
    ensures Evolves(j, After(j, Abandon(j, record)))
  {
    assert Receipted(j);
    hide Inv, HaltsPair, RejectIntentsOf, Evolves, Receipted;
    EvolvesReflexive(j);
    var tx := Abandon(j, record);
    if tx.Ok? && record.request !in j.abandonments {
      AbandonHalts(j, record);
      HaltsEvolves(j, tx.value.journal, record.Closed());
    }
  }

  lemma ReserveEvolves(j: Journal, proposed: AttemptRecord, snapshot: AdmissionSnapshot, now: int)
    requires Inv(j) && Proposal(proposed, snapshot)
    ensures Evolves(j, After(j, Reserve(j, proposed, snapshot, now)))
  {
    hide Inv, Keyed, Reserves, Reserve, Proposal, Evolves, AttemptForRequest;
    InvIsKeyed(j);
    EvolvesReflexive(j);
    var tx := Reserve(j, proposed, snapshot, now);
    if tx.Ok? {
      if AttemptForRequest(j, proposed.request).Some? {
        RepeatedReserve(j, proposed, snapshot, now);
      } else {
        ReserveReserves(j, proposed, snapshot, now);
        ReservesEvolves(j, tx.value.journal, proposed);
      }
    }
  }

  lemma TakeOverEvolves(j: Journal, a: AttemptRecord, snapshot: AdmissionSnapshot, run: PlanRun, recovery: RecoveryTakeover, now: int)
    requires Inv(j) && Proposal(a, snapshot) && Handoff(a, run, recovery)
    ensures Evolves(j, After(j, TakeOver(j, a, snapshot, run, recovery, now)))
  {
    hide Keyed, Contiguous, Requested, Bound, InOrder, Receipted, Witnessed, Leased, Halts, Retires, HandsOver, Quiet;
    hide Hands, TakeOver, Proposal, Handoff, Evolves, CheckSources, RepeatedTakeOver;
    EvolvesReflexive(j);
    var tx := TakeOver(j, a, snapshot, run, recovery, now);
    if tx.Ok? {
      if RepeatedTakeOver(j, a, recovery) {
        RepeatedTakeOverKeeps(j, a, snapshot, run, recovery, now);
      } else {
        TakeOverHands(j, a, snapshot, run, recovery, now);
        HandsEvolves(j, tx.value.journal, a, recovery, CheckSources(j, recovery.unresolved, a).value);
      }
    }
  }

  lemma RecordsStepEvolves(j: Journal, action: Action)
    requires Inv(j) && Admissible(action) && TouchesRecords(action)
    ensures Evolves(j, Apply(j, action))
  {
    hide Inv, Extends, Evolves;
    RecordsExtend(j, action);
    ExtendsEvolves(j, Apply(j, action));
  }

  /** Every step keeps the invariant and only moves the journal forward. */
  lemma StepKeepsAndEvolves(j: Journal, action: Action)
    requires Inv(j) && Admissible(action)
    ensures Inv(Apply(j, action)) && Evolves(j, Apply(j, action))
  {
    hide Inv, Evolves, Proposal, Handoff, Reserve, TakeOver, ClaimDispatch, RecordBySupervisor, RejectIntent;
    hide ClaimBySupervisor, FinishBySupervisor, Abandon, Reopen, After;
    match action {
      case DoReserve(proposed, snapshot, now) =>
        ReserveKeeps(j, proposed, snapshot, now);
        ReserveEvolves(j, proposed, snapshot, now);
      case DoTakeOver(proposed, snapshot, run, recovery, now) =>
        TakeOverKeeps(j, proposed, snapshot, run, recovery, now);
        TakeOverEvolves(j, proposed, snapshot, run, recovery, now);
      case DoClaimDispatch(id, agent, now) =>
        ClaimDispatchKeeps(j, id, agent, now);
        ClaimDispatchEvolves(j, id, agent, now);
      case DoRecordReceipt(id, receipt) =>
        RecordReceiptKeeps(j, id, receipt);
        RecordReceiptEvolves(j, id, receipt);
      case DoRejectIntent(id, reason) =>
        RejectIntentKeeps(j, id, reason);
        RejectIntentEvolves(j, id, reason);
      case DoClaimReconciliation(id, request, principal, now) =>
        ClaimReconciliationKeeps(j, id, request, principal, now);
        ClaimReconciliationEvolves(j, id, request, principal, now);
      case DoFinishReconciliation(request, receipt) =>
        FinishReconciliationKeeps(j, request, receipt);
        FinishReconciliationEvolves(j, request, receipt);
      case DoAbandon(record) =>
        AbandonKeeps(j, record);
        AbandonEvolves(j, record);
      case DoReopen =>
        ReopenKeeps(j);
        assert Receipted(j) by { InvReceipted(j); }
        ReopenEvolves(j);
      case _ =>
        RecordsKeep(j, action);
        RecordsStepEvolves(j, action);
    }
  }

  lemma InvReceipted(j: Journal)
    requires Inv(j)
    ensures Receipted(j)
  {
  }
}
