/** Reconciliation witnesses keep the journal invariant. */
module Reconciling {
  import opened Wrappers
  import opened Domain
  import opened Journal
  import opened Actions
  import opened Invariant
  import opened Preservation

  /** An uncertain attempt is the last of a pair that is not halted. */
  ghost predicate Doubtful(j: Journal, id: AttemptId)
    requires id in j.attempts
  {
    var a := j.attempts[id];
    && Uncertain(a.state)
    && LastOfPair(j, id)
    && a.Owner() !in j.haltedPairs
    && ResourcesOf(j, a.Owner()) == a.leasedResources
    && a.receipt.Some? && (a.receipt.value.PartialReceipt? || a.receipt.value.UnknownReceipt?)
  }

  lemma IsDoubtful(j: Journal, id: AttemptId)
    requires Inv(j) && id in j.attempts && Uncertain(j.attempts[id].state)
    ensures Doubtful(j, id)
  {
    hide Keyed, Contiguous, Requested, Bound, InOrder, Leased, HandsOver, Quiet, ResourcesOf, Destinations, Witnessed, Retires, HandsOver;
    LastIfOpen(j, id);
    ResourcesBound(j, id);
  }

  /** Holding a nonempty resource set makes a pair live. */
  lemma OwnerIsLive(j: Journal, p: Pair, resources: set<PhysicalResource>, r: PhysicalResource)
    requires Leased(j) && OwnsAll(j.leases, p, resources) && r in resources
    ensures Live(j, p)
  {
    hide Live, ResourcesOf;
  }

  // ----- Claiming a witness -----

  /** `k` is `j` with a fresh claimed witness for the uncertain attempt `id`. */
  ghost predicate OpensWitness(j: Journal, k: Journal, id: AttemptId, request: RequestId) {
    && id in j.attempts && request !in j.reconciliations && request in k.reconciliations
    && Uncertain(j.attempts[id].state) && !ActivelyReconciled(j, id)
    && OwnsAll(j.leases, j.attempts[id].Owner(), j.attempts[id].leasedResources)
    && k.profiles == j.profiles && k.plans == j.plans && k.steps == j.steps && k.byRequest == j.byRequest
    && SameClosures(j, k) && k.leases == j.leases
    && k.grants.Keys == j.grants.Keys
    && (forall g | g in j.grants :: k.grants[g].profile == j.grants[g].profile && k.grants[g].id == j.grants[g].id)
    && k.attempts == j.attempts[id := j.attempts[id].(state := Unknown)]
    && k.history == j.history[id := HistoryOf(j, id) + [request]]
    && k.reconciliations == j.reconciliations[request := k.reconciliations[request]]
    && var w := k.reconciliations[request];
       w.request == request && w.attempt == id && w.state == RecClaimed && NextOrdinal(j, id) == Ok(w.ordinal)
  }

  /** The journal that a successful new witness commits. */
  function OpenedJournal(j: Journal, record: ReconciliationRecord, grants: map<GrantId, Grant>): Journal
    requires record.attempt in j.attempts
  {
    j.(grants := grants,
       reconciliations := j.reconciliations[record.request := record],
       history := j.history[record.attempt := HistoryOf(j, record.attempt) + [record.request]],
       attempts := j.attempts[record.attempt := j.attempts[record.attempt].(state := Unknown)])
  }

  lemma GrantIsStored(j: Journal, id: GrantId, agent: PrincipalId, profile: ProfileId, now: int)
    requires ActiveGrant(j, id, agent, profile, now).Ok?
    ensures id in j.grants && ActiveGrant(j, id, agent, profile, now).value == j.grants[id]
  {
  }

  /** The grants after a charge: the same grants, of which one may have less left. */
  function ChargedGrants(j: Journal, id: GrantId, charge: Option<Budget>): map<GrantId, Grant>
    requires id in j.grants && (charge.Some? ==> charge.value.FitsWithin(j.grants[id].remaining))
  {
    if charge.Some? then j.grants[id := j.grants[id].(remaining := j.grants[id].remaining.CheckedSub(charge.value).value)] else j.grants
  }

  lemma ClaimShape(j: Journal, id: AttemptId, request: RequestId, principal: PrincipalId, charge: Option<Budget>, now: int)
    requires Keyed(j) && request !in j.reconciliations
    requires ClaimReconciliation(j, id, request, principal, charge, now).Ok?
    ensures id in j.attempts && Uncertain(j.attempts[id].state) && !ActivelyReconciled(j, id) && NextOrdinal(j, id).Ok?
    ensures OwnsAll(j.leases, j.attempts[id].Owner(), j.attempts[id].leasedResources)
    ensures j.attempts[id].grant in j.grants && (charge.Some? ==> charge.value.FitsWithin(j.grants[j.attempts[id].grant].remaining))
    ensures var record := ReconciliationRecord(request, id, NextOrdinal(j, id).value, principal, RecClaimed, None);
            ClaimReconciliation(j, id, request, principal, charge, now).value
            == Committed(OpenedJournal(j, record, ChargedGrants(j, j.attempts[id].grant, charge)), ClaimedWitness(record))
  {
    hide ActiveGrant, BoundContext, ConfigurationAuthority, ActivelyReconciled, OwnsAll, NextOrdinal, HistoryOf;
    var a := j.attempts[id];
    GrantIsStored(j, a.grant, principal, a.profile, now);
    assert j.grants[a.grant].id == a.grant;
    hide Keyed;
  }

  lemma OpenedOpens(j: Journal, record: ReconciliationRecord, grants: map<GrantId, Grant>)
    requires record.attempt in j.attempts && record.request !in j.reconciliations && record.state == RecClaimed
    requires Uncertain(j.attempts[record.attempt].state) && !ActivelyReconciled(j, record.attempt)
    requires OwnsAll(j.leases, j.attempts[record.attempt].Owner(), j.attempts[record.attempt].leasedResources)
    requires NextOrdinal(j, record.attempt) == Ok(record.ordinal) && grants.Keys == j.grants.Keys
    requires forall g | g in j.grants :: grants[g].profile == j.grants[g].profile && grants[g].id == j.grants[g].id
    ensures OpensWitness(j, OpenedJournal(j, record, grants), record.attempt, record.request)
  {
    hide ActivelyReconciled, OwnsAll, NextOrdinal, HistoryOf;
  }

  lemma ClaimOpens(j: Journal, id: AttemptId, request: RequestId, principal: PrincipalId, charge: Option<Budget>, now: int)
    requires Keyed(j) && request !in j.reconciliations
    requires ClaimReconciliation(j, id, request, principal, charge, now).Ok?
    ensures OpensWitness(j, ClaimReconciliation(j, id, request, principal, charge, now).value.journal, id, request)
  {
    hide Keyed, ClaimReconciliation, ActivelyReconciled, OwnsAll, NextOrdinal, OpenedJournal, OpensWitness;
    ClaimShape(j, id, request, principal, charge, now);
    var record := ReconciliationRecord(request, id, NextOrdinal(j, id).value, principal, RecClaimed, None);
    OpenedOpens(j, record, ChargedGrants(j, j.attempts[id].grant, charge));
  }

  lemma OpensRows(j: Journal, k: Journal, id: AttemptId, request: RequestId)
    requires OpensWitness(j, k, id, request)
    ensures SameRows(j, k) && SameClosures(j, k) && OnlyPairChanged(j, k, j.attempts[id].Owner())
  {
    hide NextOrdinal, ActivelyReconciled, OwnsAll;
  }

  lemma OpensOrdinal(j: Journal, k: Journal, id: AttemptId, request: RequestId)
    requires OpensWitness(j, k, id, request) && Witnessed(j)
    ensures k.reconciliations[request].ordinal == |HistoryOf(j, id)|
  {
    hide ActivelyReconciled, OwnsAll;
  }

  lemma OpensOldWitness(j: Journal, k: Journal, id: AttemptId, request: RequestId, q: RequestId)
    requires OpensWitness(j, k, id, request) && q in j.reconciliations && WitnessFits(j, q)
    ensures q in k.reconciliations && WitnessFits(k, q)
  {
    hide NextOrdinal, OwnsAll;
  }

  lemma OpensNewWitness(j: Journal, k: Journal, id: AttemptId, request: RequestId)
    requires OpensWitness(j, k, id, request) && k.reconciliations[request].ordinal == |HistoryOf(j, id)|
    ensures WitnessFits(k, request)
  {
    hide NextOrdinal, OwnsAll, ActivelyReconciled;
  }

  lemma OpensHistory(j: Journal, k: Journal, id: AttemptId, request: RequestId)
    requires OpensWitness(j, k, id, request) && Historical(j) && k.reconciliations[request].ordinal == |HistoryOf(j, id)|
    ensures Historical(k)
  {
    hide NextOrdinal, OwnsAll, ActivelyReconciled;
  }

  lemma OpensWitnesses(j: Journal, k: Journal, id: AttemptId, request: RequestId)
    requires OpensWitness(j, k, id, request) && Witnessed(j) && k.reconciliations[request].ordinal == |HistoryOf(j, id)|
    ensures Witnessed(k)
  {
    assert k.reconciliations.Keys == j.reconciliations.Keys + {request};
    hide OpensWitness, WitnessFits, Historical;
    OpensHistory(j, k, id, request);
    OpensNewWitness(j, k, id, request);
    forall q | q in j.reconciliations
      ensures q in k.reconciliations && WitnessFits(k, q)
    {
      OpensOldWitness(j, k, id, request, q);
    }
  }

  lemma OpensReceipt(j: Journal, k: Journal, id: AttemptId, request: RequestId, x: AttemptId)
    requires OpensWitness(j, k, id, request) && Doubtful(j, id)
    requires x in j.attempts && j.attempts[x].id == x && ReceiptFits(j, j.attempts[x])
    requires HistoryOf(j, x) != [] ==> HistoryOf(j, x)[|HistoryOf(j, x)| - 1] in j.reconciliations
    ensures x in k.attempts && ReceiptFits(k, k.attempts[x])
  {
    hide NextOrdinal, OwnsAll, ActivelyReconciled, ResourcesOf;
  }

  lemma OpensReceipts(j: Journal, k: Journal, id: AttemptId, request: RequestId)
    requires OpensWitness(j, k, id, request) && Historical(j) && Receipted(j) && Contiguous(j)
    requires Doubtful(j, id)
    ensures Receipted(k)
  {
    assert k.attempts.Keys == j.attempts.Keys;
    hide OpensWitness, Doubtful, ReceiptFits, Contiguous;
    forall x | x in j.attempts
      ensures x in k.attempts && ReceiptFits(k, k.attempts[x])
    {
      AttemptKey(j, x);
      OpensReceipt(j, k, id, request, x);
    }
  }

  lemma OpensQuiet(j: Journal, k: Journal, id: AttemptId, request: RequestId)
    requires OpensWitness(j, k, id, request) && Quiet(j) && j.attempts[id].Owner() !in j.retirements
    ensures Quiet(k)
  {
    hide NextOrdinal, OwnsAll, ActivelyReconciled;
  }

  lemma OpensLast(j: Journal, k: Journal, id: AttemptId, request: RequestId)
    requires OpensWitness(j, k, id, request) && Doubtful(j, id)
    ensures var p := j.attempts[id].Owner();
            Started(j, p) && Started(k, p) && LastOf(k, p).state == Unknown && Uncertain(LastOf(j, p).state)
            && LastOf(k, p).plan == p.plan
    ensures Live(k, j.attempts[id].Owner()) == Live(j, j.attempts[id].Owner())
  {
    hide NextOrdinal, OwnsAll, ActivelyReconciled, ResourcesOf, HistoryOf;
  }

  lemma SettledClosures(j: Journal, k: Journal, p: Pair)
    requires SameRows(j, k) && SameClosures(j, k) && OnlyPairChanged(j, k, p)
    requires Halts(j) && Retires(j) && HandsOver(j) && Contiguous(j)
    requires p !in j.haltedPairs && p !in j.retirements
    ensures Halts(k) && Retires(k) && HandsOver(k)
  {
    hide Contiguous, Halts, Retires, HandsOver, ResourcesOf, Started, LastOf, SameRows, OnlyPairChanged, SameStanding;
    StandingsKeep(j, k, p);
    HaltsSettle(j, k, p);
    RetiresSettle(j, k, p);
    HandsOverRows(j, k);
  }

  lemma OpensTables(j: Journal, k: Journal, id: AttemptId, request: RequestId)
    requires OpensWitness(j, k, id, request) && Keyed(j) && Contiguous(j) && Requested(j) && Bound(j) && InOrder(j)
    ensures Keyed(k) && Contiguous(k) && Requested(k) && Bound(k) && InOrder(k)
  {
    hide Keyed, Contiguous, Requested, Bound, InOrder, OpensWitness, SameRows, OnlyPairChanged, SameClosures;
    OpensRows(j, k, id, request);
    KeyedRows(j, k);
    ContiguousRows(j, k);
    RequestedRows(j, k);
    BoundRows(j, k);
    OpensOrder(j, k, id, request);
  }

  lemma OpensStanding(j: Journal, k: Journal, id: AttemptId, request: RequestId)
    requires OpensWitness(j, k, id, request) && Doubtful(j, id) && Live(j, j.attempts[id].Owner())
    requires Contiguous(j) && Leased(j) && Halts(j) && Retires(j) && HandsOver(j) && Quiet(j)
    ensures Leased(k) && Halts(k) && Retires(k) && HandsOver(k) && Quiet(k)
  {
    var p := j.attempts[id].Owner();
    hide Contiguous, Leased, Halts, Retires, HandsOver, Quiet, OpensWitness, SameRows, OnlyPairChanged;
    hide Live, Doubtful, Started, LastOf, ResourcesOf;
    LiveStanding(j, p);
    OpensRows(j, k, id, request);
    OpensLast(j, k, id, request);
    LeasesSame(j, k, id, request);
    LeasesSettle(j, k, p);
    SettledClosures(j, k, p);
    OpensQuiet(j, k, id, request);
  }

  lemma OpensKeeps(j: Journal, k: Journal, id: AttemptId, request: RequestId)
    requires Inv(j) && OpensWitness(j, k, id, request)
    ensures Inv(k)
  {
    hide Keyed, Contiguous, Requested, Bound, InOrder, Receipted, Witnessed, Leased, Halts, Retires, HandsOver, Quiet;
    hide Live, OpensWitness, OwnsAll, Historical, Doubtful;
    OpensUncertain(j, k, id, request);
    IsDoubtful(j, id);
    HoldsSomething(j, id);
    OpensTables(j, k, id, request);
    OpensStanding(j, k, id, request);
    OpensOrdinal(j, k, id, request);
    OpensWitnesses(j, k, id, request);
    WitnessedHistory(j);
    OpensReceipts(j, k, id, request);
  }

  lemma OpensUncertain(j: Journal, k: Journal, id: AttemptId, request: RequestId)
    requires OpensWitness(j, k, id, request)
    ensures id in j.attempts && Uncertain(j.attempts[id].state)
    ensures OwnsAll(j.leases, j.attempts[id].Owner(), j.attempts[id].leasedResources)
  {
  }

  lemma WitnessedHistory(j: Journal)
    requires Witnessed(j)
    ensures Historical(j)
  {
  }

  lemma LeasesSame(j: Journal, k: Journal, id: AttemptId, request: RequestId)
    requires OpensWitness(j, k, id, request)
    ensures k.leases == j.leases
  {
  }

  lemma OpensOrder(j: Journal, k: Journal, id: AttemptId, request: RequestId)
    requires OpensWitness(j, k, id, request) && InOrder(j)
    ensures InOrder(k)
  {
    hide NextOrdinal, OwnsAll, ActivelyReconciled, HistoryOf;
  }

  lemma LiveStanding(j: Journal, p: Pair)
    requires Live(j, p)
    ensures p !in j.haltedPairs && p !in j.retirements
  {
  }

  /** The owner of every attempt's leases is live: the resource set always holds target and fixture. */
  lemma HoldsSomething(j: Journal, id: AttemptId)
    requires Leased(j) && Bound(j) && id in j.attempts
    requires OwnsAll(j.leases, j.attempts[id].Owner(), j.attempts[id].leasedResources)
    ensures Live(j, j.attempts[id].Owner())
  {
    hide Leased, Live, OwnsAll;
    assert BoundTo(j, j.attempts[id]);
    var profile := j.profiles[j.attempts[id].profile];
    OwnerIsLive(j, j.attempts[id].Owner(), j.attempts[id].leasedResources, Target(profile.targetFingerprint));
  }

  /** Repeating a request returns its witness and changes nothing. */
  lemma RepeatedClaim(j: Journal, id: AttemptId, request: RequestId, principal: PrincipalId, charge: Option<Budget>, now: int)
    requires request in j.reconciliations && ClaimReconciliation(j, id, request, principal, charge, now).Ok?
    ensures ClaimReconciliation(j, id, request, principal, charge, now).value
            == Committed(j, ExistingWitness(j.reconciliations[request]))
  {
  }

  lemma InvIsKeyed(j: Journal)
    requires Inv(j)
    ensures Keyed(j)
  {
  }

  lemma ClaimReconciliationKeeps(j: Journal, id: AttemptId, request: RequestId, principal: PrincipalId, now: int)
    requires Inv(j)
    ensures Inv(After(j, ClaimBySupervisor(j, id, request, principal, now)))
  {
    hide Inv, ConfigurationCharge, OpensWitness, Keyed, ClaimReconciliation;
    InvIsKeyed(j);
    var tx := ClaimBySupervisor(j, id, request, principal, now);
    if tx.Ok? {
      var charge := ConfigurationCharge(j, j.attempts[id]);
      if request in j.reconciliations {
        RepeatedClaim(j, id, request, principal, charge, now);
      } else {
        ClaimOpens(j, id, request, principal, charge, now);
        OpensKeeps(j, tx.value.journal, id, request);
      }
    }
  }

  // ----- Finishing a witness -----

  /** `k` is `j` with the claimed witness finished, its attempt completed or left unknown. */
  ghost predicate ClosesWitness(j: Journal, k: Journal, request: RequestId) {
    && request in j.reconciliations && request in k.reconciliations
    && var w := j.reconciliations[request];
    && var v := k.reconciliations[request];
    && w.state == RecClaimed && w.attempt in j.attempts
    && v == w.(receipt := v.receipt, state := v.state) && v.state != RecClaimed
    && (v.state == RecCompleted ==> v.receipt.Some? && v.receipt.value.CompletedReceipt?)
    && k.profiles == j.profiles && k.plans == j.plans && k.grants == j.grants && k.steps == j.steps && k.byRequest == j.byRequest
    && SameClosures(j, k) && k.history == j.history
    && k.reconciliations == j.reconciliations[request := v]
    && var a := j.attempts[w.attempt];
    && k.attempts == j.attempts[w.attempt := a.(state := if v.state == RecCompleted then Completed else if a.state == Partial then Unknown else a.state)]
    && k.leases == if v.state == RecCompleted && FinalStep(j, a) then ReleaseFrom(j.leases, a.Owner(), a.leasedResources) else j.leases
  }

  lemma FinishCloses(j: Journal, request: RequestId, receipt: Option<OperationReceipt>)
    requires FinishBySupervisor(j, request, receipt).Ok?
    ensures ClosesWitness(j, FinishBySupervisor(j, request, receipt).value.journal, request)
  {
    hide FinalStep, ReleaseFrom;
  }

  /** The witness being finished is the last one of an Unknown attempt whose pair is neither halted nor retired. */
  lemma ClaimedWitnessFits(j: Journal, request: RequestId)
    requires Inv(j) && request in j.reconciliations && j.reconciliations[request].state == RecClaimed
    ensures WitnessFits(j, request) && j.reconciliations[request].attempt in j.attempts
    ensures j.attempts[j.reconciliations[request].attempt].state == Unknown
    ensures Doubtful(j, j.reconciliations[request].attempt)
    ensures j.attempts[j.reconciliations[request].attempt].Owner() !in j.retirements
  {
    hide Keyed, Contiguous, Requested, Bound, InOrder, Receipted, Leased, Halts, Retires, HandsOver, Historical, Doubtful;
    IsDoubtful(j, j.reconciliations[request].attempt);
  }

  lemma ClosesRows(j: Journal, k: Journal, request: RequestId)
    requires ClosesWitness(j, k, request)
    ensures SameRows(j, k) && SameClosures(j, k) && OnlyPairChanged(j, k, j.attempts[j.reconciliations[request].attempt].Owner())
  {
    hide ReleaseFrom, FinalStep;
  }

  lemma ClosesOrder(j: Journal, k: Journal, request: RequestId)
    requires ClosesWitness(j, k, request) && SameRows(j, k) && InOrder(j)
    requires j.attempts[j.reconciliations[request].attempt].state == Unknown
    ensures InOrder(k)
  {
    assert forall id | id in j.attempts && j.attempts[id].state == Completed :: k.attempts[id].state == Completed;
    hide ClosesWitness;
    OrderRows(j, k);
  }

  lemma ClosesLast(j: Journal, k: Journal, request: RequestId)
    requires ClosesWitness(j, k, request) && Doubtful(j, j.reconciliations[request].attempt)
    requires j.attempts[j.reconciliations[request].attempt].Owner() !in j.retirements
    ensures var p := j.attempts[j.reconciliations[request].attempt].Owner();
            && Live(j, p)
            && k.leases == if Live(k, p) then j.leases else ReleaseFrom(j.leases, p, ResourcesOf(j, p))
  {
    hide ReleaseFrom, ResourcesOf, Destinations;
  }

  lemma ClosesOldWitness(j: Journal, k: Journal, request: RequestId, q: RequestId)
    requires ClosesWitness(j, k, request) && q in j.reconciliations && WitnessFits(j, q) && WitnessFits(j, request)
    ensures q in k.reconciliations && WitnessFits(k, q)
  {
    hide ReleaseFrom, FinalStep;
  }

  lemma ClosesHistory(j: Journal, k: Journal, request: RequestId)
    requires ClosesWitness(j, k, request) && Historical(j)
    ensures Historical(k)
  {
    hide ReleaseFrom, FinalStep;
  }

  lemma ClosesWitnesses(j: Journal, k: Journal, request: RequestId)
    requires ClosesWitness(j, k, request) && Witnessed(j)
    ensures Witnessed(k)
  {
    assert k.reconciliations.Keys == j.reconciliations.Keys && request in j.reconciliations;
    hide ClosesWitness, WitnessFits, Historical;
    ClosesHistory(j, k, request);
    forall q | q in j.reconciliations
      ensures q in k.reconciliations && WitnessFits(k, q)
    {
      ClosesOldWitness(j, k, request, q);
    }
  }

  lemma ClosesReceipt(j: Journal, k: Journal, request: RequestId, x: AttemptId)
    requires ClosesWitness(j, k, request) && WitnessFits(j, request) && Doubtful(j, j.reconciliations[request].attempt)
    requires x in j.attempts && j.attempts[x].id == x && ReceiptFits(j, j.attempts[x])
    requires forall i | 0 <= i < |HistoryOf(j, x)| :: HistoryOf(j, x)[i] in j.reconciliations && j.reconciliations[HistoryOf(j, x)[i]].attempt == x
    ensures x in k.attempts && ReceiptFits(k, k.attempts[x])
  {
    hide ReleaseFrom, FinalStep, ResourcesOf;
  }

  lemma ClosesReceipts(j: Journal, k: Journal, request: RequestId)
    requires ClosesWitness(j, k, request) && WitnessFits(j, request) && Doubtful(j, j.reconciliations[request].attempt)
    requires Historical(j) && Receipted(j) && Contiguous(j)
    ensures Receipted(k)
  {
    assert k.attempts.Keys == j.attempts.Keys;
    hide ClosesWitness, Doubtful, ReceiptFits, Contiguous, WitnessFits;
    forall x | x in j.attempts
      ensures x in k.attempts && ReceiptFits(k, k.attempts[x])
    {
      AttemptKey(j, x);
      ClosesReceipt(j, k, request, x);
    }
  }

  lemma ClosesQuiet(j: Journal, k: Journal, request: RequestId)
    requires ClosesWitness(j, k, request) && Quiet(j)
    ensures Quiet(k)
  {
    hide ReleaseFrom, FinalStep;
  }

  lemma ClosesTables(j: Journal, k: Journal, request: RequestId)
    requires ClosesWitness(j, k, request) && Keyed(j) && Contiguous(j) && Requested(j) && Bound(j) && InOrder(j)
    requires j.attempts[j.reconciliations[request].attempt].state == Unknown
    ensures Keyed(k) && Contiguous(k) && Requested(k) && Bound(k) && InOrder(k)
  {
    hide Keyed, Contiguous, Requested, Bound, InOrder, ClosesWitness, SameRows, OnlyPairChanged, SameClosures;
    ClosesRows(j, k, request);
    KeyedRows(j, k);
    ContiguousRows(j, k);
    RequestedRows(j, k);
    BoundRows(j, k);
    ClosesOrder(j, k, request);
  }

  lemma ClosesStanding(j: Journal, k: Journal, request: RequestId)
    requires ClosesWitness(j, k, request) && Doubtful(j, j.reconciliations[request].attempt)
    requires j.attempts[j.reconciliations[request].attempt].Owner() !in j.retirements
    requires Contiguous(j) && Leased(j) && Halts(j) && Retires(j) && HandsOver(j) && Quiet(j)
    ensures Leased(k) && Halts(k) && Retires(k) && HandsOver(k) && Quiet(k)
  {
    var p := j.attempts[j.reconciliations[request].attempt].Owner();
    hide Contiguous, Leased, Halts, Retires, HandsOver, Quiet, ClosesWitness, SameRows, OnlyPairChanged;
    hide Live, Doubtful, Started, LastOf, ResourcesOf, ReleaseFrom;
    ClosesRows(j, k, request);
    ClosesLast(j, k, request);
    LiveStanding(j, p);
    LeasesSettle(j, k, p);
    SettledClosures(j, k, p);
    ClosesQuiet(j, k, request);
  }

  lemma FinishReconciliationKeeps(j: Journal, request: RequestId, receipt: Option<OperationReceipt>)
    requires Inv(j)
    ensures Inv(After(j, FinishBySupervisor(j, request, receipt)))
  {
    hide Keyed, Contiguous, Requested, Bound, InOrder, Receipted, Witnessed, Leased, Halts, Retires, HandsOver, Quiet;
    hide Historical, Doubtful, WitnessFits, FinishBySupervisor;
    var tx := FinishBySupervisor(j, request, receipt);
    if tx.Ok? {
      var k := tx.value.journal;
      FinishCloses(j, request, receipt);
      assert request in j.reconciliations && j.reconciliations[request].state == RecClaimed;
      hide ClosesWitness;
      ClaimedWitnessFits(j, request);
      ClosesTables(j, k, request);
      ClosesStanding(j, k, request);
      ClosesWitnesses(j, k, request);
      WitnessedHistory(j);
      ClosesReceipts(j, k, request);
    }
  }
}
