/** The durable journal as a value, and each store transaction as a function that commits a new journal or fails. */
module Journal {
  import opened Wrappers
  import opened Domain

  /** The tables. `byRequest`, `steps` and `history` are the unique indexes on the request id, on
      (grant, plan, operation index) and on (attempt, ordinal), each listing its rows in index order.
      `haltedPairs` and `haltedRuns` are the unique indexes of the abandonment table. A retirement
      names the row of the takeover that caused it. */
  datatype Journal = Journal(
    profiles: map<ProfileId, CommissionedProfile>,
    grants: map<GrantId, Grant>,
    plans: map<PlanId, ReviewedPlan>,
    runs: map<RequestId, PlanRun>,
    attempts: map<AttemptId, AttemptRecord>,
    byRequest: map<RequestId, AttemptId>,
    steps: map<Pair, seq<AttemptId>>,
    reconciliations: map<RequestId, ReconciliationRecord>,
    history: map<AttemptId, seq<RequestId>>,
    takeovers: seq<RecoveryTakeover>,
    retirements: map<Pair, nat>,
    abandonments: map<RequestId, Abandonment>,
    haltedPairs: set<Pair>,
    haltedRuns: set<RequestId>,
    leases: map<PhysicalResource, Pair>)

  const EMPTY := Journal(map[], map[], map[], map[], map[], map[], map[], map[], map[], [], map[], map[], {}, {}, map[])

  datatype StoreError =
    | Missing
    | Revoked
    | Expired
    | BudgetExhausted
    | NotDispatchable
    | OutOfOrder
    | LeaseBusy
    | Conflict
    | Constraint // a unique index refused the row, or an index entry has no row

  datatype Committed<+T> = Committed(journal: Journal, value: T)

  type Transaction<+T> = Result<Committed<T>, StoreError>

  datatype AdmissionSnapshot = AdmissionSnapshot(agent: PrincipalId, profile: CommissionedProfile, plan: ReviewedPlan)

  datatype ReservationOutcome = Existing(attempt: AttemptRecord) | Reserved(attempt: AttemptRecord)

  datatype ReconciliationClaim = ExistingWitness(record: ReconciliationRecord) | ClaimedWitness(record: ReconciliationRecord)

  // ----- Queries -----

  function Listing(j: Journal, p: Pair): seq<AttemptId> {
    if p in j.steps then j.steps[p] else []
  }

  function HistoryOf(j: Journal, a: AttemptId): seq<RequestId> {
    if a in j.history then j.history[a] else []
  }

  function Lookup<K, V>(table: map<K, V>, key: K): Result<V, StoreError> {
    if key in table then Ok(table[key]) else Err(Missing)
  }

  function AttemptForRequest(j: Journal, request: RequestId): Option<AttemptRecord> {
    if request in j.byRequest && j.byRequest[request] in j.attempts
    then Some(j.attempts[j.byRequest[request]])
    else None
  }

  function AttemptAtStep(j: Journal, p: Pair, index: nat): Option<AttemptRecord> {
    var listing := Listing(j, p);
    if index < |listing| && listing[index] in j.attempts && j.attempts[listing[index]].operationIndex == index
    then Some(j.attempts[listing[index]])
    else None
  }

  function Destinations(takeovers: seq<RecoveryTakeover>): set<Pair> {
    set t | t in takeovers :: t.Destination()
  }

  function FindTakeover(takeovers: seq<RecoveryTakeover>, request: RequestId): Option<RecoveryTakeover> {
    if takeovers == [] then None
    else if takeovers[0].request == request then Some(takeovers[0])
    else FindTakeover(takeovers[1..], request)
  }

  predicate HasDispatched(j: Journal, p: Pair) {
    exists id | id in j.attempts :: j.attempts[id].Owner() == p && j.attempts[id].state == Dispatched
  }

  predicate HasActiveReconciliation(j: Journal, p: Pair) {
    exists q | q in j.reconciliations ::
      && j.reconciliations[q].state == RecClaimed
      && j.reconciliations[q].attempt in j.attempts
      && j.attempts[j.reconciliations[q].attempt].Owner() == p
  }

  predicate ActivelyReconciled(j: Journal, a: AttemptId) {
    exists q | q in j.reconciliations :: j.reconciliations[q].attempt == a && j.reconciliations[q].state == RecClaimed
  }

  function LeaseKeys(leases: map<PhysicalResource, Pair>, p: Pair): set<PhysicalResource> {
    set r | r in leases && leases[r] == p
  }

  predicate OwnsAll(leases: map<PhysicalResource, Pair>, p: Pair, resources: set<PhysicalResource>) {
    forall r | r in resources :: r in leases && leases[r] == p
  }

  /** Each resource is free or already held by `p`. */
  predicate Available(leases: map<PhysicalResource, Pair>, p: Pair, resources: set<PhysicalResource>) {
    forall r | r in resources && r in leases :: leases[r] == p
  }

  function LeaseTo(leases: map<PhysicalResource, Pair>, p: Pair, resources: set<PhysicalResource>): map<PhysicalResource, Pair> {
    leases + map r | r in resources :: p
  }

  /** Deletes only the rows that still belong to `p`. */
  function ReleaseFrom(leases: map<PhysicalResource, Pair>, p: Pair, resources: set<PhysicalResource>): map<PhysicalResource, Pair> {
    map r | r in leases && !(r in resources && leases[r] == p) :: leases[r]
  }

  // ----- Guards shared by several transactions -----

  function ActiveGrant(j: Journal, id: GrantId, agent: PrincipalId, profile: ProfileId, now: int): Result<Grant, StoreError> {
    var grant :- Lookup(j.grants, id);
    :- Need(grant.agent == agent && grant.profile == profile, Conflict);
    :- Need(!grant.revoked, Revoked);
    :- Need(grant.expiresAt.Some? && grant.expiresAt.value > now, Expired);
    Ok(grant)
  }

  /** The stored profile and plan are the ones the attempt was bound to. */
  function BoundContext(j: Journal, a: AttemptRecord): Result<(CommissionedProfile, ReviewedPlan), StoreError> {
    var profile :- Lookup(j.profiles, a.profile);
    :- Need(Sha256(profile) == a.profileDigest, Conflict);
    var plan :- Lookup(j.plans, a.plan);
    :- Need(Sha256(plan) == a.planDigest, Conflict);
    Ok((profile, plan))
  }

  function AdmissionContext(j: Journal, proposed: AttemptRecord, snapshot: AdmissionSnapshot, now: int): Result<Grant, StoreError> {
    var grant :- ActiveGrant(j, proposed.grant, snapshot.agent, proposed.profile, now);
    var profile :- Lookup(j.profiles, proposed.profile);
    :- Need(Sha256(profile) == proposed.profileDigest && profile == snapshot.profile, Conflict);
    var plan :- Lookup(j.plans, proposed.plan);
    :- Need(Sha256(plan) == proposed.planDigest && plan == snapshot.plan, Conflict);
    Ok(grant)
  }

  function InsertAttempt(j: Journal, a: AttemptRecord): Journal {
    j.(attempts := j.attempts[a.id := a],
       byRequest := j.byRequest[a.request := a.id],
       steps := j.steps[a.Owner() := Listing(j, a.Owner()) + [a.id]])
  }

  // ----- Immutable records -----

  function SaveProfile(j: Journal, profile: CommissionedProfile): Transaction<()> {
    if profile.id !in j.profiles then Ok(Committed(j.(profiles := j.profiles[profile.id := profile]), ()))
    else if j.profiles[profile.id] == profile then Ok(Committed(j, ()))
    else Err(Conflict)
  }

  function SaveGrant(j: Journal, grant: Grant): Transaction<()> {
    if grant.id !in j.grants then Ok(Committed(j.(grants := j.grants[grant.id := grant]), ()))
    else if j.grants[grant.id] == grant then Ok(Committed(j, ()))
    else Err(Conflict)
  }

  /** Consuming a reviewed proposal inserts the plan, or finds the identical plan already there. */
  function SavePlan(j: Journal, plan: ReviewedPlan): Transaction<()> {
    if plan.id !in j.plans then Ok(Committed(j.(plans := j.plans[plan.id := plan]), ()))
    else if j.plans[plan.id] == plan then Ok(Committed(j, ()))
    else Err(Conflict)
  }

  function RevokeGrant(j: Journal, id: GrantId): Transaction<()> {
    var grant :- Lookup(j.grants, id);
    Ok(Committed(j.(grants := j.grants[id := grant.(revoked := true)]), ()))
  }

  function CreateRun(j: Journal, run: PlanRun): Transaction<()> {
    if run.id !in j.runs then Ok(Committed(j.(runs := j.runs[run.id := run]), ()))
    else if j.runs[run.id].(cursor := run.cursor) == run then Ok(Committed(j, ()))
    else Err(Conflict)
  }

  // ----- Reservation -----

  predicate SameReservation(existing: AttemptRecord, proposed: AttemptRecord) {
    && existing.id == proposed.id
    && existing.grant == proposed.grant
    && existing.plan == proposed.plan
    && existing.operationIndex == proposed.operationIndex
    && existing.planDigest == proposed.planDigest
  }

  /** The index the next step of the pair must have: one past the last row, which must be completed. */
  function NextIndex(j: Journal, p: Pair): Result<nat, StoreError> {
    var listing := Listing(j, p);
    if listing == [] then Ok(0)
    else
      var last := listing[|listing| - 1];
      :- Need(last in j.attempts, Constraint);
      :- Need(j.attempts[last].state == Completed, OutOfOrder);
      Ok(j.attempts[last].operationIndex + 1)
  }

  /** A later step repeats the profile, resources and plan of the first one. */
  function SameRun(j: Journal, proposed: AttemptRecord): Outcome<StoreError> {
    if proposed.operationIndex == 0 then Pass
    else match AttemptAtStep(j, proposed.Owner(), 0)
      case None => Fail(Constraint)
      case Some(first) =>
        Need(first.profile == proposed.profile && first.profileDigest == proposed.profileDigest
             && first.leasedResources == proposed.leasedResources && first.planDigest == proposed.planDigest, Conflict)
  }

  function Reserve(j: Journal, proposed: AttemptRecord, snapshot: AdmissionSnapshot, now: int): Transaction<ReservationOutcome> {
    var p := proposed.Owner();
    match AttemptForRequest(j, proposed.request)
    case Some(existing) =>
      :- Need(SameReservation(existing, proposed), Conflict);
      Ok(Committed(j, Existing(existing)))
    case None =>
      :- Need(p !in j.haltedPairs && p !in j.retirements, Conflict);
      var grant :- AdmissionContext(j, proposed, snapshot, now);
      var expected :- NextIndex(j, p);
      :- Need(proposed.operationIndex == expected, OutOfOrder);
      :- SameRun(j, proposed);
      :- Need(Available(j.leases, p, proposed.leasedResources), LeaseBusy);
      var remaining := grant.remaining.CheckedSub(proposed.reserved);
      :- Need(remaining.Some?, BudgetExhausted);
      :- Need(proposed.id !in j.attempts, Constraint);
      var charged := j.(leases := LeaseTo(j.leases, p, proposed.leasedResources),
                        grants := j.grants[grant.id := grant.(remaining := remaining.value)]);
      Ok(Committed(InsertAttempt(charged, proposed), Reserved(proposed)))
  }

  // ----- Recovery takeover -----

  predicate Uncertain(s: AttemptState) {
    s == Partial || s == Unknown
  }

  /** One named source: its pair is unretired and quiet, and it is uncertain or an inherited carrier. */
  function CheckSource(j: Journal, id: AttemptId, proposed: AttemptRecord): Result<Pair, StoreError> {
    var source :- Lookup(j.attempts, id);
    var p := source.Owner();
    :- Need(p !in j.retirements, Conflict);
    :- Need(!HasDispatched(j, p), NotDispatchable);
    :- Need(!HasActiveReconciliation(j, p), Conflict);
    :- Need(Uncertain(source.state)
            || (p in Destinations(j.takeovers) && source.state in {Intent, Rejected, Completed}), NotDispatchable);
    :- Need(source.leasedResources == proposed.leasedResources, Conflict);
    :- Need(!ActivelyReconciled(j, id), Conflict);
    Ok(p)
  }

  /** The pairs that own the named sources, checked in the order given. */
  function CheckSources(j: Journal, ids: seq<AttemptId>, proposed: AttemptRecord): Result<set<Pair>, StoreError> {
    if ids == [] then Ok({})
    else
      var owners :- CheckSources(j, ids[..|ids| - 1], proposed);
      var owner :- CheckSource(j, ids[|ids| - 1], proposed);
      Ok(owners + {owner})
  }

  /** Closes every pair in `owners` under one takeover row. */
  function Retire(retirements: map<Pair, nat>, owners: set<Pair>, row: nat): map<Pair, nat> {
    retirements + map q | q in owners :: row
  }

  predicate HeldBy(leases: map<PhysicalResource, Pair>, owners: set<Pair>, resources: set<PhysicalResource>) {
    forall r | r in resources :: r in leases && leases[r] in owners
  }

  function TakeOver(j: Journal, proposed: AttemptRecord, snapshot: AdmissionSnapshot, run: PlanRun,
                    recovery: RecoveryTakeover, now: int): Transaction<ReservationOutcome> {
    var p := proposed.Owner();
    match FindTakeover(j.takeovers, recovery.request)
    case Some(existing) =>
      :- Need(existing == recovery, Conflict);
      var attempt :- Lookup(j.attempts, recovery.firstAttempt);
      Ok(Committed(j, Existing(attempt)))
    case None =>
      match AttemptForRequest(j, proposed.request)
      case Some(existing) =>
        :- Need(existing.id == proposed.id && existing.Owner() == p, Conflict);
        Ok(Committed(j, Existing(existing)))
      case None =>
        :- Need(p !in j.haltedPairs && p !in j.retirements, Conflict);
        var grant :- AdmissionContext(j, proposed, snapshot, now);
        var owners :- CheckSources(j, recovery.unresolved, proposed);
        :- Need(HeldBy(j.leases, owners, proposed.leasedResources), LeaseBusy);
        var remaining := grant.remaining.CheckedSub(proposed.reserved);
        :- Need(remaining.Some?, BudgetExhausted);
        :- Need(proposed.id !in j.attempts && Listing(j, p) == [], Constraint);
        :- Need(run.id !in j.runs, Constraint);
        var moved := j.(leases := LeaseTo(j.leases, p, proposed.leasedResources),
                        retirements := Retire(j.retirements, owners, |j.takeovers|),
                        grants := j.grants[grant.id := grant.(remaining := remaining.value)],
                        runs := j.runs[run.id := run],
                        takeovers := j.takeovers + [recovery]);
        Ok(Committed(InsertAttempt(moved, proposed), Reserved(proposed)))
  }

  // ----- Dispatch and receipts -----

  function ClaimDispatch(j: Journal, id: AttemptId, agent: PrincipalId, now: int): Transaction<AttemptRecord> {
    var attempt :- Lookup(j.attempts, id);
    :- Need(attempt.state == Intent, NotDispatchable);
    :- Need(attempt.Owner() !in j.haltedPairs && attempt.Owner() !in j.retirements, NotDispatchable);
    var _ :- ActiveGrant(j, attempt.grant, agent, attempt.profile, now);
    var _ :- BoundContext(j, attempt);
    :- Need(OwnsAll(j.leases, attempt.Owner(), attempt.leasedResources), LeaseBusy);
    var claimed := attempt.(state := Dispatched);
    Ok(Committed(j.(attempts := j.attempts[id := claimed]), claimed))
  }

  /** A rejection inside a recovery destination keeps the leases it inherited. */
  function ReleaseOnOutcome(j: Journal, a: AttemptRecord, release: bool): map<PhysicalResource, Pair> {
    if release && (a.state != Rejected || a.Owner() !in Destinations(j.takeovers))
    then ReleaseFrom(j.leases, a.Owner(), a.leasedResources)
    else j.leases
  }

  function RecordReceipt(j: Journal, id: AttemptId, receipt: OperationReceipt, release: bool): Transaction<AttemptRecord> {
    var attempt :- Lookup(j.attempts, id);
    :- Need(attempt.state == Dispatched, NotDispatchable);
    var recorded := attempt.(state := receipt.State(), receipt := Some(receipt));
    Ok(Committed(j.(attempts := j.attempts[id := recorded], leases := ReleaseOnOutcome(j, recorded, release)), recorded))
  }

  function RejectIntent(j: Journal, id: AttemptId, reason: string): Transaction<AttemptRecord> {
    var attempt :- Lookup(j.attempts, id);
    :- Need(attempt.state == Intent, NotDispatchable);
    var rejected := attempt.(state := Rejected, receipt := Some(RejectedReceipt(reason)));
    Ok(Committed(j.(attempts := j.attempts[id := rejected], leases := ReleaseOnOutcome(j, rejected, true)), rejected))
  }

  // ----- Reconciliation -----

  /** A paid reconfiguration needs an instrument whose configuration both grant and binding permit. */
  function ConfigurationAuthority(grant: Grant, profile: CommissionedProfile, plan: ReviewedPlan, index: nat): Outcome<StoreError> {
    if index >= |plan.operations| || plan.operations[index].operation.Wait? then Fail(Conflict)
    else
      var instrument := plan.operations[index].operation.instrument;
      Need(instrument in profile.instruments
           && InstrumentConfigure in grant.effects
           && InstrumentConfigure in profile.instruments[instrument].qualifiedEffects, Conflict)
  }

  function NextOrdinal(j: Journal, a: AttemptId): Result<nat, StoreError> {
    var rows := HistoryOf(j, a);
    if rows == [] then Ok(0)
    else
      :- Need(rows[|rows| - 1] in j.reconciliations, Constraint);
      Ok(j.reconciliations[rows[|rows| - 1]].ordinal + 1)
  }

  function ClaimReconciliation(j: Journal, id: AttemptId, request: RequestId, principal: PrincipalId,
                               charge: Option<Budget>, now: int): Transaction<ReconciliationClaim> {
    if request in j.reconciliations then
      var existing := j.reconciliations[request];
      :- Need(existing.attempt == id && existing.principal == principal, Conflict);
      Ok(Committed(j, ExistingWitness(existing)))
    else
      :- Need(!ActivelyReconciled(j, id), Conflict);
      var attempt :- Lookup(j.attempts, id);
      :- Need(Uncertain(attempt.state), NotDispatchable);
      var grant :- ActiveGrant(j, attempt.grant, principal, attempt.profile, now);
      var context :- BoundContext(j, attempt);
      :- if charge.Some? then ConfigurationAuthority(grant, context.0, context.1, attempt.operationIndex) else Pass;
      :- Need(OwnsAll(j.leases, attempt.Owner(), attempt.leasedResources), LeaseBusy);
      var remaining := if charge.Some? then grant.remaining.CheckedSub(charge.value) else Some(grant.remaining);
      :- Need(remaining.Some?, BudgetExhausted);
      var ordinal :- NextOrdinal(j, id);
      var record := ReconciliationRecord(request, id, ordinal, principal, RecClaimed, None);
      Ok(Committed(j.(grants := if charge.Some? then j.grants[grant.id := grant.(remaining := remaining.value)] else j.grants,
                      reconciliations := j.reconciliations[request := record],
                      history := j.history[id := HistoryOf(j, id) + [request]],
                      attempts := j.attempts[id := attempt.(state := Unknown)]),
                   ClaimedWitness(record)))
  }

  function FinishReconciliation(j: Journal, request: RequestId, receipt: Option<OperationReceipt>, completed: bool,
                                release: bool): Transaction<AttemptRecord> {
    var record :- Lookup(j.reconciliations, request);
    :- Need(record.state == RecClaimed, NotDispatchable);
    var attempt :- Lookup(j.attempts, record.attempt);
    var outcome := if completed then RecCompleted else if receipt.Some? then RecUnknown else RecFailed;
    var state := if completed then Completed else if attempt.state == Partial then Unknown else attempt.state;
    var finished := attempt.(state := state);
    Ok(Committed(j.(reconciliations := j.reconciliations[request := record.(receipt := receipt, state := outcome)],
                    attempts := j.attempts[record.attempt := finished],
                    leases := if completed && release then ReleaseFrom(j.leases, attempt.Owner(), attempt.leasedResources)
                              else j.leases),
                 finished))
  }

  // ----- Abandonment -----

  const ABANDONED := RejectedReceipt("operator abandoned halted run before dispatch")

  predicate Abandonable(s: AttemptState) {
    s == Intent || s == Completed || s == Rejected
  }

  function RejectIfIntent(a: AttemptRecord): AttemptRecord {
    if a.state == Intent then a.(state := Rejected, receipt := Some(ABANDONED)) else a
  }

  function RejectIntentsOf(attempts: map<AttemptId, AttemptRecord>, p: Pair): map<AttemptId, AttemptRecord> {
    map id | id in attempts :: if attempts[id].Owner() == p then RejectIfIntent(attempts[id]) else attempts[id]
  }

  function Abandon(j: Journal, proposed: Abandonment): Transaction<Abandonment> {
    var p := proposed.Closed();
    if proposed.request in j.abandonments then
      :- Need(j.abandonments[proposed.request] == proposed, Conflict);
      Ok(Committed(j, proposed))
    else
      :- Need(proposed.run !in j.haltedRuns, Conflict);
      :- Need(p !in j.haltedPairs, Conflict);
      :- Need(p !in Destinations(j.takeovers), Conflict);
      var run :- Lookup(j.runs, proposed.run);
      :- Need(Pair(run.grant, run.plan) == p, Conflict);
      :- Need(exists id | id in j.attempts :: j.attempts[id].Owner() == p, Missing);
      :- Need(forall id | id in j.attempts && j.attempts[id].Owner() == p :: Abandonable(j.attempts[id].state), NotDispatchable);
      var held := LeaseKeys(j.leases, p);
      :- Need(held == proposed.resources, Conflict);
      Ok(Committed(j.(attempts := RejectIntentsOf(j.attempts, p),
                      leases := ReleaseFrom(j.leases, p, held),
                      abandonments := j.abandonments[proposed.request := proposed],
                      haltedPairs := j.haltedPairs + {p},
                      haltedRuns := j.haltedRuns + {proposed.run}),
                   proposed))
  }

  // ----- Runs and recovery -----

  /** The length of the run's leading block of completed attempts. */
  function CompletedPrefix(attempts: map<AttemptId, AttemptRecord>, steps: seq<(AttemptId, RequestId)>): (n: nat)
    ensures n <= |steps|
  {
    if steps != [] && steps[0].0 in attempts && attempts[steps[0].0].state == Completed
    then 1 + CompletedPrefix(attempts, steps[1..])
    else 0
  }

  function RepairCursor(j: Journal, id: RequestId): Transaction<PlanRun> {
    var run :- Lookup(j.runs, id);
    var completed := CompletedPrefix(j.attempts, run.steps);
    var repaired := if completed > run.cursor then run.(cursor := completed) else run;
    Ok(Committed(j.(runs := j.runs[id := repaired]), repaired))
  }

  /** First half of a cursor advance: read the run and compute the row to write back. */
  function AdvancedRun(j: Journal, id: RequestId, cursor: nat): Result<PlanRun, StoreError> {
    var run :- Lookup(j.runs, id);
    :- Need(run.cursor == cursor, Conflict);
    Ok(run.(cursor := cursor + 1))
  }

  /** Second half, under a separate lock: write the whole row. */
  function WriteRun(j: Journal, run: PlanRun): Journal {
    j.(runs := j.runs[run.id := run])
  }

  const INTERRUPTED := UnknownReceipt("process interrupted after dispatch; reconciliation required", None)

  function Interrupt(a: AttemptRecord): AttemptRecord {
    if a.state == Dispatched then a.(state := Unknown, receipt := Some(INTERRUPTED)) else a
  }

  function InterruptWitness(r: ReconciliationRecord): ReconciliationRecord {
    if r.state == RecClaimed then r.(state := RecUnknown) else r
  }

  /** Reopening after a crash: nothing in flight is replayed, it all becomes unknown. */
  function Reopen(j: Journal): Journal {
    j.(attempts := map id | id in j.attempts :: Interrupt(j.attempts[id]),
       reconciliations := map q | q in j.reconciliations :: InterruptWitness(j.reconciliations[q]))
  }
}
