/** The store as an object: tables updated in place, loops over resources and sources, rollback by early return.
    Every method is proved against its transaction function. */
module Store {
  import opened Wrappers
  import opened Domain
  import opened Journal
  import Tx = Journal
  import opened Actions

  // ----- Loops over one table inside a transaction -----

  /** Takes each resource that is free and skips those already held; fails on the first held by another pair. */
  method AcquireLeases(leases: map<PhysicalResource, Pair>, owner: Pair, resources: set<PhysicalResource>)
    returns (r: Result<map<PhysicalResource, Pair>, StoreError>)
    ensures r == if Available(leases, owner, resources) then Ok(LeaseTo(leases, owner, resources)) else Err(LeaseBusy)
  {
    var staged, todo := leases, resources;
    while todo != {}
      invariant todo <= resources
      invariant Available(leases, owner, resources - todo)
      invariant staged == LeaseTo(leases, owner, resources - todo)
      decreases |todo|
    {
      var resource :| resource in todo;
      if resource !in staged {
        staged := staged[resource := owner];
      } else if staged[resource] != owner {
        assert resource in leases && leases[resource] != owner;
        return Err(LeaseBusy);
      }
      todo := todo - {resource};
    }
    assert resources - todo == resources;
    return Ok(staged);
  }

  method CheckOwnership(leases: map<PhysicalResource, Pair>, owner: Pair, resources: set<PhysicalResource>) returns (ok: bool)
    ensures ok <==> OwnsAll(leases, owner, resources)
  {
    var todo := resources;
    while todo != {}
      invariant todo <= resources
      invariant OwnsAll(leases, owner, resources - todo)
      decreases |todo|
    {
      var resource :| resource in todo;
      if resource !in leases || leases[resource] != owner { return false; }
      todo := todo - {resource};
    }
    assert resources - todo == resources;
    return true;
  }

  /** Moves each resource from one of the old owners; fails on the first that none of them holds. */
  method TransferLeases(leases: map<PhysicalResource, Pair>, owners: set<Pair>, to: Pair, resources: set<PhysicalResource>)
    returns (r: Result<map<PhysicalResource, Pair>, StoreError>)
    ensures r == if HeldBy(leases, owners, resources) then Ok(LeaseTo(leases, to, resources)) else Err(LeaseBusy)
  {
    var staged, todo := leases, resources;
    while todo != {}
      invariant todo <= resources
      invariant HeldBy(leases, owners, resources - todo)
      invariant staged == LeaseTo(leases, to, resources - todo)
      decreases |todo|
    {
      var resource :| resource in todo;
      if resource !in staged || staged[resource] !in owners {
        assert resource !in leases || leases[resource] !in owners;
        return Err(LeaseBusy);
      }
      staged := staged[resource := to];
      todo := todo - {resource};
    }
    assert resources - todo == resources;
    return Ok(staged);
  }

  /** Closes every old owner under one takeover row. */
  method RetireSources(retirements: map<Pair, nat>, owners: set<Pair>, row: nat) returns (r: map<Pair, nat>)
    ensures r == Retire(retirements, owners, row)
  {
    var todo := owners;
    r := retirements;
    while todo != {}
      invariant todo <= owners
      invariant r == Retire(retirements, owners - todo, row)
      decreases |todo|
    {
      var q :| q in todo;
      r := r[q := row];
      todo := todo - {q};
    }
    assert owners - todo == owners;
  }

  /** Deletes each resource's row if it still belongs to the owner. */
  method ReleaseLeases(leases: map<PhysicalResource, Pair>, owner: Pair, resources: set<PhysicalResource>)
    returns (r: map<PhysicalResource, Pair>)
    ensures r == ReleaseFrom(leases, owner, resources)
  {
    var todo := resources;
    r := leases;
    while todo != {}
      invariant todo <= resources
      invariant r == ReleaseFrom(leases, owner, resources - todo)
      decreases |todo|
    {
      var resource :| resource in todo;
      if resource in r && r[resource] == owner { r := r - {resource}; }
      todo := todo - {resource};
    }
    assert resources - todo == resources;
  }

  /** Checks the named sources in order and collects the pairs that own them. */
  method CheckUnresolved(j: Journal, ids: seq<AttemptId>, proposed: AttemptRecord) returns (r: Result<set<Pair>, StoreError>)
    ensures r == CheckSources(j, ids, proposed)
  {
    var owners: set<Pair> := {};
    for n := 0 to |ids|
      invariant CheckSources(j, ids[..n], proposed) == Ok(owners)
    {
      assert ids[..n + 1][..n] == ids[..n];
      var owner := CheckSource(j, ids[n], proposed);
      if owner.Err? {
        FailsEarly(j, ids, n, proposed);
        return Err(owner.error);
      }
      owners := owners + {owner.value};
    }
    assert ids[..|ids|] == ids;
    return Ok(owners);
  }

  /** A failing prefix of sources fails the whole list with the same error. */
  lemma {:induction false} FailsEarly(j: Journal, ids: seq<AttemptId>, n: nat, proposed: AttemptRecord)
    requires n < |ids| && CheckSources(j, ids[..n], proposed).Ok? && CheckSource(j, ids[n], proposed).Err?
    ensures CheckSources(j, ids, proposed) == Err(CheckSource(j, ids[n], proposed).error)
    decreases |ids|
  {
    hide CheckSource;
    var front := ids[..|ids| - 1];
    if n == |ids| - 1 {
      assert front == ids[..n];
    } else {
      assert front[..n] == ids[..n];
      FailsEarly(j, front, n, proposed);
    }
  }

  method CountCompleted(attempts: map<AttemptId, AttemptRecord>, steps: seq<(AttemptId, RequestId)>) returns (n: nat)
    ensures n == CompletedPrefix(attempts, steps)
  {
    n := 0;
    while n < |steps|
      invariant n <= |steps|
      invariant CompletedPrefix(attempts, steps) == n + CompletedPrefix(attempts, steps[n..])
    {
      assert steps[n..][1..] == steps[n + 1..];
      if steps[n].0 !in attempts || attempts[steps[n].0].state != Completed { break; }
      n := n + 1;
    }
  }

  /** The pair's attempts, all but those still to visit, rejected where they were intents. */
  ghost predicate RejectedBut(attempts: map<AttemptId, AttemptRecord>, p: Pair, todo: set<AttemptId>, staged: map<AttemptId, AttemptRecord>) {
    && staged.Keys == attempts.Keys
    && forall id | id in attempts ::
         staged[id] == if attempts[id].Owner() == p && id !in todo then RejectIfIntent(attempts[id]) else attempts[id]
  }

  /** Rejects every Intent of the pair; fails on the first attempt that may have had an effect. */
  method RejectIntents(attempts: map<AttemptId, AttemptRecord>, p: Pair) returns (r: Result<map<AttemptId, AttemptRecord>, StoreError>)
    ensures r == if forall id | id in attempts && attempts[id].Owner() == p :: Abandonable(attempts[id].state)
                 then Ok(RejectIntentsOf(attempts, p)) else Err(NotDispatchable)
  {
    var todo := set id | id in attempts && attempts[id].Owner() == p;
    var staged := attempts;
    while todo != {}
      invariant forall id | id in todo :: id in attempts && attempts[id].Owner() == p
      invariant RejectedBut(attempts, p, todo, staged)
      invariant forall id | id in attempts && attempts[id].Owner() == p && id !in todo :: Abandonable(attempts[id].state)
      decreases |todo|
    {
      var id :| id in todo;
      var attempt := attempts[id];
      if !Abandonable(attempt.state) { return Err(NotDispatchable); }
      if attempt.state == Intent {
        staged := staged[id := attempt.(state := Rejected, receipt := Some(ABANDONED))];
      }
      todo := todo - {id};
    }
    AllRejected(attempts, p, staged);
    return Ok(staged);
  }

  lemma AllRejected(attempts: map<AttemptId, AttemptRecord>, p: Pair, staged: map<AttemptId, AttemptRecord>)
    requires RejectedBut(attempts, p, {}, staged)
    ensures staged == RejectIntentsOf(attempts, p)
  {
  }

  // ----- Recovery after a crash -----

  method InterruptAttempts(attempts: map<AttemptId, AttemptRecord>) returns (r: map<AttemptId, AttemptRecord>)
    ensures r == map id | id in attempts :: Interrupt(attempts[id])
  {
    var todo := set id | id in attempts && attempts[id].state == Dispatched;
    r := attempts;
    while todo != {}
      invariant forall id | id in todo :: id in attempts && attempts[id].state == Dispatched
      invariant r.Keys == attempts.Keys
      invariant forall id | id in attempts :: r[id] == if id in todo then attempts[id] else Interrupt(attempts[id])
      decreases |todo|
    {
      var id :| id in todo;
      r := r[id := r[id].(state := Unknown, receipt := Some(INTERRUPTED))];
      todo := todo - {id};
    }
  }

  method InterruptWitnesses(records: map<RequestId, ReconciliationRecord>) returns (r: map<RequestId, ReconciliationRecord>)
    ensures r == map q | q in records :: InterruptWitness(records[q])
  {
    var todo := set q | q in records && records[q].state == RecClaimed;
    r := records;
    while todo != {}
      invariant forall q | q in todo :: q in records && records[q].state == RecClaimed
      invariant r.Keys == records.Keys
      invariant forall q | q in records :: r[q] == if q in todo then records[q] else InterruptWitness(records[q])
      decreases |todo|
    {
      var q :| q in todo;
      r := r[q := r[q].(state := RecUnknown)];
      todo := todo - {q};
    }
  }

  /** The journal after recovery has rewritten only some of the dispatched attempts and claimed witnesses. */
  function Torn(j: Journal, attempts: set<AttemptId>, witnesses: set<RequestId>): Journal {
    j.(attempts := map id | id in j.attempts :: if id in attempts then Interrupt(j.attempts[id]) else j.attempts[id],
       reconciliations := map q | q in j.reconciliations :: if q in witnesses then InterruptWitness(j.reconciliations[q]) else j.reconciliations[q])
  }

  /** Recovery is not one transaction: a crash inside it, any number of times, leaves a journal that the next
      recovery brings to the same result; and recovering twice changes nothing more. */
  lemma TornRecoveryResumes(j: Journal, attempts: set<AttemptId>, witnesses: set<RequestId>)
    ensures Reopen(Torn(j, attempts, witnesses)) == Reopen(j)
    ensures Reopen(Reopen(j)) == Reopen(j)
  {
    SameAttempts(j, attempts, witnesses);
    SameWitnesses(j, attempts, witnesses);
    assert Reopen(Reopen(j)).attempts == Reopen(j).attempts;
    assert Reopen(Reopen(j)).reconciliations == Reopen(j).reconciliations;
  }

  lemma SameAttempts(j: Journal, attempts: set<AttemptId>, witnesses: set<RequestId>)
    ensures Reopen(Torn(j, attempts, witnesses)).attempts == Reopen(j).attempts
  {
  }

  lemma SameWitnesses(j: Journal, attempts: set<AttemptId>, witnesses: set<RequestId>)
    ensures Reopen(Torn(j, attempts, witnesses)).reconciliations == Reopen(j).reconciliations
  {
  }

  /** What the caller of a transaction sees. */
  function ValueOf<T>(tx: Transaction<T>): Result<T, StoreError> {
    if tx.Ok? then Ok(tx.value.value) else Err(tx.error)
  }

  /** The store owns one database. A transaction works on its own copy of the tables and commits by assigning
      it back; returning early leaves the committed tables untouched, which is the rollback. */
  class SqliteStore {
    var tables: Journal

    /** A new database. */
    constructor ()
      ensures tables == EMPTY
    {
      tables := EMPTY;
    }

    method SaveProfile(profile: CommissionedProfile) returns (r: Result<(), StoreError>)
      modifies this
      ensures r == ValueOf(Tx.SaveProfile(old(tables), profile)) && tables == After(old(tables), Tx.SaveProfile(old(tables), profile))
    {
      if profile.id !in tables.profiles {
        tables := tables.(profiles := tables.profiles[profile.id := profile]);
        return Ok(());
      }
      return if tables.profiles[profile.id] == profile then Ok(()) else Err(Conflict);
    }

    method SaveGrant(grant: Grant) returns (r: Result<(), StoreError>)
      modifies this
      ensures r == ValueOf(Tx.SaveGrant(old(tables), grant)) && tables == After(old(tables), Tx.SaveGrant(old(tables), grant))
    {
      if grant.id !in tables.grants {
        tables := tables.(grants := tables.grants[grant.id := grant]);
        return Ok(());
      }
      return if tables.grants[grant.id] == grant then Ok(()) else Err(Conflict);
    }

    method SavePlan(plan: ReviewedPlan) returns (r: Result<(), StoreError>)
      modifies this
      ensures r == ValueOf(Tx.SavePlan(old(tables), plan)) && tables == After(old(tables), Tx.SavePlan(old(tables), plan))
    {
      if plan.id !in tables.plans {
        tables := tables.(plans := tables.plans[plan.id := plan]);
        return Ok(());
      }
      return if tables.plans[plan.id] == plan then Ok(()) else Err(Conflict);
    }

    method RevokeGrant(id: GrantId) returns (r: Result<(), StoreError>)
      modifies this
      ensures r == ValueOf(Tx.RevokeGrant(old(tables), id)) && tables == After(old(tables), Tx.RevokeGrant(old(tables), id))
    {
      if id !in tables.grants { return Err(Missing); }
      var grant := tables.grants[id];
      grant := grant.(revoked := true);
      tables := tables.(grants := tables.grants[id := grant]);
      return Ok(());
    }

    method CreateRun(run: PlanRun) returns (r: Result<(), StoreError>)
      modifies this
      ensures r == ValueOf(Tx.CreateRun(old(tables), run)) && tables == After(old(tables), Tx.CreateRun(old(tables), run))
    {
      if run.id !in tables.runs {
        tables := tables.(runs := tables.runs[run.id := run]);
        return Ok(());
      }
      return if tables.runs[run.id].(cursor := run.cursor) == run then Ok(()) else Err(Conflict);
    }

    method Reserve(proposed: AttemptRecord, snapshot: AdmissionSnapshot, now: int) returns (r: Result<ReservationOutcome, StoreError>)
      modifies this
      ensures r == ValueOf(Tx.Reserve(old(tables), proposed, snapshot, now))
      ensures tables == After(old(tables), Tx.Reserve(old(tables), proposed, snapshot, now))
    {
      hide Available, LeaseTo, AdmissionContext, NextIndex, SameRun, AttemptForRequest, InsertAttempt;
      var staged, p := tables, proposed.Owner();
      var existing := AttemptForRequest(staged, proposed.request);
      if existing.Some? {
        return if SameReservation(existing.value, proposed) then Ok(Existing(existing.value)) else Err(Conflict);
      }
      if p in staged.haltedPairs || p in staged.retirements { return Err(Conflict); }
      var grant :- AdmissionContext(staged, proposed, snapshot, now);
      var expected :- NextIndex(staged, p);
      if proposed.operationIndex != expected { return Err(OutOfOrder); }
      :- SameRun(staged, proposed);
      var leases :- AcquireLeases(staged.leases, p, proposed.leasedResources);
      staged := staged.(leases := leases);
      var remaining := grant.remaining.CheckedSub(proposed.reserved);
      if remaining.None? { return Err(BudgetExhausted); }
      grant := grant.(remaining := remaining.value);
      staged := staged.(grants := staged.grants[grant.id := grant]);
      if proposed.id in staged.attempts { return Err(Constraint); }
      tables := InsertAttempt(staged, proposed);
      return Ok(Reserved(proposed));
    }

    method TakeoverRecovery(proposed: AttemptRecord, snapshot: AdmissionSnapshot, run: PlanRun, recovery: RecoveryTakeover, now: int)
      returns (r: Result<ReservationOutcome, StoreError>)
      modifies this
      ensures r == ValueOf(Tx.TakeOver(old(tables), proposed, snapshot, run, recovery, now))
      ensures tables == After(old(tables), Tx.TakeOver(old(tables), proposed, snapshot, run, recovery, now))
    {
      hide HeldBy, LeaseTo, AdmissionContext, AttemptForRequest, FindTakeover, CheckSources, InsertAttempt;
      var staged, p := tables, proposed.Owner();
      var known := FindTakeover(staged.takeovers, recovery.request);
      if known.Some? {
        if known.value != recovery { return Err(Conflict); }
        if recovery.firstAttempt !in staged.attempts { return Err(Missing); }
        return Ok(Existing(staged.attempts[recovery.firstAttempt]));
      }
      var existing := AttemptForRequest(staged, proposed.request);
      if existing.Some? {
        return if existing.value.id == proposed.id && existing.value.Owner() == p then Ok(Existing(existing.value)) else Err(Conflict);
      }
      if p in staged.haltedPairs || p in staged.retirements { return Err(Conflict); }
      var grant :- AdmissionContext(staged, proposed, snapshot, now);
      var owners :- CheckUnresolved(staged, recovery.unresolved, proposed);
      var leases :- TransferLeases(staged.leases, owners, p, proposed.leasedResources);
      var retirements := RetireSources(staged.retirements, owners, |staged.takeovers|);
      var remaining := grant.remaining.CheckedSub(proposed.reserved);
      if remaining.None? { return Err(BudgetExhausted); }
      grant := grant.(remaining := remaining.value);
      if proposed.id in staged.attempts || Listing(staged, p) != [] || run.id in staged.runs { return Err(Constraint); }
      staged := staged.(leases := leases, retirements := retirements, grants := staged.grants[grant.id := grant],
                        runs := staged.runs[run.id := run], takeovers := staged.takeovers + [recovery]);
      tables := InsertAttempt(staged, proposed);
      return Ok(Reserved(proposed));
    }

    method ClaimDispatch(id: AttemptId, agent: PrincipalId, now: int) returns (r: Result<AttemptRecord, StoreError>)
      modifies this
      ensures r == ValueOf(Tx.ClaimDispatch(old(tables), id, agent, now))
      ensures tables == After(old(tables), Tx.ClaimDispatch(old(tables), id, agent, now))
    {
      hide ActiveGrant, BoundContext, OwnsAll;
      if id !in tables.attempts { return Err(Missing); }
      var attempt := tables.attempts[id];
      if attempt.state != Intent { return Err(NotDispatchable); }
      if attempt.Owner() in tables.haltedPairs || attempt.Owner() in tables.retirements { return Err(NotDispatchable); }
      var _ :- ActiveGrant(tables, attempt.grant, agent, attempt.profile, now);
      var _ :- BoundContext(tables, attempt);
      var owned := CheckOwnership(tables.leases, attempt.Owner(), attempt.leasedResources);
      if !owned { return Err(LeaseBusy); }
      attempt := attempt.(state := Dispatched);
      tables := tables.(attempts := tables.attempts[id := attempt]);
      return Ok(attempt);
    }

    method RecordReceipt(id: AttemptId, receipt: OperationReceipt, release: bool) returns (r: Result<AttemptRecord, StoreError>)
      modifies this
      ensures r == ValueOf(Tx.RecordReceipt(old(tables), id, receipt, release))
      ensures tables == After(old(tables), Tx.RecordReceipt(old(tables), id, receipt, release))
    {
      hide ReleaseFrom, Destinations;
      if id !in tables.attempts { return Err(Missing); }
      var attempt := tables.attempts[id];
      if attempt.state != Dispatched { return Err(NotDispatchable); }
      attempt := attempt.(state := receipt.State(), receipt := Some(receipt));
      var staged := tables.(attempts := tables.attempts[id := attempt]);
      if release && (attempt.state != Rejected || attempt.Owner() !in Destinations(staged.takeovers)) {
        var leases := ReleaseLeases(staged.leases, attempt.Owner(), attempt.leasedResources);
        staged := staged.(leases := leases);
      }
      tables := staged;
      return Ok(attempt);
    }

    method RejectIntent(id: AttemptId, reason: string) returns (r: Result<AttemptRecord, StoreError>)
      modifies this
      ensures r == ValueOf(Tx.RejectIntent(old(tables), id, reason))
      ensures tables == After(old(tables), Tx.RejectIntent(old(tables), id, reason))
    {
      hide ReleaseFrom, Destinations;
      if id !in tables.attempts { return Err(Missing); }
      var attempt := tables.attempts[id];
      if attempt.state != Intent { return Err(NotDispatchable); }
      attempt := attempt.(state := Rejected, receipt := Some(RejectedReceipt(reason)));
      var staged := tables.(attempts := tables.attempts[id := attempt]);
      if attempt.Owner() !in Destinations(staged.takeovers) {
        var leases := ReleaseLeases(staged.leases, attempt.Owner(), attempt.leasedResources);
        staged := staged.(leases := leases);
      }
      tables := staged;
      return Ok(attempt);
    }

    method ClaimReconciliation(id: AttemptId, request: RequestId, principal: PrincipalId, charge: Option<Budget>, now: int)
      returns (r: Result<ReconciliationClaim, StoreError>)
      modifies this
      ensures r == ValueOf(Tx.ClaimReconciliation(old(tables), id, request, principal, charge, now))
      ensures tables == After(old(tables), Tx.ClaimReconciliation(old(tables), id, request, principal, charge, now))
    {
      hide ActiveGrant, BoundContext, ConfigurationAuthority, OwnsAll, ActivelyReconciled, NextOrdinal, HistoryOf;
      if request in tables.reconciliations {
        var existing := tables.reconciliations[request];
        return if existing.attempt == id && existing.principal == principal then Ok(ExistingWitness(existing)) else Err(Conflict);
      }
      if ActivelyReconciled(tables, id) { return Err(Conflict); }
      if id !in tables.attempts { return Err(Missing); }
      var attempt := tables.attempts[id];
      if !Uncertain(attempt.state) { return Err(NotDispatchable); }
      var grant :- ActiveGrant(tables, attempt.grant, principal, attempt.profile, now);
      var context :- BoundContext(tables, attempt);
      if charge.Some? {
        :- ConfigurationAuthority(grant, context.0, context.1, attempt.operationIndex);
      }
      var owned := CheckOwnership(tables.leases, attempt.Owner(), attempt.leasedResources);
      if !owned { return Err(LeaseBusy); }
      var staged := tables;
      if charge.Some? {
        var remaining := grant.remaining.CheckedSub(charge.value);
        if remaining.None? { return Err(BudgetExhausted); }
        staged := staged.(grants := staged.grants[grant.id := grant.(remaining := remaining.value)]);
      }
      var ordinal :- NextOrdinal(tables, id);
      var record := ReconciliationRecord(request, id, ordinal, principal, RecClaimed, None);
      staged := staged.(reconciliations := staged.reconciliations[request := record],
                        history := staged.history[id := HistoryOf(tables, id) + [request]]);
      assert attempt.state == Unknown ==> tables.attempts[id := attempt.(state := Unknown)] == tables.attempts;
      if attempt.state == Partial {
        staged := staged.(attempts := staged.attempts[id := attempt.(state := Unknown)]);
      }
      tables := staged;
      return Ok(ClaimedWitness(record));
    }

    method FinishReconciliation(request: RequestId, receipt: Option<OperationReceipt>, completed: bool, release: bool)
      returns (r: Result<AttemptRecord, StoreError>)
      modifies this
      ensures r == ValueOf(Tx.FinishReconciliation(old(tables), request, receipt, completed, release))
      ensures tables == After(old(tables), Tx.FinishReconciliation(old(tables), request, receipt, completed, release))
    {
      hide ReleaseFrom;
      if request !in tables.reconciliations { return Err(Missing); }
      var record := tables.reconciliations[request];
      if record.state != RecClaimed { return Err(NotDispatchable); }
      if record.attempt !in tables.attempts { return Err(Missing); }
      var attempt := tables.attempts[record.attempt];
      record := record.(receipt := receipt, state := if completed then RecCompleted else if receipt.Some? then RecUnknown else RecFailed);
      var attempts, leases := tables.attempts, tables.leases;
      assert attempts[record.attempt := attempt] == attempts;
      if completed {
        attempt := attempt.(state := Completed);
        attempts := attempts[record.attempt := attempt];
        if release {
          leases := ReleaseLeases(leases, attempt.Owner(), attempt.leasedResources);
        }
      } else if attempt.state == Partial {
        attempt := attempt.(state := Unknown);
        attempts := attempts[record.attempt := attempt];
      }
      tables := tables.(reconciliations := tables.reconciliations[request := record], attempts := attempts, leases := leases);
      return Ok(attempt);
    }

    method AbandonHaltedRun(proposed: Abandonment) returns (r: Result<Abandonment, StoreError>)
      modifies this
      ensures r == ValueOf(Tx.Abandon(old(tables), proposed)) && tables == After(old(tables), Tx.Abandon(old(tables), proposed))
    {
      hide ReleaseFrom, Destinations, RejectIntentsOf, LeaseKeys, Abandonable;
      var p := proposed.Closed();
      if proposed.request in tables.abandonments {
        return if tables.abandonments[proposed.request] == proposed then Ok(proposed) else Err(Conflict);
      }
      if proposed.run in tables.haltedRuns || p in tables.haltedPairs || p in Destinations(tables.takeovers) { return Err(Conflict); }
      if proposed.run !in tables.runs { return Err(Missing); }
      if Pair(tables.runs[proposed.run].grant, tables.runs[proposed.run].plan) != p { return Err(Conflict); }
      if !exists id | id in tables.attempts :: tables.attempts[id].Owner() == p { return Err(Missing); }
      var attempts :- RejectIntents(tables.attempts, p);
      var held := LeaseKeys(tables.leases, p);
      if held != proposed.resources { return Err(Conflict); }
      var leases := ReleaseLeases(tables.leases, p, held);
      tables := tables.(attempts := attempts, leases := leases,
                        abandonments := tables.abandonments[proposed.request := proposed],
                        haltedPairs := tables.haltedPairs + {p}, haltedRuns := tables.haltedRuns + {proposed.run});
      return Ok(proposed);
    }

    method RepairRunCursor(id: RequestId) returns (r: Result<PlanRun, StoreError>)
      modifies this
      ensures r == ValueOf(Tx.RepairCursor(old(tables), id)) && tables == After(old(tables), Tx.RepairCursor(old(tables), id))
    {
      hide CompletedPrefix;
      if id !in tables.runs { return Err(Missing); }
      var run := tables.runs[id];
      var completed := CountCompleted(tables.attempts, run.steps);
      assert tables.runs[id := run] == tables.runs;
      if completed > run.cursor {
        run := run.(cursor := completed);
        tables := tables.(runs := tables.runs[id := run]);
      }
      return Ok(run);
    }

    /** First half of a cursor advance, under its own lock. */
    method ReadRun(id: RequestId, cursor: nat) returns (r: Result<PlanRun, StoreError>)
      ensures r == AdvancedRun(tables, id, cursor)
    {
      if id !in tables.runs { return Err(Missing); }
      var run := tables.runs[id];
      if run.cursor != cursor { return Err(Conflict); }
      return Ok(run.(cursor := run.cursor + 1));
    }

    /** Second half, under a second lock: the row is written whole, whatever happened in between. */
    method SaveRun(run: PlanRun)
      modifies this
      ensures tables == WriteRun(old(tables), run)
    {
      tables := tables.(runs := tables.runs[run.id := run]);
    }

    /** Reopening: every dispatched attempt and claimed witness becomes unknown, row by row. */
    method RecoverInterruptedDispatches()
      modifies this
      ensures tables == Reopen(old(tables))
    {
      var attempts := InterruptAttempts(tables.attempts);
      var reconciliations := InterruptWitnesses(tables.reconciliations);
      tables := tables.(attempts := attempts, reconciliations := reconciliations);
    }
  }
}
