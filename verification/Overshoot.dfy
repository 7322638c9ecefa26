/** A reachable run whose cursor passes its completed prefix, through the ticket of a takeover call that
    repeats an ordinary reservation's request while naming an unrelated run. */
module Overshoot {
  import opened Wrappers
  import opened Conditions
  import opened Domain
  import opened Journal
  import opened Actions
  import opened Cursors
  import opened Authority

  const AGENT := PrincipalId("agent")
  const TARGET := TargetId("target")
  const PROFILE := CommissionedProfile(ProfileId("profile"), TARGET, "target", "revision", "fixture", map[], {WaitUse},
                                       ElectricalLimits(0, 0), RegionLimits(0, 0), [])
  const GRANT := Grant(GrantId("grant"), AGENT, TARGET, PROFILE.id, {WaitUse}, {}, COST, Some(1), false)
  const PLAN := ReviewedPlan(PlanId("plan"), [PlannedOperation(Wait(TARGET, 1), 1, [])], ObservationOnly, "revision", "target", map[], map[],
                             AGENT, PrincipalId("reviewer"))
  const COST := Budget(0, 0, 1)
  const OTHER := PLAN.(id := PlanId("other"))
  const SNAPSHOT := AdmissionSnapshot(AGENT, PROFILE, PLAN)

  /** The unrelated run: its only step is an attempt that is never reserved. */
  const RUN := PlanRun(RequestId("run"), AGENT, GRANT.id, OTHER.id, [(AttemptId("never"), RequestId("run"))], 0)

  const ATTEMPT := AttemptRecord(AttemptId("attempt"), RequestId("request"), GRANT.id, PLAN.id, 0, Sha256(PLAN), COST,
                                 PROFILE.id, Sha256(PROFILE), PROFILE.PhysicalResources(), Intent, None)

  const RECEIPT := CompletedReceipt(Observation(Some(0), Null))

  /** The takeover call repeats the reservation's request and attempt, and names the unrelated run. */
  const NAMED := PlanRun(RUN.id, AGENT, GRANT.id, PLAN.id, [(ATTEMPT.id, ATTEMPT.request)], 0)
  const RECOVERY := RecoveryTakeover(ATTEMPT.request, RUN.id, ATTEMPT.id, [AttemptId("source")], GRANT.id, PLAN.id,
                                     ATTEMPT.leasedResources, "justification", PrincipalId("authority"))

  const STORED := EMPTY.(profiles := map[PROFILE.id := PROFILE], grants := map[GRANT.id := GRANT],
                         plans := map[PLAN.id := PLAN, OTHER.id := OTHER], runs := map[RUN.id := RUN])

  function Holding(a: AttemptRecord): Journal {
    STORED.(grants := map[GRANT.id := GRANT.(remaining := ZERO)], attempts := map[ATTEMPT.id := a], byRequest := map[ATTEMPT.request := ATTEMPT.id],
            steps := map[ATTEMPT.Owner() := [ATTEMPT.id]], leases := LeaseTo(map[], ATTEMPT.Owner(), ATTEMPT.leasedResources))
  }

  const RECORDS := [DoSaveProfile(PROFILE), DoSaveGrant(GRANT), DoSavePlan(PLAN), DoSavePlan(OTHER), DoCreateRun(RUN)]

  lemma RecordsStored()
    ensures Apply(Apply(Apply(Apply(Apply(EMPTY, RECORDS[0]), RECORDS[1]), RECORDS[2]), RECORDS[3]), RECORDS[4]) == STORED
  {
    var j1 := EMPTY.(profiles := map[PROFILE.id := PROFILE]);
    var j2 := j1.(grants := map[GRANT.id := GRANT]);
    var j3 := j2.(plans := map[PLAN.id := PLAN]);
    assert Apply(EMPTY, DoSaveProfile(PROFILE)) == j1;
    assert Apply(j1, DoSaveGrant(GRANT)) == j2;
    assert Apply(j2, DoSavePlan(PLAN)) == j3;
    var j4 := j3.(plans := map[PLAN.id := PLAN, OTHER.id := OTHER]);
    assert Apply(j3, DoSavePlan(OTHER)) == j4;
    assert Apply(j4, DoCreateRun(RUN)) == STORED;
  }

  lemma WaitingCosts(planned: PlannedOperation)
    requires planned == PlannedOperation(Wait(TARGET, 1), 1, [])
    ensures planned.WorstCaseBudget() == COST
  {
    var effects := planned.operation.Effects();
    assert effects == {};
  }

  lemma OneStepCost(operations: seq<PlannedOperation>, cost: Budget)
    requires |operations| == 1 && operations[0].WorstCaseBudget() == cost
    ensures TotalCost(operations) == cost
  {
    hide PlannedOperation.WorstCaseBudget, COST;
    NoCost(operations[1..]);
    assert TotalCost(operations) == Plus(cost, TotalCost(operations[1..]));
    hide TotalCost;
  }

  lemma NoCost(operations: seq<PlannedOperation>)
    requires operations == []
    ensures TotalCost(operations) == ZERO
  {
  }

  lemma Proposes()
    ensures Proposal(ATTEMPT, SNAPSHOT)
  {
    hide TotalCost, PlannedOperation.WorstCaseBudget, CommissionedProfile.PhysicalResources;
    WaitingCosts(PLAN.operations[0]);
    OneStepCost(PLAN.operations, COST);
  }

  lemma Admits()
    ensures AdmissionContext(STORED, ATTEMPT, SNAPSHOT, 0) == Ok(GRANT)
  {
  }

  lemma Commits(j: Journal, a: AttemptRecord, snapshot: AdmissionSnapshot, grant: Grant, charged: Journal)
    requires AttemptForRequest(j, a.request) == None && a.id !in j.attempts && a.Owner() !in j.haltedPairs && a.Owner() !in j.retirements
    requires AdmissionContext(j, a, snapshot, 0) == Ok(grant) && NextIndex(j, a.Owner()) == Ok(a.operationIndex) && SameRun(j, a) == Pass
    requires Available(j.leases, a.Owner(), a.leasedResources) && grant.remaining.CheckedSub(a.reserved) == Some(ZERO)
    requires charged == j.(leases := LeaseTo(j.leases, a.Owner(), a.leasedResources), grants := j.grants[grant.id := grant.(remaining := ZERO)])
    ensures Reserve(j, a, snapshot, 0) == Ok(Committed(InsertAttempt(charged, a), Reserved(a)))
  {
    hide AdmissionContext, NextIndex, SameRun, Available, AttemptForRequest, LeaseTo, InsertAttempt;
  }

  lemma Stocked()
    ensures AttemptForRequest(STORED, ATTEMPT.request) == None && NextIndex(STORED, ATTEMPT.Owner()) == Ok(ATTEMPT.operationIndex)
    ensures SameRun(STORED, ATTEMPT) == Pass && Available(STORED.leases, ATTEMPT.Owner(), ATTEMPT.leasedResources)
    ensures ATTEMPT.id !in STORED.attempts && ATTEMPT.Owner() !in STORED.haltedPairs && ATTEMPT.Owner() !in STORED.retirements
    ensures STORED.leases == map[] && STORED.grants[GRANT.id := GRANT.(remaining := ZERO)] == map[GRANT.id := GRANT.(remaining := ZERO)]
    ensures GRANT.remaining.CheckedSub(ATTEMPT.reserved) == Some(ZERO)
  {
    assert Listing(STORED, ATTEMPT.Owner()) == [];
  }

  lemma Reserves()
    ensures Reserve(STORED, ATTEMPT, SNAPSHOT, 0) == Ok(Committed(Holding(ATTEMPT), Reserved(ATTEMPT)))
  {
    hide AdmissionContext, NextIndex, SameRun, AttemptForRequest, LeaseTo, Reserve, InsertAttempt, Holding, Available;
    hide STORED, ATTEMPT, GRANT, SNAPSHOT;
    Admits();
    Stocked();
    var charged := STORED.(grants := map[GRANT.id := GRANT.(remaining := ZERO)], leases := LeaseTo(map[], ATTEMPT.Owner(), ATTEMPT.leasedResources));
    Inserts(charged);
    Commits(STORED, ATTEMPT, SNAPSHOT, GRANT, charged);
  }

  lemma Inserts(charged: Journal)
    requires charged == STORED.(grants := map[GRANT.id := GRANT.(remaining := ZERO)], leases := LeaseTo(map[], ATTEMPT.Owner(), ATTEMPT.leasedResources))
    ensures InsertAttempt(charged, ATTEMPT) == Holding(ATTEMPT)
  {
    assert [] + [ATTEMPT.id] == [ATTEMPT.id];
    hide LeaseTo;
  }

  lemma TakesOverExisting()
    ensures Handoff(ATTEMPT, NAMED, RECOVERY)
    ensures TakeOver(Holding(ATTEMPT), ATTEMPT, SNAPSHOT, NAMED, RECOVERY, 0) == Ok(Committed(Holding(ATTEMPT), Existing(ATTEMPT)))
  {
    hide CheckSources, AdmissionContext;
  }

  lemma ClaimContext(j: Journal)
    requires j == Holding(ATTEMPT)
    ensures ActiveGrant(j, GRANT.id, AGENT, PROFILE.id, 0) == Ok(GRANT.(remaining := ZERO)) && BoundContext(j, ATTEMPT) == Ok((PROFILE, PLAN))
    ensures OwnsAll(j.leases, ATTEMPT.Owner(), ATTEMPT.leasedResources)
  {
  }

  lemma Claims()
    ensures ClaimDispatch(Holding(ATTEMPT), ATTEMPT.id, AGENT, 0)
            == Ok(Committed(Holding(ATTEMPT.(state := Dispatched)), ATTEMPT.(state := Dispatched)))
  {
    var j := Holding(ATTEMPT);
    hide ActiveGrant, BoundContext, OwnsAll, LeaseTo;
    ClaimContext(j);
    assert j.attempts[ATTEMPT.id := ATTEMPT.(state := Dispatched)] == map[ATTEMPT.id := ATTEMPT.(state := Dispatched)];
  }

  lemma Records()
    ensures var k := Apply(Holding(ATTEMPT.(state := Dispatched)), DoRecordReceipt(ATTEMPT.id, RECEIPT));
            && ATTEMPT.id in k.attempts && k.attempts[ATTEMPT.id].state == Completed && k.attempts.Keys == {ATTEMPT.id}
            && k.runs == map[RUN.id := RUN]
  {
    HoldingTables();
    hide Holding, ATTEMPT, RUN;
    RecordsCompletion(Holding(ATTEMPT.(state := Dispatched)), ATTEMPT.id, RECEIPT);
  }

  lemma HoldingTables()
    ensures var j := Holding(ATTEMPT.(state := Dispatched));
            j.attempts == map[ATTEMPT.id := ATTEMPT.(state := Dispatched)] && j.runs == map[RUN.id := RUN]
  {
  }

  lemma RecordsCompletion(j: Journal, id: AttemptId, receipt: OperationReceipt)
    requires id in j.attempts && j.attempts[id].state == Dispatched && receipt.CompletedReceipt?
    ensures var k := Apply(j, DoRecordReceipt(id, receipt));
            && id in k.attempts && k.attempts[id].state == Completed && k.attempts.Keys == j.attempts.Keys && k.runs == j.runs
  {
    hide ReleaseOnOutcome, SupervisorReleases;
  }

  /** The history: store the records, reserve, call the takeover, execute the ticket it returns, advance, write. */
  const HISTORY := [
    Act(RECORDS[0]), Act(RECORDS[1]), Act(RECORDS[2]), Act(RECORDS[3]), Act(RECORDS[4]),
    Act(DoReserve(ATTEMPT, SNAPSHOT, 0)),
    Act(DoTakeOver(ATTEMPT, SNAPSHOT, NAMED, RECOVERY, 0)),
    Act(DoClaimDispatch(ATTEMPT.id, AGENT, 0)),
    Act(DoRecordReceipt(ATTEMPT.id, RECEIPT)),
    ReadRun(Ticket(RUN.id, ATTEMPT.id, 0)),
    WriteRow(RUN.(cursor := 1))]

  /** One step of the history, by its action. */
  lemma Acting(n: nat)
    requires n < |HISTORY| && HISTORY[n].Act? && !HISTORY[n].action.DoReopen?
    ensures WorldAt(HISTORY, n + 1) == World(Apply(WorldAt(HISTORY, n).journal, HISTORY[n].action), WorldAt(HISTORY, n).pending)
  {
    hide Apply;
  }

  lemma Stores()
    ensures WorldAt(HISTORY, 5) == World(STORED, {})
  {
    hide Apply, WorldAt;
    Begins();
    Acting(0);
    Acting(1);
    Acting(2);
    Acting(3);
    Acting(4);
    RecordsStored();
  }

  lemma Begins()
    ensures WorldAt(HISTORY, 0) == World(EMPTY, {})
  {
  }

  lemma Admitted()
    ensures WorldAt(HISTORY, 7) == World(Holding(ATTEMPT), {})
  {
    hide WorldAt, Reserve, TakeOver, Holding, STORED, ATTEMPT, NAMED, RECOVERY, SNAPSHOT;
    Stores();
    Acting(5);
    Reserves();
    Acting(6);
    TakesOverExisting();
  }

  lemma Executed()
    ensures var w := WorldAt(HISTORY, 9);
            && w.pending == {} && w.journal.runs == map[RUN.id := RUN] && w.journal.attempts.Keys == {ATTEMPT.id}
            && w.journal.attempts[ATTEMPT.id].state == Completed
  {
    hide WorldAt, ClaimDispatch, RecordBySupervisor, Holding;
    Admitted();
    Acting(7);
    Claims();
    Acting(8);
    Records();
  }

  lemma Advances(w: World)
    requires w.pending == {} && w.journal.runs == map[RUN.id := RUN] && w.journal.attempts.Keys == {ATTEMPT.id}
    requires w.journal.attempts[ATTEMPT.id].state == Completed
    ensures var last := Next(Next(w, HISTORY[9]), HISTORY[10]);
            last.journal.runs == map[RUN.id := RUN.(cursor := 1)] && last.journal.attempts == w.journal.attempts
  {
    var row := RUN.(cursor := 1);
    assert AdvancedRun(w.journal, RUN.id, 0) == Ok(row);
    assert Next(w, HISTORY[9]) == World(w.journal, {row});
  }

  lemma Advanced()
    ensures WorldAt(HISTORY, 11).journal.runs == map[RUN.id := RUN.(cursor := 1)]
    ensures WorldAt(HISTORY, 11).journal.attempts == WorldAt(HISTORY, 9).journal.attempts
  {
    hide WorldAt, Next, ATTEMPT, RUN;
    Executed();
    Nexts(9);
    Nexts(10);
    Advances(WorldAt(HISTORY, 9));
  }

  lemma Nexts(n: nat)
    requires n < |HISTORY|
    ensures WorldAt(HISTORY, n + 1) == Next(WorldAt(HISTORY, n), HISTORY[n])
  {
    hide Next;
  }

  lemma PermittedAll()
    ensures forall i | 0 <= i < |HISTORY| :: Permitted(HISTORY[i])
  {
    Proposes();
    hide Proposal, Handoff;
    TakesOverExisting();
  }

  lemma TakeoverReturnsExisting()
    ensures TakeOver(WorldAt(HISTORY, 6).journal, ATTEMPT, SNAPSHOT, NAMED, RECOVERY, 0) == Ok(Committed(Holding(ATTEMPT), Existing(ATTEMPT)))
  {
    hide WorldAt, Reserve, TakeOver, Holding;
    Stores();
    Acting(5);
    Reserves();
    TakesOverExisting();
  }

  lemma Authorized()
    ensures Permits(GRANT, PROFILE, PLAN, PLAN.operations[0]) && Permits(GRANT, PROFILE, OTHER, OTHER.operations[0])
  {
    assert PLAN.operations[0].operation.Effects() == {};
    assert Fingerprints(PROFILE) == map[];
  }

  lemma NeverReserved()
    ensures var j := WorldAt(HISTORY, 11).journal;
            RUN.id in j.runs && j.runs[RUN.id].cursor == 1 && CompletedPrefix(j.attempts, j.runs[RUN.id].steps) == 0
  {
    hide WorldAt;
    Executed();
    Advanced();
    hide Apply, Holding;
  }

  /** The cursor bound fails: this permitted history executes the ticket of a takeover call that returned an
      existing attempt, and ends with cursor 1 on a run none of whose steps was ever reserved. */
  lemma CursorOvershoots()
    ensures Permits(GRANT, PROFILE, PLAN, PLAN.operations[0]) && Permits(GRANT, PROFILE, OTHER, OTHER.operations[0])
    ensures forall i | 0 <= i < |HISTORY| :: Permitted(HISTORY[i])
    ensures var tx := TakeOver(WorldAt(HISTORY, 6).journal, ATTEMPT, SNAPSHOT, NAMED, RECOVERY, 0);
            tx.Ok? && tx.value.value.Existing? && HISTORY[9] == ReadRun(TakeoverTicket(NAMED, tx.value.value))
    ensures var j := WorldAt(HISTORY, |HISTORY|).journal;
            RUN.id in j.runs && j.runs[RUN.id].cursor == 1 && CompletedPrefix(j.attempts, j.runs[RUN.id].steps) == 0
  {
    hide WorldAt, TakeOver, Permitted, CompletedPrefix, Holding, Permits;
    PermittedAll();
    Authorized();
    TakeoverReturnsExisting();
    NeverReserved();
  }
}
