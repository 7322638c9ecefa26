/** A history of matched tickets in which a late row write takes a cursor from 2 back to 1. */
module Backwards {
  import opened Wrappers
  import opened Domain
  import opened Journal
  import opened Actions
  import opened Cursors
  import opened Regression
  import opened Authority
  import Overshoot

  const STEP := PlannedOperation(Wait(Overshoot.TARGET, 1), 1, [])
  const PLAN := Overshoot.PLAN.(operations := [STEP, STEP])
  const COST := Budget(0, 0, 2)
  const GRANT := Overshoot.GRANT.(remaining := COST)
  const SPENT := GRANT.(remaining := ZERO)
  const PROFILE := Overshoot.PROFILE
  const SNAPSHOT := AdmissionSnapshot(Overshoot.AGENT, PROFILE, PLAN)
  const RESOURCES := PROFILE.PhysicalResources()
  const OWNER := Pair(GRANT.id, PLAN.id)

  const FIRST := AttemptRecord(AttemptId("first"), RequestId("run"), GRANT.id, PLAN.id, 0, Sha256(PLAN), COST,
                               PROFILE.id, Sha256(PROFILE), RESOURCES, Intent, None)
  const SECOND := FIRST.(id := AttemptId("second"), request := RequestId("next"), operationIndex := 1, reserved := ZERO)
  const RUN := PlanRun(RequestId("run"), Overshoot.AGENT, GRANT.id, PLAN.id,
                       [(AttemptId("first"), RequestId("run")), (AttemptId("second"), RequestId("next"))], 0)
  const DONE := FIRST.(state := Completed, receipt := Some(Overshoot.RECEIPT))

  const STORED := EMPTY.(profiles := map[PROFILE.id := PROFILE], grants := map[GRANT.id := GRANT],
                         plans := map[PLAN.id := PLAN], runs := map[RUN.id := RUN])

  function One(a: AttemptRecord, cursor: nat): Journal {
    STORED.(grants := map[GRANT.id := SPENT], runs := map[RUN.id := RUN.(cursor := cursor)],
            attempts := map[FIRST.id := a], byRequest := map[FIRST.request := FIRST.id],
            steps := map[OWNER := [FIRST.id]], leases := LeaseTo(map[], OWNER, RESOURCES))
  }

  function Two(b: AttemptRecord): Journal {
    One(DONE, 1).(attempts := map[FIRST.id := DONE, SECOND.id := b],
                  byRequest := map[FIRST.request := FIRST.id, SECOND.request := SECOND.id],
                  steps := map[OWNER := [FIRST.id, SECOND.id]])
  }

  // ----- The transactions of the history -----

  lemma RecordsStored()
    ensures Apply(Apply(Apply(Apply(EMPTY, DoSaveProfile(PROFILE)), DoSaveGrant(GRANT)), DoSavePlan(PLAN)), DoCreateRun(RUN)) == STORED
  {
    var j1 := EMPTY.(profiles := map[PROFILE.id := PROFILE]);
    var j2 := j1.(grants := map[GRANT.id := GRANT]);
    var j3 := j2.(plans := map[PLAN.id := PLAN]);
    assert Apply(EMPTY, DoSaveProfile(PROFILE)) == j1;
    assert Apply(j1, DoSaveGrant(GRANT)) == j2;
    assert Apply(j2, DoSavePlan(PLAN)) == j3;
    assert Apply(j3, DoCreateRun(RUN)) == STORED;
  }

  lemma StepCosts()
    ensures STEP.WorstCaseBudget() == Budget(0, 0, 1)
  {
    var effects := STEP.operation.Effects();
    assert effects == {};
  }

  lemma TwoStepCost(operations: seq<PlannedOperation>, cost: Budget)
    requires |operations| == 2 && operations[0].WorstCaseBudget() == cost && operations[1].WorstCaseBudget() == cost
    ensures TotalCost(operations) == Plus(cost, cost)
  {
    hide PlannedOperation.WorstCaseBudget, COST;
    Overshoot.OneStepCost(operations[1..], cost);
    assert TotalCost(operations) == Plus(cost, TotalCost(operations[1..]));
    hide TotalCost;
  }

  lemma PlanCosts()
    ensures TotalCost(PLAN.operations) == COST && |PLAN.operations| == 2
  {
    hide TotalCost, PlannedOperation.WorstCaseBudget;
    StepCosts();
    TwoStepCost(PLAN.operations, Budget(0, 0, 1));
  }

  lemma FirstProposes()
    ensures Proposal(FIRST, SNAPSHOT)
  {
    hide TotalCost, COST, RESOURCES;
    PlanCosts();
    assert RESOURCES == SNAPSHOT.profile.PhysicalResources() by { Resources(); }
    hide CommissionedProfile.PhysicalResources;
  }

  lemma Resources()
    ensures RESOURCES == PROFILE.PhysicalResources()
  {
    hide CommissionedProfile.PhysicalResources;
  }

  lemma SecondProposes()
    ensures Proposal(SECOND, SNAPSHOT)
  {
    hide TotalCost, COST, RESOURCES;
    PlanCosts();
    assert RESOURCES == SNAPSHOT.profile.PhysicalResources() by { Resources(); }
    hide CommissionedProfile.PhysicalResources;
  }

  lemma Admits()
    ensures AdmissionContext(STORED, FIRST, SNAPSHOT, 0) == Ok(GRANT)
    ensures AdmissionContext(One(DONE, 1), SECOND, SNAPSHOT, 0) == Ok(SPENT)
  {
    hide LeaseTo;
  }

  lemma Stocked()
    ensures AttemptForRequest(STORED, FIRST.request) == None && NextIndex(STORED, FIRST.Owner()) == Ok(FIRST.operationIndex)
    ensures SameRun(STORED, FIRST) == Pass && Available(STORED.leases, FIRST.Owner(), FIRST.leasedResources)
    ensures FIRST.id !in STORED.attempts && FIRST.Owner() !in STORED.haltedPairs && FIRST.Owner() !in STORED.retirements
    ensures STORED.leases == map[]
  {
    assert Listing(STORED, FIRST.Owner()) == [];
    hide RESOURCES, PLAN, PROFILE, COST;
  }

  lemma SpendsAll(cost: Budget)
    ensures cost.CheckedSub(cost) == Some(ZERO)
  {
  }

  lemma FirstFields()
    ensures FIRST.reserved == COST && FIRST.Owner() == OWNER && FIRST.leasedResources == RESOURCES
  {
    hide RESOURCES, COST;
  }

  lemma GrantFields()
    ensures GRANT.remaining == COST && GRANT.(remaining := ZERO) == SPENT && GRANT.id == Overshoot.GRANT.id
    ensures STORED.grants == map[GRANT.id := GRANT]
  {
    hide COST, RESOURCES;
  }

  lemma Charged()
    ensures STORED.grants[GRANT.id := SPENT] == map[GRANT.id := SPENT]
    ensures GRANT.remaining.CheckedSub(FIRST.reserved) == Some(ZERO) && FIRST.Owner() == OWNER && GRANT.(remaining := ZERO) == SPENT
  {
    hide RESOURCES, FIRST, GRANT, STORED, COST, SPENT, OWNER;
    FirstFields();
    GrantFields();
    SpendsAll(COST);
  }

  lemma ReservesFirst()
    ensures Reserve(STORED, FIRST, SNAPSHOT, 0) == Ok(Committed(One(FIRST, 0), Reserved(FIRST)))
  {
    hide AdmissionContext, NextIndex, SameRun, AttemptForRequest, LeaseTo, Reserve, InsertAttempt, One, Available;
    hide STORED, FIRST, GRANT, SNAPSHOT, SPENT, OWNER;
    Admits();
    Stocked();
    Charged();
    var charged := STORED.(grants := map[GRANT.id := SPENT], leases := LeaseTo(map[], FIRST.Owner(), FIRST.leasedResources));
    InsertsFirst(charged);
    Overshoot.Commits(STORED, FIRST, SNAPSHOT, GRANT, charged);
  }

  lemma InsertsFirst(charged: Journal)
    requires charged == STORED.(grants := map[GRANT.id := SPENT], leases := LeaseTo(map[], FIRST.Owner(), FIRST.leasedResources))
    ensures InsertAttempt(charged, FIRST) == One(FIRST, 0)
  {
    assert [] + [FIRST.id] == [FIRST.id];
    hide LeaseTo;
  }

  lemma FirstOwns(a: AttemptRecord, cursor: nat)
    ensures OwnsAll(One(a, cursor).leases, OWNER, RESOURCES) && Available(One(a, cursor).leases, OWNER, RESOURCES)
    ensures LeaseTo(One(a, cursor).leases, OWNER, RESOURCES) == One(a, cursor).leases
  {
    hide RESOURCES;
  }

  lemma Contexts(j: Journal, a: AttemptRecord)
    requires j.grants == map[GRANT.id := SPENT] && j.profiles == map[PROFILE.id := PROFILE] && j.plans == map[PLAN.id := PLAN]
    requires a.grant == GRANT.id && a.profile == PROFILE.id && a.plan == PLAN.id && a.planDigest == Sha256(PLAN) && a.profileDigest == Sha256(PROFILE)
    ensures ActiveGrant(j, a.grant, Overshoot.AGENT, a.profile, 0) == Ok(SPENT) && BoundContext(j, a) == Ok((PROFILE, PLAN))
  {
  }

  /** A claim of an intent whose pair holds its leases, in terms of the journal alone. */
  lemma Claims(j: Journal, a: AttemptRecord, grant: Grant, context: (CommissionedProfile, ReviewedPlan))
    requires a.id in j.attempts && j.attempts[a.id] == a && a.state == Intent
    requires a.Owner() !in j.haltedPairs && a.Owner() !in j.retirements && OwnsAll(j.leases, a.Owner(), a.leasedResources)
    requires ActiveGrant(j, a.grant, Overshoot.AGENT, a.profile, 0) == Ok(grant) && BoundContext(j, a) == Ok(context)
    ensures ClaimDispatch(j, a.id, Overshoot.AGENT, 0)
            == Ok(Committed(j.(attempts := j.attempts[a.id := a.(state := Dispatched)]), a.(state := Dispatched)))
  {
    hide ActiveGrant, BoundContext, OwnsAll;
  }

  lemma ClaimedFirst(a: AttemptRecord, j: Journal)
    requires j == One(FIRST, 0)
    ensures FIRST.id in j.attempts && j.attempts[FIRST.id] == FIRST && j.haltedPairs == {} && j.retirements == map[]
    ensures j.(attempts := j.attempts[FIRST.id := a]) == One(a, 0)
    ensures FIRST.Owner() == OWNER && FIRST.leasedResources == RESOURCES
  {
    assert j.attempts[FIRST.id := a] == map[FIRST.id := a];
    hide LeaseTo, RESOURCES, STORED, SPENT;
  }

  lemma ClaimsFirst()
    ensures Apply(One(FIRST, 0), DoClaimDispatch(FIRST.id, Overshoot.AGENT, 0)) == One(FIRST.(state := Dispatched), 0)
  {
    hide ActiveGrant, BoundContext, OwnsAll, ClaimDispatch, RESOURCES, One;
    var j := One(FIRST, 0);
    ClaimedFirst(FIRST.(state := Dispatched), j);
    RecordsOfOne(FIRST, 0);
    Contexts(j, FIRST);
    FirstOwns(FIRST, 0);
    Claims(j, FIRST, SPENT, (PROFILE, PLAN));
  }

  lemma RecordsOfOne(a: AttemptRecord, cursor: nat)
    ensures var j := One(a, cursor);
            j.grants == map[GRANT.id := SPENT] && j.profiles == map[PROFILE.id := PROFILE] && j.plans == map[PLAN.id := PLAN]
  {
    hide LeaseTo, RESOURCES;
  }

  lemma RecordsFirst()
    ensures Apply(One(FIRST.(state := Dispatched), 0), DoRecordReceipt(FIRST.id, Overshoot.RECEIPT)) == One(DONE, 0)
  {
    var j := One(FIRST.(state := Dispatched), 0);
    assert j.attempts[FIRST.id := DONE] == map[FIRST.id := DONE];
    assert !SupervisorReleases(j, FIRST.(state := Dispatched), Overshoot.RECEIPT);
    hide LeaseTo, SupervisorReleases, ReleaseFrom;
  }

  /** A repair of a run that lags behind its completed prefix, in terms of the journal alone. */
  lemma Repairs(j: Journal, run: PlanRun, prefix: nat)
    requires run.id in j.runs && j.runs[run.id] == run && CompletedPrefix(j.attempts, run.steps) == prefix && run.cursor < prefix
    ensures Apply(j, DoRepairCursor(run.id)) == j.(runs := j.runs[run.id := run.(cursor := prefix)])
  {
    hide CompletedPrefix;
  }

  lemma RepairsFirst()
    ensures Apply(One(DONE, 0), DoRepairCursor(RUN.id)) == One(DONE, 1)
  {
    assert RUN.cursor == 0;
    hide CompletedPrefix, RepairCursor, Apply, One, RUN, DONE;
    FirstCompleted(One(DONE, 0));
    Repairs(One(DONE, 0), RUN, 1);
    RunsOfOne(1);
  }

  lemma RunsOfOne(cursor: nat)
    ensures var j := One(DONE, 0); j.(runs := j.runs[RUN.id := RUN.(cursor := cursor)]) == One(DONE, cursor)
  {
    assert One(DONE, 0).runs[RUN.id := RUN.(cursor := cursor)] == map[RUN.id := RUN.(cursor := cursor)];
    hide LeaseTo, RESOURCES, STORED, SPENT;
  }

  lemma FirstCompleted(j: Journal)
    requires j == One(DONE, 0)
    ensures RUN.id in j.runs && j.runs[RUN.id] == RUN && CompletedPrefix(j.attempts, RUN.steps) == 1
  {
    assert CompletedAt(j.attempts, RUN.steps, 0) && RUN.steps[1].0 !in j.attempts by { hide LeaseTo; }
    hide One, RUN;
    PrefixOfOne(j.attempts, RUN.steps);
  }

  lemma PrefixOfOne(attempts: map<AttemptId, AttemptRecord>, steps: seq<(AttemptId, RequestId)>)
    requires |steps| == 2 && CompletedAt(attempts, steps, 0) && steps[1].0 !in attempts
    ensures CompletedPrefix(attempts, steps) == 1
  {
    PrefixIsLongest(attempts, steps);
    assert !CompletedAt(attempts, steps, 1);
  }

  lemma ReadyForSecond()
    ensures var j := One(DONE, 1);
            && AttemptForRequest(j, SECOND.request) == None && NextIndex(j, SECOND.Owner()) == Ok(SECOND.operationIndex)
            && SameRun(j, SECOND) == Pass && SECOND.id !in j.attempts && SECOND.Owner() !in j.haltedPairs && SECOND.Owner() !in j.retirements
            && j.grants[SPENT.id := SPENT.(remaining := ZERO)] == map[GRANT.id := SPENT]
    ensures SPENT.remaining.CheckedSub(SECOND.reserved) == Some(ZERO) && SECOND.Owner() == OWNER && SECOND.leasedResources == RESOURCES
  {
    var j := One(DONE, 1);
    assert Listing(j, OWNER) == [FIRST.id] && SECOND.Owner() == OWNER;
    assert AttemptAtStep(j, OWNER, 0) == Some(DONE);
    hide LeaseTo;
  }

  lemma ReservesSecond()
    ensures Reserve(One(DONE, 1), SECOND, SNAPSHOT, 0) == Ok(Committed(Two(SECOND), Reserved(SECOND)))
  {
    hide AdmissionContext, NextIndex, SameRun, AttemptForRequest, LeaseTo, Reserve, InsertAttempt, One, Two, Available;
    hide SECOND, GRANT, SNAPSHOT, SPENT, OWNER, RESOURCES;
    Admits();
    ReadyForSecond();
    FirstOwns(DONE, 1);
    var j := One(DONE, 1);
    GrantsOfOne();
    var charged := j.(leases := LeaseTo(j.leases, SECOND.Owner(), SECOND.leasedResources), grants := j.grants[SPENT.id := SPENT.(remaining := ZERO)]);
    assert charged == j;
    InsertsSecond();
    Overshoot.Commits(j, SECOND, SNAPSHOT, SPENT, charged);
  }

  lemma GrantsOfOne()
    ensures One(DONE, 1).grants == map[GRANT.id := SPENT]
  {
    hide LeaseTo;
  }

  lemma InsertsSecond()
    ensures InsertAttempt(One(DONE, 1), SECOND) == Two(SECOND)
  {
    var j := One(DONE, 1);
    assert Listing(j, OWNER) + [SECOND.id] == [FIRST.id, SECOND.id] && SECOND.Owner() == OWNER;
    assert j.attempts[SECOND.id := SECOND] == map[FIRST.id := DONE, SECOND.id := SECOND];
    assert j.byRequest[SECOND.request := SECOND.id] == map[FIRST.request := FIRST.id, SECOND.request := SECOND.id];
    assert j.steps[OWNER := [FIRST.id, SECOND.id]] == map[OWNER := [FIRST.id, SECOND.id]];
    hide LeaseTo;
  }

  lemma ClaimedSecond(a: AttemptRecord, j: Journal)
    requires j == Two(SECOND)
    ensures SECOND.id in j.attempts && j.attempts[SECOND.id] == SECOND && j.haltedPairs == {} && j.retirements == map[]
    ensures j.(attempts := j.attempts[SECOND.id := a]) == Two(a)
    ensures SECOND.Owner() == OWNER && SECOND.leasedResources == RESOURCES && j.leases == One(DONE, 1).leases
    ensures j.grants == One(DONE, 1).grants && j.profiles == One(DONE, 1).profiles && j.plans == One(DONE, 1).plans
  {
    assert j.attempts[SECOND.id := a] == map[FIRST.id := DONE, SECOND.id := a];
    hide LeaseTo, RESOURCES, STORED, SPENT;
  }

  lemma ClaimsSecond()
    ensures Apply(Two(SECOND), DoClaimDispatch(SECOND.id, Overshoot.AGENT, 0)) == Two(SECOND.(state := Dispatched))
  {
    hide ActiveGrant, BoundContext, OwnsAll, ClaimDispatch, RESOURCES, One, Two;
    var j := Two(SECOND);
    ClaimedSecond(SECOND.(state := Dispatched), j);
    RecordsOfOne(DONE, 1);
    Contexts(j, SECOND);
    FirstOwns(DONE, 1);
    Claims(j, SECOND, SPENT, (PROFILE, PLAN));
  }

  lemma RecordsSecond()
    ensures var k := Apply(Two(SECOND.(state := Dispatched)), DoRecordReceipt(SECOND.id, Overshoot.RECEIPT));
            && SECOND.id in k.attempts && k.attempts[SECOND.id].state == Completed && k.runs == map[RUN.id := RUN.(cursor := 1)]
  {
    var j := Two(SECOND.(state := Dispatched));
    assert j.attempts[SECOND.id].state == Dispatched && j.runs == map[RUN.id := RUN.(cursor := 1)] by { hide LeaseTo; }
    hide Two, SECOND, RUN;
    Overshoot.RecordsCompletion(j, SECOND.id, Overshoot.RECEIPT);
  }

  // ----- The history -----

  /** Execute the first step and read its advance; before that row is written, repair the run, execute the second step
      and advance it; then the first row is written. */
  const HISTORY := [
    Act(DoSaveProfile(PROFILE)), Act(DoSaveGrant(GRANT)), Act(DoSavePlan(PLAN)), Act(DoCreateRun(RUN)),
    Act(DoReserve(FIRST, SNAPSHOT, 0)),
    Act(DoClaimDispatch(FIRST.id, Overshoot.AGENT, 0)),
    Act(DoRecordReceipt(FIRST.id, Overshoot.RECEIPT)),
    ReadRun(Ticket(RUN.id, FIRST.id, 0)),
    Act(DoRepairCursor(RUN.id)),
    Act(DoReserve(SECOND, SNAPSHOT, 0)),
    Act(DoClaimDispatch(SECOND.id, Overshoot.AGENT, 0)),
    Act(DoRecordReceipt(SECOND.id, Overshoot.RECEIPT)),
    ReadRun(Ticket(RUN.id, SECOND.id, 1)),
    WriteRow(RUN.(cursor := 2)),
    WriteRow(RUN.(cursor := 1))]

  lemma Acting(n: nat)
    requires n < |HISTORY| && HISTORY[n].Act? && !HISTORY[n].action.DoReopen?
    ensures WorldAt(HISTORY, n + 1) == World(Apply(WorldAt(HISTORY, n).journal, HISTORY[n].action), WorldAt(HISTORY, n).pending)
  {
    hide Apply;
    WorldStepped(HISTORY, n);
  }

  lemma Begins()
    ensures WorldAt(HISTORY, 4) == World(STORED, {})
  {
    hide Apply, WorldAt;
    StartIsEmpty(HISTORY);
    Acting(0);
    Acting(1);
    Acting(2);
    Acting(3);
    RecordsStored();
  }

  lemma FirstDone()
    ensures WorldAt(HISTORY, 7) == World(One(DONE, 0), {})
  {
    hide WorldAt, Reserve, One, STORED, FIRST, DONE, SNAPSHOT, ClaimDispatch, RecordBySupervisor;
    Begins();
    Acting(4);
    ReservesFirst();
    Acting(5);
    ClaimsFirst();
    Acting(6);
    RecordsFirst();
  }

  lemma RowRead(w: World)
    requires w == World(One(DONE, 0), {})
    ensures Next(w, HISTORY[7]) == World(One(DONE, 0), {RUN.(cursor := 1)})
  {
    hide LeaseTo;
    assert AdvancedRun(w.journal, RUN.id, 0) == Ok(RUN.(cursor := 1));
  }

  lemma SecondReserved()
    ensures WorldAt(HISTORY, 8).journal == One(DONE, 0)
    ensures WorldAt(HISTORY, 10) == World(Two(SECOND), {RUN.(cursor := 1)})
  {
    hide WorldAt, Reserve, One, Two, FIRST, SECOND, DONE, SNAPSHOT, RepairCursor, Next;
    FirstDone();
    WorldStepped(HISTORY, 7);
    RowRead(WorldAt(HISTORY, 7));
    Acting(8);
    RepairsFirst();
    Acting(9);
    ReservesSecond();
  }

  lemma SecondDone()
    ensures var w := WorldAt(HISTORY, 12);
            && w.pending == {RUN.(cursor := 1)} && w.journal.runs == map[RUN.id := RUN.(cursor := 1)]
            && SECOND.id in w.journal.attempts && w.journal.attempts[SECOND.id].state == Completed
  {
    hide WorldAt, Two, SECOND, ClaimDispatch, RecordBySupervisor;
    SecondReserved();
    Acting(10);
    ClaimsSecond();
    Acting(11);
    RecordsSecond();
  }

  lemma RowsWritten(w: World)
    requires w.pending == {RUN.(cursor := 1)} && w.journal.runs == map[RUN.id := RUN.(cursor := 1)]
    requires SECOND.id in w.journal.attempts && w.journal.attempts[SECOND.id].state == Completed
    ensures var x := Next(Next(w, HISTORY[12]), HISTORY[13]); var y := Next(x, HISTORY[14]);
            && RUN.id in x.journal.runs && x.journal.runs[RUN.id].cursor == 2
            && RUN.id in y.journal.runs && y.journal.runs[RUN.id].cursor == 1
  {
    var one, two := RUN.(cursor := 1), RUN.(cursor := 2);
    assert AdvancedRun(w.journal, RUN.id, 1) == Ok(two);
    assert Next(w, HISTORY[12]) == World(w.journal, {one, two});
    assert Next(World(w.journal, {one, two}), HISTORY[13]) == World(WriteRun(w.journal, two), {one, two});
  }

  lemma PermittedAll()
    ensures forall i | 0 <= i < |HISTORY| :: Cursors.Permitted(HISTORY[i])
  {
    FirstProposes();
    SecondProposes();
    hide Proposal, Handoff;
  }

  lemma Authorized()
    ensures Permits(GRANT, PROFILE, PLAN, PLAN.operations[0]) && Permits(GRANT, PROFILE, PLAN, PLAN.operations[1])
  {
    assert STEP.operation.Effects() == {};
    assert Fingerprints(PROFILE) == map[];
  }

  lemma TicketsMatch()
    ensures Matches(WorldAt(HISTORY, 7).journal, HISTORY[7].ticket) && Matches(WorldAt(HISTORY, 12).journal, HISTORY[12].ticket)
  {
    hide WorldAt, LeaseTo;
    FirstDone();
    SecondDone();
  }

  /** A cursor may move backwards: in this history of permitted steps every ticket matches its run, and the late write
      of the first advance takes the cursor from 2 to 1. */
  lemma CursorMovesBack()
    ensures WellFormed(HISTORY, |HISTORY|) && Lowers(WorldAt(HISTORY, 14), HISTORY[14], RUN.id)
    ensures WorldAt(HISTORY, 14).journal.runs[RUN.id].cursor == 2
    ensures RUN.id in WorldAt(HISTORY, 15).journal.runs && WorldAt(HISTORY, 15).journal.runs[RUN.id].cursor == 1
    ensures forall i | 0 <= i < |PLAN.operations| :: Permits(GRANT, PROFILE, PLAN, PLAN.operations[i])
  {
    hide WorldAt, Next, Cursors.Permitted, Matches, Permits;
    Authorized();
    PermittedAll();
    SecondDone();
    RowsWritten(WorldAt(HISTORY, 12));
    WorldStepped(HISTORY, 12);
    WorldStepped(HISTORY, 13);
    WorldStepped(HISTORY, 14);
    TicketsMatch();
  }
}
