/** Plan conditions over durable observations: witnessing steps, freshness, and postconditions. */
module Interlocks {
  import opened Wrappers
  import opened Conditions
  import opened Domain
  import opened Journal

  datatype Denial =
    | NoObservationStep
    | NoDurableAttempt
    | NotCompletedHere
    | NoSuccessfulReceipt
    | InvalidTimestamp
    | FromTheFuture
    | Stale
    | Unsatisfied(condition: ConditionError)
    | ExpiryOutOfRange

  predicate Gates(interlock: LiveInterlock, operation: Operation) {
    interlock.effects * operation.Effects() != {}
  }

  /** Step `i` is the interlock's exact observation, with nothing effectful or identical between it and `before`. */
  predicate Witnesses(plan: ReviewedPlan, before: nat, interlock: LiveInterlock, i: nat)
    requires before <= |plan.operations|
  {
    && i < before
    && plan.operations[i].operation == interlock.observation
    && forall k | i < k < before ::
         plan.operations[k].operation != interlock.observation && plan.operations[k].operation.Effects() == {}
  }

  /** Scans backwards from the gated step and stops at the observation or at the first effect. */
  method ObservationStep(plan: ReviewedPlan, before: nat, interlock: LiveInterlock) returns (r: Result<nat, Denial>)
    requires before <= |plan.operations|
    ensures r.Ok? ==> Witnesses(plan, before, interlock, r.value)
    ensures r.Err? <==> forall i | 0 <= i < before :: !Witnesses(plan, before, interlock, i)
    ensures r.Err? ==> r.error == NoObservationStep
  {
    var index := before;
    while index > 0
      invariant 0 <= index <= before
      invariant forall k | index <= k < before ::
                  plan.operations[k].operation != interlock.observation && plan.operations[k].operation.Effects() == {}
    {
      index := index - 1;
      var operation := plan.operations[index].operation;
      if operation == interlock.observation {
        assert Witnesses(plan, before, interlock, index);
        return Ok(index);
      }
      if operation.Effects() != {} {
        break;
      }
    }
    return Err(NoObservationStep);
  }

  /** There is at most one witnessing step. */
  lemma WitnessIsUnique(plan: ReviewedPlan, before: nat, interlock: LiveInterlock, i: nat, k: nat)
    requires before <= |plan.operations| && Witnesses(plan, before, interlock, i) && Witnesses(plan, before, interlock, k)
    ensures i == k
  {
  }

  /** Every gated step of the plan has its witnessing step. */
  ghost predicate Interlocked(profile: CommissionedProfile, plan: ReviewedPlan, upTo: nat)
    requires upTo <= |plan.operations|
  {
    forall k, l | 0 <= k < upTo && l in profile.liveInterlocks && Gates(l, plan.operations[k].operation) ::
      exists i :: Witnesses(plan, k, l, i)
  }

  method ValidatePlan(profile: CommissionedProfile, plan: ReviewedPlan) returns (r: Outcome<Denial>)
    ensures r.Pass? <==> Interlocked(profile, plan, |plan.operations|)
  {
    for index := 0 to |plan.operations|
      invariant Interlocked(profile, plan, index)
    {
      for l := 0 to |profile.liveInterlocks|
        invariant forall m | 0 <= m < l && Gates(profile.liveInterlocks[m], plan.operations[index].operation) ::
                    exists i :: Witnesses(plan, index, profile.liveInterlocks[m], i)
      {
        var interlock := profile.liveInterlocks[l];
        if Gates(interlock, plan.operations[index].operation) {
          var step := ObservationStep(plan, index, interlock);
          if step.Err? {
            assert interlock in profile.liveInterlocks && Gates(interlock, plan.operations[index].operation);
            assert !exists i :: Witnesses(plan, index, interlock, i);
            return Fail(step.error);
          }
        }
      }
    }
    return Pass;
  }

  /** What the receipt of an operation becomes when its reviewed postconditions are checked. */
  predicate JudgedAs(planned: PlannedOperation, answer: OperationReceipt, receipt: OperationReceipt) {
    if answer.CompletedReceipt? && !Satisfies(answer.observation.body, planned.postconditions)
    then receipt.PartialReceipt? && receipt.observation == answer.observation
    else receipt == answer
  }

  /** A completion that breaks a reviewed postcondition becomes partial; nothing else changes. */
  method CheckPostconditions(planned: PlannedOperation, receipt: OperationReceipt) returns (r: OperationReceipt)
    ensures JudgedAs(planned, receipt, r)
    ensures r.CompletedReceipt? <==> receipt.CompletedReceipt? && Satisfies(receipt.observation.body, planned.postconditions)
    ensures r.RejectedReceipt? <==> receipt.RejectedReceipt?
    ensures r != receipt ==> receipt.CompletedReceipt? && r.PartialReceipt? && r.observation == receipt.observation
  {
    if receipt.CompletedReceipt? {
      var outcome := EvaluateChecks(receipt.observation.body, planned.postconditions);
      if outcome.Fail? {
        return PartialReceipt(receipt.observation, "reviewed postcondition failed");
      }
    }
    return receipt;
  }

  // ----- The observation a completed attempt stands for -----

  /** The latest completed witness among the given rows. */
  function LatestCompleted(j: Journal, rows: seq<RequestId>): Option<ReconciliationRecord> {
    if rows == [] then None
    else
      var last := rows[|rows| - 1];
      if last in j.reconciliations && j.reconciliations[last].state == RecCompleted then Some(j.reconciliations[last])
      else LatestCompleted(j, rows[..|rows| - 1])
  }

  /** A completed reconciliation overrides the receipt of the original execution. */
  function CompletedObservation(j: Journal, a: AttemptRecord): Result<Observation, Denial> {
    var source := LatestCompleted(j, HistoryOf(j, a.id));
    var receipt := if source.Some? then source.value.receipt else a.receipt;
    if receipt.Some? && receipt.value.CompletedReceipt? then Ok(receipt.value.observation) else Err(NoSuccessfulReceipt)
  }

  /** The witness that justifies dispatching `a` under one interlock, read from the journal at time `now`. */
  ghost predicate Fresh(j: Journal, a: AttemptRecord, plan: ReviewedPlan, interlock: LiveInterlock, now: int, captured: int)
    requires a.operationIndex <= |plan.operations|
  {
    exists i :: Witnesses(plan, a.operationIndex, interlock, i) && FreshAt(j, a, interlock, i, now, captured)
  }

  ghost predicate FreshAt(j: Journal, a: AttemptRecord, interlock: LiveInterlock, i: nat, now: int, captured: int) {
    var source := AttemptAtStep(j, a.Owner(), i);
    && source.Some?
    && source.value.state == Completed
    && source.value.profileDigest == a.profileDigest
    && source.value.planDigest == a.planDigest
    && var observation := CompletedObservation(j, source.value);
       && observation.Ok?
       && observation.value.capturedAt == Some(captured)
       && captured <= now <= captured + interlock.maximumAge
       && Satisfies(observation.value.body, interlock.checks)
  }

  /** One interlock of the loop: the capture time of its fresh witness, or why there is none. */
  method CheckInterlock(j: Journal, a: AttemptRecord, plan: ReviewedPlan, interlock: LiveInterlock, now: int)
    returns (r: Result<int, Denial>)
    requires a.operationIndex < |plan.operations|
    ensures r.Ok? ==> Fresh(j, a, plan, interlock, now, r.value)
    ensures r.Err? ==> forall captured :: !Fresh(j, a, plan, interlock, now, captured)
  {
    var step := ObservationStep(plan, a.operationIndex, interlock);
    if step.Err? { return Err(step.error); }
    forall i | Witnesses(plan, a.operationIndex, interlock, i)
      ensures i == step.value
    {
      WitnessIsUnique(plan, a.operationIndex, interlock, i, step.value);
    }
    var source := AttemptAtStep(j, a.Owner(), step.value);
    if source.None? { return Err(NoDurableAttempt); }
    if source.value.state != Completed || source.value.profileDigest != a.profileDigest || source.value.planDigest != a.planDigest {
      return Err(NotCompletedHere);
    }
    var observation := CompletedObservation(j, source.value);
    if observation.Err? { return Err(observation.error); }
    if observation.value.capturedAt.None? { return Err(InvalidTimestamp); }
    var captured := observation.value.capturedAt.value;
    if now < captured { return Err(FromTheFuture); }
    if now - captured > interlock.maximumAge { return Err(Stale); }
    var outcome := EvaluateChecks(observation.value.body, interlock.checks);
    if outcome.Fail? { return Err(Unsatisfied(outcome.error)); }
    assert FreshAt(j, a, interlock, step.value, now, captured);
    return Ok(captured);
  }

  /** Some gating interlock has a fresh witness that expires at `e`. */
  ghost predicate Expires(j: Journal, a: AttemptRecord, plan: ReviewedPlan, interlock: LiveInterlock, now: int, e: int)
    requires a.operationIndex < |plan.operations|
  {
    Gates(interlock, plan.operations[a.operationIndex].operation) && Fresh(j, a, plan, interlock, now, e - interlock.maximumAge)
  }

  /** Succeeds exactly when every gating interlock has a fresh witness with a representable expiry, and then
      returns the earliest expiry. `times` are the clock readings, `latest` the last representable timestamp. */
  method CheckLiveInterlocks(j: Journal, a: AttemptRecord, profile: CommissionedProfile, plan: ReviewedPlan,
                             times: seq<int>, latest: int) returns (r: Result<Option<int>, Denial>)
    requires a.operationIndex < |plan.operations| && |times| == |profile.liveInterlocks|
    ensures r.Ok? <==> forall l | 0 <= l < |times| && Gates(profile.liveInterlocks[l], plan.operations[a.operationIndex].operation) ::
                         exists e :: e <= latest && Expires(j, a, plan, profile.liveInterlocks[l], times[l], e)
    ensures r.Ok? && r.value.None? ==> forall l | l in profile.liveInterlocks :: !Gates(l, plan.operations[a.operationIndex].operation)
    ensures r.Ok? && r.value.Some? ==> exists l | 0 <= l < |times| :: Expires(j, a, plan, profile.liveInterlocks[l], times[l], r.value.value)
    ensures r.Ok? && r.value.Some? ==> forall l, e | 0 <= l < |times| && Expires(j, a, plan, profile.liveInterlocks[l], times[l], e) :: r.value.value <= e
  {
    hide Fresh, Gates;
    var earliest: Option<int> := None;
    for l := 0 to |profile.liveInterlocks|
      invariant forall m | 0 <= m < l && Gates(profile.liveInterlocks[m], plan.operations[a.operationIndex].operation) ::
                  exists e :: e <= latest && Expires(j, a, plan, profile.liveInterlocks[m], times[m], e)
      invariant earliest.None? ==> forall m | 0 <= m < l :: !Gates(profile.liveInterlocks[m], plan.operations[a.operationIndex].operation)
      invariant earliest.Some? ==> exists m | 0 <= m < l :: Expires(j, a, plan, profile.liveInterlocks[m], times[m], earliest.value)
      invariant earliest.Some? ==> forall m, e | 0 <= m < l && Expires(j, a, plan, profile.liveInterlocks[m], times[m], e) :: earliest.value <= e
    {
      var interlock := profile.liveInterlocks[l];
      if Gates(interlock, plan.operations[a.operationIndex].operation) {
        var source := CheckInterlock(j, a, plan, interlock, times[l]);
        if source.Err? { return Err(source.error); }
        var expiry := source.value + interlock.maximumAge;
        FreshIsUnique(j, a, plan, interlock, times[l], source.value);
        if expiry > latest { return Err(ExpiryOutOfRange); }
        assert Expires(j, a, plan, interlock, times[l], expiry);
        earliest := Some(if earliest.None? || expiry < earliest.value then expiry else earliest.value);
      }
    }
    return Ok(earliest);
  }

  /** A fresh witness fixes its capture time. */
  lemma FreshIsUnique(j: Journal, a: AttemptRecord, plan: ReviewedPlan, interlock: LiveInterlock, now: int, captured: int)
    requires a.operationIndex <= |plan.operations| && Fresh(j, a, plan, interlock, now, captured)
    ensures forall other | Fresh(j, a, plan, interlock, now, other) :: other == captured
  {
    var i :| Witnesses(plan, a.operationIndex, interlock, i) && FreshAt(j, a, interlock, i, now, captured);
    forall other | Fresh(j, a, plan, interlock, now, other)
      ensures other == captured
    {
      var k :| Witnesses(plan, a.operationIndex, interlock, k) && FreshAt(j, a, interlock, k, now, other);
      WitnessIsUnique(plan, a.operationIndex, interlock, i, k);
    }
  }
}
