/** The reconciliation record: ordinals, finality, and the observation a completed attempt stands for. */
module Witnessing {
  import opened Wrappers
  import opened Domain
  import opened Journal
  import opened Actions
  import opened Invariant
  import opened Preservation
  import opened Evolution
  import opened Histories
  import opened Interlocks

  lemma InvWitnessed(j: Journal)
    requires Inv(j)
    ensures Witnessed(j) && Receipted(j) && Contiguous(j)
  {
  }

  /** An attempt's witnesses carry ordinals 0, 1, ... in order; only the last can still be claimed, and then the
      attempt is unknown, or be completed, and then the attempt is completed. */
  lemma HistoryShape(j: Journal, a: AttemptId, i: nat)
    requires Reachable(j) && i < |HistoryOf(j, a)|
    ensures a in j.attempts && HistoryOf(j, a)[i] in j.reconciliations
    ensures var r := j.reconciliations[HistoryOf(j, a)[i]];
            && r.attempt == a && r.ordinal == i && r.request == HistoryOf(j, a)[i]
            && (r.state in {RecClaimed, RecCompleted} ==> i + 1 == |HistoryOf(j, a)|)
            && (r.state == RecClaimed ==> j.attempts[a].state == Unknown)
            && (r.state == RecCompleted ==> j.attempts[a].state == Completed && r.receipt.Some? && r.receipt.value.CompletedReceipt?)
  {
    hide Inv, Reachable, Contiguous, Receipted;
    ReachableInv(j);
    InvWitnessed(j);
    assert WitnessFits(j, HistoryOf(j, a)[i]);
  }

  /** Every stored witness is listed in its attempt's history, at its ordinal. */
  lemma WitnessIsListed(j: Journal, q: RequestId)
    requires Reachable(j) && q in j.reconciliations
    ensures var r := j.reconciliations[q]; r.ordinal < |HistoryOf(j, r.attempt)| && HistoryOf(j, r.attempt)[r.ordinal] == q
  {
    hide Inv, Reachable, Contiguous, Receipted, Historical;
    ReachableInv(j);
    InvWitnessed(j);
  }

  /** A finished witness never changes, and a claimed one keeps its attempt, ordinal and principal. */
  lemma FinishedWitnessesStay(actions: seq<Action>, m: nat, n: nat, q: RequestId)
    requires AllAdmissible(actions) && m <= n <= |actions| && q in At(actions, m).reconciliations
    ensures q in At(actions, n).reconciliations
    ensures var v, w := At(actions, m).reconciliations[q], At(actions, n).reconciliations[q];
            w == v.(state := w.state, receipt := w.receipt) && (v.state != RecClaimed ==> w == v)
  {
    hide At, AttemptsEvolve, StepsEvolve, RecordsEvolve, ClosuresEvolve;
    AtEvolves(actions, m, n);
  }

  // ----- The completing receipt -----

  lemma {:induction false} NoneCompleted(j: Journal, rows: seq<RequestId>)
    requires forall i | 0 <= i < |rows| && rows[i] in j.reconciliations :: j.reconciliations[rows[i]].state != RecCompleted
    ensures LatestCompleted(j, rows) == None
    decreases |rows|
  {
    if rows != [] {
      NoneCompleted(j, rows[..|rows| - 1]);
    }
  }

  lemma OnlyLastCompleted(j: Journal, a: AttemptId, i: nat)
    requires Witnessed(j) && i + 1 < |HistoryOf(j, a)| && HistoryOf(j, a)[i] in j.reconciliations
    ensures j.reconciliations[HistoryOf(j, a)[i]].state != RecCompleted
  {
    assert WitnessFits(j, HistoryOf(j, a)[i]);
  }

  /** Scanning the history backwards can only stop at its last row. */
  lemma LatestIsLast(j: Journal, a: AttemptId)
    requires Witnessed(j)
    ensures LatestCompleted(j, HistoryOf(j, a)) ==
            if HasCompletedWitness(j, a) then Some(j.reconciliations[HistoryOf(j, a)[|HistoryOf(j, a)| - 1]]) else None
  {
    var rows := HistoryOf(j, a);
    if rows != [] {
      var earlier := rows[..|rows| - 1];
      forall i | 0 <= i < |earlier| && earlier[i] in j.reconciliations
        ensures j.reconciliations[earlier[i]].state != RecCompleted
      {
        OnlyLastCompleted(j, a, i);
      }
      hide Witnessed, HistoryOf;
      NoneCompleted(j, earlier);
    }
  }

  ghost function CompletedWitness(j: Journal, a: AttemptId): ReconciliationRecord
    requires HasCompletedWitness(j, a)
  {
    j.reconciliations[HistoryOf(j, a)[|HistoryOf(j, a)| - 1]]
  }

  /** A completed attempt always has exactly one observation: its completed witness's, or its own receipt's. */
  lemma CompletedHasObservation(j: Journal, id: AttemptId)
    requires Inv(j) && id in j.attempts && j.attempts[id].state == Completed
    ensures CompletedObservation(j, j.attempts[id]).Ok?
    ensures var receipt := Some(CompletedReceipt(CompletedObservation(j, j.attempts[id]).value));
            if HasCompletedWitness(j, id) then CompletedWitness(j, id).receipt == receipt else j.attempts[id].receipt == receipt
    ensures j.attempts[id].receipt.Some? && (j.attempts[id].receipt.value.CompletedReceipt? <==> !HasCompletedWitness(j, id))
  {
    hide Inv, Contiguous, Historical;
    InvWitnessed(j);
    AttemptKey(j, id);
    LatestIsLast(j, id);
    assert ReceiptFits(j, j.attempts[id]);
    hide Receipted, LatestCompleted;
    assert HasCompletedWitness(j, id) ==> WitnessFits(j, HistoryOf(j, id)[|HistoryOf(j, id)| - 1]);
  }

  lemma CompletedStays(j: Journal, k: Journal, id: AttemptId)
    requires AttemptsEvolve(j, k) && id in j.attempts && j.attempts[id].state == Completed && j.attempts[id].receipt.Some?
    ensures id in k.attempts && k.attempts[id].state == Completed && k.attempts[id].receipt == j.attempts[id].receipt
  {
    assert AttemptEvolves(j.attempts[id], k.attempts[id]);
  }

  /** Later readers see the same observation. */
  lemma ObservationIsFixed(j: Journal, k: Journal, id: AttemptId)
    requires Inv(j) && Inv(k) && AttemptsEvolve(j, k) && WitnessesEvolve(j, k) && id in j.attempts && j.attempts[id].state == Completed
    ensures id in k.attempts && CompletedObservation(k, k.attempts[id]) == CompletedObservation(j, j.attempts[id])
  {
    hide Inv, CompletedObservation, AttemptsEvolve, WitnessFits, HistoryOf, HasCompletedWitness, CompletedWitness, WitnessesEvolve;
    CompletedHasObservation(j, id);
    CompletedStays(j, k, id);
    CompletedHasObservation(k, id);
    if HasCompletedWitness(j, id) {
      WitnessIsFixed(j, k, id);
    }
  }

  lemma WitnessIsFixed(j: Journal, k: Journal, id: AttemptId)
    requires Inv(j) && Inv(k) && WitnessesEvolve(j, k) && HasCompletedWitness(j, id)
    ensures HasCompletedWitness(k, id) && CompletedWitness(k, id) == CompletedWitness(j, id)
  {
    hide Inv, HistoryOf, WitnessesEvolve, Witnessed, Receipted, Contiguous;
    InvWitnessed(j);
    InvWitnessed(k);
    SameLastWitness(j, k, id);
  }

  lemma LastWitnessRow(j: Journal, id: AttemptId)
    requires Witnessed(j) && HasCompletedWitness(j, id)
    ensures var r := j.reconciliations[HistoryOf(j, id)[|HistoryOf(j, id)| - 1]]; r.attempt == id && r.ordinal + 1 == |HistoryOf(j, id)|
  {
    hide WitnessFits;
  }

  lemma CompletedWitnessIsLast(j: Journal, q: RequestId)
    requires Witnessed(j) && q in j.reconciliations && j.reconciliations[q].state == RecCompleted
    ensures j.reconciliations[q].ordinal + 1 == |HistoryOf(j, j.reconciliations[q].attempt)|
  {
    hide Historical;
    assert WitnessFits(j, q);
  }

  lemma RowKept(j: Journal, k: Journal, a: AttemptId, q: RequestId)
    requires WitnessesEvolve(j, k) && q in j.reconciliations && j.reconciliations[q].state != RecClaimed
    ensures q in k.reconciliations && k.reconciliations[q] == j.reconciliations[q]
    ensures HistoryOf(j, a) <= HistoryOf(k, a)
  {
    hide HistoryOf;
    assert WitnessEvolves(j.reconciliations[q], k.reconciliations[q]);
  }

  lemma SameLastWitness(j: Journal, k: Journal, id: AttemptId)
    requires Witnessed(j) && Witnessed(k) && WitnessesEvolve(j, k) && HasCompletedWitness(j, id)
    ensures HistoryOf(k, id) == HistoryOf(j, id)
    ensures var q := HistoryOf(j, id)[|HistoryOf(j, id)| - 1]; q in k.reconciliations && k.reconciliations[q] == j.reconciliations[q]
  {
    var rows := HistoryOf(j, id);
    var q := rows[|rows| - 1];
    assert q in j.reconciliations && j.reconciliations[q].state == RecCompleted;
    hide Witnessed, HistoryOf, WitnessesEvolve;
    LastWitnessRow(j, id);
    RowKept(j, k, id, q);
    CompletedWitnessIsLast(k, q);
  }

  // ----- Which step completes an attempt -----

  /** Action `n` of a history moves attempt `id` to Completed. */
  predicate CompletesAt(actions: seq<Action>, n: nat, id: AttemptId) {
    && n < |actions|
    && id in At(actions, n + 1).attempts && At(actions, n + 1).attempts[id].state == Completed
    && (id in At(actions, n).attempts ==> At(actions, n).attempts[id].state != Completed)
  }

  /** The receipt by which an action can complete an attempt. */
  function CompletingReceipt(action: Action): Option<OperationReceipt> {
    match action
    case DoRecordReceipt(_, receipt) => Some(receipt)
    case DoFinishReconciliation(_, outcome) => outcome
    case _ => None
  }

  /** Only a recorded receipt or a finished witness can complete an attempt, and only with a completion. */
  lemma CompletionStep(j: Journal, action: Action, id: AttemptId)
    requires Admissible(action) && id in Apply(j, action).attempts && Apply(j, action).attempts[id].state == Completed
    requires id in j.attempts ==> j.attempts[id].state != Completed
    ensures id in j.attempts && CompletingReceipt(action).Some? && CompletingReceipt(action).value.CompletedReceipt?
    ensures action.DoRecordReceipt? ==> action.attempt == id && Apply(j, action).attempts[id].receipt == CompletingReceipt(action)
    ensures action.DoFinishReconciliation? ==>
              && action.request in j.reconciliations && j.reconciliations[action.request].attempt == id
              && action.request in Apply(j, action).reconciliations
              && Apply(j, action).reconciliations[action.request] == j.reconciliations[action.request].(receipt := action.outcome, state := RecCompleted)
  {
    hide Apply, RecordBySupervisor, FinishBySupervisor;
    match action {
      case DoRecordReceipt(attempt, receipt) => RecordingCompletes(j, attempt, receipt, id);
      case DoFinishReconciliation(request, outcome) => FinishingCompletes(j, request, outcome, id);
      case _ => OthersDoNotComplete(j, action, id);
    }
  }

  lemma RecordingCompletes(j: Journal, attempt: AttemptId, receipt: OperationReceipt, id: AttemptId)
    requires var k := Apply(j, DoRecordReceipt(attempt, receipt)); id in k.attempts && k.attempts[id].state == Completed
    requires id in j.attempts ==> j.attempts[id].state != Completed
    ensures id in j.attempts && attempt == id && receipt.CompletedReceipt?
    ensures Apply(j, DoRecordReceipt(attempt, receipt)).attempts[id].receipt == Some(receipt)
  {
    hide ReleaseFrom, ReleaseOnOutcome, SupervisorReleases;
  }

  lemma FinishingCompletes(j: Journal, request: RequestId, outcome: Option<OperationReceipt>, id: AttemptId)
    requires var k := Apply(j, DoFinishReconciliation(request, outcome)); id in k.attempts && k.attempts[id].state == Completed
    requires id in j.attempts ==> j.attempts[id].state != Completed
    ensures id in j.attempts && outcome.Some? && outcome.value.CompletedReceipt?
    ensures request in j.reconciliations && j.reconciliations[request].attempt == id
    ensures request in Apply(j, DoFinishReconciliation(request, outcome)).reconciliations
    ensures Apply(j, DoFinishReconciliation(request, outcome)).reconciliations[request]
            == j.reconciliations[request].(receipt := outcome, state := RecCompleted)
  {
    hide ReleaseFrom, FinalStep;
  }

  lemma AdmissionDoesNotComplete(j: Journal, action: Action, id: AttemptId)
    requires Admissible(action) && (action.DoReserve? || action.DoTakeOver?)
    requires id in Apply(j, action).attempts && Apply(j, action).attempts[id].state == Completed
    ensures id in j.attempts && j.attempts[id].state == Completed
  {
    hide AdmissionContext, CheckSources, Available, NextIndex, SameRun, HeldBy, FindTakeover, AttemptForRequest, Handoff, TotalCost;
    hide LeaseTo, SameReservation, Listing;
  }

  lemma ClosingDoesNotComplete(j: Journal, action: Action, id: AttemptId)
    requires action.DoAbandon? || action.DoReopen? || action.DoRejectIntent?
    requires id in Apply(j, action).attempts && Apply(j, action).attempts[id].state == Completed
    ensures id in j.attempts && j.attempts[id].state == Completed
  {
    hide LeaseKeys, ReleaseFrom, ReleaseOnOutcome, Destinations;
  }

  lemma ClaimingDoesNotComplete(j: Journal, action: Action, id: AttemptId)
    requires action.DoClaimDispatch? || action.DoClaimReconciliation?
    requires id in Apply(j, action).attempts && Apply(j, action).attempts[id].state == Completed
    ensures id in j.attempts && j.attempts[id].state == Completed
  {
    hide ActiveGrant, BoundContext, OwnsAll, ConfigurationAuthority, ConfigurationCharge, ActivelyReconciled, NextOrdinal;
  }

  lemma OthersDoNotComplete(j: Journal, action: Action, id: AttemptId)
    requires Admissible(action) && !action.DoRecordReceipt? && !action.DoFinishReconciliation?
    requires id in Apply(j, action).attempts && Apply(j, action).attempts[id].state == Completed
    ensures id in j.attempts && j.attempts[id].state == Completed
  {
    if action.DoReserve? || action.DoTakeOver? {
      hide Apply;
      AdmissionDoesNotComplete(j, action, id);
    } else if action.DoAbandon? || action.DoReopen? || action.DoRejectIntent? {
      hide Apply;
      ClosingDoesNotComplete(j, action, id);
    } else if action.DoClaimDispatch? || action.DoClaimReconciliation? {
      hide Apply;
      ClaimingDoesNotComplete(j, action, id);
    } else {
      hide CompletedPrefix;
    }
  }

  lemma CompletedByWitness(j: Journal, q: RequestId)
    requires Witnessed(j) && q in j.reconciliations && j.reconciliations[q].state == RecCompleted
    ensures HasCompletedWitness(j, j.reconciliations[q].attempt)
    ensures CompletedWitness(j, j.reconciliations[q].attempt) == j.reconciliations[q]
  {
    hide Historical;
    assert WitnessFits(j, q);
  }

  /** The completing receipt is what the journal offers as the attempt's observation. */
  lemma CompletionIsObserved(j: Journal, action: Action, k: Journal, id: AttemptId)
    requires Admissible(action) && k == Apply(j, action) && Inv(k) && id in k.attempts && k.attempts[id].state == Completed
    requires id in j.attempts ==> j.attempts[id].state != Completed
    ensures CompletingReceipt(action).Some? && CompletingReceipt(action).value.CompletedReceipt?
    ensures CompletedObservation(k, k.attempts[id]) == Ok(CompletingReceipt(action).value.observation)
  {
    hide Inv, Apply, Admissible, CompletedObservation, Witnessed, HasCompletedWitness, CompletedWitness, Receipted, Contiguous;
    CompletionStep(j, action, id);
    CompletedHasObservation(k, id);
    if action.DoFinishReconciliation? {
      InvWitnessed(k);
      CompletedByWitness(k, action.request);
    }
  }

  /** The observation that interlocks read for a completed attempt is, ever after, the one in the very receipt
      that moved the attempt to Completed: its execution's, or its reconciliation's. */
  lemma ObservationIsTheCompletion(actions: seq<Action>, n: nat, m: nat, id: AttemptId)
    requires AllAdmissible(actions) && CompletesAt(actions, n, id) && n < m <= |actions|
    ensures CompletingReceipt(actions[n]).Some? && CompletingReceipt(actions[n]).value.CompletedReceipt?
    ensures id in At(actions, m).attempts
    ensures CompletedObservation(At(actions, m), At(actions, m).attempts[id]) == Ok(CompletingReceipt(actions[n]).value.observation)
  {
    var k := At(actions, n + 1);
    assert actions[n] in actions;
    hide At, Inv, Apply, Admissible, CompletedObservation, AttemptsEvolve, WitnessesEvolve, StepsEvolve, RecordsEvolve, ClosuresEvolve;
    Step(actions, n);
    AtKeepsInv(actions, n + 1);
    CompletionIsObserved(At(actions, n), actions[n], k, id);
    AtEvolves(actions, n + 1, m);
    AtKeepsInv(actions, m);
    ObservationIsFixed(k, At(actions, m), id);
  }
}
