/** Where guarded effects come from: a witness that interlocks accept was itself dispatched earlier, in the same run. */
module Guarding {
  import opened Wrappers
  import opened Domain
  import opened Journal
  import opened Actions
  import opened Invariant
  import opened Preservation
  import opened Closing
  import opened Admitting
  import opened Evolution
  import opened Histories
  import opened Interlocks
  import opened Isolation
  import opened Permissions

  /** The attempt has been dispatched, whatever became of it. */
  predicate Begun(j: Journal, id: AttemptId) {
    id in j.attempts && j.attempts[id].state !in {Intent, Rejected}
  }

  lemma AdmissionBeginsNothing(j: Journal, action: Action, id: AttemptId)
    requires Keyed(j) && Admissible(action) && (action.DoReserve? || action.DoTakeOver?) && Begun(Apply(j, action), id)
    ensures Begun(j, id)
  {
    hide Keyed, Reserve, TakeOver, AttemptForRequest, AdmissionContext, Available, NextIndex, HeldBy, CheckSources, RepeatedTakeOver;
    hide TotalCost, CommissionedProfile.PhysicalResources, LeaseTo;
    match action {
      case DoReserve(a, snapshot, now) =>
        if Reserve(j, a, snapshot, now).Ok? {
          if AttemptForRequest(j, a.request).Some? { RepeatedReserve(j, a, snapshot, now); } else { ReserveShape(j, a, snapshot, now); }
        }
      case DoTakeOver(a, snapshot, run, recovery, now) =>
        if TakeOver(j, a, snapshot, run, recovery, now).Ok? {
          if RepeatedTakeOver(j, a, recovery) {
            RepeatedTakeOverKeeps(j, a, snapshot, run, recovery, now);
          } else {
            TakeOverShape(j, a, snapshot, run, recovery, now);
          }
        }
    }
  }

  lemma ReceiptBeginsNothing(j: Journal, attempt: AttemptId, receipt: OperationReceipt, id: AttemptId)
    requires Begun(After(j, RecordBySupervisor(j, attempt, receipt)), id)
    ensures Begun(j, id)
  {
    hide ReleaseOnOutcome, SupervisorReleases;
    var tx := RecordBySupervisor(j, attempt, receipt);
    if tx.Ok? {
      assert attempt in j.attempts && j.attempts[attempt].state == Dispatched && tx.value.journal.attempts == j.attempts[attempt := tx.value.value];
      hide RecordBySupervisor;
    }
  }

  lemma RejectionBeginsNothing(j: Journal, attempt: AttemptId, reason: string, id: AttemptId)
    requires Begun(After(j, RejectIntent(j, attempt, reason)), id)
    ensures Begun(j, id)
  {
    hide ReleaseOnOutcome;
    var tx := RejectIntent(j, attempt, reason);
    if tx.Ok? {
      assert tx.value.value.state == Rejected && tx.value.journal.attempts == j.attempts[attempt := tx.value.value];
      hide RejectIntent;
    }
  }

  lemma WitnessesBeginNothing(j: Journal, action: Action, id: AttemptId)
    requires (action.DoClaimReconciliation? || action.DoFinishReconciliation?) && Begun(Apply(j, action), id)
    requires forall q | q in j.reconciliations && j.reconciliations[q].state == RecClaimed ::
               j.reconciliations[q].attempt in j.attempts && j.attempts[j.reconciliations[q].attempt].state == Unknown
    ensures Begun(j, id)
  {
    hide ActiveGrant, BoundContext, ConfigurationAuthority, OwnsAll, ActivelyReconciled, NextOrdinal, ConfigurationCharge, ReleaseFrom, FinalStep;
  }

  lemma ClosingBeginsNothing(j: Journal, action: Action, id: AttemptId)
    requires (action.DoAbandon? || action.DoReopen?) && Begun(Apply(j, action), id)
    ensures Begun(j, id)
  {
    hide LeaseKeys, ReleaseFrom, Destinations;
  }

  lemma ClaimBegins(j: Journal, attempt: AttemptId, agent: PrincipalId, now: int, id: AttemptId)
    requires Begun(After(j, ClaimDispatch(j, attempt, agent, now)), id) && !Begun(j, id)
    ensures attempt == id && ClaimDispatch(j, attempt, agent, now).Ok?
  {
    hide ActiveGrant, BoundContext, OwnsAll;
    var tx := ClaimDispatch(j, attempt, agent, now);
    if tx.Ok? {
      assert tx.value.journal.attempts == j.attempts[attempt := tx.value.value];
      hide ClaimDispatch;
    }
  }

  lemma InvOpenWitnesses(j: Journal)
    requires Inv(j)
    ensures Keyed(j)
    ensures forall q | q in j.reconciliations && j.reconciliations[q].state == RecClaimed ::
              j.reconciliations[q].attempt in j.attempts && j.attempts[j.reconciliations[q].attempt].state == Unknown
  {
    hide Keyed, Contiguous, Requested, Bound, InOrder, Receipted, Leased, Halts, Retires, HandsOver, Quiet, Historical;
    assert forall q | q in j.reconciliations :: WitnessFits(j, q);
  }

  /** Nothing but a dispatch claim begins an attempt. */
  lemma OnlyClaimsBegin(j: Journal, action: Action, id: AttemptId)
    requires Inv(j) && Admissible(action) && Begun(Apply(j, action), id) && !Begun(j, id)
    ensures action.DoClaimDispatch? && action.attempt == id && ClaimDispatch(j, id, action.principal, action.now).Ok?
  {
    hide Inv, Keyed, Apply, Begun, Admissible, ClaimDispatch;
    InvOpenWitnesses(j);
    if action.DoReserve? || action.DoTakeOver? {
      AdmissionBeginsNothing(j, action, id);
    } else if action.DoClaimReconciliation? || action.DoFinishReconciliation? {
      WitnessesBeginNothing(j, action, id);
    } else if action.DoAbandon? || action.DoReopen? {
      ClosingBeginsNothing(j, action, id);
    } else if TouchesRecords(action) {
      RecordsAttempts(j, action);
      SameBegun(j, Apply(j, action), id);
    } else {
      SettlingBegins(j, action, id);
    }
  }

  lemma SettlingBegins(j: Journal, action: Action, id: AttemptId)
    requires action.DoRecordReceipt? || action.DoRejectIntent? || action.DoClaimDispatch?
    requires Begun(Apply(j, action), id) && !Begun(j, id)
    ensures action.DoClaimDispatch? && action.attempt == id && ClaimDispatch(j, id, action.principal, action.now).Ok?
  {
    hide Apply, Begun, ClaimDispatch, RecordBySupervisor, RejectIntent, After;
    ApplySettling(j, action);
    match action {
      case DoRecordReceipt(attempt, receipt) => ReceiptBeginsNothing(j, attempt, receipt, id);
      case DoRejectIntent(attempt, reason) => RejectionBeginsNothing(j, attempt, reason, id);
      case DoClaimDispatch(attempt, agent, now) => ClaimBegins(j, attempt, agent, now, id);
    }
  }

  lemma SameBegun(j: Journal, k: Journal, id: AttemptId)
    requires k.attempts == j.attempts
    ensures Begun(k, id) <==> Begun(j, id)
  {
  }

  lemma ApplySettling(j: Journal, action: Action)
    ensures action.DoRecordReceipt? ==> Apply(j, action) == After(j, RecordBySupervisor(j, action.attempt, action.receipt))
    ensures action.DoRejectIntent? ==> Apply(j, action) == After(j, RejectIntent(j, action.attempt, action.reason))
    ensures action.DoClaimDispatch? ==> Apply(j, action) == After(j, ClaimDispatch(j, action.attempt, action.principal, action.now))
  {
    hide RecordBySupervisor, RejectIntent, ClaimDispatch, After;
  }

  /** Every attempt that was ever dispatched was claimed by an earlier action. */
  lemma {:induction false} BegunWasClaimed(actions: seq<Action>, n: nat, id: AttemptId) returns (m: nat)
    requires AllAdmissible(actions) && n <= |actions| && Begun(At(actions, n), id)
    ensures m < n && ClaimAt(actions, m).Some? && ClaimAt(actions, m).value.id == id
    decreases n
  {
    hide At, Inv, Apply, Admissible, Begun, ClaimDispatch, Contiguous;
    if n == 0 {
      NothingBegun(actions, id);
    } else {
      Step(actions, n - 1);
      AtKeepsInv(actions, n - 1);
      assert actions[n - 1] in actions;
      if Begun(At(actions, n - 1), id) {
        m := BegunWasClaimed(actions, n - 1, id);
      } else {
        OnlyClaimsBegin(At(actions, n - 1), actions[n - 1], id);
        m := n - 1;
        InvContiguous(At(actions, n - 1));
        ClaimedKey(At(actions, n - 1), id, actions[n - 1].principal, actions[n - 1].now);
      }
    }
  }

  lemma NothingBegun(actions: seq<Action>, id: AttemptId)
    ensures !Begun(At(actions, 0), id)
  {
    assert At(actions, 0) == EMPTY;
  }

  lemma ClaimedKey(j: Journal, id: AttemptId, agent: PrincipalId, now: int)
    requires Contiguous(j) && ClaimDispatch(j, id, agent, now).Ok?
    ensures ClaimDispatch(j, id, agent, now).value.value.id == id
  {
    AttemptKey(j, id);
    hide Contiguous, ActiveGrant, BoundContext, OwnsAll;
  }

  // ----- From an accepted witness to the claim it stands for -----

  /** An effect whose interlock accepted a witness, at any point after the effect's claim, is guarded: an earlier
      claim of the same run dispatched exactly the witnessing step. */
  lemma AcceptedIsGuarded(actions: seq<Action>, gated: nat, checked: nat, interlock: LiveInterlock, now: int, captured: int)
    returns (observed: nat)
    requires AllAdmissible(actions) && gated < checked <= |actions| && ClaimAt(actions, gated).Some?
    requires var c := ClaimAt(actions, gated).value; var j := At(actions, checked);
             && c.plan in j.plans && c.operationIndex < |j.plans[c.plan].operations|
             && Fresh(j, c, j.plans[c.plan], interlock, now, captured)
    ensures Guards(actions, observed, gated, interlock)
  {
    var c, j := ClaimAt(actions, gated).value, At(actions, checked);
    hide At, ClaimAt, Inv, Witnesses, PlannedAt, OwnsAll, CompletedObservation, Contiguous, Begun;
    var i: nat :| Witnesses(j.plans[c.plan], c.operationIndex, interlock, i) && FreshAt(j, c, interlock, i, now, captured);
    var source := Listing(j, c.Owner())[i];
    AtKeepsInv(actions, checked);
    InvContiguous(j);
    SourceRow(j, c, interlock, i, now, captured);
    hide FreshAt, Fresh;
    observed := BegunWasClaimed(actions, checked, source);
    ClaimedStep(actions, observed, checked, source);
    WitnessesEarlier(j.plans[c.plan], c.operationIndex, interlock, i);
    BeforeGate(actions, observed, gated, i);
    PlanAtGate(actions, gated, checked);
  }

  lemma WitnessesEarlier(plan: ReviewedPlan, before: nat, interlock: LiveInterlock, i: nat)
    requires before <= |plan.operations| && Witnesses(plan, before, interlock, i)
    ensures i < before
  {
  }

  lemma SourceRow(j: Journal, c: AttemptRecord, interlock: LiveInterlock, i: nat, now: int, captured: int)
    requires Contiguous(j) && FreshAt(j, c, interlock, i, now, captured)
    ensures i < |Listing(j, c.Owner())|
    ensures var source := Listing(j, c.Owner())[i];
            Begun(j, source) && j.attempts[source].Owner() == c.Owner() && j.attempts[source].operationIndex == i
  {
    hide CompletedObservation;
  }

  lemma ClaimedStep(actions: seq<Action>, observed: nat, checked: nat, source: AttemptId)
    requires AllAdmissible(actions) && observed < checked <= |actions| && ClaimAt(actions, observed).Some?
    requires ClaimAt(actions, observed).value.id == source && source in At(actions, checked).attempts
    ensures var w, s := ClaimAt(actions, observed).value, At(actions, checked).attempts[source];
            w.Owner() == s.Owner() && w.operationIndex == s.operationIndex
  {
    hide At, ClaimAt, OwnsAll, StepsEvolve, RecordsEvolve, WitnessesEvolve, ClosuresEvolve;
    ClaimFacts(actions, observed);
    AtEvolves(actions, observed + 1, checked);
    assert AttemptEvolves(ClaimAt(actions, observed).value, At(actions, checked).attempts[source]);
  }

  lemma BeforeGate(actions: seq<Action>, observed: nat, gated: nat, i: nat)
    requires AllAdmissible(actions) && ClaimAt(actions, observed).Some? && ClaimAt(actions, gated).Some?
    requires ClaimAt(actions, observed).value.Owner() == ClaimAt(actions, gated).value.Owner()
    requires ClaimAt(actions, observed).value.operationIndex == i < ClaimAt(actions, gated).value.operationIndex
    ensures observed < gated
  {
    hide ClaimAt;
    if gated < observed { ClaimsInOrder(actions, gated, observed); }
  }

  lemma PlanAtGate(actions: seq<Action>, gated: nat, checked: nat)
    requires AllAdmissible(actions) && ClaimAt(actions, gated).Some? && gated < checked <= |actions|
    ensures var c := ClaimAt(actions, gated).value;
            && gated < |actions| && c.plan in At(actions, gated).plans && c.plan in At(actions, checked).plans
            && At(actions, gated).plans[c.plan] == At(actions, checked).plans[c.plan]
  {
    hide At, ClaimAt, PlannedAt;
    ClaimedOperation(actions, gated, gated);
    PlansStay(actions, gated, checked, ClaimAt(actions, gated).value.plan);
  }
}
