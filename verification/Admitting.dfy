/** Reserving a step and taking over a recovery keep the journal invariant. */
module Admitting {
  import opened Wrappers
  import opened Domain
  import opened Journal
  import opened Actions
  import opened Invariant
  import opened Preservation
  import opened Closing

  /** `k` is `j` with attempt `a` appended to its pair; leases, closures and runs are constrained elsewhere. */
  ghost predicate Appends(j: Journal, k: Journal, a: AttemptRecord) {
    && a.id !in j.attempts && AttemptForRequest(j, a.request) == None
    && a.state == Intent && a.receipt == None
    && NextIndex(j, a.Owner()) == Ok(a.operationIndex)
    && BoundTo(k, a)
    && k.profiles == j.profiles && k.plans == j.plans
    && k.grants.Keys == j.grants.Keys
    && (forall g | g in j.grants :: k.grants[g].profile == j.grants[g].profile && k.grants[g].id == j.grants[g].id)
    && k.attempts == j.attempts[a.id := a]
    && k.byRequest == j.byRequest[a.request := a.id]
    && k.steps == j.steps[a.Owner() := Listing(j, a.Owner()) + [a.id]]
    && k.reconciliations == j.reconciliations && k.history == j.history
    && a.Owner() !in j.haltedPairs && a.Owner() !in j.retirements
  }

  /** With contiguous rows the expected index is the number of recorded steps. */
  lemma AppendsAtEnd(j: Journal, k: Journal, a: AttemptRecord)
    requires Appends(j, k, a) && Contiguous(j)
    ensures a.operationIndex == |Listing(j, a.Owner())|
    ensures Listing(j, a.Owner()) != [] ==> Started(j, a.Owner()) && LastOf(j, a.Owner()).state == Completed
  {
    hide BoundTo;
  }

  lemma AppendsRow(j: Journal, k: Journal, a: AttemptRecord, id: AttemptId)
    requires Appends(j, k, a) && Contiguous(j) && a.operationIndex == |Listing(j, a.Owner())| && id in k.attempts
    ensures var x := k.attempts[id];
            x.id == id && x.operationIndex < |Listing(k, x.Owner())| && Listing(k, x.Owner())[x.operationIndex] == id
  {
    hide BoundTo, NextIndex, AttemptForRequest;
  }

  lemma AppendsEntry(j: Journal, k: Journal, a: AttemptRecord, p: Pair, i: nat)
    requires Appends(j, k, a) && Contiguous(j) && a.operationIndex == |Listing(j, a.Owner())|
    requires p in k.steps && i < |k.steps[p]|
    ensures k.steps[p][i] in k.attempts && k.attempts[k.steps[p][i]].Owner() == p && k.attempts[k.steps[p][i]].operationIndex == i
  {
    hide BoundTo, NextIndex, AttemptForRequest;
  }

  lemma AppendsContiguous(j: Journal, k: Journal, a: AttemptRecord)
    requires Appends(j, k, a) && Contiguous(j) && a.operationIndex == |Listing(j, a.Owner())|
    ensures Contiguous(k)
  {
    hide Appends, Listing;
    forall id | id in k.attempts
      ensures var x := k.attempts[id];
              x.id == id && x.operationIndex < |Listing(k, x.Owner())| && Listing(k, x.Owner())[x.operationIndex] == id
    {
      hide Contiguous;
      AppendsRow(j, k, a, id);
    }
    forall p, i | p in k.steps && 0 <= i < |k.steps[p]|
      ensures k.steps[p][i] in k.attempts && k.attempts[k.steps[p][i]].Owner() == p && k.attempts[k.steps[p][i]].operationIndex == i
    {
      hide Contiguous;
      AppendsEntry(j, k, a, p, i);
    }
  }

  lemma AppendsRequested(j: Journal, k: Journal, a: AttemptRecord)
    requires Appends(j, k, a) && Requested(j)
    ensures Requested(k)
  {
    hide BoundTo, NextIndex;
  }

  lemma AppendsBound(j: Journal, k: Journal, a: AttemptRecord)
    requires Appends(j, k, a) && Bound(j)
    ensures Bound(k)
  {
    hide NextIndex, AttemptForRequest, TotalCost;
    forall id | id in k.attempts
      ensures BoundTo(k, k.attempts[id])
    {
      if id != a.id { assert BoundTo(j, j.attempts[id]); }
    }
  }

  lemma AppendsKeyed(j: Journal, k: Journal, a: AttemptRecord)
    requires Appends(j, k, a) && Keyed(j)
    ensures Keyed(k)
  {
    hide BoundTo, NextIndex, AttemptForRequest;
  }

  lemma AppendsOrderOf(j: Journal, k: Journal, a: AttemptRecord, id: AttemptId)
    requires Appends(j, k, a) && a.operationIndex == |Listing(j, a.Owner())|
    requires Listing(j, a.Owner()) != [] ==> Started(j, a.Owner()) && LastOf(j, a.Owner()).state == Completed
    requires id in k.attempts && k.attempts[id].operationIndex + 1 < |Listing(k, k.attempts[id].Owner())|
    requires id in j.attempts ==>
               var x := j.attempts[id];
               && x.operationIndex < |Listing(j, x.Owner())| && Listing(j, x.Owner())[x.operationIndex] == id
               && (x.operationIndex + 1 < |Listing(j, x.Owner())| ==> x.state == Completed)
    ensures k.attempts[id].state == Completed
  {
    hide BoundTo, NextIndex, AttemptForRequest;
  }

  lemma AppendsOrder(j: Journal, k: Journal, a: AttemptRecord)
    requires Appends(j, k, a) && Contiguous(j) && InOrder(j) && a.operationIndex == |Listing(j, a.Owner())|
    requires Listing(j, a.Owner()) != [] ==> Started(j, a.Owner()) && LastOf(j, a.Owner()).state == Completed
    ensures InOrder(k)
  {
    hide Appends, Started, LastOf, Listing;
    forall id | id in k.attempts && k.attempts[id].operationIndex + 1 < |Listing(k, k.attempts[id].Owner())|
      ensures k.attempts[id].state == Completed
    {
      AppendsOrderOf(j, k, a, id);
    }
  }

  lemma AppendsReceipt(j: Journal, k: Journal, a: AttemptRecord, x: AttemptId)
    requires Appends(j, k, a) && x in k.attempts && (x in j.attempts ==> ReceiptFits(j, j.attempts[x]))
    ensures ReceiptFits(k, k.attempts[x])
  {
    hide BoundTo, NextIndex, AttemptForRequest;
  }

  lemma AppendsReceipts(j: Journal, k: Journal, a: AttemptRecord)
    requires Appends(j, k, a) && Receipted(j)
    ensures Receipted(k)
  {
    hide Appends, ReceiptFits;
    forall x | x in k.attempts
      ensures ReceiptFits(k, k.attempts[x])
    {
      AppendsReceipt(j, k, a, x);
    }
  }

  lemma AppendsHistory(j: Journal, k: Journal, a: AttemptRecord)
    requires Appends(j, k, a) && Historical(j)
    ensures Historical(k)
  {
    hide BoundTo, NextIndex, AttemptForRequest;
  }

  lemma AppendsWitness(j: Journal, k: Journal, a: AttemptRecord, q: RequestId)
    requires Appends(j, k, a) && q in j.reconciliations && WitnessFits(j, q)
    ensures q in k.reconciliations && WitnessFits(k, q)
  {
    hide BoundTo, NextIndex, AttemptForRequest;
  }

  lemma AppendsWitnesses(j: Journal, k: Journal, a: AttemptRecord)
    requires Appends(j, k, a) && Witnessed(j)
    ensures Witnessed(k)
  {
    assert k.reconciliations == j.reconciliations;
    hide Appends, WitnessFits, Historical;
    AppendsHistory(j, k, a);
    forall q | q in j.reconciliations
      ensures WitnessFits(k, q)
    {
      AppendsWitness(j, k, a, q);
    }
  }

  lemma AppendsTables(j: Journal, k: Journal, a: AttemptRecord)
    requires Appends(j, k, a)
    requires Keyed(j) && Contiguous(j) && Requested(j) && Bound(j) && InOrder(j) && Receipted(j) && Witnessed(j)
    ensures Keyed(k) && Contiguous(k) && Requested(k) && Bound(k) && InOrder(k) && Receipted(k) && Witnessed(k)
  {
    hide Keyed, Contiguous, Requested, Bound, InOrder, Receipted, Witnessed, Appends, Started, LastOf, Listing;
    AppendsAtEnd(j, k, a);
    AppendsKeyed(j, k, a);
    AppendsContiguous(j, k, a);
    AppendsRequested(j, k, a);
    AppendsBound(j, k, a);
    AppendsOrder(j, k, a);
    AppendsReceipts(j, k, a);
    AppendsWitnesses(j, k, a);
  }

  lemma ListingStarts(j: Journal, q: Pair)
    requires Contiguous(j)
    ensures Listing(j, q) != [] ==> Started(j, q) && LastOf(j, q).Owner() == q
  {
  }

  /** Other pairs keep their standing; the pair itself now ends in the new intent. */
  lemma AppendsStanding(j: Journal, k: Journal, a: AttemptRecord, q: Pair)
    requires Appends(j, k, a) && (Listing(j, q) != [] ==> Started(j, q) && LastOf(j, q).Owner() == q)
    ensures ResourcesOf(k, q) == ResourcesOf(j, q)
    ensures q != a.Owner() ==> SameStanding(j, k, q)
    ensures q == a.Owner() ==> Started(k, q) && LastOf(k, q) == a && ResourcesOf(k, q) == a.leasedResources
  {
    hide NextIndex, AttemptForRequest, TotalCost;
  }

  lemma AppendsStandings(j: Journal, k: Journal, a: AttemptRecord)
    requires Appends(j, k, a) && Contiguous(j)
    ensures forall q :: ResourcesOf(k, q) == ResourcesOf(j, q)
    ensures forall q | q != a.Owner() :: SameStanding(j, k, q)
    ensures Started(k, a.Owner()) && LastOf(k, a.Owner()) == a && ResourcesOf(k, a.Owner()) == a.leasedResources
  {
    hide Appends, Contiguous, Started, LastOf, SameStanding, ResourcesOf;
    forall q
      ensures ResourcesOf(k, q) == ResourcesOf(j, q)
      ensures q != a.Owner() ==> SameStanding(j, k, q)
      ensures q == a.Owner() ==> Started(k, q) && LastOf(k, q) == a && ResourcesOf(k, q) == a.leasedResources
    {
      ListingStarts(j, q);
      AppendsStanding(j, k, a, q);
    }
  }

  lemma AppendsTakeover(j: Journal, k: Journal, a: AttemptRecord, t: RecoveryTakeover)
    requires Appends(j, k, a) && TakeoverFits(j, t)
    ensures TakeoverFits(k, t)
  {
    hide BoundTo, NextIndex, AttemptForRequest;
  }

  // ----- Reservation -----

  /** `k` reserves `a` for its pair: every resource was free or already the pair's, and now is the pair's. */
  ghost predicate Reserves(j: Journal, k: Journal, a: AttemptRecord) {
    && Appends(j, k, a)
    && SameClosures(j, k)
    && Available(j.leases, a.Owner(), a.leasedResources)
    && k.leases == LeaseTo(j.leases, a.Owner(), a.leasedResources)
  }

  lemma AdmissionGrant(j: Journal, a: AttemptRecord, snapshot: AdmissionSnapshot, now: int)
    requires AdmissionContext(j, a, snapshot, now).Ok?
    ensures a.grant in j.grants && AdmissionContext(j, a, snapshot, now).value == j.grants[a.grant]
  {
  }

  /** Admission binds the proposal to the stored profile and plan. */
  lemma AdmissionBinds(j: Journal, k: Journal, a: AttemptRecord, snapshot: AdmissionSnapshot, now: int)
    requires Proposal(a, snapshot) && AdmissionContext(j, a, snapshot, now).Ok? && a.grant in j.grants
    requires k.profiles == j.profiles && k.plans == j.plans && a.grant in k.grants && k.grants[a.grant].profile == j.grants[a.grant].profile
    ensures BoundTo(k, a)
  {
    hide TotalCost;
  }

  /** The journal a successful new reservation commits. */
  function ReservedJournal(j: Journal, a: AttemptRecord, remaining: Budget): Journal
    requires a.grant in j.grants
  {
    InsertAttempt(j.(leases := LeaseTo(j.leases, a.Owner(), a.leasedResources),
                     grants := j.grants[a.grant := j.grants[a.grant].(remaining := remaining)]), a)
  }

  lemma ReserveShape(j: Journal, a: AttemptRecord, snapshot: AdmissionSnapshot, now: int)
    requires Keyed(j) && AttemptForRequest(j, a.request) == None && Reserve(j, a, snapshot, now).Ok?
    ensures AdmissionContext(j, a, snapshot, now).Ok? && a.grant in j.grants
    ensures a.reserved.FitsWithin(j.grants[a.grant].remaining)
    ensures NextIndex(j, a.Owner()) == Ok(a.operationIndex) && a.id !in j.attempts
    ensures a.Owner() !in j.haltedPairs && a.Owner() !in j.retirements
    ensures Available(j.leases, a.Owner(), a.leasedResources)
    ensures Reserve(j, a, snapshot, now).value
            == Committed(ReservedJournal(j, a, j.grants[a.grant].remaining.CheckedSub(a.reserved).value), Reserved(a))
  {
    hide Available, LeaseTo, SameRun, NextIndex, AttemptForRequest, AdmissionContext, InsertAttempt;
    AdmissionGrant(j, a, snapshot, now);
  }

  lemma ReservedJournalReserves(j: Journal, a: AttemptRecord, remaining: Budget)
    requires a.grant in j.grants && a.state == Intent && a.receipt == None
    requires NextIndex(j, a.Owner()) == Ok(a.operationIndex) && a.id !in j.attempts && AttemptForRequest(j, a.request) == None
    requires a.Owner() !in j.haltedPairs && a.Owner() !in j.retirements
    requires Available(j.leases, a.Owner(), a.leasedResources) && BoundTo(ReservedJournal(j, a, remaining), a)
    ensures Reserves(j, ReservedJournal(j, a, remaining), a)
  {
    hide Available, LeaseTo, NextIndex, AttemptForRequest, BoundTo;
  }

  lemma ReserveReserves(j: Journal, proposed: AttemptRecord, snapshot: AdmissionSnapshot, now: int)
    requires Proposal(proposed, snapshot) && Keyed(j)
    requires AttemptForRequest(j, proposed.request) == None && Reserve(j, proposed, snapshot, now).Ok?
    ensures Reserves(j, Reserve(j, proposed, snapshot, now).value.journal, proposed)
  {
    assert proposed.state == Intent && proposed.receipt == None;
    hide Keyed, Available, NextIndex, AttemptForRequest, BoundTo, AdmissionContext, Reserve, Proposal, Reserves;
    ReserveShape(j, proposed, snapshot, now);
    var remaining := j.grants[proposed.grant].remaining.CheckedSub(proposed.reserved).value;
    AdmissionBinds(j, ReservedJournal(j, proposed, remaining), proposed, snapshot, now);
    hide ReservedJournal;
    ReservedJournalReserves(j, proposed, remaining);
  }

  lemma LeaseAlgebraReserve(j: Journal, k: Journal, p: Pair)
    requires Leased(j) && Live(k, p)
    requires forall q :: ResourcesOf(k, q) == ResourcesOf(j, q)
    requires forall q | q != p :: Live(k, q) == Live(j, q)
    requires Available(j.leases, p, ResourcesOf(j, p))
    requires k.leases == LeaseTo(j.leases, p, ResourcesOf(j, p))
    ensures Leased(k)
  {
    hide Live, ResourcesOf;
  }

  lemma ReservesLeases(j: Journal, k: Journal, a: AttemptRecord)
    requires Reserves(j, k, a) && Contiguous(j) && Leased(j)
    ensures Leased(k)
  {
    var p := a.Owner();
    assert k.plans == j.plans && SameClosures(j, k) && a.state == Intent && p !in j.haltedPairs && p !in j.retirements;
    assert Appends(j, k, a) && Available(j.leases, p, a.leasedResources) && k.leases == LeaseTo(j.leases, p, a.leasedResources);
    hide Reserves, Appends, Contiguous, Leased, ResourcesOf, SameStanding, Started, LastOf, Destinations, Available, LeaseTo;
    AppendsStandings(j, k, a);
    assert Live(k, p);
    hide Live;
    forall q | q != p
      ensures Live(k, q) == Live(j, q)
    {
      assert SameStanding(j, k, q);
      LiveKeeps(j, k, q);
    }
    LeaseAlgebraReserve(j, k, p);
  }

  lemma AppendsHalts(j: Journal, k: Journal, a: AttemptRecord)
    requires a.Owner() !in j.haltedPairs && Halts(j) && SameClosures(j, k)
    requires forall q | q != a.Owner() :: SameStanding(j, k, q)
    ensures Halts(k)
  {
    hide SameStanding, HaltFits;
    forall q | q in k.haltedPairs
      ensures HaltFits(k, q)
    {
      assert SameStanding(j, k, q);
      HaltFitsKeeps(j, k, q);
    }
  }

  lemma AppendsRetires(j: Journal, k: Journal, a: AttemptRecord)
    requires a.Owner() !in j.retirements && Retires(j) && SameClosures(j, k)
    requires forall q | q != a.Owner() :: SameStanding(j, k, q)
    requires forall q :: ResourcesOf(k, q) == ResourcesOf(j, q)
    ensures Retires(k)
  {
    hide SameStanding, RetirementFits, ResourcesOf;
    forall q | q in k.retirements
      ensures RetirementFits(k, q)
    {
      assert SameStanding(j, k, q);
      RetirementFitsKeeps(j, k, q);
    }
  }

  lemma AppendsHandsOver(j: Journal, k: Journal, a: AttemptRecord)
    requires Appends(j, k, a) && HandsOver(j) && k.takeovers == j.takeovers
    ensures HandsOver(k)
  {
    hide Appends, TakeoverFits;
    forall t | t in k.takeovers
      ensures TakeoverFits(k, t)
    {
      AppendsTakeover(j, k, a, t);
    }
  }

  lemma ReservesClosures(j: Journal, k: Journal, a: AttemptRecord)
    requires Reserves(j, k, a) && Contiguous(j) && Halts(j) && Retires(j) && HandsOver(j) && Quiet(j)
    ensures Halts(k) && Retires(k) && HandsOver(k) && Quiet(k)
  {
    assert Appends(j, k, a) && SameClosures(j, k) && a.Owner() !in j.haltedPairs && a.Owner() !in j.retirements;
    hide Reserves, Appends, Contiguous, ResourcesOf, SameStanding, Started, LastOf, Halts, Retires, HandsOver, Quiet;
    ReservesQuiet(j, k, a);
    AppendsStandings(j, k, a);
    AppendsHalts(j, k, a);
    AppendsRetires(j, k, a);
    AppendsHandsOver(j, k, a);
  }

  lemma ReservesQuiet(j: Journal, k: Journal, a: AttemptRecord)
    requires Reserves(j, k, a) && Quiet(j)
    ensures Quiet(k)
  {
    hide BoundTo, NextIndex, AttemptForRequest, Available, LeaseTo;
  }

  /** Repeating a request returns the attempt it already has and changes nothing. */
  lemma RepeatedReserve(j: Journal, proposed: AttemptRecord, snapshot: AdmissionSnapshot, now: int)
    requires AttemptForRequest(j, proposed.request).Some? && Reserve(j, proposed, snapshot, now).Ok?
    ensures Reserve(j, proposed, snapshot, now).value == Committed(j, Existing(AttemptForRequest(j, proposed.request).value))
  {
  }

  lemma ReserveKeeps(j: Journal, proposed: AttemptRecord, snapshot: AdmissionSnapshot, now: int)
    requires Inv(j) && Proposal(proposed, snapshot)
    ensures Inv(After(j, Reserve(j, proposed, snapshot, now)))
  {
    hide Keyed, Contiguous, Requested, Bound, InOrder, Receipted, Witnessed, Leased, Halts, Retires, HandsOver, Quiet, Reserves, Reserve, Proposal, Appends;
    var tx := Reserve(j, proposed, snapshot, now);
    if tx.Ok? {
      if AttemptForRequest(j, proposed.request).Some? {
        RepeatedReserve(j, proposed, snapshot, now);
      } else {
        var k := tx.value.journal;
        ReserveReserves(j, proposed, snapshot, now);
        assert Appends(j, k, proposed) by { ReservesAppends(j, k, proposed); }
        AppendsTables(j, k, proposed);
        ReservesLeases(j, k, proposed);
        ReservesClosures(j, k, proposed);
      }
    }
  }

  lemma ReservesAppends(j: Journal, k: Journal, a: AttemptRecord)
    requires Reserves(j, k, a)
    ensures Appends(j, k, a)
  {
  }

  // ----- Recovery takeover -----

  /** Pair `q` may hand over resources `res`: it is unretired, quiet, and uncertain or an inherited carrier. */
  ghost predicate Source(j: Journal, q: Pair, res: set<PhysicalResource>) {
    exists id | id in j.attempts :: SourceAttempt(j, id, q, res)
  }

  ghost predicate SourceAttempt(j: Journal, id: AttemptId, q: Pair, res: set<PhysicalResource>)
    requires id in j.attempts
  {
    var s := j.attempts[id];
    && s.Owner() == q && s.leasedResources == res
    && q !in j.retirements && !HasDispatched(j, q) && !HasActiveReconciliation(j, q)
    && (Uncertain(s.state) || q in Destinations(j.takeovers))
  }

  lemma {:induction false} SourcesAreSources(j: Journal, ids: seq<AttemptId>, a: AttemptRecord)
    requires CheckSources(j, ids, a).Ok?
    ensures forall q | q in CheckSources(j, ids, a).value :: Source(j, q, a.leasedResources)
    ensures ids != [] ==> CheckSources(j, ids, a).value != {}
  {
    if ids != [] {
      var id := ids[|ids| - 1];
      SourcesAreSources(j, ids[..|ids| - 1], a);
      assert SourceAttempt(j, id, j.attempts[id].Owner(), a.leasedResources);
    }
  }

  /** What the invariant says about a source pair. */
  ghost predicate SourceFits(j: Journal, q: Pair, res: set<PhysicalResource>) {
    && Started(j, q) && LastOf(j, q).Owner() == q
    && ResourcesOf(j, q) == res
    && q !in j.retirements && q !in j.haltedPairs
    && LastOf(j, q).state != Dispatched
    && !HasActiveReconciliation(j, q)
    && (q !in Destinations(j.takeovers) ==> Uncertain(LastOf(j, q).state))
  }

  lemma SourceHasFits(j: Journal, q: Pair, res: set<PhysicalResource>)
    requires Source(j, q, res) && Contiguous(j) && Bound(j) && InOrder(j) && Halts(j)
    ensures SourceFits(j, q, res)
  {
    hide Contiguous, Bound, InOrder, Halts, ResourcesOf, Destinations, HasDispatched, HasActiveReconciliation, Started, LastOf;
    var id :| id in j.attempts && SourceAttempt(j, id, q, res);
    AttemptStarts(j, id);
    ResourcesBound(j, id);
    LastRow(j, q);
    assert LastOf(j, q).state != Dispatched by { NoDispatched(j, q); }
    if Uncertain(j.attempts[id].state) {
      LastIfOpen(j, id);
      assert LastOf(j, q) == j.attempts[id] by { LastIsListed(j, id); }
    }
    if q in j.haltedPairs { HaltedRow(j, q); }
  }

  lemma LastIsListed(j: Journal, id: AttemptId)
    requires id in j.attempts && LastOfPair(j, id)
    ensures Started(j, j.attempts[id].Owner()) && LastOf(j, j.attempts[id].Owner()) == j.attempts[id]
  {
  }

  lemma HaltedRow(j: Journal, q: Pair)
    requires Halts(j) && q in j.haltedPairs
    ensures HaltFits(j, q)
  {
  }

  lemma NoDispatched(j: Journal, q: Pair)
    requires !HasDispatched(j, q) && Started(j, q) && LastOf(j, q).Owner() == q
    requires LastOf(j, q).id in j.attempts && j.attempts[LastOf(j, q).id] == LastOf(j, q)
    ensures LastOf(j, q).state != Dispatched
  {
    hide Started, LastOf;
  }

  /** `k` hands the resources of `owners` over to the fresh pair of `a`. */
  ghost predicate Hands(j: Journal, k: Journal, a: AttemptRecord, recovery: RecoveryTakeover, owners: set<Pair>) {
    && Appends(j, k, a)
    && a.operationIndex == 0 && Listing(j, a.Owner()) == []
    && recovery.firstAttempt == a.id && recovery.request == a.request && recovery.Destination() == a.Owner()
    && k.haltedPairs == j.haltedPairs
    && k.takeovers == j.takeovers + [recovery]
    && k.retirements == Retire(j.retirements, owners, |j.takeovers|)
    && HeldBy(j.leases, owners, a.leasedResources)
    && k.leases == LeaseTo(j.leases, a.Owner(), a.leasedResources)
    && (forall q | q in owners :: SourceFits(j, q, a.leasedResources))
  }

  lemma DestinationsAppend(ts: seq<RecoveryTakeover>, t: RecoveryTakeover)
    ensures Destinations(ts + [t]) == Destinations(ts) + {t.Destination()}
  {
    assert forall x :: x in ts + [t] <==> x in ts || x == t;
  }

  lemma HandsLive(j: Journal, k: Journal, a: AttemptRecord, recovery: RecoveryTakeover, owners: set<Pair>, q: Pair)
    requires Hands(j, k, a, recovery, owners) && a.Owner() !in owners
    requires Destinations(k.takeovers) == Destinations(j.takeovers) + {a.Owner()}
    requires q != a.Owner() ==> SameStanding(j, k, q)
    requires q == a.Owner() ==> Started(k, q) && LastOf(k, q) == a
    ensures Live(k, q) == (q == a.Owner() || (Live(j, q) && q !in owners))
    ensures Live(j, q) ==> q != a.Owner()
  {
    hide Destinations, HeldBy, LeaseTo, SourceFits, BoundTo, NextIndex, AttemptForRequest;
  }

  lemma LeaseAlgebraHand(j: Journal, k: Journal, p: Pair, res: set<PhysicalResource>, owners: set<Pair>)
    requires Leased(j)
    requires forall q :: ResourcesOf(k, q) == ResourcesOf(j, q)
    requires forall q :: Live(k, q) == (q == p || (Live(j, q) && q !in owners))
    requires forall q | q in owners :: ResourcesOf(j, q) == res
    requires !Live(j, p) && ResourcesOf(j, p) == res
    requires HeldBy(j.leases, owners, res)
    requires k.leases == LeaseTo(j.leases, p, res)
    ensures Leased(k)
  {
    hide Live, ResourcesOf;
  }

  lemma HandsShape(j: Journal, k: Journal, a: AttemptRecord, recovery: RecoveryTakeover, owners: set<Pair>)
    requires Hands(j, k, a, recovery, owners)
    ensures Appends(j, k, a) && HeldBy(j.leases, owners, a.leasedResources)
    ensures k.leases == LeaseTo(j.leases, a.Owner(), a.leasedResources)
    ensures Destinations(k.takeovers) == Destinations(j.takeovers) + {a.Owner()}
    ensures a.Owner() !in owners && a.Owner() !in j.haltedPairs && a.Owner() !in j.retirements
    ensures !Started(j, a.Owner())
    ensures forall q | q in owners :: ResourcesOf(j, q) == a.leasedResources && SourceFits(j, q, a.leasedResources)
  {
    hide HeldBy, LeaseTo, Destinations, BoundTo, NextIndex, AttemptForRequest, ResourcesOf;
    DestinationsAppend(j.takeovers, recovery);
  }

  lemma HandsLeases(j: Journal, k: Journal, a: AttemptRecord, recovery: RecoveryTakeover, owners: set<Pair>)
    requires Hands(j, k, a, recovery, owners) && Contiguous(j) && Leased(j)
    ensures Leased(k)
  {
    var p := a.Owner();
    hide Hands, Appends, Contiguous, Leased, ResourcesOf, SameStanding, Started, LastOf, Destinations, HeldBy, LeaseTo, Live, SourceFits;
    HandsShape(j, k, a, recovery, owners);
    AppendsStandings(j, k, a);
    forall q
      ensures Live(k, q) == (q == p || (Live(j, q) && q !in owners))
      ensures Live(j, q) ==> q != p
    {
      assert q != p ==> SameStanding(j, k, q);
      HandsLive(j, k, a, recovery, owners, q);
    }
    LeaseAlgebraHand(j, k, p, a.leasedResources, owners);
  }

  lemma HandsHalt(j: Journal, k: Journal, a: AttemptRecord, recovery: RecoveryTakeover, owners: set<Pair>, q: Pair)
    requires Hands(j, k, a, recovery, owners) && HaltFits(j, q) && q in j.haltedPairs && SameStanding(j, k, q)
    requires Destinations(k.takeovers) == Destinations(j.takeovers) + {a.Owner()}
    ensures HaltFits(k, q)
  {
    hide Destinations, HeldBy, LeaseTo, BoundTo, NextIndex, AttemptForRequest, Started, LastOf, Listing, ResourcesOf;
  }

  lemma HandsRetirement(j: Journal, k: Journal, a: AttemptRecord, recovery: RecoveryTakeover, owners: set<Pair>, q: Pair)
    requires Hands(j, k, a, recovery, owners) && q in k.retirements && (q in j.retirements ==> RetirementFits(j, q))
    requires q != a.Owner() && SameStanding(j, k, q)
    requires Destinations(k.takeovers) == Destinations(j.takeovers) + {a.Owner()}
    requires forall x :: ResourcesOf(k, x) == ResourcesOf(j, x)
    requires ResourcesOf(k, a.Owner()) == a.leasedResources
    ensures RetirementFits(k, q)
  {
    hide Destinations, HeldBy, LeaseTo, BoundTo, NextIndex, AttemptForRequest, Started, LastOf, Listing, ResourcesOf;
  }

  lemma HandsTakeover(j: Journal, k: Journal, a: AttemptRecord, recovery: RecoveryTakeover, owners: set<Pair>)
    requires Hands(j, k, a, recovery, owners) && HandsOver(j)
    ensures HandsOver(k)
  {
    hide HeldBy, LeaseTo, BoundTo, NextIndex, AttemptForRequest, ResourcesOf, SourceFits;
    assert Appends(j, k, a);
    forall t | t in k.takeovers
      ensures TakeoverFits(k, t)
    {
      if t in j.takeovers { AppendsTakeover(j, k, a, t); }
    }
    forall x | 0 <= x < |j.takeovers|
      ensures j.takeovers[x].Destination() != a.Owner()
    {
      assert TakeoverFits(j, j.takeovers[x]);
    }
  }

  lemma HandsQuiet(j: Journal, k: Journal, a: AttemptRecord, recovery: RecoveryTakeover, owners: set<Pair>)
    requires Hands(j, k, a, recovery, owners) && Quiet(j)
    ensures Quiet(k)
  {
    hide HeldBy, LeaseTo, BoundTo, NextIndex, AttemptForRequest, ResourcesOf, Started, LastOf, Destinations, Listing;
  }

  lemma HandsHalts(j: Journal, k: Journal, a: AttemptRecord, recovery: RecoveryTakeover, owners: set<Pair>)
    requires Hands(j, k, a, recovery, owners) && Halts(j)
    requires Destinations(k.takeovers) == Destinations(j.takeovers) + {a.Owner()}
    requires forall q | q != a.Owner() :: SameStanding(j, k, q)
    ensures Halts(k)
  {
    assert k.haltedPairs == j.haltedPairs && a.Owner() !in j.haltedPairs;
    hide Hands, SameStanding, HaltFits, Destinations;
    forall q | q in k.haltedPairs
      ensures HaltFits(k, q)
    {
      assert SameStanding(j, k, q);
      HandsHalt(j, k, a, recovery, owners, q);
    }
  }

  lemma HandsKeys(j: Journal, k: Journal, a: AttemptRecord, recovery: RecoveryTakeover, owners: set<Pair>)
    requires Hands(j, k, a, recovery, owners)
    ensures k.retirements.Keys == j.retirements.Keys + owners && a.Owner() !in j.retirements
  {
    hide HeldBy, LeaseTo, BoundTo, NextIndex, AttemptForRequest, SourceFits, Listing;
  }

  lemma HandsRetires(j: Journal, k: Journal, a: AttemptRecord, recovery: RecoveryTakeover, owners: set<Pair>)
    requires Hands(j, k, a, recovery, owners) && Retires(j) && a.Owner() !in owners
    requires Destinations(k.takeovers) == Destinations(j.takeovers) + {a.Owner()}
    requires forall q | q != a.Owner() :: SameStanding(j, k, q)
    requires forall q :: ResourcesOf(k, q) == ResourcesOf(j, q)
    requires ResourcesOf(k, a.Owner()) == a.leasedResources
    ensures Retires(k)
  {
    hide Hands, SameStanding, RetirementFits, Destinations, ResourcesOf;
    HandsKeys(j, k, a, recovery, owners);
    forall q | q in k.retirements
      ensures RetirementFits(k, q)
    {
      assert SameStanding(j, k, q);
      HandsRetirement(j, k, a, recovery, owners, q);
    }
  }

  lemma HandsClosures(j: Journal, k: Journal, a: AttemptRecord, recovery: RecoveryTakeover, owners: set<Pair>)
    requires Hands(j, k, a, recovery, owners) && Contiguous(j) && Halts(j) && Retires(j) && HandsOver(j) && Quiet(j)
    ensures Halts(k) && Retires(k) && HandsOver(k) && Quiet(k)
  {
    hide Hands, Appends, Contiguous, ResourcesOf, SameStanding, Started, LastOf, Halts, Retires, HandsOver, Quiet, Destinations, SourceFits, HeldBy;
    HandsShape(j, k, a, recovery, owners);
    AppendsStandings(j, k, a);
    HandsHalts(j, k, a, recovery, owners);
    HandsRetires(j, k, a, recovery, owners);
    HandsTakeover(j, k, a, recovery, owners);
    HandsQuiet(j, k, a, recovery, owners);
  }

  /** The journal a successful new takeover commits. */
  function HandedJournal(j: Journal, a: AttemptRecord, run: PlanRun, recovery: RecoveryTakeover, owners: set<Pair>, remaining: Budget): Journal
    requires a.grant in j.grants
  {
    InsertAttempt(j.(leases := LeaseTo(j.leases, a.Owner(), a.leasedResources),
                     retirements := Retire(j.retirements, owners, |j.takeovers|),
                     grants := j.grants[a.grant := j.grants[a.grant].(remaining := remaining)],
                     runs := j.runs[run.id := run],
                     takeovers := j.takeovers + [recovery]), a)
  }

  predicate RepeatedTakeOver(j: Journal, a: AttemptRecord, recovery: RecoveryTakeover) {
    FindTakeover(j.takeovers, recovery.request).Some? || AttemptForRequest(j, a.request).Some?
  }

  lemma TakeOverShape(j: Journal, a: AttemptRecord, snapshot: AdmissionSnapshot, run: PlanRun, recovery: RecoveryTakeover, now: int)
    requires Keyed(j) && !RepeatedTakeOver(j, a, recovery) && TakeOver(j, a, snapshot, run, recovery, now).Ok?
    ensures AdmissionContext(j, a, snapshot, now).Ok? && a.grant in j.grants
    ensures a.reserved.FitsWithin(j.grants[a.grant].remaining)
    ensures a.id !in j.attempts && Listing(j, a.Owner()) == [] && run.id !in j.runs
    ensures a.Owner() !in j.haltedPairs && a.Owner() !in j.retirements
    ensures CheckSources(j, recovery.unresolved, a).Ok?
    ensures HeldBy(j.leases, CheckSources(j, recovery.unresolved, a).value, a.leasedResources)
    ensures TakeOver(j, a, snapshot, run, recovery, now).value
            == Committed(HandedJournal(j, a, run, recovery, CheckSources(j, recovery.unresolved, a).value,
                                       j.grants[a.grant].remaining.CheckedSub(a.reserved).value), Reserved(a))
  {
    hide HeldBy, LeaseTo, CheckSources, AttemptForRequest, FindTakeover, AdmissionContext, InsertAttempt, Listing;
    AdmissionGrant(j, a, snapshot, now);
  }

  lemma HandedJournalHands(j: Journal, a: AttemptRecord, run: PlanRun, recovery: RecoveryTakeover, owners: set<Pair>, remaining: Budget)
    requires a.grant in j.grants && a.state == Intent && a.receipt == None
    requires a.operationIndex == 0 && a.id !in j.attempts && AttemptForRequest(j, a.request) == None && Listing(j, a.Owner()) == []
    requires a.Owner() !in j.haltedPairs && a.Owner() !in j.retirements
    requires recovery.firstAttempt == a.id && recovery.request == a.request && recovery.Destination() == a.Owner()
    requires HeldBy(j.leases, owners, a.leasedResources) && BoundTo(HandedJournal(j, a, run, recovery, owners, remaining), a)
    requires forall q | q in owners :: SourceFits(j, q, a.leasedResources)
    ensures Hands(j, HandedJournal(j, a, run, recovery, owners, remaining), a, recovery, owners)
  {
    hide HeldBy, LeaseTo, AttemptForRequest, BoundTo, SourceFits;
  }

  lemma ProposesIntent(a: AttemptRecord, snapshot: AdmissionSnapshot)
    requires Proposal(a, snapshot)
    ensures a.state == Intent && a.receipt == None
  {
  }

  lemma OwnersFit(j: Journal, ids: seq<AttemptId>, a: AttemptRecord)
    requires CheckSources(j, ids, a).Ok? && Contiguous(j) && Bound(j) && InOrder(j) && Halts(j)
    ensures forall q | q in CheckSources(j, ids, a).value :: SourceFits(j, q, a.leasedResources)
  {
    hide Contiguous, Bound, InOrder, Halts, Source, SourceFits, CheckSources;
    SourcesAreSources(j, ids, a);
    forall q | q in CheckSources(j, ids, a).value
      ensures SourceFits(j, q, a.leasedResources)
    {
      SourceHasFits(j, q, a.leasedResources);
    }
  }

  lemma TakeOverHands(j: Journal, a: AttemptRecord, snapshot: AdmissionSnapshot, run: PlanRun, recovery: RecoveryTakeover, now: int)
    requires Proposal(a, snapshot) && Handoff(a, run, recovery)
    requires Keyed(j) && Contiguous(j) && Bound(j) && InOrder(j) && Halts(j)
    requires !RepeatedTakeOver(j, a, recovery) && TakeOver(j, a, snapshot, run, recovery, now).Ok?
    ensures CheckSources(j, recovery.unresolved, a).Ok?
    ensures Hands(j, TakeOver(j, a, snapshot, run, recovery, now).value.journal, a, recovery, CheckSources(j, recovery.unresolved, a).value)
  {
    hide Keyed, Contiguous, Bound, InOrder, Halts, HeldBy, TotalCost, CheckSources, AttemptForRequest, FindTakeover, BoundTo, AdmissionContext;
    hide TakeOver, Proposal, Hands, Source, SourceFits, HandedJournal, Listing;
    TakeOverShape(j, a, snapshot, run, recovery, now);
    var owners := CheckSources(j, recovery.unresolved, a).value;
    var remaining := j.grants[a.grant].remaining.CheckedSub(a.reserved).value;
    HandedRecords(j, a, run, recovery, owners, remaining);
    AdmissionBinds(j, HandedJournal(j, a, run, recovery, owners, remaining), a, snapshot, now);
    OwnersFit(j, recovery.unresolved, a);
    assert a.state == Intent && a.receipt == None by { ProposesIntent(a, snapshot); }
    HandedJournalHands(j, a, run, recovery, owners, remaining);
  }

  lemma HandedRecords(j: Journal, a: AttemptRecord, run: PlanRun, recovery: RecoveryTakeover, owners: set<Pair>, remaining: Budget)
    requires a.grant in j.grants
    ensures var k := HandedJournal(j, a, run, recovery, owners, remaining);
            k.profiles == j.profiles && k.plans == j.plans && a.grant in k.grants && k.grants[a.grant].profile == j.grants[a.grant].profile
  {
  }

  /** Repeating a takeover, or reusing the request of a reservation, changes nothing. */
  lemma RepeatedTakeOverKeeps(j: Journal, a: AttemptRecord, snapshot: AdmissionSnapshot, run: PlanRun, recovery: RecoveryTakeover, now: int)
    requires RepeatedTakeOver(j, a, recovery) && TakeOver(j, a, snapshot, run, recovery, now).Ok?
    ensures TakeOver(j, a, snapshot, run, recovery, now).value.journal == j
    ensures TakeOver(j, a, snapshot, run, recovery, now).value.value.Existing?
  {
    hide CheckSources, AdmissionContext, HeldBy;
  }

  lemma TakeOverKeeps(j: Journal, a: AttemptRecord, snapshot: AdmissionSnapshot, run: PlanRun, recovery: RecoveryTakeover, now: int)
    requires Inv(j) && Proposal(a, snapshot) && Handoff(a, run, recovery)
    ensures Inv(After(j, TakeOver(j, a, snapshot, run, recovery, now)))
  {
    hide Keyed, Contiguous, Requested, Bound, InOrder, Receipted, Witnessed, Leased, Halts, Retires, HandsOver, Quiet;
    hide Hands, TakeOver, Proposal, Handoff, Appends, CheckSources;
    var tx := TakeOver(j, a, snapshot, run, recovery, now);
    if tx.Ok? {
      if RepeatedTakeOver(j, a, recovery) {
        RepeatedTakeOverKeeps(j, a, snapshot, run, recovery, now);
      } else {
        hide RepeatedTakeOver;
        var k := tx.value.journal;
        TakeOverHands(j, a, snapshot, run, recovery, now);
        var owners := CheckSources(j, recovery.unresolved, a).value;
        assert Appends(j, k, a) by { HandsAppends(j, k, a, recovery, owners); }
        AppendsTables(j, k, a);
        HandsLeases(j, k, a, recovery, owners);
        HandsClosures(j, k, a, recovery, owners);
      }
    }
  }

  lemma HandsAppends(j: Journal, k: Journal, a: AttemptRecord, recovery: RecoveryTakeover, owners: set<Pair>)
    requires Hands(j, k, a, recovery, owners)
    ensures Appends(j, k, a)
  {
  }
}
