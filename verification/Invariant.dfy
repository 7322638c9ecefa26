/** The global journal invariant: what the guards of the separate transactions add up to. */
module Invariant {
  import opened Wrappers
  import opened Domain
  import opened Journal
  import opened Actions

  /** Immutable records are filed under their own id. */
  ghost predicate Keyed(j: Journal) {
    && (forall id | id in j.profiles :: j.profiles[id].id == id)
    && (forall id | id in j.plans :: j.plans[id].id == id && j.plans[id].operations != [])
    && (forall id | id in j.grants :: j.grants[id].id == id)
  }

  /** Each pair's recorded operation indices are exactly 0..n, one attempt per index. */
  ghost predicate Contiguous(j: Journal) {
    && (forall id | id in j.attempts ::
          var a := j.attempts[id];
          a.id == id && a.operationIndex < |Listing(j, a.Owner())| && Listing(j, a.Owner())[a.operationIndex] == id)
    && (forall p, i | p in j.steps && 0 <= i < |j.steps[p]| ::
          j.steps[p][i] in j.attempts && j.attempts[j.steps[p][i]].Owner() == p && j.attempts[j.steps[p][i]].operationIndex == i)
  }

  /** A request id names one attempt. */
  ghost predicate Requested(j: Journal) {
    && (forall id | id in j.attempts :: j.attempts[id].request in j.byRequest && j.byRequest[j.attempts[id].request] == id)
    && (forall q | q in j.byRequest :: j.byRequest[q] in j.attempts && j.attempts[j.byRequest[q]].request == q)
  }

  ghost predicate BoundTo(j: Journal, a: AttemptRecord) {
    && a.grant in j.grants
    && a.plan in j.plans
    && a.profile in j.profiles
    && j.grants[a.grant].profile == a.profile
    && a.planDigest == Sha256(j.plans[a.plan])
    && a.profileDigest == Sha256(j.profiles[a.profile])
    && a.leasedResources == j.profiles[a.profile].PhysicalResources()
    && a.operationIndex < |j.plans[a.plan].operations|
    && a.reserved == if a.operationIndex == 0 then TotalCost(j.plans[a.plan].operations) else ZERO
  }

  /** Each attempt is bound to stored records, and shares its pair's profile, plan and resources. */
  ghost predicate Bound(j: Journal) {
    forall id | id in j.attempts :: BoundTo(j, j.attempts[id])
  }

  /** Every attempt but the last of its pair is completed. */
  ghost predicate InOrder(j: Journal) {
    forall id | id in j.attempts ::
      j.attempts[id].operationIndex + 1 < |Listing(j, j.attempts[id].Owner())| ==> j.attempts[id].state == Completed
  }

  ghost predicate HasCompletedWitness(j: Journal, a: AttemptId) {
    var rows := HistoryOf(j, a);
    rows != [] && rows[|rows| - 1] in j.reconciliations && j.reconciliations[rows[|rows| - 1]].state == RecCompleted
  }

  ghost predicate ReceiptFits(j: Journal, a: AttemptRecord) {
    match a.state
    case Intent => a.receipt == None
    case Dispatched => a.receipt == None
    case Rejected => a.receipt.Some? && a.receipt.value.RejectedReceipt?
    case Partial => a.receipt.Some? && a.receipt.value.PartialReceipt?
    case Unknown => a.receipt.Some? && (a.receipt.value.PartialReceipt? || a.receipt.value.UnknownReceipt?)
    case Completed => a.receipt.Some? && !a.receipt.value.RejectedReceipt?
                      && (a.receipt.value.CompletedReceipt? <==> !HasCompletedWitness(j, a.id))
  }

  ghost predicate Receipted(j: Journal) {
    forall id | id in j.attempts :: ReceiptFits(j, j.attempts[id])
  }

  ghost predicate WitnessFits(j: Journal, q: RequestId)
    requires q in j.reconciliations
  {
    var r := j.reconciliations[q];
    && r.request == q
    && r.attempt in j.attempts
    && r.ordinal < |HistoryOf(j, r.attempt)|
    && HistoryOf(j, r.attempt)[r.ordinal] == q
    && (r.state == RecClaimed ==> r.ordinal + 1 == |HistoryOf(j, r.attempt)| && j.attempts[r.attempt].state == Unknown)
    && (r.state == RecCompleted ==> r.ordinal + 1 == |HistoryOf(j, r.attempt)| && j.attempts[r.attempt].state == Completed
                                    && r.receipt.Some? && r.receipt.value.CompletedReceipt?)
  }

  /** Each attempt's history lists exactly its own witnesses, in ordinal order. */
  ghost predicate Historical(j: Journal) {
    && (forall a, i | a in j.history && 0 <= i < |j.history[a]| ::
          j.history[a][i] in j.reconciliations && j.reconciliations[j.history[a][i]].attempt == a
          && j.reconciliations[j.history[a][i]].ordinal == i)
    && (forall a | a in j.history :: j.history[a] != [] ==> a in j.attempts && j.attempts[a].state in {Unknown, Completed})
  }

  /** Witness ordinals are contiguous; only the last witness of an attempt is claimed or completed. */
  ghost predicate Witnessed(j: Journal) {
    && (forall q | q in j.reconciliations :: WitnessFits(j, q))
    && Historical(j)
  }

  /** The records under which pair `p` leases: those of its grant's profile. */
  ghost function ResourcesOf(j: Journal, p: Pair): set<PhysicalResource> {
    if p.grant in j.grants && j.grants[p.grant].profile in j.profiles
    then j.profiles[j.grants[p.grant].profile].PhysicalResources()
    else {}
  }

  ghost predicate Started(j: Journal, p: Pair) {
    var listing := Listing(j, p);
    listing != [] && listing[|listing| - 1] in j.attempts
  }

  ghost function LastOf(j: Journal, p: Pair): AttemptRecord
    requires Started(j, p)
  {
    j.attempts[Listing(j, p)[|Listing(j, p)| - 1]]
  }

  /** The pair's last attempt completed the plan's final operation. */
  ghost predicate Finished(j: Journal, p: Pair) {
    Started(j, p) && LastOf(j, p).state == Completed && FinalStep(j, LastOf(j, p))
  }

  /** What the journal alone says about holding leases. */
  ghost predicate Live(j: Journal, p: Pair) {
    && Started(j, p)
    && p !in j.haltedPairs
    && p !in j.retirements
    && !Finished(j, p)
    && (LastOf(j, p).state == Rejected ==> p in Destinations(j.takeovers))
  }

  /** The lease table is a function of the journal. */
  ghost predicate Leased(j: Journal) {
    && (forall r | r in j.leases :: Live(j, j.leases[r]) && r in ResourcesOf(j, j.leases[r]))
    && (forall p, r | Live(j, p) && r in ResourcesOf(j, p) :: r in j.leases && j.leases[r] == p)
  }

  ghost predicate HaltFits(j: Journal, p: Pair) {
    && Started(j, p)
    && p !in j.retirements
    && p !in Destinations(j.takeovers)
    && LastOf(j, p).state in {Completed, Rejected}
  }

  ghost predicate RetirementFits(j: Journal, p: Pair)
    requires p in j.retirements
  {
    var row := j.retirements[p];
    && Started(j, p)
    && row < |j.takeovers|
    && ResourcesOf(j, p) == ResourcesOf(j, j.takeovers[row].Destination())
    && LastOf(j, p).state != Dispatched
    && (forall k | 0 <= k < |j.takeovers| && j.takeovers[k].Destination() == p :: k < row)
    && (p !in Destinations(j.takeovers) ==> Uncertain(LastOf(j, p).state))
  }

  ghost predicate TakeoverFits(j: Journal, t: RecoveryTakeover) {
    && Started(j, t.Destination())
    && t.firstAttempt in j.attempts
    && j.attempts[t.firstAttempt].Owner() == t.Destination()
    && j.attempts[t.firstAttempt].operationIndex == 0
    && j.attempts[t.firstAttempt].request == t.request
  }

  /** Halted pairs are settled, and are neither retired nor recovery destinations. */
  ghost predicate Halts(j: Journal) {
    forall p | p in j.haltedPairs :: HaltFits(j, p)
  }

  /** Retired pairs are quiet and hand their resources over to a later takeover. */
  ghost predicate Retires(j: Journal) {
    forall p | p in j.retirements :: RetirementFits(j, p)
  }

  /** Every takeover started its own, distinct destination pair. */
  ghost predicate HandsOver(j: Journal) {
    && (forall t | t in j.takeovers :: TakeoverFits(j, t))
    && (forall k, l | 0 <= k < l < |j.takeovers| :: j.takeovers[k].Destination() != j.takeovers[l].Destination())
  }

  /** No attempt of a retired pair is under reconciliation. */
  ghost predicate Quiet(j: Journal) {
    forall q | q in j.reconciliations && j.reconciliations[q].state == RecClaimed ::
      j.reconciliations[q].attempt in j.attempts && j.attempts[j.reconciliations[q].attempt].Owner() !in j.retirements
  }

  ghost predicate Inv(j: Journal) {
    && Keyed(j)
    && Contiguous(j)
    && Requested(j)
    && Bound(j)
    && InOrder(j)
    && Receipted(j)
    && Witnessed(j)
    && Leased(j)
    && Halts(j)
    && Retires(j)
    && HandsOver(j)
    && Quiet(j)
  }

  lemma EmptyInv()
    ensures Inv(EMPTY)
  {
  }
}
