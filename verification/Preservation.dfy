/** Every supervisor step keeps the journal invariant. */
module Preservation {
  import opened Wrappers
  import opened Domain
  import opened Journal
  import opened Actions
  import opened Invariant

  // ----- Frames: what survives a change of attempt states -----

  ghost predicate SameIdentity(a: AttemptRecord, b: AttemptRecord) {
    b == a.(state := b.state, receipt := b.receipt)
  }

  /** The same rows with the same identities; states, receipts, budgets and witnesses may differ. */
  ghost predicate SameRows(j: Journal, k: Journal) {
    && k.profiles == j.profiles && k.plans == j.plans && k.steps == j.steps && k.byRequest == j.byRequest
    && k.grants.Keys == j.grants.Keys
    && (forall g | g in j.grants :: k.grants[g].profile == j.grants[g].profile && k.grants[g].id == j.grants[g].id)
    && k.attempts.Keys == j.attempts.Keys
    && (forall id | id in j.attempts :: SameIdentity(j.attempts[id], k.attempts[id]))
  }

  ghost predicate SameClosures(j: Journal, k: Journal) {
    k.haltedPairs == j.haltedPairs && k.retirements == j.retirements && k.takeovers == j.takeovers
  }

  ghost predicate OnlyPairChanged(j: Journal, k: Journal, p: Pair)
    requires SameRows(j, k)
  {
    forall id | id in j.attempts && j.attempts[id].Owner() != p :: k.attempts[id] == j.attempts[id]
  }

  lemma KeyedRows(j: Journal, k: Journal)
    requires SameRows(j, k) && Keyed(j)
    ensures Keyed(k)
  {
  }

  lemma ContiguousRows(j: Journal, k: Journal)
    requires SameRows(j, k) && Contiguous(j)
    ensures Contiguous(k)
  {
  }

  lemma RequestedRows(j: Journal, k: Journal)
    requires SameRows(j, k) && Requested(j)
    ensures Requested(k)
  {
  }

  lemma BoundRows(j: Journal, k: Journal)
    requires SameRows(j, k) && Bound(j)
    ensures Bound(k)
  {
  }

  lemma OrderRows(j: Journal, k: Journal)
    requires SameRows(j, k) && InOrder(j)
    requires forall id | id in j.attempts && j.attempts[id].state == Completed :: k.attempts[id].state == Completed
    ensures InOrder(k)
  {
  }

  /** The last listed attempt of a started pair is a row of that pair, at the last index. */
  lemma LastRow(j: Journal, p: Pair)
    requires Contiguous(j) && Started(j, p)
    ensures LastOf(j, p).Owner() == p && LastOf(j, p).operationIndex + 1 == |Listing(j, p)|
    ensures LastOf(j, p).id in j.attempts && j.attempts[LastOf(j, p).id] == LastOf(j, p)
  {
  }

  lemma StandingKeeps(j: Journal, k: Journal, p: Pair, q: Pair)
    requires SameRows(j, k) && OnlyPairChanged(j, k, p) && q != p
    requires Started(j, q) ==> LastOf(j, q).Owner() == q
    ensures SameStanding(j, k, q)
  {
  }

  ghost predicate SameStanding(j: Journal, k: Journal, q: Pair) {
    Started(k, q) == Started(j, q) && (Started(j, q) ==> LastOf(k, q) == LastOf(j, q))
  }

  /** Being live is decided by the last attempt, the stored plan and the closure tables. */
  lemma LiveKeeps(j: Journal, k: Journal, q: Pair)
    requires SameStanding(j, k, q) && k.plans == j.plans
    requires q in k.haltedPairs <==> q in j.haltedPairs
    requires q in k.retirements <==> q in j.retirements
    requires q in Destinations(k.takeovers) <==> q in Destinations(j.takeovers)
    ensures Live(k, q) == Live(j, q)
  {
    hide Destinations;
  }

  lemma ResourcesKeep(j: Journal, k: Journal, q: Pair)
    requires SameRows(j, k)
    ensures ResourcesOf(k, q) == ResourcesOf(j, q) && Started(k, q) == Started(j, q)
  {
  }

  lemma LeaseAlgebra(j: Journal, k: Journal, p: Pair)
    requires Leased(j)
    requires forall q :: ResourcesOf(k, q) == ResourcesOf(j, q)
    requires forall q | q != p :: Live(k, q) == Live(j, q)
    requires Live(k, p) ==> Live(j, p)
    requires k.leases == if Live(k, p) then j.leases else ReleaseFrom(j.leases, p, ResourcesOf(j, p))
    ensures Leased(k)
  {
    hide Live, ResourcesOf;
  }

  /** One pair settled: it keeps its leases while live and frees exactly its own resources otherwise. */
  lemma LeasesSettle(j: Journal, k: Journal, p: Pair)
    requires SameRows(j, k) && SameClosures(j, k) && OnlyPairChanged(j, k, p) && Contiguous(j) && Leased(j)
    requires Live(k, p) ==> Live(j, p)
    requires k.leases == if Live(k, p) then j.leases else ReleaseFrom(j.leases, p, ResourcesOf(j, p))
    ensures Leased(k)
  {
    assert k.plans == j.plans && SameClosures(j, k);
    hide Leased, Live, ResourcesOf, SameRows, OnlyPairChanged, Contiguous, SameStanding, Started, LastOf, ReleaseFrom, Destinations;
    StandingsKeep(j, k, p);
    forall q | q != p
      ensures Live(k, q) == Live(j, q)
    {
      assert SameStanding(j, k, q);
      LiveKeeps(j, k, q);
    }
    LeaseAlgebra(j, k, p);
  }

  // ----- Closures under a change of one pair -----

  /** What closure predicates read about pairs: unchanged outside `p`. */
  lemma StandingsKeep(j: Journal, k: Journal, p: Pair)
    requires SameRows(j, k) && OnlyPairChanged(j, k, p) && Contiguous(j)
    ensures forall q :: ResourcesOf(k, q) == ResourcesOf(j, q)
    ensures forall q :: Started(k, q) == Started(j, q)
    ensures forall q | q != p :: SameStanding(j, k, q)
  {
    hide ResourcesOf, SameRows, OnlyPairChanged, Contiguous, Started, LastOf, SameStanding;
    forall q
      ensures ResourcesOf(k, q) == ResourcesOf(j, q) && Started(k, q) == Started(j, q)
      ensures q != p ==> SameStanding(j, k, q)
    {
      ResourcesKeep(j, k, q);
      if q != p {
        if Started(j, q) { LastRow(j, q); }
        StandingKeeps(j, k, p, q);
      }
    }
  }

  lemma HaltsSettle(j: Journal, k: Journal, p: Pair)
    requires SameClosures(j, k) && Halts(j)
    requires forall q | q != p :: SameStanding(j, k, q)
    requires p in j.haltedPairs ==> HaltFits(k, p)
    ensures Halts(k)
  {
    hide Started, LastOf;
    forall q | q in k.haltedPairs
      ensures HaltFits(k, q)
    {
      assert q != p ==> SameStanding(j, k, q);
    }
  }

  lemma RetiresSettle(j: Journal, k: Journal, p: Pair)
    requires SameClosures(j, k) && Retires(j)
    requires forall q :: ResourcesOf(k, q) == ResourcesOf(j, q)
    requires forall q | q != p :: SameStanding(j, k, q)
    requires p in j.retirements ==> RetirementFits(k, p)
    ensures Retires(k)
  {
    hide Started, LastOf, ResourcesOf, Destinations;
    forall q | q in k.retirements
      ensures RetirementFits(k, q)
    {
      assert q != p ==> SameStanding(j, k, q);
      assert RetirementFits(j, q);
    }
  }

  lemma HandsOverRows(j: Journal, k: Journal)
    requires SameRows(j, k) && k.takeovers == j.takeovers && HandsOver(j)
    requires forall q :: Started(k, q) == Started(j, q)
    ensures HandsOver(k)
  {
    hide Started;
  }

  // ----- One attempt leaves Intent or Dispatched -----

  lemma AttemptKey(j: Journal, id: AttemptId)
    requires Contiguous(j) && id in j.attempts
    ensures j.attempts[id].id == id
  {
  }

  lemma LastIfOpen(j: Journal, id: AttemptId)
    requires Contiguous(j) && InOrder(j) && id in j.attempts && j.attempts[id].state != Completed
    ensures LastOfPair(j, id)
  {
  }

  ghost predicate LastOfPair(j: Journal, id: AttemptId)
    requires id in j.attempts
  {
    var listing := Listing(j, j.attempts[id].Owner());
    j.attempts[id].id == id && listing != [] && listing[|listing| - 1] == id
  }

  lemma ResourcesBound(j: Journal, id: AttemptId)
    requires Bound(j) && id in j.attempts
    ensures ResourcesOf(j, j.attempts[id].Owner()) == j.attempts[id].leasedResources
  {
    assert BoundTo(j, j.attempts[id]);
  }

  /** An attempt in Intent or Dispatched: last of its pair, no receipt, no witnesses, pair not halted. */
  ghost predicate Open(j: Journal, id: AttemptId)
    requires id in j.attempts
  {
    var a := j.attempts[id];
    && a.state in {Intent, Dispatched}
    && LastOfPair(j, id)
    && a.Owner() !in j.haltedPairs
    && (a.Owner() in j.retirements ==> a.state == Intent && a.Owner() in Destinations(j.takeovers))
    && HistoryOf(j, id) == []
    && a.receipt == None
    && ResourcesOf(j, a.Owner()) == a.leasedResources
  }

  lemma IsOpen(j: Journal, id: AttemptId)
    requires Inv(j) && id in j.attempts && j.attempts[id].state in {Intent, Dispatched}
    ensures Open(j, id)
  {
    hide Keyed, Contiguous, Requested, Bound, InOrder, Leased, HandsOver, Quiet, ResourcesOf, Destinations;
    LastIfOpen(j, id);
    ResourcesBound(j, id);
  }

  /** `k` is `j` with attempt `id` moved out of Intent or Dispatched and its receipt written. */
  ghost predicate Settles(j: Journal, k: Journal, id: AttemptId) {
    && id in j.attempts && id in k.attempts && j.attempts[id].id == id
    && j.attempts[id].state in {Intent, Dispatched}
    && SameIdentity(j.attempts[id], k.attempts[id])
    && k == j.(attempts := j.attempts[id := k.attempts[id]], leases := k.leases)
    && match k.attempts[id].state
       case Intent => false
       case Dispatched => k.attempts[id].receipt == None
       case s => k.attempts[id].receipt.Some? && k.attempts[id].receipt.value.State() == s
  }

  lemma SettlesRows(j: Journal, k: Journal, id: AttemptId)
    requires Settles(j, k, id)
    ensures SameRows(j, k) && SameClosures(j, k) && OnlyPairChanged(j, k, j.attempts[id].Owner())
  {
  }

  lemma SettlesLast(j: Journal, k: Journal, id: AttemptId)
    requires Settles(j, k, id) && LastOfPair(j, id)
    ensures var p := j.attempts[id].Owner();
            && Started(j, p) && LastOf(j, p) == j.attempts[id]
            && Started(k, p) && LastOf(k, p) == k.attempts[id]
  {
  }

  lemma SettlesReceipts(j: Journal, k: Journal, id: AttemptId)
    requires Settles(j, k, id) && HistoryOf(j, id) == [] && Receipted(j)
    ensures Receipted(k)
  {
  }

  lemma SettlesWitnesses(j: Journal, k: Journal, id: AttemptId)
    requires Settles(j, k, id) && HistoryOf(j, id) == [] && Witnessed(j)
    ensures Witnessed(k)
  {
  }

  lemma SettlesQuiet(j: Journal, k: Journal, id: AttemptId)
    requires Settles(j, k, id) && Quiet(j)
    ensures Quiet(k)
  {
  }

  lemma SettlesClosures(j: Journal, k: Journal, id: AttemptId)
    requires Settles(j, k, id) && Halts(j) && Retires(j) && HandsOver(j) && Contiguous(j)
    requires var p := j.attempts[id].Owner();
             && p !in j.haltedPairs && Started(j, p) && Started(k, p)
             && LastOf(j, p) == j.attempts[id] && LastOf(k, p) == k.attempts[id]
             && (p in j.retirements ==> k.attempts[id].state == Rejected)
    ensures Halts(k) && Retires(k) && HandsOver(k)
  {
    hide Contiguous, Halts, Retires, HandsOver, ResourcesOf, Started, LastOf, Destinations, SameRows, OnlyPairChanged, SameStanding;
    var p := j.attempts[id].Owner();
    SettlesRows(j, k, id);
    StandingsKeep(j, k, p);
    HaltsSettle(j, k, p);
    assert p in j.retirements ==> RetirementFits(k, p) by {
      if p in j.retirements { RetiredRow(j, p); }
    }
    RetiresSettle(j, k, p);
    HandsOverRows(j, k);
  }

  lemma RetiredRow(j: Journal, p: Pair)
    requires Retires(j) && p in j.retirements
    ensures RetirementFits(j, p)
  {
  }

  lemma SettleKeeps(j: Journal, k: Journal, id: AttemptId)
    requires Inv(j) && Settles(j, k, id)
    requires var p := j.attempts[id].Owner();
             && (p in j.retirements ==> k.attempts[id].state == Rejected)
             && (Live(k, p) ==> Live(j, p))
             && k.leases == if Live(k, p) then j.leases else ReleaseFrom(j.leases, p, ResourcesOf(j, p))
    ensures Inv(k)
  {
    hide Keyed, Contiguous, Requested, Bound, InOrder, Receipted, Witnessed, Leased, Halts, Retires, HandsOver, Quiet;
    hide Live, ResourcesOf, Destinations, SameRows, OnlyPairChanged, Started, LastOf, HistoryOf, ReleaseFrom, SameClosures, LastOfPair;
    var p := j.attempts[id].Owner();
    IsOpen(j, id);
    SettlesRows(j, k, id);
    KeyedRows(j, k);
    ContiguousRows(j, k);
    RequestedRows(j, k);
    BoundRows(j, k);
    OrderRows(j, k);
    LeasesSettle(j, k, p);
    SettlesLast(j, k, id);
    SettlesClosures(j, k, id);
    SettlesReceipts(j, k, id);
    SettlesWitnesses(j, k, id);
    SettlesQuiet(j, k, id);
  }

  /** A pair that is not live holds nothing, so releasing its leases changes nothing. */
  lemma NothingToRelease(j: Journal, p: Pair, resources: set<PhysicalResource>)
    requires Leased(j) && !Live(j, p)
    ensures ReleaseFrom(j.leases, p, resources) == j.leases
  {
    hide Live, ResourcesOf;
  }

  lemma ClaimSettles(j: Journal, id: AttemptId, agent: PrincipalId, now: int)
    requires ClaimDispatch(j, id, agent, now).Ok? && Open(j, id)
    ensures var k := ClaimDispatch(j, id, agent, now).value.journal;
            Settles(j, k, id) && Live(j, j.attempts[id].Owner()) && Live(k, j.attempts[id].Owner()) && k.leases == j.leases
  {
    hide ResourcesOf, Destinations, HistoryOf;
    var k := ClaimDispatch(j, id, agent, now).value.journal;
    assert k == j.(attempts := j.attempts[id := j.attempts[id].(state := Dispatched)]);
    SettlesLast(j, k, id);
  }

  lemma ClaimDispatchKeeps(j: Journal, id: AttemptId, agent: PrincipalId, now: int)
    requires Inv(j)
    ensures Inv(After(j, ClaimDispatch(j, id, agent, now)))
  {
    hide Inv, Live, ReleaseFrom, Open, Settles;
    var tx := ClaimDispatch(j, id, agent, now);
    if tx.Ok? {
      IsOpen(j, id);
      ClaimSettles(j, id, agent, now);
      SettleKeeps(j, tx.value.journal, id);
    }
  }

  lemma RecordSettles(j: Journal, id: AttemptId, receipt: OperationReceipt)
    requires RecordBySupervisor(j, id, receipt).Ok? && Open(j, id)
    ensures var k := RecordBySupervisor(j, id, receipt).value.journal; var p := j.attempts[id].Owner();
            && Settles(j, k, id) && Live(j, p) && p !in j.retirements
            && k.leases == if Live(k, p) then j.leases else ReleaseFrom(j.leases, p, ResourcesOf(j, p))
  {
    hide ReleaseFrom, ResourcesOf, Destinations, HistoryOf;
    var k := RecordBySupervisor(j, id, receipt).value.journal;
    assert Settles(j, k, id);
    SettlesLast(j, k, id);
  }

  lemma RecordReceiptKeeps(j: Journal, id: AttemptId, receipt: OperationReceipt)
    requires Inv(j)
    ensures Inv(After(j, RecordBySupervisor(j, id, receipt)))
  {
    hide Inv, Live, ReleaseFrom, Open, Settles, SupervisorReleases, ResourcesOf;
    var tx := RecordBySupervisor(j, id, receipt);
    if tx.Ok? {
      IsOpen(j, id);
      RecordSettles(j, id, receipt);
      SettleKeeps(j, tx.value.journal, id);
    }
  }

  lemma RejectSettles(j: Journal, id: AttemptId, reason: string)
    requires RejectIntent(j, id, reason).Ok? && Open(j, id)
    ensures var k := RejectIntent(j, id, reason).value.journal; var p := j.attempts[id].Owner();
            && Settles(j, k, id) && k.attempts[id].state == Rejected && (Live(k, p) ==> Live(j, p))
            && (p in j.retirements ==> k.leases == j.leases && !Live(j, p) && !Live(k, p))
            && (p !in j.retirements ==> k.leases == if Live(k, p) then j.leases else ReleaseFrom(j.leases, p, ResourcesOf(j, p)))
  {
    hide ReleaseFrom, ResourcesOf, Destinations, HistoryOf;
    var k := RejectIntent(j, id, reason).value.journal;
    assert Settles(j, k, id);
    SettlesLast(j, k, id);
  }

  lemma RejectIntentKeeps(j: Journal, id: AttemptId, reason: string)
    requires Inv(j)
    ensures Inv(After(j, RejectIntent(j, id, reason)))
  {
    hide Live, ReleaseFrom, Open, Settles, ResourcesOf;
    hide Keyed, Contiguous, Requested, Bound, InOrder, Receipted, Witnessed, Leased, Halts, Retires, HandsOver, Quiet;
    var tx := RejectIntent(j, id, reason);
    if tx.Ok? {
      IsOpen(j, id);
      RejectSettles(j, id, reason);
      var p := j.attempts[id].Owner();
      if p in j.retirements { NothingToRelease(j, p, ResourcesOf(j, p)); }
      SettleKeeps(j, tx.value.journal, id);
    }
  }

  // ----- Immutable records -----

  /** Profiles and plans only gain rows; grants only gain rows or change budget and revocation. */
  ghost predicate Extends(j: Journal, k: Journal) {
    && k.attempts == j.attempts && k.byRequest == j.byRequest && k.steps == j.steps && k.leases == j.leases
    && k.reconciliations == j.reconciliations && k.history == j.history && SameClosures(j, k)
    && (forall id | id in j.profiles :: id in k.profiles && k.profiles[id] == j.profiles[id])
    && (forall id | id in j.plans :: id in k.plans && k.plans[id] == j.plans[id])
    && (forall id | id in j.grants :: id in k.grants && k.grants[id].profile == j.grants[id].profile)
    && Keyed(k)
  }

  lemma ExtendsBound(j: Journal, k: Journal)
    requires Extends(j, k) && Bound(j)
    ensures Bound(k)
  {
  }

  lemma StartedRow(j: Journal, p: Pair)
    requires Contiguous(j) && Bound(j) && Started(j, p)
    ensures LastOf(j, p).Owner() == p && BoundTo(j, LastOf(j, p))
  {
    hide BoundTo;
  }

  lemma ExtendsPair(j: Journal, k: Journal, p: Pair)
    requires Extends(j, k) && Started(j, p) && LastOf(j, p).Owner() == p && BoundTo(j, LastOf(j, p))
    ensures Started(k, p) && LastOf(k, p) == LastOf(j, p)
    ensures ResourcesOf(k, p) == ResourcesOf(j, p) && Live(k, p) == Live(j, p)
  {
  }

  lemma ExtendsPairs(j: Journal, k: Journal)
    requires Extends(j, k) && Contiguous(j) && Bound(j)
    ensures forall p | Started(j, p) :: SameStanding(j, k, p) && ResourcesOf(k, p) == ResourcesOf(j, p)
    ensures forall p :: Started(k, p) == Started(j, p)
    ensures forall p :: Live(k, p) == Live(j, p)
    ensures forall p | Live(j, p) :: ResourcesOf(k, p) == ResourcesOf(j, p)
  {
    hide Bound, Contiguous, BoundTo, ResourcesOf, Live, Extends, Started, LastOf;
    forall p
      ensures Started(k, p) == Started(j, p) && Live(k, p) == Live(j, p)
      ensures Started(j, p) ==> SameStanding(j, k, p) && ResourcesOf(k, p) == ResourcesOf(j, p)
      ensures Live(j, p) ==> ResourcesOf(k, p) == ResourcesOf(j, p)
    {
      LiveStarted(j, p);
      LiveStarted(k, p);
      ExtendsStarted(j, k, p);
      if Started(j, p) {
        StartedRow(j, p);
        ExtendsPair(j, k, p);
      }
    }
  }

  lemma LiveStarted(j: Journal, p: Pair)
    ensures Live(j, p) ==> Started(j, p)
  {
  }

  lemma ExtendsStarted(j: Journal, k: Journal, p: Pair)
    requires Extends(j, k)
    ensures Started(k, p) == Started(j, p)
  {
  }

  lemma ExtendsTables(j: Journal, k: Journal)
    requires Extends(j, k)
    ensures k.steps == j.steps && k.attempts == j.attempts && k.leases == j.leases && SameClosures(j, k)
    ensures k.reconciliations == j.reconciliations && k.history == j.history && k.byRequest == j.byRequest
  {
  }

  lemma ExtendsLeases(j: Journal, k: Journal)
    requires k.leases == j.leases && Leased(j)
    requires forall p :: Live(k, p) == Live(j, p)
    requires forall p | Live(j, p) :: ResourcesOf(k, p) == ResourcesOf(j, p)
    ensures Leased(k)
  {
    hide Live, ResourcesOf;
  }

  lemma ExtendsClosures(j: Journal, k: Journal)
    requires SameClosures(j, k) && k.attempts == j.attempts && k.reconciliations == j.reconciliations
    requires Halts(j) && Retires(j) && HandsOver(j) && Quiet(j)
    requires forall p | Started(j, p) :: SameStanding(j, k, p) && ResourcesOf(k, p) == ResourcesOf(j, p)
    requires forall p :: Started(k, p) == Started(j, p)
    ensures Halts(k) && Retires(k) && HandsOver(k) && Quiet(k)
  {
    hide LastOf, Started, ResourcesOf, Destinations;
    forall p | p in k.haltedPairs ensures HaltFits(k, p) { assert HaltFits(j, p); }
    forall t | t in k.takeovers ensures TakeoverFits(k, t) { assert TakeoverFits(j, t); }
    forall p | p in k.retirements ensures RetirementFits(k, p) {
      assert RetirementFits(j, p);
      assert TakeoverFits(j, j.takeovers[j.retirements[p]]);
    }
  }

  lemma ExtendsKeeps(j: Journal, k: Journal)
    requires Inv(j) && Extends(j, k)
    ensures Inv(k)
  {
    ExtendsTables(j, k);
    hide Keyed, Contiguous, Requested, Bound, InOrder, Receipted, Witnessed, Leased, Halts, Retires, HandsOver, Quiet, SameStanding;
    assert Keyed(k) by { ExtendsKeyed(j, k); }
    ExtendsBound(j, k);
    ExtendsPairs(j, k);
    ExtendsLeases(j, k);
    ExtendsClosures(j, k);
    assert Contiguous(k) && Requested(k) && InOrder(k) by { ExtendsRows(j, k); }
    ExtendsReceipts(j, k);
    ExtendsWitnesses(j, k);
  }

  lemma ExtendsKeyed(j: Journal, k: Journal)
    requires Extends(j, k)
    ensures Keyed(k)
  {
  }

  lemma ExtendsRows(j: Journal, k: Journal)
    requires k.attempts == j.attempts && k.steps == j.steps && k.byRequest == j.byRequest && Contiguous(j) && Requested(j) && InOrder(j)
    ensures Contiguous(k) && Requested(k) && InOrder(k)
  {
  }

  lemma ExtendsReceipts(j: Journal, k: Journal)
    requires k.attempts == j.attempts && k.reconciliations == j.reconciliations && k.history == j.history && Receipted(j)
    ensures Receipted(k)
  {
    forall id | id in k.attempts
      ensures ReceiptFits(k, k.attempts[id])
    {
      assert ReceiptFits(j, j.attempts[id]);
    }
  }

  lemma ExtendsWitnesses(j: Journal, k: Journal)
    requires k.attempts == j.attempts && k.reconciliations == j.reconciliations && k.history == j.history && Witnessed(j)
    ensures Witnessed(k)
  {
    assert Historical(k);
    hide Historical;
    forall q | q in k.reconciliations
      ensures WitnessFits(k, q)
    {
      assert WitnessFits(j, q);
    }
  }

  lemma TablesExtend(j: Journal, k: Journal)
    requires k == j.(profiles := k.profiles, grants := k.grants, plans := k.plans) && Keyed(k)
    requires forall id | id in j.profiles :: id in k.profiles && k.profiles[id] == j.profiles[id]
    requires forall id | id in j.plans :: id in k.plans && k.plans[id] == j.plans[id]
    requires forall id | id in j.grants :: id in k.grants && k.grants[id].profile == j.grants[id].profile
    ensures Extends(j, k)
  {
    hide Keyed;
  }

  lemma SaveProfileExtends(j: Journal, profile: CommissionedProfile)
    requires Keyed(j)
    ensures Extends(j, After(j, SaveProfile(j, profile)))
  {
    hide Extends;
    var k := After(j, SaveProfile(j, profile));
    assert k == j.(profiles := if profile.id in j.profiles then j.profiles else j.profiles[profile.id := profile]);
    hide SaveProfile;
    TablesExtend(j, k);
  }

  lemma SaveGrantExtends(j: Journal, grant: Grant)
    requires Keyed(j)
    ensures Extends(j, After(j, SaveGrant(j, grant)))
  {
    hide Extends;
    var k := After(j, SaveGrant(j, grant));
    assert k == j.(grants := if grant.id in j.grants then j.grants else j.grants[grant.id := grant]);
    hide SaveGrant;
    TablesExtend(j, k);
  }

  lemma SavePlanExtends(j: Journal, plan: ReviewedPlan)
    requires Keyed(j) && plan.operations != []
    ensures Extends(j, After(j, SavePlan(j, plan)))
  {
    hide Extends;
    var k := After(j, SavePlan(j, plan));
    assert k == j.(plans := if plan.id in j.plans then j.plans else j.plans[plan.id := plan]);
    hide SavePlan;
    TablesExtend(j, k);
  }

  lemma RevokeGrantExtends(j: Journal, id: GrantId)
    requires Keyed(j)
    ensures Extends(j, After(j, RevokeGrant(j, id)))
  {
    hide Extends;
    var k := After(j, RevokeGrant(j, id));
    assert k == j.(grants := if id in j.grants then j.grants[id := j.grants[id].(revoked := true)] else j.grants);
    hide RevokeGrant;
    TablesExtend(j, k);
  }

  lemma RunsExtend(j: Journal, k: Journal)
    requires Keyed(j) && k == j.(runs := k.runs)
    ensures Extends(j, k)
  {
  }

  ghost predicate TouchesRecords(action: Action) {
    action.DoSaveProfile? || action.DoSaveGrant? || action.DoSavePlan? || action.DoRevokeGrant?
    || action.DoCreateRun? || action.DoRepairCursor? || action.DoWriteRun?
  }

  lemma RecordsExtend(j: Journal, action: Action)
    requires Inv(j) && Admissible(action) && TouchesRecords(action)
    ensures Extends(j, Apply(j, action))
  {
    hide Keyed, Contiguous, Requested, Bound, InOrder, Receipted, Witnessed, Leased, Halts, Retires, HandsOver, Quiet;
    hide Extends, SaveProfile, SaveGrant, SavePlan, RevokeGrant, CompletedPrefix;
    match action {
      case DoSaveProfile(profile) => SaveProfileExtends(j, profile);
      case DoSaveGrant(grant) => SaveGrantExtends(j, grant);
      case DoSavePlan(plan) => SavePlanExtends(j, plan);
      case DoRevokeGrant(id) => RevokeGrantExtends(j, id);
      case _ => RunsExtend(j, Apply(j, action));
    }
  }

  lemma RecordsKeep(j: Journal, action: Action)
    requires Inv(j) && Admissible(action) && TouchesRecords(action)
    ensures Inv(Apply(j, action))
  {
    hide Inv, Extends, Apply;
    RecordsExtend(j, action);
    ExtendsKeeps(j, Apply(j, action));
  }
}
