/** Abandoning a halted pair, and reopening after a crash, keep the journal invariant. */
module Closing {
  import opened Wrappers
  import opened Domain
  import opened Journal
  import opened Actions
  import opened Invariant
  import opened Preservation
  import opened Reconciling

  // ----- Abandonment -----

  /** `k` is `j` with pair `p` halted: its intents rejected and its leases released. */
  ghost predicate HaltsPair(j: Journal, k: Journal, p: Pair) {
    && p !in j.haltedPairs && p !in Destinations(j.takeovers)
    && (exists id | id in j.attempts :: j.attempts[id].Owner() == p)
    && (forall id | id in j.attempts && j.attempts[id].Owner() == p :: Abandonable(j.attempts[id].state))
    && k.profiles == j.profiles && k.plans == j.plans && k.grants == j.grants && k.steps == j.steps && k.byRequest == j.byRequest
    && k.reconciliations == j.reconciliations && k.history == j.history
    && k.retirements == j.retirements && k.takeovers == j.takeovers
    && k.haltedPairs == j.haltedPairs + {p}
    && k.attempts == RejectIntentsOf(j.attempts, p)
    && k.leases == ReleaseFrom(j.leases, p, LeaseKeys(j.leases, p))
  }

  lemma AbandonHalts(j: Journal, record: Abandonment)
    requires record.request !in j.abandonments && Abandon(j, record).Ok?
    ensures HaltsPair(j, Abandon(j, record).value.journal, record.Closed())
  {
    hide RejectIntentsOf, ReleaseFrom, LeaseKeys, Destinations;
  }

  lemma HaltsRows(j: Journal, k: Journal, p: Pair)
    requires HaltsPair(j, k, p)
    ensures SameRows(j, k) && OnlyPairChanged(j, k, p)
    ensures forall id | id in j.attempts && j.attempts[id].state in {Completed, Unknown} :: k.attempts[id] == j.attempts[id]
  {
    hide ReleaseFrom, LeaseKeys, Destinations;
  }

  lemma HaltsTables(j: Journal, k: Journal, p: Pair)
    requires HaltsPair(j, k, p) && Keyed(j) && Contiguous(j) && Requested(j) && Bound(j) && InOrder(j)
    ensures Keyed(k) && Contiguous(k) && Requested(k) && Bound(k) && InOrder(k)
  {
    hide Keyed, Contiguous, Requested, Bound, InOrder, HaltsPair, SameRows, OnlyPairChanged;
    HaltsRows(j, k, p);
    KeyedRows(j, k);
    ContiguousRows(j, k);
    RequestedRows(j, k);
    BoundRows(j, k);
    OrderRows(j, k);
  }

  lemma HaltsReceipt(j: Journal, k: Journal, p: Pair, x: AttemptId)
    requires HaltsPair(j, k, p) && x in j.attempts && ReceiptFits(j, j.attempts[x])
    ensures x in k.attempts && ReceiptFits(k, k.attempts[x])
  {
    hide ReleaseFrom, LeaseKeys, Destinations;
  }

  lemma HaltsReceipts(j: Journal, k: Journal, p: Pair)
    requires HaltsPair(j, k, p) && Receipted(j)
    ensures Receipted(k)
  {
    assert k.attempts.Keys == j.attempts.Keys;
    hide HaltsPair, ReceiptFits;
    forall x | x in j.attempts
      ensures x in k.attempts && ReceiptFits(k, k.attempts[x])
    {
      HaltsReceipt(j, k, p, x);
    }
  }

  lemma HaltsWitnesses(j: Journal, k: Journal, p: Pair)
    requires HaltsPair(j, k, p) && Witnessed(j)
    ensures Witnessed(k)
  {
    hide RejectIntentsOf, ReleaseFrom, LeaseKeys, Destinations, Historical, WitnessFits, SameRows, OnlyPairChanged;
    HaltsRows(j, k, p);
    SettledWitnesses(j, k);
  }

  lemma SettledWitnesses(j: Journal, k: Journal)
    requires k.reconciliations == j.reconciliations && k.history == j.history && SameRows(j, k) && Witnessed(j)
    requires forall id | id in j.attempts && j.attempts[id].state in {Completed, Unknown} :: k.attempts[id] == j.attempts[id]
    ensures Witnessed(k)
  {
    assert Historical(k) by { hide WitnessFits, SameIdentity; }
    hide Historical, SameIdentity;
    forall q | q in k.reconciliations
      ensures WitnessFits(k, q)
    {
      assert WitnessFits(j, q);
    }
  }

  lemma AttemptStarts(j: Journal, id: AttemptId)
    requires Contiguous(j) && id in j.attempts
    ensures Started(j, j.attempts[id].Owner())
  {
  }

  lemma HaltsStarted(j: Journal, k: Journal, p: Pair)
    requires HaltsPair(j, k, p) && Contiguous(j)
    ensures Started(j, p) && LastOf(j, p).Owner() == p && Abandonable(LastOf(j, p).state)
  {
    hide ReleaseFrom, LeaseKeys, Destinations, Started, LastOf, Contiguous, RejectIntentsOf;
    var id :| id in j.attempts && j.attempts[id].Owner() == p;
    AttemptStarts(j, id);
    LastRow(j, p);
    assert j.attempts[LastOf(j, p).id].Owner() == p;
  }

  /** An abandonable pair is started, was never retired, and ends settled. */
  lemma HaltsStanding(j: Journal, k: Journal, p: Pair)
    requires HaltsPair(j, k, p) && Started(j, p) && LastOf(j, p).Owner() == p && Abandonable(LastOf(j, p).state)
    requires p in j.retirements ==> RetirementFits(j, p)
    ensures HaltFits(k, p) && p !in j.retirements
  {
    hide ReleaseFrom, LeaseKeys, ResourcesOf, Destinations;
  }

  lemma OwnKeysOnly(j: Journal, p: Pair)
    requires Leased(j)
    ensures ReleaseFrom(j.leases, p, LeaseKeys(j.leases, p)) == ReleaseFrom(j.leases, p, ResourcesOf(j, p))
  {
    hide Live, ResourcesOf;
  }

  lemma HaltsLeases(j: Journal, k: Journal, p: Pair)
    requires HaltsPair(j, k, p) && Contiguous(j) && Leased(j)
    ensures Leased(k)
  {
    assert !Live(k, p);
    assert k.plans == j.plans && k.retirements == j.retirements && k.takeovers == j.takeovers && k.haltedPairs == j.haltedPairs + {p};
    OwnKeysOnly(j, p);
    assert k.leases == ReleaseFrom(j.leases, p, ResourcesOf(j, p));
    hide Leased, Live, ResourcesOf, HaltsPair, SameRows, OnlyPairChanged, Contiguous, SameStanding, Started, LastOf, ReleaseFrom, Destinations;
    HaltsRows(j, k, p);
    StandingsKeep(j, k, p);
    forall q | q != p
      ensures Live(k, q) == Live(j, q)
    {
      assert SameStanding(j, k, q);
      LiveKeeps(j, k, q);
    }
    LeaseAlgebra(j, k, p);
  }

  lemma HaltsShape(j: Journal, k: Journal, p: Pair)
    requires HaltsPair(j, k, p)
    ensures k.retirements == j.retirements && k.takeovers == j.takeovers && k.haltedPairs == j.haltedPairs + {p}
    ensures k.reconciliations == j.reconciliations
  {
  }

  lemma HaltsHalts(j: Journal, k: Journal, p: Pair)
    requires Halts(j) && HaltFits(k, p) && k.haltedPairs == j.haltedPairs + {p}
    requires k.retirements == j.retirements && k.takeovers == j.takeovers
    requires forall q | q != p :: SameStanding(j, k, q)
    ensures Halts(k)
  {
    hide HaltFits, SameStanding;
    forall q | q in k.haltedPairs
      ensures HaltFits(k, q)
    {
      if q != p { HaltFitsKeeps(j, k, q); }
    }
  }

  lemma HaltsRetires(j: Journal, k: Journal, p: Pair)
    requires Retires(j) && p !in j.retirements && k.retirements == j.retirements && k.takeovers == j.takeovers
    requires forall q | q != p :: SameStanding(j, k, q)
    requires forall q :: ResourcesOf(k, q) == ResourcesOf(j, q)
    ensures Retires(k)
  {
    hide RetirementFits, SameStanding, ResourcesOf;
    forall q | q in k.retirements
      ensures RetirementFits(k, q)
    {
      RetirementFitsKeeps(j, k, q);
    }
  }

  lemma HaltsQuiet(j: Journal, k: Journal, p: Pair)
    requires HaltsPair(j, k, p) && Quiet(j)
    ensures Quiet(k)
  {
    hide ReleaseFrom, LeaseKeys, Destinations;
  }

  lemma HaltsClosures(j: Journal, k: Journal, p: Pair)
    requires HaltsPair(j, k, p) && Contiguous(j) && Halts(j) && Retires(j) && HandsOver(j) && Quiet(j)
    ensures Halts(k) && Retires(k) && HandsOver(k) && Quiet(k)
  {
    hide HaltsPair, ResourcesOf, Started, LastOf, Contiguous, RetirementFits, HaltFits, HandsOver, Halts, Retires, Quiet, SameStanding, SameRows;
    HaltsShape(j, k, p);
    HaltsRows(j, k, p);
    HaltsStarted(j, k, p);
    if p in j.retirements { RetiredRow(j, p); }
    HaltsStanding(j, k, p);
    StandingsKeep(j, k, p);
    HaltsQuiet(j, k, p);
    HandsOverRows(j, k);
    HaltsHalts(j, k, p);
    HaltsRetires(j, k, p);
  }

  lemma HaltFitsKeeps(j: Journal, k: Journal, q: Pair)
    requires k.retirements == j.retirements && k.takeovers == j.takeovers
    requires HaltFits(j, q) && SameStanding(j, k, q)
    ensures HaltFits(k, q)
  {
    hide Started, LastOf, Destinations;
  }

  lemma RetirementFitsKeeps(j: Journal, k: Journal, q: Pair)
    requires k.retirements == j.retirements && k.takeovers == j.takeovers
    requires q in j.retirements && RetirementFits(j, q) && SameStanding(j, k, q)
    requires forall p :: ResourcesOf(k, p) == ResourcesOf(j, p)
    ensures RetirementFits(k, q)
  {
    hide Started, LastOf, Destinations, ResourcesOf;
  }

  lemma AbandonKeeps(j: Journal, record: Abandonment)
    requires Inv(j)
    ensures Inv(After(j, Abandon(j, record)))
  {
    hide Keyed, Contiguous, Requested, Bound, InOrder, Receipted, Witnessed, Leased, Halts, Retires, HandsOver, Quiet, HaltsPair, RejectIntentsOf;
    var tx := Abandon(j, record);
    if tx.Ok? && record.request !in j.abandonments {
      var k := tx.value.journal;
      var p := record.Closed();
      AbandonHalts(j, record);
      hide Abandon;
      HaltsTables(j, k, p);
      HaltsReceipts(j, k, p);
      HaltsWitnesses(j, k, p);
      HaltsLeases(j, k, p);
      HaltsClosures(j, k, p);
    }
  }

  // ----- Reopening -----

  lemma ReopenRows(j: Journal)
    ensures SameRows(j, Reopen(j)) && SameClosures(j, Reopen(j))
    ensures forall id | id in j.attempts && j.attempts[id].state == Completed ::
              id in Reopen(j).attempts && Reopen(j).attempts[id].state == Completed
  {
  }

  lemma ReopenTables(j: Journal)
    requires Keyed(j) && Contiguous(j) && Requested(j) && Bound(j) && InOrder(j)
    ensures var k := Reopen(j); Keyed(k) && Contiguous(k) && Requested(k) && Bound(k) && InOrder(k)
  {
    hide Keyed, Contiguous, Requested, Bound, InOrder, Reopen, SameRows;
    var k := Reopen(j);
    ReopenRows(j);
    KeyedRows(j, k);
    ContiguousRows(j, k);
    RequestedRows(j, k);
    BoundRows(j, k);
    OrderRows(j, k);
  }

  lemma ReopenReceipt(j: Journal, x: AttemptId)
    requires x in j.attempts && ReceiptFits(j, j.attempts[x])
    ensures ReceiptFits(Reopen(j), Reopen(j).attempts[x])
  {
  }

  lemma ReopenReceipts(j: Journal)
    requires Receipted(j)
    ensures Receipted(Reopen(j))
  {
    assert Reopen(j).attempts.Keys == j.attempts.Keys;
    forall x | x in j.attempts
      ensures x in Reopen(j).attempts && ReceiptFits(Reopen(j), Reopen(j).attempts[x])
    {
      ReopenReceipt(j, x);
    }
    hide Reopen, ReceiptFits;
  }

  lemma ReopenWitness(j: Journal, q: RequestId)
    requires q in j.reconciliations && WitnessFits(j, q)
    ensures q in Reopen(j).reconciliations && WitnessFits(Reopen(j), q)
  {
  }

  lemma ReopenWitnesses(j: Journal)
    requires Witnessed(j)
    ensures Witnessed(Reopen(j))
  {
    ReopenHistorical(j);
    assert Reopen(j).reconciliations.Keys == j.reconciliations.Keys;
    hide Historical, Reopen, WitnessFits;
    forall q | q in j.reconciliations
      ensures q in Reopen(j).reconciliations && WitnessFits(Reopen(j), q)
    {
      ReopenWitness(j, q);
    }
  }

  lemma ReopenHistorical(j: Journal)
    requires Historical(j)
    ensures Historical(Reopen(j))
  {
  }

  lemma ReopenPair(j: Journal, p: Pair)
    ensures var k := Reopen(j);
            && Started(k, p) == Started(j, p)
            && (Started(j, p) ==> LastOf(k, p) == Interrupt(LastOf(j, p)))
            && ResourcesOf(k, p) == ResourcesOf(j, p)
            && Live(k, p) == Live(j, p)
  {
    hide Destinations;
  }

  lemma ReopenLeases(j: Journal)
    requires Leased(j)
    ensures Leased(Reopen(j))
  {
    assert Reopen(j).leases == j.leases;
    forall p
      ensures Live(Reopen(j), p) == Live(j, p) && ResourcesOf(Reopen(j), p) == ResourcesOf(j, p)
    {
      hide Live, ResourcesOf, Reopen, Leased;
      ReopenPair(j, p);
    }
    hide Live, ResourcesOf, Reopen;
  }

  lemma ReopenClosures(j: Journal)
    requires Halts(j) && Retires(j) && HandsOver(j)
    ensures Halts(Reopen(j)) && Retires(Reopen(j)) && HandsOver(Reopen(j)) && Quiet(Reopen(j))
  {
    var k := Reopen(j);
    assert Quiet(k);
    ReopenRows(j);
    forall p
      ensures Started(k, p) == Started(j, p) && (Started(j, p) ==> LastOf(k, p) == Interrupt(LastOf(j, p)))
      ensures ResourcesOf(k, p) == ResourcesOf(j, p)
    {
      hide Live, ResourcesOf, Reopen, Started, LastOf, Halts, Retires, HandsOver;
      ReopenPair(j, p);
    }
    hide Reopen, Started, LastOf, ResourcesOf, Destinations, Quiet;
    forall p | p in k.haltedPairs
      ensures HaltFits(k, p)
    {
      assert HaltFits(j, p);
    }
    forall p | p in k.retirements
      ensures RetirementFits(k, p)
    {
      assert RetirementFits(j, p);
    }
    HandsOverRows(j, k);
  }

  lemma ReopenKeeps(j: Journal)
    requires Inv(j)
    ensures Inv(Reopen(j))
  {
    hide Keyed, Contiguous, Requested, Bound, InOrder, Receipted, Witnessed, Leased, Halts, Retires, HandsOver, Quiet, Reopen;
    ReopenTables(j);
    ReopenReceipts(j);
    ReopenWitnesses(j);
    ReopenLeases(j);
    ReopenClosures(j);
  }
}
