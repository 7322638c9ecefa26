/** Budget conservation: what a grant starts with is what remains plus what was reserved plus what was charged. */
module Budgets {
  import opened Wrappers
  import opened Domain
  import opened Journal
  import opened Actions
  import opened Invariant
  import opened Preservation
  import opened Reconciling
  import opened Closing
  import opened Admitting
  import opened Evolution
  import opened Histories
  import opened Isolation

  // ----- Sums of budgets over a table -----

  ghost function Sum<K>(m: map<K, Budget>): Budget
    decreases |m|
  {
    if m == map[] then ZERO
    else
      var k :| k in m;
      Plus(m[k], Sum(m - {k}))
  }

  lemma {:induction false} SumRemove<K>(m: map<K, Budget>, k: K)
    requires k in m
    ensures Sum(m) == Plus(m[k], Sum(m - {k}))
    decreases |m|
  {
    var x :| x in m && Sum(m) == Plus(m[x], Sum(m - {x}));
    if x == k {
    } else {
      SumRemove(m - {x}, k);
      SumRemove(m - {k}, x);
      assert m - {x} - {k} == m - {k} - {x};
      var rest := Sum(m - {x} - {k});
      assert Sum(m - {x}) == Plus(m[k], rest);
      assert Sum(m - {k}) == Plus(m[x], rest);
      assert Plus(m[x], Plus(m[k], rest)) == Plus(m[k], Plus(m[x], rest));
    }
  }

  lemma SumAdd<K>(m: map<K, Budget>, k: K, b: Budget)
    requires k !in m
    ensures Sum(m[k := b]) == Plus(Sum(m), b)
  {
    SumRemove(m[k := b], k);
    assert m[k := b] - {k} == m;
  }

  lemma SumReplace<K>(m: map<K, Budget>, k: K, b: Budget)
    requires k in m
    ensures Plus(Sum(m[k := b]), m[k]) == Plus(Sum(m), b)
  {
    SumRemove(m, k);
    SumRemove(m[k := b], k);
    assert m[k := b] - {k} == m - {k};
  }

  /** Each entry is at most the entry under the same key: so are the sums. */
  ghost predicate Below<K(!new)>(m: map<K, Budget>, n: map<K, Budget>) {
    forall k | k in m :: k in n && m[k].FitsWithin(n[k])
  }

  lemma {:induction false} SumBelow<K(!new)>(m: map<K, Budget>, n: map<K, Budget>)
    requires Below(m, n)
    ensures Sum(m).FitsWithin(Sum(n))
    decreases |m|
  {
    if k :| k in m {
      SumRemove(m, k);
      SumRemove(n, k);
      SumBelow(m - {k}, n - {k});
    }
  }

  // ----- The books of one grant -----

  ghost function Reservations(j: Journal, g: GrantId): map<AttemptId, Budget> {
    map id | id in j.attempts && j.attempts[id].grant == g :: j.attempts[id].reserved
  }

  ghost function ChargeFor(j: Journal, a: AttemptRecord): Budget {
    match ConfigurationCharge(j, a)
    case Some(charge) => charge
    case None => ZERO
  }

  ghost function Charges(j: Journal, g: GrantId): map<RequestId, Budget> {
    map q | q in j.reconciliations && j.reconciliations[q].attempt in j.attempts && j.attempts[j.reconciliations[q].attempt].grant == g ::
      ChargeFor(j, j.attempts[j.reconciliations[q].attempt])
  }

  /** Remaining budget, plus every attempt's reservation, plus every reconciliation's configuration charge. */
  ghost function Account(j: Journal, g: GrantId): Budget
    requires g in j.grants
  {
    Plus(Plus(j.grants[g].remaining, Sum(Reservations(j, g))), Sum(Charges(j, g)))
  }

  ghost predicate SameIds(j: Journal, k: Journal) {
    k.attempts.Keys == j.attempts.Keys && forall id | id in j.attempts :: SameIdentity(j.attempts[id], k.attempts[id])
  }

  ghost predicate PlansKept(j: Journal, k: Journal) {
    forall id | id in j.attempts ::
      j.attempts[id].plan in j.plans && j.attempts[id].plan in k.plans && k.plans[j.attempts[id].plan] == j.plans[j.attempts[id].plan]
  }

  ghost predicate SameWitnesses(j: Journal, k: Journal) {
    k.reconciliations.Keys == j.reconciliations.Keys
    && forall q | q in j.reconciliations :: k.reconciliations[q].attempt == j.reconciliations[q].attempt
  }

  ghost predicate SameRemaining(j: Journal, k: Journal) {
    forall g | g in j.grants :: g in k.grants && k.grants[g].remaining == j.grants[g].remaining
  }

  /** A step that touches no budget at all. */
  ghost predicate SameBooks(j: Journal, k: Journal) {
    SameIds(j, k) && PlansKept(j, k) && SameWitnesses(j, k) && SameRemaining(j, k) && k.steps == j.steps
  }

  lemma ReservationsKept(j: Journal, k: Journal, g: GrantId)
    requires SameIds(j, k)
    ensures Reservations(k, g) == Reservations(j, g)
  {
  }

  lemma ChargesKept(j: Journal, k: Journal, g: GrantId)
    requires SameIds(j, k) && PlansKept(j, k) && SameWitnesses(j, k)
    ensures Charges(k, g) == Charges(j, g)
  {
    SameIdsCharge(j, k);
    hide ChargeFor, SameIds, PlansKept;
  }

  lemma BooksKept(j: Journal, k: Journal, g: GrantId)
    requires SameBooks(j, k) && g in j.grants
    ensures g in k.grants && Account(k, g) == Account(j, g)
  {
    hide SameIds, PlansKept, SameWitnesses, Reservations, Charges;
    ReservationsKept(j, k, g);
    ChargesKept(j, k, g);
  }

  // ----- What the recorded steps cost -----

  /** An attempt's share of its plan's reservation: its own step's cost, and for the last recorded step
      the cost of every step still to come as well. */
  ghost function Weight(j: Journal, a: AttemptRecord): Budget {
    if a.plan !in j.plans || a.operationIndex >= |j.plans[a.plan].operations| then ZERO
    else if a.operationIndex + 1 == |Listing(j, a.Owner())| then TotalCost(j.plans[a.plan].operations[a.operationIndex..])
    else j.plans[a.plan].operations[a.operationIndex].WorstCaseBudget()
  }

  ghost function Weights(j: Journal, g: GrantId): map<AttemptId, Budget> {
    map id | id in j.attempts && j.attempts[id].grant == g :: Weight(j, j.attempts[id])
  }

  /** Reservations pay for the recorded steps and the steps still to come, exactly. */
  ghost predicate Funded(j: Journal, g: GrantId) {
    Sum(Weights(j, g)) == Sum(Reservations(j, g))
  }

  lemma WeightsKept(j: Journal, k: Journal, g: GrantId)
    requires SameIds(j, k) && PlansKept(j, k) && k.steps == j.steps
    ensures Weights(k, g) == Weights(j, g)
  {
    forall id | id in j.attempts
      ensures Weight(k, k.attempts[id]) == Weight(j, j.attempts[id])
    {
      assert SameIdentity(j.attempts[id], k.attempts[id]);
      hide TotalCost;
    }
    hide Weight, PlansKept, SameIdentity;
  }

  lemma FundedKept(j: Journal, k: Journal, g: GrantId)
    requires SameBooks(j, k) && Funded(j, g)
    ensures Funded(k, g)
  {
    hide SameIds, PlansKept, SameWitnesses, SameRemaining, Reservations, Weights;
    ReservationsKept(j, k, g);
    WeightsKept(j, k, g);
  }

  // ----- Admitting an attempt -----

  /** The grant of `a` pays for the reservation; other grants are untouched. */
  ghost predicate Pays(j: Journal, k: Journal, g: GrantId, cost: Budget) {
    && g in j.grants && g in k.grants
    && Plus(k.grants[g].remaining, cost) == j.grants[g].remaining
    && forall h | h in j.grants && h != g :: h in k.grants && k.grants[h].remaining == j.grants[h].remaining
  }

  ghost predicate WitnessesOwned(j: Journal) {
    forall q | q in j.reconciliations :: j.reconciliations[q].attempt in j.attempts
  }

  lemma AdmitReservations(j: Journal, k: Journal, a: AttemptRecord, g: GrantId)
    requires a.id !in j.attempts && k.attempts == j.attempts[a.id := a]
    ensures Reservations(k, g) == if a.grant == g then Reservations(j, g)[a.id := a.reserved] else Reservations(j, g)
    ensures a.id !in Reservations(j, g)
  {
  }

  lemma AdmitCharges(j: Journal, k: Journal, a: AttemptRecord, g: GrantId)
    requires a.id !in j.attempts && k.attempts == j.attempts[a.id := a] && WitnessesOwned(j)
    requires k.reconciliations == j.reconciliations && k.plans == j.plans
    ensures Charges(k, g) == Charges(j, g)
  {
    forall b
      ensures ChargeFor(k, b) == ChargeFor(j, b)
    {
    }
    hide ChargeFor;
  }

  lemma AdmitAccount(j: Journal, k: Journal, a: AttemptRecord, g: GrantId)
    requires a.id !in j.attempts && k.attempts == j.attempts[a.id := a] && WitnessesOwned(j)
    requires k.reconciliations == j.reconciliations && k.plans == j.plans
    requires Pays(j, k, a.grant, a.reserved) && g in j.grants
    ensures g in k.grants && Account(k, g) == Account(j, g)
  {
    hide Reservations, Charges, WitnessesOwned;
    AdmitReservations(j, k, a, g);
    AdmitCharges(j, k, a, g);
    if a.grant == g { SumAdd(Reservations(j, g), a.id, a.reserved); }
  }

  lemma NextIsLength(j: Journal, a: AttemptRecord)
    requires Contiguous(j) && NextIndex(j, a.Owner()) == Ok(a.operationIndex)
    ensures a.operationIndex == |Listing(j, a.Owner())|
  {
  }

  /** After an append only the previously last attempt of the pair weighs differently. */
  lemma WeightAfterAppend(j: Journal, k: Journal, a: AttemptRecord, id: AttemptId)
    requires Contiguous(j) && a.id !in j.attempts && id in j.attempts && k.plans == j.plans
    requires k.steps == j.steps[a.Owner() := Listing(j, a.Owner()) + [a.id]]
    ensures Weight(k, j.attempts[id]) ==
            if j.attempts[id].Owner() == a.Owner() && j.attempts[id].operationIndex + 1 == |Listing(j, a.Owner())|
               && a.plan in j.plans && j.attempts[id].operationIndex < |j.plans[a.plan].operations|
            then j.plans[a.plan].operations[j.attempts[id].operationIndex].WorstCaseBudget()
            else Weight(j, j.attempts[id])
  {
    hide TotalCost;
  }

  lemma AppendedWeight(j: Journal, k: Journal, a: AttemptRecord)
    requires a.operationIndex == |Listing(j, a.Owner())| && k.plans == j.plans
    requires k.steps == j.steps[a.Owner() := Listing(j, a.Owner()) + [a.id]]
    requires a.plan in j.plans && a.operationIndex < |j.plans[a.plan].operations|
    ensures Weight(k, a) == TotalCost(j.plans[a.plan].operations[a.operationIndex..])
  {
    hide TotalCost;
  }

  lemma CostSplits(operations: seq<PlannedOperation>, n: nat)
    requires 0 < n < |operations|
    ensures TotalCost(operations[n - 1..]) == Plus(operations[n - 1].WorstCaseBudget(), TotalCost(operations[n..]))
  {
    assert operations[n - 1..][1..] == operations[n..];
  }

  ghost predicate AppendsStep(j: Journal, k: Journal, a: AttemptRecord) {
    && a.id !in j.attempts && k.attempts == j.attempts[a.id := a] && k.plans == j.plans
    && k.steps == j.steps[a.Owner() := Listing(j, a.Owner()) + [a.id]]
    && a.operationIndex == |Listing(j, a.Owner())|
    && a.plan in j.plans && a.operationIndex < |j.plans[a.plan].operations|
    && a.reserved == if a.operationIndex == 0 then TotalCost(j.plans[a.plan].operations) else ZERO
  }

  lemma OtherGrantFunded(j: Journal, k: Journal, a: AttemptRecord, g: GrantId)
    requires Contiguous(j) && AppendsStep(j, k, a) && a.grant != g
    ensures Weights(k, g) == Weights(j, g)
  {
    forall id | id in j.attempts && j.attempts[id].grant == g
      ensures Weight(k, j.attempts[id]) == Weight(j, j.attempts[id])
    {
      WeightAfterAppend(j, k, a, id);
    }
    hide Weight, TotalCost, Contiguous, Listing;
  }

  lemma FirstStepWeights(j: Journal, k: Journal, a: AttemptRecord)
    requires Contiguous(j) && AppendsStep(j, k, a) && a.operationIndex == 0
    ensures Weights(k, a.grant) == Weights(j, a.grant)[a.id := a.reserved]
  {
    forall id | id in j.attempts
      ensures Weight(k, j.attempts[id]) == Weight(j, j.attempts[id])
    {
      WeightAfterAppend(j, k, a, id);
    }
    AppendedWeight(j, k, a);
    assert j.plans[a.plan].operations[0..] == j.plans[a.plan].operations;
    hide Weight, TotalCost, Contiguous, Listing;
  }

  lemma LaterStepWeights(j: Journal, k: Journal, a: AttemptRecord, last: AttemptId)
    requires Contiguous(j) && AppendsStep(j, k, a) && a.operationIndex > 0 && last == Listing(j, a.Owner())[a.operationIndex - 1]
    ensures last in Weights(j, a.grant)
    ensures Weights(j, a.grant)[last] == TotalCost(j.plans[a.plan].operations[a.operationIndex - 1..])
    ensures Weights(k, a.grant) == Weights(j, a.grant)[last := j.plans[a.plan].operations[a.operationIndex - 1].WorstCaseBudget()]
                                   [a.id := TotalCost(j.plans[a.plan].operations[a.operationIndex..])]
  {
    hide Weight, TotalCost, Contiguous, Listing, Weights;
    var operations := j.plans[a.plan].operations;
    LastListed(j, a.Owner());
    AppendedWeight(j, k, a);
    LastWeight(j, a, last);
    forall id | id in j.attempts
      ensures Weight(k, j.attempts[id]) == if id == last then operations[a.operationIndex - 1].WorstCaseBudget() else Weight(j, j.attempts[id])
    {
      WeightLater(j, k, a, last, id);
    }
    WeightsChange(j, k, a, last, operations[a.operationIndex - 1].WorstCaseBudget(), TotalCost(operations[a.operationIndex..]));
  }

  lemma WeightsChange(j: Journal, k: Journal, a: AttemptRecord, last: AttemptId, cost: Budget, rest: Budget)
    requires a.id !in j.attempts && k.attempts == j.attempts[a.id := a]
    requires last in j.attempts && j.attempts[last].grant == a.grant
    requires forall id | id in j.attempts :: Weight(k, j.attempts[id]) == if id == last then cost else Weight(j, j.attempts[id])
    requires Weight(k, a) == rest
    ensures last in Weights(j, a.grant) && Weights(j, a.grant)[last] == Weight(j, j.attempts[last])
    ensures Weights(k, a.grant) == Weights(j, a.grant)[last := cost][a.id := rest]
  {
    hide Weight;
  }

  lemma LastWeight(j: Journal, a: AttemptRecord, last: AttemptId)
    requires a.plan in j.plans && 0 < a.operationIndex < |j.plans[a.plan].operations| && a.operationIndex == |Listing(j, a.Owner())|
    requires last in j.attempts && j.attempts[last].Owner() == a.Owner() && j.attempts[last].operationIndex + 1 == a.operationIndex
    ensures Weight(j, j.attempts[last]) == TotalCost(j.plans[a.plan].operations[a.operationIndex - 1..])
  {
    hide TotalCost, Listing;
  }

  lemma WeightLater(j: Journal, k: Journal, a: AttemptRecord, last: AttemptId, id: AttemptId)
    requires Contiguous(j) && AppendsStep(j, k, a) && a.operationIndex > 0 && id in j.attempts
    requires last in j.attempts && j.attempts[last].Owner() == a.Owner() && j.attempts[last].operationIndex + 1 == a.operationIndex
    ensures Weight(k, j.attempts[id]) ==
            if id == last then j.plans[a.plan].operations[a.operationIndex - 1].WorstCaseBudget() else Weight(j, j.attempts[id])
  {
    WeightAfterAppend(j, k, a, id);
    if id != last && j.attempts[id].Owner() == a.Owner() { OneLast(j, id, last); }
    hide Weight, TotalCost, Contiguous, Listing;
  }

  lemma LastListed(j: Journal, p: Pair)
    requires Contiguous(j) && Listing(j, p) != []
    ensures var id := Listing(j, p)[|Listing(j, p)| - 1];
            id in j.attempts && j.attempts[id].Owner() == p && j.attempts[id].operationIndex + 1 == |Listing(j, p)|
  {
  }

  lemma OneLast(j: Journal, id: AttemptId, last: AttemptId)
    requires Contiguous(j) && id in j.attempts && last in j.attempts && id != last && j.attempts[id].Owner() == j.attempts[last].Owner()
    ensures j.attempts[id].operationIndex != j.attempts[last].operationIndex
  {
  }

  lemma AdmitFunded(j: Journal, k: Journal, a: AttemptRecord, g: GrantId)
    requires Contiguous(j) && AppendsStep(j, k, a) && Funded(j, g)
    ensures Funded(k, g)
  {
    AdmitReservations(j, k, a, g);
    hide Contiguous, Listing, Weights, Reservations, TotalCost;
    if a.grant != g {
      OtherGrantFunded(j, k, a, g);
    } else {
      SumAdd(Reservations(j, g), a.id, a.reserved);
      AppendedSum(j, k, a);
    }
  }

  lemma AppendedSum(j: Journal, k: Journal, a: AttemptRecord)
    requires Contiguous(j) && AppendsStep(j, k, a)
    ensures Sum(Weights(k, a.grant)) == Plus(Sum(Weights(j, a.grant)), a.reserved)
  {
    hide Contiguous, Listing, Weights, TotalCost, Sum, AppendsStep;
    AppendedIsNew(j, k, a);
    if a.operationIndex == 0 {
      FirstStepWeights(j, k, a);
      SumAdd(Weights(j, a.grant), a.id, a.reserved);
    } else {
      LaterStepSum(j, k, a);
      LaterStepIsFree(j, k, a);
    }
  }

  lemma AppendedIsNew(j: Journal, k: Journal, a: AttemptRecord)
    requires AppendsStep(j, k, a)
    ensures a.id !in Weights(j, a.grant)
  {
    hide Contiguous, Listing, TotalCost;
  }

  lemma LaterStepIsFree(j: Journal, k: Journal, a: AttemptRecord)
    requires AppendsStep(j, k, a) && a.operationIndex > 0
    ensures a.reserved == ZERO
  {
    hide Contiguous, Listing, TotalCost;
  }

  lemma LaterStepSum(j: Journal, k: Journal, a: AttemptRecord)
    requires Contiguous(j) && AppendsStep(j, k, a) && a.operationIndex > 0 && a.id !in Weights(j, a.grant)
    ensures Sum(Weights(k, a.grant)) == Sum(Weights(j, a.grant))
  {
    var operations := j.plans[a.plan].operations;
    var last := Listing(j, a.Owner())[a.operationIndex - 1];
    hide Contiguous, Listing, Weights, TotalCost, PlannedOperation.WorstCaseBudget;
    LaterStepWeights(j, k, a, last);
    CostSplits(operations, a.operationIndex);
    hide AppendsStep;
    SplitSum(Weights(j, a.grant), last, a.id, operations[a.operationIndex - 1].WorstCaseBudget(), TotalCost(operations[a.operationIndex..]));
  }

  /** Splitting one entry in two keeps the sum. */
  lemma SplitSum<K>(m: map<K, Budget>, k: K, l: K, cost: Budget, rest: Budget)
    requires k in m && l !in m && m[k] == Plus(cost, rest)
    ensures Sum(m[k := cost][l := rest]) == Sum(m)
  {
    SumReplace(m, k, cost);
    SumAdd(m[k := cost], l, rest);
  }

  /** Accounts of existing grants are unchanged, and reservations still pay for the steps. */
  ghost predicate Balanced(j: Journal, k: Journal, g: GrantId) {
    && (g in j.grants ==> g in k.grants && Account(k, g) == Account(j, g))
    && (Funded(j, g) ==> Funded(k, g))
  }

  // ----- Opening a witness -----

  /** Every attempt is charged, and granted, as before. */
  ghost predicate SameCharges(j: Journal, k: Journal) {
    && k.attempts.Keys == j.attempts.Keys
    && forall id | id in j.attempts ::
         k.attempts[id].grant == j.attempts[id].grant && ChargeFor(k, k.attempts[id]) == ChargeFor(j, j.attempts[id])
  }

  lemma SameIdsCharge(j: Journal, k: Journal)
    requires SameIds(j, k) && PlansKept(j, k)
    ensures SameCharges(j, k)
  {
    forall id | id in j.attempts
      ensures k.attempts[id].grant == j.attempts[id].grant && ChargeFor(k, k.attempts[id]) == ChargeFor(j, j.attempts[id])
    {
      assert SameIdentity(j.attempts[id], k.attempts[id]);
    }
    hide ChargeFor, PlansKept, SameIdentity;
  }

  ghost predicate OneWitnessMore(j: Journal, k: Journal, id: AttemptId, request: RequestId) {
    && request !in j.reconciliations && request in k.reconciliations && k.reconciliations[request].attempt == id
    && k.reconciliations == j.reconciliations[request := k.reconciliations[request]]
  }

  lemma OpeningCharges(j: Journal, k: Journal, id: AttemptId, request: RequestId, g: GrantId)
    requires SameCharges(j, k) && OneWitnessMore(j, k, id, request) && id in j.attempts
    ensures request !in Charges(j, g)
    ensures Charges(k, g) == if j.attempts[id].grant == g then Charges(j, g)[request := ChargeFor(j, j.attempts[id])] else Charges(j, g)
  {
    hide ChargeFor;
    var before, after := Charges(j, g), Charges(k, g);
    if j.attempts[id].grant == g {
      assert after.Keys == before.Keys + {request};
    } else {
      assert after.Keys == before.Keys;
    }
  }

  lemma BoundPlans(j: Journal)
    requires Bound(j)
    ensures forall id | id in j.attempts :: j.attempts[id].plan in j.plans && j.attempts[id].grant in j.grants
  {
    forall id | id in j.attempts
      ensures j.attempts[id].plan in j.plans && j.attempts[id].grant in j.grants
    {
      assert BoundTo(j, j.attempts[id]);
    }
  }

  lemma OpeningBalances(j: Journal, k: Journal, id: AttemptId, request: RequestId, g: GrantId)
    requires OneWitnessMore(j, k, id, request) && id in j.attempts && SameIds(j, k) && PlansKept(j, k) && k.steps == j.steps
    requires Pays(j, k, j.attempts[id].grant, ChargeFor(j, j.attempts[id]))
    ensures Balanced(j, k, g)
  {
    hide OneWitnessMore, SameIds, PlansKept, Reservations, Charges, Weights, ChargeFor, SameCharges, Account, Pays;
    ReservationsKept(j, k, g);
    WeightsKept(j, k, g);
    if g in j.grants { OpeningAccount(j, k, id, request, g); }
  }

  lemma OpeningAccount(j: Journal, k: Journal, id: AttemptId, request: RequestId, g: GrantId)
    requires OneWitnessMore(j, k, id, request) && id in j.attempts && SameIds(j, k) && PlansKept(j, k) && g in j.grants
    requires Pays(j, k, j.attempts[id].grant, ChargeFor(j, j.attempts[id]))
    ensures g in k.grants && Account(k, g) == Account(j, g)
  {
    var a := j.attempts[id];
    hide OneWitnessMore, SameIds, PlansKept, Reservations, Charges, ChargeFor, SameCharges, Pays, Account;
    SameIdsCharge(j, k);
    OpeningCharges(j, k, id, request, g);
    ReservationsKept(j, k, g);
    if a.grant == g { SumAdd(Charges(j, g), request, ChargeFor(j, a)); }
    PayingAccount(j, k, a.grant, ChargeFor(j, a), g);
  }

  lemma PayingAccount(j: Journal, k: Journal, payer: GrantId, charge: Budget, g: GrantId)
    requires Pays(j, k, payer, charge) && g in j.grants && Reservations(k, g) == Reservations(j, g)
    requires Sum(Charges(k, g)) == if payer == g then Plus(Sum(Charges(j, g)), charge) else Sum(Charges(j, g))
    ensures g in k.grants && Account(k, g) == Account(j, g)
  {
    hide Reservations, Charges;
  }

  // ----- Every action balances -----

  lemma RowsKeepBooks(j: Journal, k: Journal)
    requires SameRows(j, k) && Bound(j)
    ensures SameIds(j, k) && PlansKept(j, k) && k.steps == j.steps
  {
    BoundPlans(j);
    hide Bound, SameIdentity;
  }

  lemma SameBooksBalance(j: Journal, k: Journal, g: GrantId)
    requires SameRows(j, k) && Bound(j) && SameWitnesses(j, k) && SameRemaining(j, k)
    ensures Balanced(j, k, g)
  {
    RowsKeepBooks(j, k);
    hide SameRows, Bound, SameIds, PlansKept, SameWitnesses, Account, Funded;
    if g in j.grants { BooksKept(j, k, g); }
    if Funded(j, g) { FundedKept(j, k, g); }
  }

  lemma InvBooks(j: Journal)
    requires Inv(j)
    ensures Keyed(j) && Contiguous(j) && Bound(j) && Witnessed(j)
  {
  }

  lemma SettlingBalances(j: Journal, k: Journal, id: AttemptId, g: GrantId)
    requires Settles(j, k, id) && Bound(j)
    ensures Balanced(j, k, g)
  {
    assert SameRows(j, k) && SameWitnesses(j, k) && SameRemaining(j, k) by {
      hide Bound;
    }
    hide Settles, SameRows, Bound, SameWitnesses, SameRemaining, Balanced;
    SameBooksBalance(j, k, g);
  }

  lemma ClosingBalances(j: Journal, k: Journal, request: RequestId, g: GrantId)
    requires ClosesWitness(j, k, request) && Bound(j)
    ensures Balanced(j, k, g)
  {
    assert SameRows(j, k) && SameWitnesses(j, k) && SameRemaining(j, k) by {
      hide Bound, FinalStep, ReleaseFrom;
    }
    hide ClosesWitness, SameRows, Bound, SameWitnesses, SameRemaining, Balanced;
    SameBooksBalance(j, k, g);
  }

  lemma HaltsTables(j: Journal, k: Journal, p: Pair)
    requires HaltsPair(j, k, p)
    ensures SameWitnesses(j, k) && SameRemaining(j, k)
  {
    hide RejectIntentsOf, ReleaseFrom, LeaseKeys, Destinations, Abandonable;
  }

  lemma HaltingBalances(j: Journal, k: Journal, p: Pair, g: GrantId)
    requires HaltsPair(j, k, p) && Bound(j)
    ensures Balanced(j, k, g)
  {
    HaltsTables(j, k, p);
    hide HaltsPair, SameRows, Bound, SameWitnesses, SameRemaining, Balanced;
    HaltsRows(j, k, p);
    SameBooksBalance(j, k, g);
  }

  lemma ReopeningBalances(j: Journal, g: GrantId)
    requires Bound(j)
    ensures Balanced(j, Reopen(j), g)
  {
    var k := Reopen(j);
    assert SameRows(j, k) && SameWitnesses(j, k) && SameRemaining(j, k) by { hide Bound; }
    hide Reopen, SameRows, Bound, SameWitnesses, SameRemaining, Balanced;
    SameBooksBalance(j, k, g);
  }

  /** Saving records, runs and revocations touch no budget of an existing grant. */
  lemma RecordsRemaining(j: Journal, action: Action)
    requires Keyed(j) && TouchesRecords(action)
    ensures SameRemaining(j, Apply(j, action))
  {
    match action {
      case DoRevokeGrant(id) =>
        hide RevokeGrant;
        RevokingRemaining(j, id);
      case DoSaveGrant(grant) =>
        hide SaveGrant;
        SavingRemaining(j, grant);
      case _ =>
        hide SameRemaining, Apply;
        GrantsKept(j, action);
        SameGrants(j, Apply(j, action));
    }
  }

  lemma GrantsKept(j: Journal, action: Action)
    requires TouchesRecords(action) && !action.DoRevokeGrant? && !action.DoSaveGrant?
    ensures Apply(j, action).grants == j.grants
  {
    hide CompletedPrefix, RevokeGrant, SaveGrant;
  }

  lemma SameGrants(j: Journal, k: Journal)
    requires k.grants == j.grants
    ensures SameRemaining(j, k)
  {
  }

  lemma SavingRemaining(j: Journal, grant: Grant)
    ensures SameRemaining(j, After(j, SaveGrant(j, grant)))
  {
    assert After(j, SaveGrant(j, grant)).grants == if grant.id in j.grants then j.grants else j.grants[grant.id := grant];
    hide SaveGrant;
  }

  lemma RevokingRemaining(j: Journal, id: GrantId)
    requires Keyed(j)
    ensures SameRemaining(j, After(j, RevokeGrant(j, id)))
  {
    if id in j.grants {
      var revoked := j.grants[id].(revoked := true);
      assert RevokeGrant(j, id).Ok? && RevokeGrant(j, id).value.journal.grants == j.grants[id := revoked];
      hide RevokeGrant;
    }
  }

  lemma ExtendingBooks(j: Journal, k: Journal)
    requires Extends(j, k) && Bound(j) && SameRemaining(j, k)
    ensures SameBooks(j, k)
  {
    BoundPlans(j);
    hide Bound, Keyed, SameRemaining;
  }

  lemma RecordingBalances(j: Journal, action: Action, g: GrantId)
    requires Inv(j) && Admissible(action) && TouchesRecords(action)
    ensures Balanced(j, Apply(j, action), g)
  {
    var k := Apply(j, action);
    hide Inv, Keyed, Contiguous, Witnessed, Apply, Admissible, Bound, Extends, SameBooks, Account, Funded, TouchesRecords;
    InvBooks(j);
    RecordsRemaining(j, action);
    RecordsExtend(j, action);
    ExtendingBooks(j, k);
    if g in j.grants { BooksKept(j, k, g); }
    if Funded(j, g) { FundedKept(j, k, g); }
  }

  // ----- Paying steps -----

  lemma WitnessedOwned(j: Journal)
    requires Witnessed(j)
    ensures WitnessesOwned(j)
  {
    hide Historical;
    forall q | q in j.reconciliations
      ensures j.reconciliations[q].attempt in j.attempts
    {
      assert WitnessFits(j, q);
    }
  }

  lemma ReservedStep(j: Journal, a: AttemptRecord, remaining: Budget)
    requires a.grant in j.grants && Plus(remaining, a.reserved) == j.grants[a.grant].remaining && a.id !in j.attempts
    ensures var k := ReservedJournal(j, a, remaining);
            && Pays(j, k, a.grant, a.reserved) && k.attempts == j.attempts[a.id := a] && k.plans == j.plans
            && k.reconciliations == j.reconciliations && k.steps == j.steps[a.Owner() := Listing(j, a.Owner()) + [a.id]]
  {
  }

  lemma HandedStep(j: Journal, a: AttemptRecord, run: PlanRun, recovery: RecoveryTakeover, owners: set<Pair>, remaining: Budget)
    requires a.grant in j.grants && Plus(remaining, a.reserved) == j.grants[a.grant].remaining && a.id !in j.attempts
    ensures var k := HandedJournal(j, a, run, recovery, owners, remaining);
            && Pays(j, k, a.grant, a.reserved) && k.attempts == j.attempts[a.id := a] && k.plans == j.plans
            && k.reconciliations == j.reconciliations && k.steps == j.steps[a.Owner() := Listing(j, a.Owner()) + [a.id]]
  {
  }

  lemma AdmittingBalances(j: Journal, k: Journal, a: AttemptRecord, g: GrantId)
    requires Contiguous(j) && WitnessesOwned(j) && Pays(j, k, a.grant, a.reserved) && BoundTo(k, a)
    requires a.id !in j.attempts && k.attempts == j.attempts[a.id := a] && k.plans == j.plans
    requires k.reconciliations == j.reconciliations && k.steps == j.steps[a.Owner() := Listing(j, a.Owner()) + [a.id]]
    requires a.operationIndex == |Listing(j, a.Owner())|
    ensures Balanced(j, k, g)
  {
    assert AppendsStep(j, k, a);
    hide Contiguous, WitnessesOwned, BoundTo, Pays, Account, Funded, AppendsStep;
    if g in j.grants { AdmitAccount(j, k, a, g); }
    if Funded(j, g) { AdmitFunded(j, k, a, g); }
  }

  lemma ReservingBalances(j: Journal, a: AttemptRecord, snapshot: AdmissionSnapshot, now: int, g: GrantId)
    requires Inv(j) && Proposal(a, snapshot) && Reserve(j, a, snapshot, now).Ok? && AttemptForRequest(j, a.request) == None
    ensures Balanced(j, Reserve(j, a, snapshot, now).value.journal, g)
  {
    hide Inv, Keyed, Contiguous, Bound, Witnessed, WitnessesOwned, Proposal, Reserve, AttemptForRequest, AdmissionContext, BoundTo;
    hide Available, NextIndex, ReservedJournal, Balanced, Pays, Listing;
    InvBooks(j);
    WitnessedOwned(j);
    ReserveShape(j, a, snapshot, now);
    NextIsLength(j, a);
    var remaining := j.grants[a.grant].remaining.CheckedSub(a.reserved).value;
    ReservedStep(j, a, remaining);
    BoundInReserved(j, a, snapshot, now, remaining);
    AdmittingBalances(j, ReservedJournal(j, a, remaining), a, g);
  }

  lemma BoundInReserved(j: Journal, a: AttemptRecord, snapshot: AdmissionSnapshot, now: int, remaining: Budget)
    requires Proposal(a, snapshot) && AdmissionContext(j, a, snapshot, now).Ok? && a.grant in j.grants
    ensures BoundTo(ReservedJournal(j, a, remaining), a)
  {
    hide Proposal, AdmissionContext, BoundTo;
    AdmissionBinds(j, ReservedJournal(j, a, remaining), a, snapshot, now);
  }

  lemma HandingBalances(j: Journal, a: AttemptRecord, snapshot: AdmissionSnapshot, run: PlanRun, recovery: RecoveryTakeover, now: int, g: GrantId)
    requires Inv(j) && Proposal(a, snapshot) && a.operationIndex == 0
    requires TakeOver(j, a, snapshot, run, recovery, now).Ok? && !RepeatedTakeOver(j, a, recovery)
    ensures Balanced(j, TakeOver(j, a, snapshot, run, recovery, now).value.journal, g)
  {
    hide Inv, Keyed, Contiguous, Bound, Witnessed, WitnessesOwned, Proposal, TakeOver, RepeatedTakeOver, AdmissionContext, BoundTo;
    hide CheckSources, HeldBy, HandedJournal, Balanced, Pays, Listing;
    InvBooks(j);
    WitnessedOwned(j);
    TakeOverShape(j, a, snapshot, run, recovery, now);
    var remaining := j.grants[a.grant].remaining.CheckedSub(a.reserved).value;
    var owners := CheckSources(j, recovery.unresolved, a).value;
    HandedStep(j, a, run, recovery, owners, remaining);
    HandedRecords(j, a, run, recovery, owners, remaining);
    AdmissionBinds(j, HandedJournal(j, a, run, recovery, owners, remaining), a, snapshot, now);
    AdmittingBalances(j, HandedJournal(j, a, run, recovery, owners, remaining), a, g);
  }

  lemma ClaimPays(j: Journal, id: AttemptId, request: RequestId, principal: PrincipalId, now: int)
    requires Keyed(j) && request !in j.reconciliations && ClaimBySupervisor(j, id, request, principal, now).Ok?
    ensures id in j.attempts
    ensures Pays(j, ClaimBySupervisor(j, id, request, principal, now).value.journal, j.attempts[id].grant, ChargeFor(j, j.attempts[id]))
  {
    hide Keyed, ClaimReconciliation, ActivelyReconciled, OwnsAll, NextOrdinal, ConfigurationCharge;
    ClaimShape(j, id, request, principal, ConfigurationCharge(j, j.attempts[id]), now);
    hide HistoryOf;
  }

  lemma ClaimingBalances(j: Journal, id: AttemptId, request: RequestId, principal: PrincipalId, now: int, g: GrantId)
    requires Inv(j) && request !in j.reconciliations && ClaimBySupervisor(j, id, request, principal, now).Ok?
    ensures Balanced(j, ClaimBySupervisor(j, id, request, principal, now).value.journal, g)
  {
    var k := ClaimBySupervisor(j, id, request, principal, now).value.journal;
    hide Inv, Keyed, Contiguous, Bound, Witnessed, ClaimReconciliation, OpensWitness, OneWitnessMore, Pays, SameIds, PlansKept, SameRows;
    hide Account, Funded, ChargeFor, Balanced, ConfigurationCharge;
    InvBooks(j);
    ClaimPays(j, id, request, principal, now);
    ClaimOpens(j, id, request, principal, ConfigurationCharge(j, j.attempts[id]), now);
    OpensRows(j, k, id, request);
    RowsKeepBooks(j, k);
    OpensOne(j, k, id, request);
    OpensSteps(j, k, id, request);
    hide ClaimBySupervisor;
    OpeningBalances(j, k, id, request, g);
  }

  lemma OpensSteps(j: Journal, k: Journal, id: AttemptId, request: RequestId)
    requires OpensWitness(j, k, id, request)
    ensures id in j.attempts && k.steps == j.steps
  {
    hide OwnsAll, ActivelyReconciled, NextOrdinal;
  }

  lemma OpensOne(j: Journal, k: Journal, id: AttemptId, request: RequestId)
    requires OpensWitness(j, k, id, request)
    ensures OneWitnessMore(j, k, id, request)
  {
    hide OwnsAll, ActivelyReconciled, NextOrdinal;
  }

  lemma NothingBalances(j: Journal, g: GrantId)
    ensures Balanced(j, j, g)
  {
  }
}
