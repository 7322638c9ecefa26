/** The supervisor's decision whether a grant lets an operation of a reviewed plan run at all. */
module Authority {
  import opened Wrappers
  import opened Domain
  import opened Bytes
  import Flash
  import opened NorDevice

  datatype Refusal = NotReviewed | FixtureDiffers | BeyondGrant

  function Fingerprints(profile: CommissionedProfile): map<InstrumentId, string> {
    map i | i in profile.instruments :: profile.instruments[i].fingerprint
  }

  /** The plan was reviewed for exactly the fixture and instruments that are commissioned. */
  predicate ReviewedFor(profile: CommissionedProfile, plan: ReviewedPlan) {
    && plan.fixtureRevision == profile.fixtureRevision
    && plan.targetFingerprint == profile.targetFingerprint
    && plan.instrumentFingerprints == Fingerprints(profile)
  }

  /** The instrument is commissioned as reviewed, and is qualified for the operation. */
  predicate Qualified(profile: CommissionedProfile, plan: ReviewedPlan, operation: Operation) {
    !operation.Wait? ==>
      && operation.instrument in profile.instruments
      && var binding := profile.instruments[operation.instrument];
         && operation.Needs() in binding.qualifiedCapabilities
         && operation.Effects() <= binding.qualifiedEffects
         && operation.instrument in plan.configurationDigests
         && plan.configurationDigests[operation.instrument] == binding.configurationDigest
  }

  predicate WithinLimits(profile: CommissionedProfile, planned: PlannedOperation) {
    && planned.maxMilliseconds > 0
    && match planned.operation
       case Wait(_, duration) => 0 < duration <= planned.maxMilliseconds
       case PsuSet(_, _, millivolts, milliamps) =>
         millivolts <= profile.electricalLimits.maxMillivolts && milliamps <= profile.electricalLimits.maxMilliamps
       case FlashRead(_, _, offset, length) => profile.regionLimits.Contains(offset, length)
       case FlashErase(_, _, offset, length) => profile.regionLimits.Contains(offset, length)
       case FlashWrite(_, _, offset, _, length) => profile.regionLimits.Contains(offset, length)
       case FlashVerify(_, _, offset, _, length) => profile.regionLimits.Contains(offset, length)
       case _ => true
  }

  /** Everything but revocation that the decision depends on; none of it ever changes once stored. */
  predicate Permits(grant: Grant, profile: CommissionedProfile, plan: ReviewedPlan, planned: PlannedOperation) {
    && plan.reviewedBy != plan.requestedBy
    && ReviewedFor(profile, plan)
    && grant.target == planned.operation.target == profile.target
    && planned.operation.Needs() in grant.capabilities * profile.permittedCapabilities
    && planned.operation.Effects() <= grant.effects
    && Qualified(profile, plan, planned.operation)
    && WithinLimits(profile, planned)
  }

  /** The checks in their order; fingerprints are compared by count and then one by one. */
  function Authorize(grant: Grant, profile: CommissionedProfile, plan: ReviewedPlan, planned: PlannedOperation): (r: Result<(), Refusal>)
    ensures r.Ok? <==> !grant.revoked && Permits(grant, profile, plan, planned)
    ensures r == Err(NotReviewed) <==> !grant.revoked && plan.reviewedBy == plan.requestedBy
  {
    SameCount(plan.instrumentFingerprints, Fingerprints(profile));
    assert Fingerprints(profile).Keys == profile.instruments.Keys;
    var operation := planned.operation;
    :- Need(!grant.revoked, BeyondGrant);
    :- Need(plan.reviewedBy != plan.requestedBy, NotReviewed);
    :- Need(plan.fixtureRevision == profile.fixtureRevision && plan.targetFingerprint == profile.targetFingerprint, FixtureDiffers);
    :- Need(|plan.instrumentFingerprints| == |profile.instruments|, FixtureDiffers);
    :- Need(forall i | i in plan.instrumentFingerprints ::
              i in profile.instruments && profile.instruments[i].fingerprint == plan.instrumentFingerprints[i], FixtureDiffers);
    :- Need(operation.target == grant.target && operation.target == profile.target, BeyondGrant);
    :- Need(operation.Needs() in grant.capabilities && operation.Needs() in profile.permittedCapabilities, BeyondGrant);
    :- Need(operation.Effects() <= grant.effects, BeyondGrant);
    :- Need(Qualified(profile, plan, operation), FixtureDiffers);
    :- Need(WithinLimits(profile, planned), BeyondGrant);
    Ok(())
  }

  /** Equally many entries, each found in the other map: the maps are equal. */
  lemma SameCount<K, V>(a: map<K, V>, b: map<K, V>)
    ensures a == b <==> |a| == |b| && forall k | k in a :: k in b && b[k] == a[k]
  {
    if |a| == |b| && forall k | k in a :: k in b && b[k] == a[k] {
      assert a.Keys <= b.Keys;
      SameSize(a.Keys, b.Keys);
    }
  }

  lemma {:induction false} SameSize<K>(a: set<K>, b: set<K>)
    requires a <= b && |a| == |b|
    ensures a == b
  {
    assert b == a + (b - a);
  }

  /** A permitted erase or write, run as planned on any device with any timing, leaves every byte outside the
      commissioned region unchanged. */
  lemma FlashStaysInRegion(grant: Grant, profile: CommissionedProfile, plan: ReviewedPlan, planned: PlannedOperation,
                           g: Flash.FlashGeometry, d: Device, bytes: seq<Byte>, delay: nat, a: nat)
    requires Permits(grant, profile, plan, planned) && g.Valid() && d.Fits(g) && d.busy == 0
    requires a < |d.memory| && !(profile.regionLimits.start <= a < profile.regionLimits.end)
    ensures var operation := planned.operation;
            operation.FlashErase? && g.Erasable(operation.offset, operation.length) ==>
              var memory := Run(g, d, Flash.EraseCommands(g, operation.offset, operation.length / Flash.SECTOR), delay).0.memory;
              |memory| == |d.memory| && memory[a] == d.memory[a]
    ensures var operation := planned.operation;
            operation.FlashWrite? && |bytes| == operation.length && g.InRange(operation.offset, operation.length) ==>
              var memory := Run(g, d, Flash.WriteCommands(g, operation.offset, bytes), delay).0.memory;
              |memory| == |d.memory| && memory[a] == d.memory[a]
  {
    hide Run, Flash.EraseCommands, Flash.WriteCommands, And, ReviewedFor, Qualified;
    var operation := planned.operation;
    if operation.FlashErase? && g.Erasable(operation.offset, operation.length) {
      EraseRuns(g, d, operation.offset, operation.length / Flash.SECTOR, delay);
    }
    if operation.FlashWrite? && |bytes| == operation.length && g.InRange(operation.offset, operation.length) {
      WriteRuns(g, d, operation.offset, bytes, delay);
    }
  }
}
