/** Whole flash operations of the bus backend: identity check, effect, and readback. */
module FlashOperations {
  import opened Wrappers
  import opened Bytes
  import Domain
  import opened Flash
  import opened NorDevice
  import opened Bus
  import opened FlashBus

  /** The commissioned identity: the JEDEC id, and the digest of the SFDP table. */
  datatype FlashIdentity = FlashIdentity(jedec: seq<Byte>, sfdp: Domain.Digest<seq<Byte>>) {
    /** Some bit of it is zero, so a device that does not answer cannot show it. */
    predicate Telling() {
      jedec != Filler(3) || sfdp != Domain.Sha256(Filler(256))
    }
  }

  /** The connected device shows the commissioned identity; if that is telling, the device is idle. */
  method VerifyIdentity(target: Target, expected: FlashIdentity, limits: Limits) returns (r: Outcome<BusError>)
    requires target.Valid() && |target.jedec| == 3 && |target.sfdp| == 256
    ensures r.Pass? && target.device.busy == 0 ==> expected == FlashIdentity(target.jedec, Domain.Sha256(target.sfdp))
    ensures r.Pass? && target.device.busy > 0 ==> !expected.Telling()
  {
    var jedec := target.Identify(target.jedec);
    if jedec.Err? { return Fail(jedec.error); }
    if limits.write < 5 { return Fail(Malformed); }
    var sfdp := target.Identify(target.sfdp);
    if sfdp.Err? { return Fail(sfdp.error); }
    if jedec.value != expected.jedec || Domain.Sha256(sfdp.value) != expected.sfdp { return Fail(Malformed); }
    return Pass;
  }

  /** Every requested byte can be reached from the stored one by clearing bits. */
  predicate Clearable(memory: seq<Byte>, offset: nat, bytes: seq<Byte>)
    requires offset + |bytes| <= |memory|
  {
    forall i | 0 <= i < |bytes| :: And(memory[offset + i], bytes[i]) == bytes[i]
  }

  lemma SpliceMatches(memory: seq<Byte>, offset: nat, bytes: seq<Byte>)
    requires offset + |bytes| <= |memory|
    ensures AndSplice(memory, offset, bytes)[offset..offset + |bytes|] == bytes <==> Clearable(memory, offset, bytes)
  {
    hide And;
    var after := AndSplice(memory, offset, bytes);
    var part := after[offset..offset + |bytes|];
    assert forall i | 0 <= i < |bytes| :: part[i] == And(memory[offset + i], bytes[i]);
  }

  /** A write, or its reconciliation, which only reads. Under a telling identity the write stores the flat splice of the
      whole candidate, the readback is what the device holds, and it matches exactly when no bit had to be raised. */
  method WriteOperation(target: Target, offset: nat, candidate: seq<Byte>, expected: FlashIdentity, reconcile: bool, limits: Limits)
    returns (r: Result<(seq<Byte>, bool), BusError>)
    requires target.Valid() && |target.jedec| == 3 && |target.sfdp| == 256 && limits.Valid()
    modifies target
    ensures target.Valid()
    ensures r.Ok? ==> target.g.InRange(offset, |candidate|) && (r.value.1 <==> r.value.0 == candidate)
    ensures r.Ok? && expected.Telling() ==>
              && expected == FlashIdentity(target.jedec, Domain.Sha256(target.sfdp))
              && target.device.memory == (if reconcile then old(target.device.memory) else AndSplice(old(target.device.memory), offset, candidate))
              && r.value.0 == target.device.memory[offset..offset + |candidate|]
    ensures r.Ok? && expected.Telling() && !reconcile ==> (r.value.1 <==> Clearable(old(target.device.memory), offset, candidate))
    ensures expected.Telling() ==> OnlyWithin(old(target.device.memory), target.device.memory, offset, |candidate|)
  {
    hide Filler, AndSplice, Clearable;
    var verified := VerifyIdentity(target, expected, limits);
    if verified.Fail? { return Err(verified.error); }
    if !reconcile {
      var written := FlashWrite(target, offset, candidate, limits);
      if written.Fail? { return Err(written.error); }
      assert candidate[0..] == candidate;
      SpliceMatches(old(target.device.memory), offset, candidate);
    }
    var actual := FlashRead(target, offset, |candidate|, limits);
    if actual.Err? { return Err(actual.error); }
    return Ok((actual.value, actual.value == candidate));
  }

  /** An erase, or its reconciliation; under a telling identity the erase leaves the whole range blank and reads it back so. */
  method EraseOperation(target: Target, offset: nat, length: nat, expected: FlashIdentity, reconcile: bool, limits: Limits)
    returns (r: Result<(seq<Byte>, bool), BusError>)
    requires target.Valid() && |target.jedec| == 3 && |target.sfdp| == 256 && limits.Valid()
    modifies target
    ensures target.Valid()
    ensures r.Ok? ==> target.g.InRange(offset, length) && (r.value.1 <==> forall b | b in r.value.0 :: b == 0xFF)
    ensures r.Ok? && expected.Telling() ==>
              && expected == FlashIdentity(target.jedec, Domain.Sha256(target.sfdp))
              && target.device.memory == (if reconcile then old(target.device.memory) else Erased(old(target.device.memory), offset, length))
              && r.value.0 == target.device.memory[offset..offset + length]
    ensures r.Ok? && expected.Telling() && !reconcile ==> r.value.1
    ensures expected.Telling() ==> OnlyWithin(old(target.device.memory), target.device.memory, offset, length)
  {
    hide Filler, Erased;
    var verified := VerifyIdentity(target, expected, limits);
    if verified.Fail? { return Err(verified.error); }
    if !reconcile {
      var erased := FlashErase(target, offset, length, limits);
      if erased.Fail? { return Err(erased.error); }
    }
    var actual := FlashRead(target, offset, length, limits);
    if actual.Err? { return Err(actual.error); }
    return Ok((actual.value, forall b | b in actual.value :: b == 0xFF));
  }
}
