/** The disposable instrument simulator: flat flash memory, relays, call counters and injected faults. */
module Simulator {
  import opened Wrappers
  import opened Bytes
  import opened Flash
  import opened NorDevice

  datatype Fault = NoFault | InterruptNextEffect | InterruptAfterBytes(bytes: nat)

  datatype SimulatorError = InvalidRelay | ProtocolLimit | DeviceRejected

  const COUNTER_LIMIT := 0xFFFF_FFFF_FFFF_FFFF

  /** Counters saturate at 64 bits. */
  function Counted(n: nat): nat {
    if n < COUNTER_LIMIT then n + 1 else n
  }

  /** Some requested bit is one where the stored bit is already zero. */
  predicate RaisesBit(stored: Byte, requested: Byte) {
    And(stored, requested) != requested
  }

  predicate Programmable(memory: seq<Byte>, offset: nat, bytes: seq<Byte>)
    requires offset + |bytes| <= |memory|
  {
    forall i | 0 <= i < |bytes| :: !RaisesBit(memory[offset + i], bytes[i])
  }

  /** Every idle NOR device with this memory ends up with `after` when it runs the page-split plan for the same write. */
  ghost predicate PlanLeaves(memory: seq<Byte>, offset: nat, bytes: seq<Byte>, after: seq<Byte>) {
    forall g: FlashGeometry, d: Device, delay: nat | g.Valid() && d.Fits(g) && d.busy == 0 && d.memory == memory ::
      Run(g, d, WriteCommands(g, offset, bytes), delay).0.memory == after
  }

  lemma SpliceIsPlan(memory: seq<Byte>, offset: nat, bytes: seq<Byte>)
    requires offset + |bytes| <= |memory|
    ensures PlanLeaves(memory, offset, bytes, AndSplice(memory, offset, bytes))
  {
    hide Run, WriteCommands, AndSplice;
    forall g: FlashGeometry, d: Device, delay: nat | g.Valid() && d.Fits(g) && d.busy == 0 && d.memory == memory
      ensures Run(g, d, WriteCommands(g, offset, bytes), delay).0.memory == AndSplice(memory, offset, bytes)
    {
      WriteRuns(g, d, offset, bytes, delay);
    }
  }

  /** How many bytes an effect may change before the fault stops it. */
  function Permitted(fault: Fault, length: nat): (n: nat)
    ensures n <= length
  {
    match fault
    case NoFault => length
    case InterruptNextEffect => 0
    case InterruptAfterBytes(bytes) => Min(bytes, length)
  }

  /** Programs the first bytes of `source` into the array, in place. */
  method ProgramNor(flash: array<Byte>, offset: nat, source: seq<Byte>)
    requires offset + |source| <= flash.Length
    modifies flash
    ensures flash[..] == AndSplice(old(flash[..]), offset, source)
  {
    for i := 0 to |source|
      invariant forall a | 0 <= a < flash.Length ::
                  flash[a] == if offset <= a < offset + i then And(old(flash[a]), source[a - offset]) else old(flash[a])
    {
      flash[offset + i] := And(flash[offset + i], source[i]);
    }
  }

  method Fill(flash: array<Byte>, from: nat, to: nat)
    requires from <= to <= flash.Length
    modifies flash
    ensures flash[..] == Erased(old(flash[..]), from, to - from)
  {
    for i := from to to
      invariant forall a | 0 <= a < flash.Length :: flash[a] == if from <= a < i then 255 else old(flash[a])
    {
      flash[i] := 255;
    }
  }

  class Simulator {
    const flash: array<Byte>
    var relays: seq<bool>
    var effectCalls: nat
    var partialEffectCalls: nat
    var fault: Fault

    ghost predicate Valid()
      reads this
    {
      |relays| == 4
    }

    /** A new simulator store: erased flash, open relays, no fault. */
    constructor (flashBytes: nat)
      ensures Valid() && fresh(flash) && flash.Length == flashBytes && fault == NoFault
      ensures forall a | 0 <= a < flash.Length :: flash[a] == 255
    {
      flash := new Byte[flashBytes](_ => 255);
      relays := [false, false, false, false];
      effectCalls, partialEffectCalls, fault := 0, 0, NoFault;
    }

    method InjectFault(injected: Fault)
      requires Valid()
      modifies this`fault
      ensures fault == injected
    {
      fault := injected;
    }

    /** A fault is spent by the effect it interrupts. */
    method TakeFault() returns (taken: Fault)
      modifies this`fault
      ensures taken == old(fault) && fault == NoFault
    {
      taken := fault;
      fault := NoFault;
    }

    method SetRelay(relay: nat, closed: bool) returns (r: Outcome<SimulatorError>)
      requires Valid()
      modifies this
      ensures Valid()
      ensures relay >= 4 ==> r == Fail(InvalidRelay) && relays == old(relays) && effectCalls == old(effectCalls) && fault == old(fault)
      ensures relay < 4 ==> fault == NoFault && effectCalls == Counted(old(effectCalls))
      ensures relay < 4 ==> relays == if r.Pass? then old(relays)[relay := closed] else old(relays)
      ensures relay < 4 ==> (r.Fail? <==> old(fault).InterruptNextEffect?)
      ensures partialEffectCalls == if relay < 4 && r.Fail? then Counted(old(partialEffectCalls)) else old(partialEffectCalls)
    {
      if relay >= |relays| { return Fail(InvalidRelay); }
      effectCalls := Counted(effectCalls);
      var taken := TakeFault();
      if taken.InterruptNextEffect? {
        partialEffectCalls := Counted(partialEffectCalls);
        return Fail(DeviceRejected);
      }
      relays := relays[relay := closed];
      return Pass;
    }

    method ReadFlash(offset: nat, length: nat) returns (r: Result<seq<Byte>, SimulatorError>)
      ensures r == if offset + length <= flash.Length then Ok(flash[offset..offset + length]) else Err(ProtocolLimit)
    {
      if offset + length > flash.Length { return Err(ProtocolLimit); }
      return Ok(flash[offset..offset + length]);
    }

    /** Any fault interrupts an erase half way. */
    method EraseFlash(offset: nat, length: nat) returns (r: Outcome<SimulatorError>)
      requires Valid()
      modifies this, flash
      ensures Valid() && relays == old(relays)
      ensures offset + length > flash.Length ==>
                && r == Fail(ProtocolLimit) && flash[..] == old(flash[..]) && fault == old(fault)
                && effectCalls == old(effectCalls) && partialEffectCalls == old(partialEffectCalls)
      ensures offset + length <= flash.Length ==>
                && fault == NoFault && (r.Pass? <==> old(fault) == NoFault) && effectCalls == Counted(old(effectCalls))
                && partialEffectCalls == (if r.Pass? then old(partialEffectCalls) else Counted(old(partialEffectCalls)))
                && flash[..] == Erased(old(flash[..]), offset, if r.Pass? then length else length / 2)
    {
      if offset + length > flash.Length { return Fail(ProtocolLimit); }
      effectCalls := Counted(effectCalls);
      var taken := TakeFault();
      if taken != NoFault {
        partialEffectCalls := Counted(partialEffectCalls);
        Fill(flash, offset, offset + length / 2);
        return Fail(DeviceRejected);
      }
      Fill(flash, offset, offset + length);
      return Pass;
    }

    /** A write that would raise a bit is refused before any effect. Otherwise the permitted prefix is programmed,
        and the write succeeds exactly when no fault was injected: then the flash holds the requested bytes. */
    method WriteFlash(offset: nat, bytes: seq<Byte>) returns (r: Outcome<SimulatorError>)
      requires Valid()
      modifies this, flash
      ensures Valid() && relays == old(relays)
      ensures offset + |bytes| > flash.Length ==> r == Fail(ProtocolLimit)
      ensures offset + |bytes| <= flash.Length && !Programmable(old(flash[..]), offset, bytes) ==> r == Fail(DeviceRejected)
      ensures offset + |bytes| > flash.Length || !Programmable(old(flash[..]), offset, bytes) ==>
                && flash[..] == old(flash[..]) && fault == old(fault)
                && effectCalls == old(effectCalls) && partialEffectCalls == old(partialEffectCalls)
      ensures offset + |bytes| <= flash.Length && Programmable(old(flash[..]), offset, bytes) ==>
                && fault == NoFault && effectCalls == Counted(old(effectCalls)) && (r.Pass? <==> old(fault) == NoFault)
                && partialEffectCalls == (if r.Pass? then old(partialEffectCalls) else Counted(old(partialEffectCalls)))
                && flash[..] == AndSplice(old(flash[..]), offset, bytes[..Permitted(old(fault), |bytes|)])
      ensures r.Pass? ==> flash[offset..offset + |bytes|] == bytes
      ensures r.Pass? ==> PlanLeaves(old(flash[..]), offset, bytes, flash[..])
    {
      if offset + |bytes| > flash.Length { return Fail(ProtocolLimit); }
      for i := 0 to |bytes|
        invariant forall k | 0 <= k < i :: !RaisesBit(flash[offset + k], bytes[k])
      {
        if RaisesBit(flash[offset + i], bytes[i]) {
          assert !Programmable(flash[..], offset, bytes);
          return Fail(DeviceRejected);
        }
      }
      assert Programmable(flash[..], offset, bytes);
      effectCalls := Counted(effectCalls);
      var taken := TakeFault();
      var count := Permitted(taken, |bytes|);
      ProgramNor(flash, offset, bytes[..count]);
      if taken != NoFault {
        partialEffectCalls := Counted(partialEffectCalls);
        return Fail(DeviceRejected);
      }
      assert bytes[..count] == bytes;
      SpliceIsPlan(old(flash[..]), offset, bytes);
      return Pass;
    }
  }
}
