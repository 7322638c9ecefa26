/** The value types of the authority journal: operations, budgets, profiles, plans, grants and records. */
module Domain {
  import opened Wrappers
  import opened Bytes
  import opened Conditions

  // Identifiers are validated strings in the source; here they are distinct wrapper types.
  datatype GrantId = GrantId(name: string)
  datatype PlanId = PlanId(name: string)
  datatype ProfileId = ProfileId(name: string)
  datatype AttemptId = AttemptId(name: string)
  datatype RequestId = RequestId(name: string)
  datatype PrincipalId = PrincipalId(name: string)
  datatype InstrumentId = InstrumentId(name: string)
  datatype TargetId = TargetId(name: string)

  /** SHA-256 taken as an injective function: a digest is its content under a constructor. */
  datatype Digest<T> = Sha256(content: T)

  const U64_LIMIT := 0x1_0000_0000_0000_0000

  /** Three unsigned 64-bit components; the arithmetic is checked, never wrapping. */
  datatype Budget = Budget(effects: nat, bytes: nat, milliseconds: nat) {
    predicate FitsWithin(limit: Budget) {
      effects <= limit.effects && bytes <= limit.bytes && milliseconds <= limit.milliseconds
    }

    function CheckedSub(amount: Budget): (r: Option<Budget>)
      ensures r.Some? <==> amount.FitsWithin(this)
      ensures r.Some? ==> Plus(r.value, amount) == this
    {
      if amount.FitsWithin(this)
      then Some(Budget(effects - amount.effects, bytes - amount.bytes, milliseconds - amount.milliseconds))
      else None
    }

    function CheckedAdd(amount: Budget): (r: Option<Budget>)
      ensures r.Some? <==> effects + amount.effects < U64_LIMIT && bytes + amount.bytes < U64_LIMIT
                           && milliseconds + amount.milliseconds < U64_LIMIT
      ensures r.Some? ==> r.value == Plus(this, amount)
    {
      var total := Plus(this, amount);
      if total.effects < U64_LIMIT && total.bytes < U64_LIMIT && total.milliseconds < U64_LIMIT
      then Some(total)
      else None
    }
  }

  const ZERO := Budget(0, 0, 0)

  /** Exact componentwise addition, used to state what the checked operations conserve. */
  function Plus(a: Budget, b: Budget): Budget {
    Budget(a.effects + b.effects, a.bytes + b.bytes, a.milliseconds + b.milliseconds)
  }

  datatype EffectPermission =
    | InstrumentConfigure
    | RawBusTransfer
    | UartTransmission
    | GpioDrive
    | PowerSet
    | RelayActuate
    | FlashErasure
    | FlashWriting

  datatype Capability = StatusUse | SpiUse | I2cUse | UartUse | GpioUse | AdcUse | PsuUse | RelayUse | FlashUse | VideoUse | WaitUse

  /** Flash sources are named by their artifact digest. */
  datatype Operation =
    | InstrumentStatus(target: TargetId, instrument: InstrumentId)
    | SpiTransfer(target: TargetId, instrument: InstrumentId, tx: seq<Byte>, rxBytes: nat)
    | I2cTransfer(target: TargetId, instrument: InstrumentId, address: Byte, tx: seq<Byte>, rxBytes: nat)
    | I2cScan(target: TargetId, instrument: InstrumentId)
    | UartCapture(target: TargetId, instrument: InstrumentId, maxBytes: nat)
    | UartTransmit(target: TargetId, instrument: InstrumentId, tx: seq<Byte>)
    | GpioSet(target: TargetId, instrument: InstrumentId, pin: nat, high: bool)
    | AdcRead(target: TargetId, instrument: InstrumentId, channel: nat)
    | PsuSet(target: TargetId, instrument: InstrumentId, millivolts: nat, milliamps: nat)
    | RelaySet(target: TargetId, instrument: InstrumentId, relay: nat, closed: bool)
    | RelayRead(target: TargetId, instrument: InstrumentId, relay: nat)
    | FlashIdentify(target: TargetId, instrument: InstrumentId)
    | FlashRead(target: TargetId, instrument: InstrumentId, offset: nat, length: nat)
    | FlashErase(target: TargetId, instrument: InstrumentId, offset: nat, length: nat)
    | FlashWrite(target: TargetId, instrument: InstrumentId, offset: nat, source: string, length: nat)
    | FlashVerify(target: TargetId, instrument: InstrumentId, offset: nat, source: string, length: nat)
    | VideoCapture(target: TargetId, instrument: InstrumentId)
    | Wait(target: TargetId, duration: nat)
  {
    function Effects(): set<EffectPermission> {
      match this
      case SpiTransfer(_, _, _, _) => {InstrumentConfigure, RawBusTransfer}
      case I2cTransfer(_, _, _, _, _) => {InstrumentConfigure, RawBusTransfer}
      case I2cScan(_, _) => {InstrumentConfigure, RawBusTransfer}
      case UartCapture(_, _, _) => {InstrumentConfigure}
      case UartTransmit(_, _, _) => {InstrumentConfigure, UartTransmission}
      case FlashIdentify(_, _) => {InstrumentConfigure}
      case FlashRead(_, _, _, _) => {InstrumentConfigure}
      case FlashVerify(_, _, _, _, _) => {InstrumentConfigure}
      case FlashErase(_, _, _, _) => {InstrumentConfigure, FlashErasure}
      case FlashWrite(_, _, _, _, _) => {InstrumentConfigure, FlashWriting}
      case GpioSet(_, _, _, _) => {GpioDrive}
      case PsuSet(_, _, _, _) => {PowerSet}
      case RelaySet(_, _, _, _) => {RelayActuate}
      case _ => {}
    }

    function Bytes(): nat {
      match this
      case SpiTransfer(_, _, tx, rx) => |tx| + rx
      case I2cTransfer(_, _, _, tx, rx) => |tx| + rx
      case UartCapture(_, _, max) => max
      case UartTransmit(_, _, tx) => |tx|
      case FlashRead(_, _, _, length) => length
      case FlashErase(_, _, _, length) => length
      case FlashWrite(_, _, _, _, length) => length
      case FlashVerify(_, _, _, _, length) => length
      case _ => 0
    }

    function Needs(): Capability {
      match this
      case InstrumentStatus(_, _) => StatusUse
      case SpiTransfer(_, _, _, _) => SpiUse
      case I2cTransfer(_, _, _, _, _) => I2cUse
      case I2cScan(_, _) => I2cUse
      case UartCapture(_, _, _) => UartUse
      case UartTransmit(_, _, _) => UartUse
      case GpioSet(_, _, _, _) => GpioUse
      case AdcRead(_, _, _) => AdcUse
      case PsuSet(_, _, _, _) => PsuUse
      case RelaySet(_, _, _, _) => RelayUse
      case RelayRead(_, _, _) => RelayUse
      case VideoCapture(_, _) => VideoUse
      case Wait(_, _) => WaitUse
      case _ => FlashUse
    }
  }

  datatype PlannedOperation = PlannedOperation(operation: Operation, maxMilliseconds: nat,
                                               postconditions: seq<ObservationCheck>) {
    function WorstCaseBudget(): Budget {
      Budget(|operation.Effects()|, operation.Bytes(), maxMilliseconds)
    }
  }

  datatype ReconciliationSetup = ObservationOnly | ApplyReviewedInstrumentConfiguration

  /** The instruments and the fixture that the reviewer saw, and who asked and who reviewed. */
  datatype ReviewedPlan = ReviewedPlan(id: PlanId, operations: seq<PlannedOperation>, setup: ReconciliationSetup,
                                       fixtureRevision: string, targetFingerprint: string,
                                       instrumentFingerprints: map<InstrumentId, string>,
                                       configurationDigests: map<InstrumentId, string>,
                                       requestedBy: PrincipalId, reviewedBy: PrincipalId)

  datatype LiveInterlock = LiveInterlock(effects: set<EffectPermission>, observation: Operation,
                                         checks: seq<ObservationCheck>, maximumAge: nat)

  datatype InstrumentBinding = InstrumentBinding(fingerprint: string, physicalIdentity: string, configurationDigest: string,
                                                 qualifiedCapabilities: set<Capability>, qualifiedEffects: set<EffectPermission>)

  datatype ElectricalLimits = ElectricalLimits(maxMillivolts: nat, maxMilliamps: nat)

  /** The commissioned flash region; a range whose end does not fit 64 bits is outside it. */
  datatype RegionLimits = RegionLimits(start: nat, end: nat) {
    predicate Contains(offset: nat, length: nat) {
      offset + length < U64_LIMIT && start <= offset && offset + length <= end
    }
  }

  datatype PhysicalResource = Target(identity: string) | Fixture(identity: string) | Instrument(identity: string)

  datatype CommissionedProfile = CommissionedProfile(id: ProfileId, target: TargetId, targetFingerprint: string,
                                                     fixtureRevision: string, fixtureSession: string,
                                                     instruments: map<InstrumentId, InstrumentBinding>,
                                                     permittedCapabilities: set<Capability>,
                                                     electricalLimits: ElectricalLimits, regionLimits: RegionLimits,
                                                     liveInterlocks: seq<LiveInterlock>) {
    /** The lease set: never empty, because target and fixture are always in it. */
    function PhysicalResources(): (r: set<PhysicalResource>)
      ensures Target(targetFingerprint) in r && Fixture(fixtureSession) in r
    {
      {Target(targetFingerprint), Fixture(fixtureSession)}
      + set i | i in instruments :: Instrument(instruments[i].physicalIdentity)
    }
  }

  /** `expiresAt` is None when the stored text is not a timestamp. */
  datatype Grant = Grant(id: GrantId, agent: PrincipalId, target: TargetId, profile: ProfileId,
                         capabilities: set<Capability>, effects: set<EffectPermission>,
                         remaining: Budget, expiresAt: Option<int>, revoked: bool)

  datatype AttemptState = Intent | Dispatched | Completed | Partial | Unknown | Rejected

  /** An observation is reduced to what conditions read: its capture time in milliseconds, None when
      the stored text is not a timestamp, and its JSON body. */
  datatype Observation = Observation(capturedAt: Option<int>, body: Value)

  datatype OperationReceipt =
    | CompletedReceipt(observation: Observation)
    | PartialReceipt(observation: Observation, reason: string)
    | UnknownReceipt(reason: string, observed: Option<Observation>)
    | RejectedReceipt(reason: string)
  {
    function State(): AttemptState {
      match this
      case CompletedReceipt(_) => Completed
      case PartialReceipt(_, _) => Partial
      case UnknownReceipt(_, _) => Unknown
      case RejectedReceipt(_) => Rejected
    }
  }

  /** One authority pair: leases, step order and closure are all keyed by it. */
  datatype Pair = Pair(grant: GrantId, plan: PlanId)

  datatype AttemptRecord = AttemptRecord(id: AttemptId, request: RequestId, grant: GrantId, plan: PlanId,
                                         operationIndex: nat, planDigest: Digest<ReviewedPlan>, reserved: Budget,
                                         profile: ProfileId, profileDigest: Digest<CommissionedProfile>,
                                         leasedResources: set<PhysicalResource>, state: AttemptState,
                                         receipt: Option<OperationReceipt>) {
    function Owner(): Pair {
      Pair(grant, plan)
    }
  }

  datatype ReconciliationState = RecClaimed | RecCompleted | RecUnknown | RecFailed

  datatype ReconciliationRecord = ReconciliationRecord(request: RequestId, attempt: AttemptId, ordinal: nat,
                                                       principal: PrincipalId, state: ReconciliationState,
                                                       receipt: Option<OperationReceipt>)

  datatype PlanRun = PlanRun(id: RequestId, agent: PrincipalId, grant: GrantId, plan: PlanId,
                             steps: seq<(AttemptId, RequestId)>, cursor: nat)

  datatype RecoveryTakeover = RecoveryTakeover(request: RequestId, run: RequestId, firstAttempt: AttemptId,
                                               unresolved: seq<AttemptId>, grant: GrantId, plan: PlanId,
                                               resources: set<PhysicalResource>, justification: string,
                                               authorizedBy: PrincipalId) {
    function Destination(): Pair {
      Pair(grant, plan)
    }
  }

  datatype Abandonment = Abandonment(request: RequestId, run: RequestId, grant: GrantId, plan: PlanId,
                                     resources: set<PhysicalResource>, justification: string,
                                     authorizedBy: PrincipalId) {
    function Closed(): Pair {
      Pair(grant, plan)
    }
  }

  /** Which operations need each effect permission. */
  lemma PermissionsByEffect(o: Operation)
    ensures RawBusTransfer in o.Effects() <==> o.SpiTransfer? || o.I2cTransfer? || o.I2cScan?
    ensures UartTransmission in o.Effects() <==> o.UartTransmit?
    ensures GpioDrive in o.Effects() <==> o.GpioSet?
    ensures PowerSet in o.Effects() <==> o.PsuSet?
    ensures RelayActuate in o.Effects() <==> o.RelaySet?
    ensures FlashErasure in o.Effects() <==> o.FlashErase?
    ensures FlashWriting in o.Effects() <==> o.FlashWrite?
    ensures InstrumentConfigure in o.Effects() <==> o.Needs() in {SpiUse, I2cUse, UartUse, FlashUse}
  {
  }

  /** An operation without effects only looks, or waits; the budget counts its effect permissions, at most two. */
  lemma EffectsAreCounted(planned: PlannedOperation)
    ensures var o := planned.operation; o.Effects() == {} <==> o.InstrumentStatus? || o.AdcRead? || o.RelayRead? || o.VideoCapture? || o.Wait?
    ensures planned.WorstCaseBudget().effects <= 2
    ensures planned.WorstCaseBudget().effects == 2 <==>
            InstrumentConfigure in planned.operation.Effects() && planned.operation.Effects() != {InstrumentConfigure}
    ensures planned.WorstCaseBudget().milliseconds == planned.maxMilliseconds
  {
    var effects := planned.operation.Effects();
    if InstrumentConfigure in effects {
      var rest := effects - {InstrumentConfigure};
      assert effects == {InstrumentConfigure} + rest;
      assert rest == {} || rest == {RawBusTransfer} || rest == {UartTransmission} || rest == {FlashErasure} || rest == {FlashWriting};
    } else {
      assert effects == {} || effects == {GpioDrive} || effects == {PowerSet} || effects == {RelayActuate};
    }
  }
}
