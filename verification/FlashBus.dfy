/** Flash operations as the bus backend runs them: one device transaction at a time, polling the status register. */
module FlashBus {
  import opened Wrappers
  import opened Bytes
  import opened Flash
  import opened NorDevice
  import opened Bus

  ghost predicate Answers(g: FlashGeometry, before: Device, bytes: seq<Byte>, count: nat, after: Device, answer: seq<Byte>)
    requires g.page > 0
  {
    exists delay: nat :: Exchange(g, before, bytes, count, delay) == (after, answer)
  }

  /** The target behind the adapter. A transaction may fail in transport, before or after it reached the device. */
  class Target {
    const g: FlashGeometry
    const jedec: seq<Byte>
    const sfdp: seq<Byte>
    var device: Device

    ghost predicate Valid()
      reads this
    {
      g.Valid() && device.Fits(g)
    }

    constructor (geometry: FlashGeometry, id: seq<Byte>, parameters: seq<Byte>, initial: Device)
      requires geometry.Valid() && initial.Fits(geometry)
      ensures Valid() && g == geometry && jedec == id && sfdp == parameters && device == initial
    {
      g, jedec, sfdp, device := geometry, id, parameters, initial;
    }

    /** One identification transaction: a busy device does not drive the bus, which then reads as ones. */
    method Identify(identity: seq<Byte>) returns (r: Result<seq<Byte>, BusError>)
      requires Valid()
      ensures r.Ok? ==> r.value == if device.busy == 0 then identity else Filler(|identity|)
    {
      var lost: bool := *;
      if lost { return Err(Transport); }
      return Ok(if device.busy == 0 then identity else Filler(|identity|));
    }

    /** One request that both starts and stops a transaction; it must fit the adapter's limits. */
    method Transact(bytes: seq<Byte>, count: nat, limits: Limits) returns (r: Result<seq<Byte>, BusError>)
      requires Valid() && |bytes| <= limits.write && count <= limits.read
      modifies this
      ensures Valid()
      ensures r.Ok? ==> Answers(g, old(device), bytes, count, device, r.value)
      ensures r.Err? ==> r.error == Transport && (device == old(device) || exists answer :: Answers(g, old(device), bytes, count, device, answer))
    {
      var lost: bool := *;
      if lost { return Err(Transport); }
      var wait: int := *;
      var delay: nat := if wait < 0 then 0 else wait;
      var (after, answer) := Exchange(g, device, bytes, count, delay);
      assert Answers(g, device, bytes, count, after, answer);
      device := after;
      var garbled: bool := *;
      return if garbled then Err(Transport) else Ok(answer);
    }
  }

  /** Whatever happened, no byte outside the range changed. */
  predicate OnlyWithin(before: seq<Byte>, after: seq<Byte>, offset: nat, length: nat) {
    |after| == |before| && forall a | 0 <= a < |before| && !(offset <= a < offset + length) :: after[a] == before[a]
  }

  /** Enabling writes is verified against the latch bit of the status register, and not against the busy bit: success
      means the device is ready for a program or erase exactly when it was idle to begin with. */
  method WriteEnable(target: Target, limits: Limits) returns (r: Outcome<BusError>)
    requires target.Valid() && limits.Valid()
    modifies target
    ensures target.Valid() && target.device.memory == old(target.device.memory)
    ensures r.Pass? ==> (target.device.latch && target.device.busy == 0 <==> old(target.device.busy) == 0)
    ensures old(target.device.busy) == 0 ==> target.device.busy == 0
  {
    var enabled := target.Transact([0x06], 0, limits);
    if enabled.Err? { return Fail(enabled.error); }
    var status := target.Transact([0x05], 1, limits);
    if status.Err? { return Fail(status.error); }
    if status.value[0] / 2 % 2 == 0 { return Fail(Malformed); }
    return Pass;
  }

  /** Polls until the status register shows the device idle. */
  method WaitBusyClear(target: Target, limits: Limits) returns (r: Outcome<BusError>)
    requires target.Valid() && limits.Valid()
    modifies target
    ensures target.Valid() && target.device.memory == old(target.device.memory)
    ensures r.Pass? ==> target.device.busy == 0
  {
    while true
      invariant target.Valid() && target.device.memory == old(target.device.memory)
      decreases target.device.busy
    {
      var status := target.Transact([0x05], 1, limits);
      if status.Err? { return Fail(status.error); }
      if status.value[0] % 2 == 0 { return Pass; }
    }
  }

  /** The program command of one page piece, with the device enabled and idle. */
  lemma ProgramAnswers(g: FlashGeometry, before: Device, offset: nat, data: seq<Byte>, after: Device, answer: seq<Byte>)
    requires g.Valid() && before.Fits(g) && before.latch && before.busy == 0
    requires data != [] && |data| <= g.PageRemaining(offset) && g.InRange(offset, |data|)
    requires Answers(g, before, [g.ProgramOpcode()] + g.Address(offset) + data, 0, after, answer)
    ensures after.memory == AndSplice(before.memory, offset, data)
  {
    var delay: nat :| Exchange(g, before, [g.ProgramOpcode()] + g.Address(offset) + data, 0, delay) == (after, answer);
    hide FlashGeometry.Address, AndSplice, Exchange;
    ProgramRuns(g, before, offset, data, delay);
  }

  lemma EraseAnswers(g: FlashGeometry, before: Device, offset: nat, after: Device, answer: seq<Byte>)
    requires g.Valid() && before.Fits(g) && before.latch && before.busy == 0 && offset % SECTOR == 0 && g.InRange(offset, SECTOR)
    requires Answers(g, before, [g.EraseOpcode()] + g.Address(offset), 0, after, answer)
    ensures after.memory == Erased(before.memory, offset, SECTOR)
  {
    var delay: nat :| Exchange(g, before, [g.EraseOpcode()] + g.Address(offset), 0, delay) == (after, answer);
    hide FlashGeometry.Address, Erased, Exchange;
    EraseCommandRuns(g, before, offset, delay);
  }

  lemma ReadAnswers(g: FlashGeometry, before: Device, offset: nat, count: nat, after: Device, answer: seq<Byte>)
    requires g.Valid() && before.Fits(g) && before.busy == 0 && g.InRange(offset, count) && count > 0
    requires Answers(g, before, [g.ReadOpcode()] + g.Address(offset), count, after, answer)
    ensures after == before && answer == before.memory[offset..offset + count]
  {
    var bytes := [g.ReadOpcode()] + g.Address(offset);
    var delay: nat :| Exchange(g, before, bytes, count, delay) == (after, answer);
    AddressRoundTrip(g, offset);
    assert bytes[1..1 + g.AddressBytes()] == g.Address(offset);
    hide FlashGeometry.Address, AddressValue;
    assert ReadBytes(before.memory, offset, count) == before.memory[offset..offset + count];
  }

  /** A device that is busy or not enabled ignores programs and erases. */
  lemma IgnoredAnswers(g: FlashGeometry, before: Device, bytes: seq<Byte>, after: Device, answer: seq<Byte>)
    requires g.Valid() && |bytes| > 1 && bytes[0] in {g.ProgramOpcode(), g.EraseOpcode()} && !(before.latch && before.busy == 0)
    requires Answers(g, before, bytes, 0, after, answer)
    ensures after == before
  {
    hide AddressValue;
  }

  /** How much page data one request can carry beside the command. */
  function PayloadLimit(limits: Limits, overhead: nat): (r: Result<nat, BusError>)
    ensures r.Ok? <==> limits.write > overhead
    ensures r.Ok? ==> r.value > 0 && overhead + r.value == limits.write
  {
    if limits.write <= overhead then Err(Malformed) else Ok(limits.write - overhead)
  }

  /** One piece: enable, program, wait. A device that was busy at entry drops the piece. */
  method ProgramPiece(target: Target, offset: nat, data: seq<Byte>, limits: Limits) returns (r: Outcome<BusError>)
    requires target.Valid() && limits.Valid() && data != [] && |data| <= target.g.PageRemaining(offset) && target.g.InRange(offset, |data|)
    requires 1 + target.g.AddressBytes() + |data| <= limits.write
    modifies target
    ensures target.Valid()
    ensures r.Pass? ==> target.device.busy == 0
    ensures r.Pass? ==> target.device.memory == if old(target.device.busy) == 0 then AndSplice(old(target.device.memory), offset, data) else old(target.device.memory)
    ensures target.device.memory == AndSplice(old(target.device.memory), offset, data) || target.device.memory == old(target.device.memory)
  {
    hide AndSplice, Exchange, Answers, FlashGeometry.Address, FlashGeometry.PageRemaining;
    var enabled := WriteEnable(target, limits);
    if enabled.Fail? { return enabled; }
    ghost var before := target.device;
    var bytes := [target.g.ProgramOpcode()] + target.g.Address(offset) + data;
    var programmed := target.Transact(bytes, 0, limits);
    if programmed.Ok? || target.device != before {
      ghost var answer :| Answers(target.g, before, bytes, 0, target.device, answer);
      if old(target.device.busy) == 0 {
        ProgramAnswers(target.g, before, offset, data, target.device, answer);
      } else {
        IgnoredAnswers(target.g, before, bytes, target.device, answer);
      }
    }
    if programmed.Err? { return Fail(programmed.error); }
    r := WaitBusyClear(target, limits);
  }

  /** How much of a request a device drops that is busy when the request begins: its first piece. */
  function Dropped(busy: nat, first: nat): nat {
    if busy > 0 then first else 0
  }

  /** The size of a write's first piece. */
  function FirstPiece(g: FlashGeometry, offset: nat, length: nat, limits: Limits): (n: nat)
    requires g.Valid()
    ensures n <= length
  {
    var payload := PayloadLimit(limits, 1 + g.AddressBytes());
    if payload.Err? then length else Min(g.PageRemaining(offset), Min(payload.value, length))
  }

  lemma SpliceWithin(before: seq<Byte>, stored: seq<Byte>, offset: nat, length: nat, from: nat, data: seq<Byte>)
    requires OnlyWithin(before, stored, offset, length) && offset <= from && from + |data| <= offset + length <= |before|
    ensures OnlyWithin(before, AndSplice(stored, from, data), offset, length)
  {
    hide And;
  }

  /** The request has been written up to `cursor`, but for its first `dropped` bytes. */
  predicate Written(before: seq<Byte>, memory: seq<Byte>, offset: nat, bytes: seq<Byte>, dropped: nat, cursor: nat) {
    && dropped <= cursor <= |bytes| && offset + |bytes| <= |before|
    && memory == AndSplice(before, offset + dropped, bytes[dropped..cursor])
  }

  lemma NothingWritten(memory: seq<Byte>, offset: nat, bytes: seq<Byte>, dropped: nat)
    requires dropped <= |bytes| && offset + |bytes| <= |memory|
    ensures Written(memory, memory, offset, bytes, dropped, dropped)
  {
    SpliceNothing(memory, offset + dropped);
    assert bytes[dropped..dropped] == [];
  }

  lemma PieceWritten(before: seq<Byte>, memory: seq<Byte>, offset: nat, bytes: seq<Byte>, dropped: nat, cursor: nat, count: nat)
    requires Written(before, memory, offset, bytes, dropped, cursor) && cursor + count <= |bytes|
    ensures Written(before, AndSplice(memory, offset + cursor, bytes[cursor..cursor + count]), offset, bytes, dropped, cursor + count)
  {
    hide AndSplice;
    SpliceConcat(before, offset + dropped, bytes[dropped..cursor], bytes[cursor..cursor + count]);
    assert bytes[dropped..cursor] + bytes[cursor..cursor + count] == bytes[dropped..cursor + count];
  }

  lemma AllWritten(before: seq<Byte>, memory: seq<Byte>, offset: nat, bytes: seq<Byte>, dropped: nat)
    requires Written(before, memory, offset, bytes, dropped, |bytes|)
    ensures memory == AndSplice(before, offset + dropped, bytes[dropped..])
    ensures dropped == 0 ==> memory == AndSplice(before, offset, bytes)
  {
    hide AndSplice;
    assert bytes[dropped..|bytes|] == bytes[dropped..] && bytes[0..] == bytes;
  }

  /** The page-split plan leaves the flat splice, whatever the device's timing. */
  lemma PlanLeaves(g: FlashGeometry, d: Device, offset: nat, bytes: seq<Byte>)
    requires g.Valid() && d.Fits(g) && d.busy == 0 && g.InRange(offset, |bytes|)
    ensures forall delay: nat :: Run(g, d, WriteCommands(g, offset, bytes), delay).0.memory == AndSplice(d.memory, offset, bytes)
  {
    hide Run, WriteCommands, AndSplice;
    forall delay: nat
      ensures Run(g, d, WriteCommands(g, offset, bytes), delay).0.memory == AndSplice(d.memory, offset, bytes)
    {
      WriteRuns(g, d, offset, bytes, delay);
    }
  }

  /** Success on a device that was idle leaves the flat splice of the whole request, which is what the page-split plan
      leaves; on a device that was busy, the first piece is lost and the write succeeds without it. A failure leaves
      everything outside the request alone. */
  method FlashWrite(target: Target, offset: nat, bytes: seq<Byte>, limits: Limits) returns (r: Outcome<BusError>)
    requires target.Valid() && limits.Valid()
    modifies target
    ensures target.Valid()
    ensures r.Pass? ==> |bytes| < U32_LIMIT && target.g.InRange(offset, |bytes|)
    ensures r.Pass? ==>
              var dropped := Dropped(old(target.device.busy), FirstPiece(target.g, offset, |bytes|, limits));
              target.device.memory == AndSplice(old(target.device.memory), offset + dropped, bytes[dropped..])
    ensures r.Pass? && old(target.device.busy) == 0 ==>
              forall delay: nat ::
                target.device.memory == Run(target.g, old(target.device), WriteCommands(target.g, offset, bytes), delay).0.memory
    ensures r.Pass? && old(target.device.busy) == 0 ==> target.device.busy == 0
    ensures OnlyWithin(old(target.device.memory), target.device.memory, offset, |bytes|)
    ensures !target.g.InRange(offset, |bytes|) ==> target.device == old(target.device)
  {
    hide FlashGeometry.Address, FlashGeometry.PageRemaining, AndSplice, Run, Written, WriteCommands;
    if |bytes| >= U32_LIMIT || target.g.ValidateRange(offset, |bytes|).Fail? { return Fail(Malformed); }
    var payload := PayloadLimit(limits, 1 + target.g.AddressBytes());
    if payload.Err? { return Fail(payload.error); }
    ghost var before := target.device;
    ghost var dropped := Dropped(before.busy, FirstPiece(target.g, offset, |bytes|, limits));
    var cursor := 0;
    NothingWritten(before.memory, offset, bytes, dropped);
    while cursor < |bytes|
      invariant cursor <= |bytes| && target.Valid()
      invariant cursor == 0 ==> target.device == before
      invariant before.busy == 0 || cursor > 0 ==>
                  target.device.busy == 0 && Written(before.memory, target.device.memory, offset, bytes, dropped, cursor)
      invariant OnlyWithin(before.memory, target.device.memory, offset, |bytes|)
    {
      var count := Min(target.g.PageRemaining(offset + cursor), Min(payload.value, |bytes| - cursor));
      ghost var stored := target.device.memory;
      SpliceWithin(before.memory, stored, offset, |bytes|, offset + cursor, bytes[cursor..cursor + count]);
      var written := ProgramPiece(target, offset + cursor, bytes[cursor..cursor + count], limits);
      if written.Fail? { return written; }
      if cursor > 0 || before.busy == 0 { PieceWritten(before.memory, stored, offset, bytes, dropped, cursor, count); }
      cursor := cursor + count;
    }
    AllWritten(before.memory, target.device.memory, offset, bytes, dropped);
    if before.busy == 0 { PlanLeaves(target.g, before, offset, bytes); }
    return Pass;
  }

  method ErasePiece(target: Target, offset: nat, limits: Limits) returns (r: Outcome<BusError>)
    requires target.Valid() && limits.Valid() && offset % SECTOR == 0 && target.g.InRange(offset, SECTOR)
    requires 1 + target.g.AddressBytes() <= limits.write
    modifies target
    ensures target.Valid()
    ensures r.Pass? ==> target.device.busy == 0
    ensures r.Pass? ==> target.device.memory == if old(target.device.busy) == 0 then Erased(old(target.device.memory), offset, SECTOR) else old(target.device.memory)
    ensures target.device.memory == Erased(old(target.device.memory), offset, SECTOR) || target.device.memory == old(target.device.memory)
  {
    hide Erased, Exchange, Answers, FlashGeometry.Address;
    var enabled := WriteEnable(target, limits);
    if enabled.Fail? { return enabled; }
    ghost var before := target.device;
    var bytes := [target.g.EraseOpcode()] + target.g.Address(offset);
    var erased := target.Transact(bytes, 0, limits);
    if erased.Ok? || target.device != before {
      ghost var answer :| Answers(target.g, before, bytes, 0, target.device, answer);
      if old(target.device.busy) == 0 {
        EraseAnswers(target.g, before, offset, target.device, answer);
      } else {
        IgnoredAnswers(target.g, before, bytes, target.device, answer);
      }
    }
    if erased.Err? { return Fail(erased.error); }
    r := WaitBusyClear(target, limits);
  }

  lemma EraseWithin(before: seq<Byte>, stored: seq<Byte>, offset: nat, length: nat, from: nat, count: nat)
    requires OnlyWithin(before, stored, offset, length) && offset <= from && from + count <= offset + length <= |before|
    ensures OnlyWithin(before, Erased(stored, from, count), offset, length)
  {
  }

  /** The erase plan leaves exactly the requested sectors erased, whatever the device's timing. */
  lemma ErasePlanLeaves(g: FlashGeometry, d: Device, offset: nat, length: nat)
    requires g.Valid() && d.Fits(g) && d.busy == 0 && g.Erasable(offset, length)
    ensures forall delay: nat :: Run(g, d, EraseCommands(g, offset, length / SECTOR), delay).0.memory == Erased(d.memory, offset, length)
  {
    hide Run, EraseCommands, Erased;
    forall delay: nat
      ensures Run(g, d, EraseCommands(g, offset, length / SECTOR), delay).0.memory == Erased(d.memory, offset, length)
    {
      EraseRuns(g, d, offset, length / SECTOR, delay);
    }
  }

  /** Like a write: on a device that was busy, the first sector stays as it was and the erase succeeds without it. */
  method FlashErase(target: Target, offset: nat, length: nat, limits: Limits) returns (r: Outcome<BusError>)
    requires target.Valid() && limits.Valid()
    modifies target
    ensures target.Valid()
    ensures r.Pass? ==> target.g.Erasable(offset, length)
    ensures r.Pass? ==>
              var dropped := Dropped(old(target.device.busy), Min(SECTOR, length));
              target.device.memory == Erased(old(target.device.memory), offset + dropped, length - dropped)
    ensures r.Pass? && old(target.device.busy) == 0 ==>
              forall delay: nat ::
                target.device.memory == Run(target.g, old(target.device), EraseCommands(target.g, offset, length / SECTOR), delay).0.memory
    ensures r.Pass? && old(target.device.busy) == 0 ==> target.device.busy == 0
    ensures OnlyWithin(old(target.device.memory), target.device.memory, offset, length)
    ensures !target.g.Erasable(offset, length) ==> target.device == old(target.device)
  {
    hide FlashGeometry.Address, Erased, Run, EraseCommands;
    if target.g.ValidateErase(offset, length).Fail? { return Fail(Malformed); }
    if limits.write < 1 + target.g.AddressBytes() { return Fail(Malformed); }
    ghost var before := target.device;
    ghost var dropped := Dropped(before.busy, Min(SECTOR, length));
    var relative := 0;
    SpliceNothing(before.memory, offset);
    SpliceNothing(before.memory, offset + dropped);
    while relative < length
      invariant 0 <= relative <= length && relative % SECTOR == 0 && target.Valid()
      invariant relative == 0 ==> target.device == before
      invariant relative > 0 ==> target.device.busy == 0 && dropped <= relative
                                 && target.device.memory == Erased(before.memory, offset + dropped, relative - dropped)
      invariant OnlyWithin(before.memory, target.device.memory, offset, length)
    {
      assert relative + SECTOR <= length;
      ghost var stored := target.device.memory;
      EraseWithin(before.memory, stored, offset, length, offset + relative, SECTOR);
      var erased := ErasePiece(target, offset + relative, limits);
      if erased.Fail? { return erased; }
      if relative > 0 || before.busy == 0 { EraseConcat(before.memory, offset + dropped, relative - dropped, SECTOR); }
      relative := relative + target.g.erase;
    }
    if before.busy == 0 { ErasePlanLeaves(target.g, before, offset, length); }
    return Pass;
  }

  /** Reading an idle device in pieces returns the range, and never changes the device's memory. */
  method FlashRead(target: Target, offset: nat, length: nat, limits: Limits) returns (r: Result<seq<Byte>, BusError>)
    requires target.Valid() && limits.Valid()
    modifies target
    ensures target.Valid()
    ensures r.Ok? ==> length <= MAX_EVIDENCE_BYTES && target.g.InRange(offset, length)
    ensures old(target.device.busy) == 0 ==> target.device == old(target.device) && (r.Ok? ==> r.value == target.device.memory[offset..offset + length])
  {
    hide Exchange, Answers, FlashGeometry.Address;
    if length > MAX_EVIDENCE_BYTES { return Err(Malformed); }
    if target.g.ValidateRange(offset, length).Fail? { return Err(Malformed); }
    if limits.write < target.g.AddressBytes() + 1 { return Err(Malformed); }
    var remaining, cursor := length, offset;
    var bytes: seq<Byte> := [];
    while remaining > 0
      invariant 0 <= remaining <= length && cursor == offset + length - remaining && target.Valid()
      invariant old(target.device.busy) == 0 ==> target.device == old(target.device) && bytes == target.device.memory[offset..cursor]
    {
      var count := Min(remaining, limits.read);
      var command := [target.g.ReadOpcode()] + target.g.Address(cursor);
      ghost var before := target.device;
      var answer := target.Transact(command, count, limits);
      if answer.Err? {
        if before.busy == 0 && target.device != before {
          var lost :| Answers(target.g, before, command, count, target.device, lost);
          ReadAnswers(target.g, before, cursor, count, target.device, lost);
        }
        return Err(answer.error);
      }
      if before.busy == 0 { ReadAnswers(target.g, before, cursor, count, target.device, answer.value); }
      bytes := bytes + answer.value;
      cursor := cursor + count;
      remaining := remaining - count;
    }
    return Ok(bytes);
  }

  // ----- Devices that are busy when a request begins -----

  /** A busy device passes the latch test of `WriteEnable`, and then ignores the program or erase. */
  lemma BusyPassesTheTest(g: FlashGeometry, d: Device, bytes: seq<Byte>, delay: nat)
    requires g.Valid() && d.Fits(g) && d.busy > 0
    requires |bytes| > 1 && bytes[0] in {g.ProgramOpcode(), g.EraseOpcode()}
    ensures Exchange(g, d, [0x06], 0, delay) == (d, [])
    ensures var (after, answer) := Exchange(g, d, [0x05], 1, delay);
            answer[0] / 2 % 2 == 1 && Exchange(g, after, bytes, 0, delay) == (after, []) && after.memory == d.memory
  {
    hide AddressValue;
  }

  /** Losing a piece shows exactly when programming that piece would have changed the memory. */
  lemma DroppedPieceShows(memory: seq<Byte>, offset: nat, bytes: seq<Byte>, dropped: nat)
    requires dropped <= |bytes| && offset + |bytes| <= |memory|
    ensures AndSplice(memory, offset + dropped, bytes[dropped..]) == AndSplice(memory, offset, bytes)
            <==> AndSplice(memory, offset, bytes[..dropped]) == memory
  {
    var lost, whole := AndSplice(memory, offset + dropped, bytes[dropped..]), AndSplice(memory, offset, bytes);
    var piece := AndSplice(memory, offset, bytes[..dropped]);
    hide And;
    forall a | 0 <= a < |memory|
      ensures lost[a] == whole[a] <==> piece[a] == memory[a]
    {
    }
  }

  lemma DroppedSectorShows(memory: seq<Byte>, offset: nat, length: nat, dropped: nat)
    requires dropped <= length && offset + length <= |memory|
    ensures Erased(memory, offset + dropped, length - dropped) == Erased(memory, offset, length)
            <==> Erased(memory, offset, dropped) == memory
  {
    var lost, whole := Erased(memory, offset + dropped, length - dropped), Erased(memory, offset, length);
    forall a | 0 <= a < |memory|
      ensures lost[a] == whole[a] <==> Erased(memory, offset, dropped)[a] == memory[a]
    {
    }
  }
}
