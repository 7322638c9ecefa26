/** SPI-NOR geometry and command planning: addresses, opcodes, and page- and sector-wise command lists. */
module Flash {
  import opened Wrappers
  import opened Bytes

  datatype AddressMode = ThreeByte | FourByte

  const U64_LIMIT := 0x1_0000_0000_0000_0000
  const U32_LIMIT := 0x1_0000_0000
  const SECTOR := 4096

  datatype LayoutError =
    | ZeroCapacity
    | ZeroPage
    | ZeroErase
    | UnsupportedEraseBytes
    | UnsupportedThreeByteCapacity
    | UnsupportedFourByteCapacity
    | OutOfBounds
    | EraseUnaligned

  datatype FlashGeometry = FlashGeometry(capacity: nat, page: nat, erase: nat, mode: AddressMode) {
    /** What `TryNew` accepts. */
    predicate Valid() {
      && 0 < capacity <= (if mode.ThreeByte? then 0x100_0000 else 0x1_0000_0000)
      && 0 < page < U32_LIMIT && erase == SECTOR
    }

    function AddressBytes(): nat {
      if mode.ThreeByte? then 3 else 4
    }

    function Address(offset: nat): (r: seq<Byte>)
      ensures |r| == AddressBytes()
    {
      var low := [offset / 0x1_0000 % 256, offset / 0x100 % 256, offset % 256];
      if mode.ThreeByte? then low else [offset / 0x100_0000 % 256] + low
    }

    function ReadOpcode(): Byte {
      if mode.ThreeByte? then 0x03 else 0x13
    }

    function ProgramOpcode(): Byte {
      if mode.ThreeByte? then 0x02 else 0x12
    }

    function EraseOpcode(): Byte {
      if mode.ThreeByte? then 0x20 else 0x21
    }

    predicate InRange(offset: nat, length: nat) {
      offset + length <= capacity
    }

    predicate Erasable(offset: nat, length: nat)
      requires erase > 0
    {
      InRange(offset, length) && offset % erase == 0 && length % erase == 0
    }

    function ValidateRange(offset: nat, length: nat): Outcome<LayoutError> {
      Need(offset + length < U64_LIMIT && offset + length <= capacity, OutOfBounds)
    }

    function ValidateErase(offset: nat, length: nat): Outcome<LayoutError>
      requires erase > 0
    {
      if ValidateRange(offset, length).Fail? then ValidateRange(offset, length)
      else Need(offset % erase == 0 && length % erase == 0, EraseUnaligned)
    }

    /** How many bytes from `offset` to the end of its page. */
    function PageRemaining(offset: nat): (n: nat)
      requires page > 0
      ensures 0 < n <= page && offset % page + n == page
    {
      page - offset % page
    }
  }

  /** The big-endian number a device reads from address bytes. */
  function AddressValue(bytes: seq<Byte>): nat {
    if bytes == [] then 0 else 256 * AddressValue(bytes[..|bytes| - 1]) + bytes[|bytes| - 1]
  }

  method TryNew(capacity: nat, page: nat, erase: nat, mode: AddressMode) returns (r: Result<FlashGeometry, LayoutError>)
    requires page < U32_LIMIT
    ensures r.Ok? <==> FlashGeometry(capacity, page, erase, mode).Valid()
    ensures r.Ok? ==> r.value == FlashGeometry(capacity, page, erase, mode)
  {
    if capacity == 0 { return Err(ZeroCapacity); }
    if page == 0 { return Err(ZeroPage); }
    if erase == 0 { return Err(ZeroErase); }
    if erase != SECTOR { return Err(UnsupportedEraseBytes); }
    if mode.ThreeByte? && capacity > 0x100_0000 { return Err(UnsupportedThreeByteCapacity); }
    if mode.FourByte? && capacity > 0x1_0000_0000 { return Err(UnsupportedFourByteCapacity); }
    return Ok(FlashGeometry(capacity, page, erase, mode));
  }

  lemma ThreeBytes(a: Byte, b: Byte, c: Byte)
    ensures AddressValue([a, b, c]) == 0x1_0000 * a + 0x100 * b + c
  {
    assert [a, b, c][..2] == [a, b] && [a, b][..1] == [a] && [a][..0] == [];
    assert AddressValue([a]) == a;
    assert AddressValue([a, b]) == 0x100 * a + b;
  }

  lemma ShiftTwice(x: nat)
    ensures x / 0x1_0000 == x / 256 / 256 && x / 0x100_0000 == x / 0x1_0000 / 256
    ensures x == 256 * (x / 256) + x % 256
  {
  }

  /** Every offset a valid geometry can hold is sent as an address that decodes back to it. */
  lemma AddressRoundTrip(g: FlashGeometry, offset: nat)
    requires g.Valid() && offset < g.capacity
    ensures AddressValue(g.Address(offset)) == offset
  {
    hide AddressValue;
    var x, y := offset / 0x100, offset / 0x1_0000;
    ShiftTwice(offset);
    ShiftTwice(x);
    ShiftTwice(y);
    ThreeBytes(y % 256, x % 256, offset % 256);
    if g.mode.FourByte? {
      FourBytes(offset / 0x100_0000 % 256, y % 256, x % 256, offset % 256);
    }
  }

  lemma FourBytes(d: Byte, a: Byte, b: Byte, c: Byte)
    ensures AddressValue([d] + [a, b, c]) == 0x100_0000 * d + 0x1_0000 * a + 0x100 * b + c
  {
    ThreeBytes(d, a, b);
    assert ([d] + [a, b, c])[..3] == [d, a, b];
  }

  datatype NorOperation =
    | Identify
    | Read(offset: nat, length: nat)
    | Erase(offset: nat, length: nat)
    | Write(offset: nat, bytes: seq<Byte>)
    | Verify(offset: nat, expected: seq<Byte>)

  datatype NorCommand = Transfer(bytes: seq<Byte>, readBytes: nat) | PollBusyClear

  datatype NorPlan = NorPlan(commands: seq<NorCommand>, expectedReadBytes: nat)

  const WRITE_ENABLE := Transfer([0x06], 0)

  /** The three commands of one page write: enable, program, wait. */
  function PageCommands(g: FlashGeometry, offset: nat, data: seq<Byte>): seq<NorCommand> {
    [WRITE_ENABLE, Transfer([g.ProgramOpcode()] + g.Address(offset) + data, 0), PollBusyClear]
  }

  /** Program at most to the end of the page; then the rest. */
  function WriteCommands(g: FlashGeometry, offset: nat, bytes: seq<Byte>): seq<NorCommand>
    requires g.page > 0
    decreases |bytes|
  {
    if bytes == [] then []
    else
      var count := Min(g.PageRemaining(offset), |bytes|);
      PageCommands(g, offset, bytes[..count]) + WriteCommands(g, offset + count, bytes[count..])
  }

  function EraseCommands(g: FlashGeometry, offset: nat, sectors: nat): seq<NorCommand>
    decreases sectors
  {
    if sectors == 0 then []
    else [WRITE_ENABLE, Transfer([g.EraseOpcode()] + g.Address(offset), 0), PollBusyClear]
         + EraseCommands(g, offset + SECTOR, sectors - 1)
  }

  function ReadPlan(g: FlashGeometry, offset: nat, length: nat): NorPlan {
    NorPlan([Transfer([g.ReadOpcode()] + g.Address(offset), length)], length)
  }

  function Min(a: nat, b: nat): nat {
    if a <= b then a else b
  }

  method ForOperation(g: FlashGeometry, operation: NorOperation) returns (r: Result<NorPlan, LayoutError>)
    requires g.Valid()
    ensures operation.Identify? ==> r.Ok? && r.value.expectedReadBytes == 259
    ensures operation.Read? ==>
              r == if g.InRange(operation.offset, operation.length) then Ok(ReadPlan(g, operation.offset, operation.length)) else Err(OutOfBounds)
    ensures operation.Erase? ==> (r.Ok? <==> g.Erasable(operation.offset, operation.length))
    ensures operation.Erase? && r.Ok? ==> r.value == NorPlan(EraseCommands(g, operation.offset, operation.length / SECTOR), 0)
    ensures operation.Write? ==> (r.Ok? <==> |operation.bytes| < U32_LIMIT && g.InRange(operation.offset, |operation.bytes|))
    ensures operation.Write? && r.Ok? ==> r.value == NorPlan(WriteCommands(g, operation.offset, operation.bytes), 0)
    ensures operation.Verify? ==>
              r == if |operation.expected| < U32_LIMIT && g.InRange(operation.offset, |operation.expected|)
                   then Ok(ReadPlan(g, operation.offset, |operation.expected|)) else Err(OutOfBounds)
  {
    match operation {
      case Identify =>
        return Ok(NorPlan([Transfer([0x9F], 3), Transfer([0x5A, 0, 0, 0, 0], 256)], 259));
      case Read(offset, length) =>
        if g.ValidateRange(offset, length).Fail? { return Err(OutOfBounds); }
        return Ok(ReadPlan(g, offset, length));
      case Erase(offset, length) =>
        var valid := g.ValidateErase(offset, length);
        if valid.Fail? { return Err(valid.error); }
        var commands := EraseLoop(g, offset, length);
        return Ok(NorPlan(commands, 0));
      case Write(offset, bytes) =>
        if |bytes| >= U32_LIMIT || g.ValidateRange(offset, |bytes|).Fail? { return Err(OutOfBounds); }
        var commands := WriteLoop(g, offset, bytes);
        return Ok(NorPlan(commands, 0));
      case Verify(offset, expected) =>
        if |expected| >= U32_LIMIT { return Err(OutOfBounds); }
        if g.ValidateRange(offset, |expected|).Fail? { return Err(OutOfBounds); }
        return Ok(ReadPlan(g, offset, |expected|));
    }
  }

  method EraseLoop(g: FlashGeometry, offset: nat, length: nat) returns (commands: seq<NorCommand>)
    requires g.Valid() && g.Erasable(offset, length)
    ensures commands == EraseCommands(g, offset, length / SECTOR)
  {
    hide FlashGeometry.Address;
    commands := [];
    var sector := 0;
    ghost var n, k := length / SECTOR, 0;
    while sector < length
      invariant sector == SECTOR * k && length == SECTOR * n && 0 <= k <= n
      invariant commands + EraseCommands(g, offset + sector, n - k) == EraseCommands(g, offset, n)
    {
      commands := commands + [WRITE_ENABLE];
      var erase := [g.EraseOpcode()] + g.Address(offset + sector);
      commands := commands + [Transfer(erase, 0)];
      commands := commands + [PollBusyClear];
      sector := sector + g.erase;
      k := k + 1;
    }
  }

  method WriteLoop(g: FlashGeometry, offset: nat, bytes: seq<Byte>) returns (commands: seq<NorCommand>)
    requires g.Valid()
    ensures commands == WriteCommands(g, offset, bytes)
  {
    hide WriteCommands, PageCommands, FlashGeometry.Address, FlashGeometry.PageRemaining;
    commands := [];
    var cursor := 0;
    assert bytes[0..] == bytes;
    while cursor < |bytes|
      invariant cursor <= |bytes|
      invariant commands + WriteCommands(g, offset + cursor, bytes[cursor..]) == WriteCommands(g, offset, bytes)
    {
      var count := Min(g.PageRemaining(offset + cursor), |bytes| - cursor);
      WriteUnrolls(g, offset + cursor, bytes[cursor..], count);
      assert bytes[cursor..][..count] == bytes[cursor..cursor + count] && bytes[cursor..][count..] == bytes[cursor + count..];
      var page := [g.ProgramOpcode()] + g.Address(offset + cursor) + bytes[cursor..cursor + count];
      PageIs(g, offset + cursor, bytes[cursor..cursor + count], page);
      commands := commands + [WRITE_ENABLE, Transfer(page, 0), PollBusyClear];
      cursor := cursor + count;
    }
    assert bytes[cursor..] == [] && WriteCommands(g, offset + cursor, []) == [] by { NothingToWrite(g, offset + cursor); }
  }

  lemma NothingToWrite(g: FlashGeometry, offset: nat)
    requires g.page > 0
    ensures WriteCommands(g, offset, []) == []
  {
  }

  lemma PageIs(g: FlashGeometry, offset: nat, data: seq<Byte>, page: seq<Byte>)
    requires page == [g.ProgramOpcode()] + g.Address(offset) + data
    ensures PageCommands(g, offset, data) == [WRITE_ENABLE, Transfer(page, 0), PollBusyClear]
  {
  }

  lemma WriteUnrolls(g: FlashGeometry, offset: nat, bytes: seq<Byte>, count: nat)
    requires g.Valid() && bytes != [] && count == Min(g.PageRemaining(offset), |bytes|)
    ensures WriteCommands(g, offset, bytes) == PageCommands(g, offset, bytes[..count]) + WriteCommands(g, offset + count, bytes[count..])
  {
  }

  /** A program transfer that sends an address inside the request, with data that ends within that page. */
  predicate WithinPage(g: FlashGeometry, command: NorCommand, offset: nat, length: nat)
    requires g.page > 0
  {
    command.Transfer? && |command.bytes| > 1 + g.AddressBytes() && command.bytes[0] == g.ProgramOpcode()
    && var address := AddressValue(command.bytes[1..1 + g.AddressBytes()]);
       var count := |command.bytes| - 1 - g.AddressBytes();
       offset <= address && address + count <= offset + length && address % g.page + count <= g.page
  }

  lemma FirstPageFits(g: FlashGeometry, offset: nat, data: seq<Byte>, length: nat)
    requires g.Valid() && g.InRange(offset, length) && 0 < |data| <= length && |data| <= g.PageRemaining(offset)
    ensures WithinPage(g, PageCommands(g, offset, data)[1], offset, length)
  {
    AddressRoundTrip(g, offset);
    var bytes := [g.ProgramOpcode()] + g.Address(offset) + data;
    assert bytes[1..1 + g.AddressBytes()] == g.Address(offset);
    hide FlashGeometry.Address, AddressValue;
  }

  lemma Widens(g: FlashGeometry, command: NorCommand, offset: nat, length: nat, count: nat)
    requires g.page > 0 && count <= length && WithinPage(g, command, offset + count, length - count)
    ensures WithinPage(g, command, offset, length)
  {
    hide AddressValue;
  }

  /** Enable, program within a page, poll, over and over. */
  predicate Paged(g: FlashGeometry, commands: seq<NorCommand>, offset: nat, length: nat)
    requires g.page > 0
    decreases |commands|
  {
    commands == []
    || (|commands| >= 3 && commands[0] == WRITE_ENABLE && WithinPage(g, commands[1], offset, length) && commands[2] == PollBusyClear
        && Paged(g, commands[3..], offset, length))
  }

  lemma {:induction false} PagedWidens(g: FlashGeometry, commands: seq<NorCommand>, offset: nat, length: nat, count: nat)
    requires g.page > 0 && count <= length && Paged(g, commands, offset + count, length - count)
    ensures Paged(g, commands, offset, length)
    decreases |commands|
  {
    if commands != [] {
      Widens(g, commands[1], offset, length, count);
      PagedWidens(g, commands[3..], offset, length, count);
    }
  }

  lemma PagedPrepend(g: FlashGeometry, offset: nat, data: seq<Byte>, length: nat, rest: seq<NorCommand>)
    requires g.Valid() && g.InRange(offset, length) && 0 < |data| <= length && |data| <= g.PageRemaining(offset)
    requires Paged(g, rest, offset, length)
    ensures Paged(g, PageCommands(g, offset, data) + rest, offset, length)
  {
    var commands := PageCommands(g, offset, data) + rest;
    FirstPageFits(g, offset, data, length);
    assert commands[3..] == rest;
    assert commands[1] == PageCommands(g, offset, data)[1];
    hide WithinPage, FlashGeometry.Address;
  }

  /** No program command of a write plan crosses a page, and every address decodes into the request. */
  lemma {:induction false} WritesArePaged(g: FlashGeometry, offset: nat, bytes: seq<Byte>)
    requires g.Valid() && g.InRange(offset, |bytes|)
    ensures Paged(g, WriteCommands(g, offset, bytes), offset, |bytes|)
    decreases |bytes|
  {
    hide WriteCommands, PageCommands, Paged, FlashGeometry.Address, FlashGeometry.PageRemaining;
    if bytes == [] {
      NothingToWrite(g, offset);
      NothingPaged(g, offset);
    } else {
      var count := Min(g.PageRemaining(offset), |bytes|);
      var rest := WriteCommands(g, offset + count, bytes[count..]);
      WriteUnrolls(g, offset, bytes, count);
      WritesArePaged(g, offset + count, bytes[count..]);
      PagedWidens(g, rest, offset, |bytes|, count);
      PagedPrepend(g, offset, bytes[..count], |bytes|, rest);
    }
  }

  lemma NothingPaged(g: FlashGeometry, offset: nat)
    requires g.page > 0
    ensures Paged(g, [], offset, 0)
  {
  }
}
