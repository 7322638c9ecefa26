/** A SPI-NOR device: write-enable latch, busy time, page wrap, AND-programming; and what plans do to it. */
module NorDevice {
  import opened Wrappers
  import opened Bytes
  import opened Flash

  /** `busy` counts the status polls until the current program or erase is done. The write-enable latch stays set
      for that long, and is cleared when the device becomes idle. */
  datatype Device = Device(memory: seq<Byte>, latch: bool, busy: nat) {
    predicate Fits(g: FlashGeometry) {
      |memory| == g.capacity && (busy > 0 ==> latch)
    }

    /** After one more status read. */
    function Polled(): Device {
      if busy == 0 then this else Device(memory, busy > 1, busy - 1)
    }

    /** After polling until idle. */
    function Settled(): Device {
      Device(memory, latch && busy == 0, 0)
    }

    function Status(): Byte {
      (if busy > 0 then 1 else 0) + (if latch then 2 else 0)
    }
  }

  // ----- Flat memory operations -----

  /** Programming can only clear bits: each byte becomes the conjunction of the old and the new one. */
  function AndSplice(memory: seq<Byte>, offset: nat, data: seq<Byte>): (r: seq<Byte>)
    requires offset + |data| <= |memory|
    ensures |r| == |memory|
    ensures forall a | 0 <= a < |r| ::
              r[a] == if offset <= a < offset + |data| then And(memory[a], data[a - offset]) else memory[a]
  {
    seq(|memory|, a requires 0 <= a < |memory| =>
          if offset <= a < offset + |data| then And(memory[a], data[a - offset]) else memory[a])
  }

  function Erased(memory: seq<Byte>, offset: nat, length: nat): (r: seq<Byte>)
    requires offset + length <= |memory|
    ensures |r| == |memory|
    ensures forall a | 0 <= a < |r| :: r[a] == if offset <= a < offset + length then 255 else memory[a]
  {
    seq(|memory|, a requires 0 <= a < |memory| => if offset <= a < offset + length then 255 else memory[a])
  }

  lemma SpliceNothing(memory: seq<Byte>, offset: nat)
    requires offset <= |memory|
    ensures AndSplice(memory, offset, []) == memory
    ensures Erased(memory, offset, 0) == memory
  {
  }

  /** Writing in two pieces is writing at once. */
  lemma SpliceConcat(memory: seq<Byte>, offset: nat, a: seq<Byte>, b: seq<Byte>)
    requires offset + |a| + |b| <= |memory|
    ensures AndSplice(AndSplice(memory, offset, a), offset + |a|, b) == AndSplice(memory, offset, a + b)
  {
    hide And;
  }

  lemma EraseConcat(memory: seq<Byte>, offset: nat, a: nat, b: nat)
    requires offset + a + b <= |memory|
    ensures Erased(Erased(memory, offset, a), offset + a, b) == Erased(memory, offset, a + b)
  {
  }

  /** Programming erased bytes stores the data and touches nothing else. */
  lemma SpliceOnErased(memory: seq<Byte>, from: nat, length: nat, offset: nat, data: seq<Byte>)
    requires from + length <= |memory| && from <= offset && offset + |data| <= from + length
    ensures AndSplice(Erased(memory, from, length), offset, data)[offset..offset + |data|] == data
  {
    forall k | 0 <= k < |data|
      ensures AndSplice(Erased(memory, from, length), offset, data)[offset + k] == data[k]
    {
      ErasedTakes(data[k]);
    }
  }

  // ----- The device's command decoder -----

  /** The address after `a`, wrapping within its page. */
  function NextInPage(page: nat, a: nat): nat
    requires page > 0
  {
    if (a + 1) % page == 0 && a + 1 >= page then a + 1 - page else a + 1
  }

  /** The page buffer: bytes land one after another and wrap at the end of the page. */
  function ProgramBytes(memory: seq<Byte>, page: nat, a: nat, data: seq<Byte>): (r: seq<Byte>)
    requires page > 0
    ensures |r| == |memory|
    decreases |data|
  {
    if data == [] then memory
    else
      var stored := if a < |memory| then memory[a := And(memory[a], data[0])] else memory;
      ProgramBytes(stored, page, NextInPage(page, a), data[1..])
  }

  /** Sectors are erased whole, wherever the address points within one. */
  function EraseSector(memory: seq<Byte>, a: nat): (r: seq<Byte>)
    ensures |r| == |memory|
  {
    var start := a - a % SECTOR;
    if start >= |memory| then memory else Erased(memory, start, Min(SECTOR, |memory| - start))
  }

  function ReadBytes(memory: seq<Byte>, a: nat, count: nat): (r: seq<Byte>)
    ensures |r| == count
  {
    seq(count, k requires 0 <= k < count => if a + k < |memory| then memory[a + k] else 255)
  }

  function Filler(count: nat): (r: seq<Byte>)
    ensures |r| == count
  {
    seq(count, _ => 255)
  }

  predicate IsCommand(g: FlashGeometry, bytes: seq<Byte>, opcode: Byte) {
    |bytes| >= 1 + g.AddressBytes() && bytes[0] == opcode
  }

  function AddressIn(g: FlashGeometry, bytes: seq<Byte>): nat
    requires |bytes| >= 1 + g.AddressBytes()
  {
    AddressValue(bytes[1..1 + g.AddressBytes()])
  }

  /** One complete SPI transaction; `delay` is how long a program or erase will keep the device busy. While busy,
      the device answers status reads only. Program and erase need the latch, which is cleared when they are done. */
  function Exchange(g: FlashGeometry, d: Device, bytes: seq<Byte>, count: nat, delay: nat): (r: (Device, seq<Byte>))
    requires g.page > 0
    ensures |r.0.memory| == |d.memory| && |r.1| == count
  {
    if bytes == [0x05] then (d.Polled(), seq(count, _ => d.Status()))
    else if d.busy > 0 then (d, Filler(count))
    else if bytes == [0x06] then (d.(latch := true), Filler(count))
    else if IsCommand(g, bytes, g.ReadOpcode()) then (d, ReadBytes(d.memory, AddressIn(g, bytes), count))
    else if IsCommand(g, bytes, g.ProgramOpcode()) && d.latch then
      (Device(ProgramBytes(d.memory, g.page, AddressIn(g, bytes), bytes[1 + g.AddressBytes()..]), delay > 0, delay), Filler(count))
    else if IsCommand(g, bytes, g.EraseOpcode()) && d.latch then
      (Device(EraseSector(d.memory, AddressIn(g, bytes)), delay > 0, delay), Filler(count))
    else (d, Filler(count))
  }

  /** Runs a plan: polling waits until the device is no longer busy. */
  function Run(g: FlashGeometry, d: Device, commands: seq<NorCommand>, delay: nat): (r: (Device, seq<Byte>))
    requires g.page > 0
    decreases |commands|
  {
    if commands == [] then (d, [])
    else
      var (next, answer) := match commands[0]
        case Transfer(bytes, count) => Exchange(g, d, bytes, count, delay)
        case PollBusyClear => (d.Settled(), []);
      var (last, answers) := Run(g, next, commands[1..], delay);
      (last, answer + answers)
  }

  // ----- One command at a time -----

  lemma {:induction false} ProgramIsSplice(memory: seq<Byte>, page: nat, a: nat, data: seq<Byte>)
    requires page > 0 && a % page + |data| <= page && a + |data| <= |memory|
    ensures ProgramBytes(memory, page, a, data) == AndSplice(memory, a, data)
    decreases |data|
  {
    if data == [] {
      SpliceNothing(memory, a);
    } else {
      var stored := memory[a := And(memory[a], data[0])];
      assert stored == AndSplice(memory, a, data[..1]);
      if |data| == 1 {
        assert data[1..] == [] && data[..1] == data;
      } else {
        StepInPage(page, a);
        ProgramIsSplice(stored, page, a + 1, data[1..]);
        SpliceConcat(memory, a, data[..1], data[1..]);
        assert data[..1] + data[1..] == data;
      }
    }
  }

  lemma StepInPage(page: nat, a: nat)
    requires page > 0 && a % page + 1 < page
    ensures (a + 1) % page == a % page + 1 && NextInPage(page, a) == a + 1
  {
    var q, r := a / page, a % page;
    assert a + 1 == page * q + (r + 1);
    Remainder(page, q, r + 1);
  }

  lemma Remainder(page: nat, q: nat, r: nat)
    requires r < page
    ensures (page * q + r) % page == r
  {
    var x := page * q + r;
    var d := q - x / page;
    assert page * d == page * q - page * (x / page) == x % page - r;
    Multiples(page, d);
  }

  lemma Multiples(page: nat, d: int)
    requires page > 0
    ensures d >= 1 ==> page * d >= page
    ensures d <= -1 ==> page * d <= 0 - page
    ensures d == 0 ==> page * d == 0
  {
    if d >= 1 {
      assert page * d == page + page * (d - 1);
    } else if d <= -1 {
      assert page * d == page * (d + 1) - page;
    }
  }

  /** Enable, program, poll: the flat splice, whatever the device's timing. */
  lemma PageRuns(g: FlashGeometry, d: Device, offset: nat, data: seq<Byte>, rest: seq<NorCommand>, delay: nat)
    requires g.Valid() && d.Fits(g) && d.busy == 0 && data != [] && |data| <= g.PageRemaining(offset) && g.InRange(offset, |data|)
    ensures Run(g, d, PageCommands(g, offset, data) + rest, delay) == Run(g, Device(AndSplice(d.memory, offset, data), false, 0), rest, delay)
  {
    var commands := PageCommands(g, offset, data) + rest;
    var enabled := d.(latch := true);
    var bytes := [g.ProgramOpcode()] + g.Address(offset) + data;
    var programmed := Device(AndSplice(d.memory, offset, data), delay > 0, delay);
    ProgramRuns(g, enabled, offset, data, delay);
    assert commands[0] == WRITE_ENABLE && commands[1] == Transfer(bytes, 0) && commands[2] == PollBusyClear;
    assert Exchange(g, d, [0x06], 0, delay) == (enabled, []);
    assert commands[1..][0] == commands[1] && commands[1..][1..][0] == commands[2] && commands[1..][1..][1..] == rest;
    hide AndSplice, Exchange, FlashGeometry.Address, PageCommands;
    var last := Run(g, Device(programmed.memory, false, 0), rest, delay);
    assert Run(g, programmed, commands[1..][1..], delay) == (last.0, [] + last.1);
    assert [] + last.1 == last.1;
    assert Run(g, enabled, commands[1..], delay) == last;
  }

  lemma ProgramRuns(g: FlashGeometry, d: Device, offset: nat, data: seq<Byte>, delay: nat)
    requires g.Valid() && |d.memory| == g.capacity && d.latch && d.busy == 0
    requires data != [] && |data| <= g.PageRemaining(offset) && g.InRange(offset, |data|)
    ensures Exchange(g, d, [g.ProgramOpcode()] + g.Address(offset) + data, 0, delay) == (Device(AndSplice(d.memory, offset, data), delay > 0, delay), [])
  {
    var bytes := [g.ProgramOpcode()] + g.Address(offset) + data;
    AddressRoundTrip(g, offset);
    assert bytes[1..1 + g.AddressBytes()] == g.Address(offset) && bytes[1 + g.AddressBytes()..] == data;
    hide FlashGeometry.Address, AddressValue, AndSplice;
    ProgramIsSplice(d.memory, g.page, offset, data);
  }

  lemma SectorRuns(g: FlashGeometry, d: Device, offset: nat, rest: seq<NorCommand>, delay: nat)
    requires g.Valid() && d.Fits(g) && d.busy == 0 && offset % SECTOR == 0 && g.InRange(offset, SECTOR)
    ensures Run(g, d, EraseCommands(g, offset, 1) + rest, delay) == Run(g, Device(Erased(d.memory, offset, SECTOR), false, 0), rest, delay)
  {
    var commands := EraseCommands(g, offset, 1) + rest;
    var enabled := d.(latch := true);
    var bytes := [g.EraseOpcode()] + g.Address(offset);
    var erased := Device(Erased(d.memory, offset, SECTOR), delay > 0, delay);
    EraseCommandRuns(g, enabled, offset, delay);
    assert EraseCommands(g, offset + SECTOR, 0) == [];
    assert commands[0] == WRITE_ENABLE && commands[1] == Transfer(bytes, 0) && commands[2] == PollBusyClear;
    assert Exchange(g, d, [0x06], 0, delay) == (enabled, []);
    assert commands[1..][0] == commands[1] && commands[1..][1..][0] == commands[2] && commands[1..][1..][1..] == rest;
    hide Erased, Exchange, FlashGeometry.Address, EraseCommands;
    var last := Run(g, Device(erased.memory, false, 0), rest, delay);
    assert Run(g, erased, commands[1..][1..], delay) == (last.0, [] + last.1);
    assert [] + last.1 == last.1;
    assert Run(g, enabled, commands[1..], delay) == last;
  }

  lemma EraseCommandRuns(g: FlashGeometry, d: Device, offset: nat, delay: nat)
    requires g.Valid() && |d.memory| == g.capacity && d.latch && d.busy == 0 && offset % SECTOR == 0 && g.InRange(offset, SECTOR)
    ensures Exchange(g, d, [g.EraseOpcode()] + g.Address(offset), 0, delay) == (Device(Erased(d.memory, offset, SECTOR), delay > 0, delay), [])
  {
    var bytes := [g.EraseOpcode()] + g.Address(offset);
    AddressRoundTrip(g, offset);
    assert bytes[1..1 + g.AddressBytes()] == g.Address(offset);
    hide FlashGeometry.Address, AddressValue, Erased;
  }

  // ----- Whole plans -----

  lemma {:induction false} WriteRuns(g: FlashGeometry, d: Device, offset: nat, bytes: seq<Byte>, delay: nat)
    requires g.Valid() && d.Fits(g) && d.busy == 0 && g.InRange(offset, |bytes|)
    ensures Run(g, d, WriteCommands(g, offset, bytes), delay)
            == (Device(AndSplice(d.memory, offset, bytes), d.latch && bytes == [], 0), [])
    decreases |bytes|
  {
    hide WriteCommands, PageCommands, AndSplice, Exchange, FlashGeometry.PageRemaining;
    if bytes == [] {
      NothingToWrite(g, offset);
      SpliceNothing(d.memory, offset);
    } else {
      var count := Min(g.PageRemaining(offset), |bytes|);
      var next := Device(AndSplice(d.memory, offset, bytes[..count]), false, 0);
      WriteUnrolls(g, offset, bytes, count);
      PageRuns(g, d, offset, bytes[..count], WriteCommands(g, offset + count, bytes[count..]), delay);
      WriteRuns(g, next, offset + count, bytes[count..], delay);
      SpliceConcat(d.memory, offset, bytes[..count], bytes[count..]);
      assert bytes[..count] + bytes[count..] == bytes;
    }
  }

  lemma {:induction false} EraseRuns(g: FlashGeometry, d: Device, offset: nat, sectors: nat, delay: nat)
    requires g.Valid() && d.Fits(g) && d.busy == 0 && offset % SECTOR == 0 && g.InRange(offset, SECTOR * sectors)
    ensures Run(g, d, EraseCommands(g, offset, sectors), delay)
            == (Device(Erased(d.memory, offset, SECTOR * sectors), d.latch && sectors == 0, 0), [])
    decreases sectors
  {
    hide EraseCommands, Erased, Run;
    if sectors == 0 {
      NothingToErase(g, d, offset, delay);
      SpliceNothing(d.memory, offset);
    } else {
      EraseUnrolls(g, offset, sectors);
      SectorRuns(g, d, offset, EraseCommands(g, offset + SECTOR, sectors - 1), delay);
      var next := Device(Erased(d.memory, offset, SECTOR), false, 0);
      assert SECTOR * sectors == SECTOR + SECTOR * (sectors - 1);
      EraseRuns(g, next, offset + SECTOR, sectors - 1, delay);
      EraseConcat(d.memory, offset, SECTOR, SECTOR * (sectors - 1));
    }
  }

  lemma NothingToErase(g: FlashGeometry, d: Device, offset: nat, delay: nat)
    requires g.page > 0
    ensures Run(g, d, EraseCommands(g, offset, 0), delay) == (d, [])
  {
  }

  lemma EraseUnrolls(g: FlashGeometry, offset: nat, sectors: nat)
    requires sectors > 0
    ensures EraseCommands(g, offset, sectors) == EraseCommands(g, offset, 1) + EraseCommands(g, offset + SECTOR, sectors - 1)
  {
    assert EraseCommands(g, offset + SECTOR, 0) == [];
  }

  lemma ReadRuns(g: FlashGeometry, d: Device, offset: nat, length: nat, delay: nat)
    requires g.Valid() && d.Fits(g) && d.busy == 0 && g.InRange(offset, length)
    ensures Run(g, d, ReadPlan(g, offset, length).commands, delay) == (d, d.memory[offset..offset + length])
  {
    var bytes := [g.ReadOpcode()] + g.Address(offset);
    if length > 0 { AddressRoundTrip(g, offset); }
    assert bytes[1..1 + g.AddressBytes()] == g.Address(offset);
    hide FlashGeometry.Address, AddressValue;
    assert ReadBytes(d.memory, AddressIn(g, bytes), length) == d.memory[offset..offset + length];
    var answer := d.memory[offset..offset + length];
    assert Exchange(g, d, bytes, length, delay) == (d, answer);
    assert ReadPlan(g, offset, length).commands == [Transfer(bytes, length)];
    assert [Transfer(bytes, length)][1..] == [];
    assert answer + [] == answer;
  }

  /** Erase, then write inside the erased region, then read back: the device returns exactly the written bytes,
      and no byte outside the erased sectors changes. Holds for every valid geometry, request and device timing. */
  lemma EraseWriteRead(g: FlashGeometry, d: Device, from: nat, length: nat, offset: nat, bytes: seq<Byte>, delay: nat)
    requires g.Valid() && d.Fits(g) && d.busy == 0 && g.Erasable(from, length)
    requires from <= offset && offset + |bytes| <= from + length
    ensures var erased := Run(g, d, EraseCommands(g, from, length / SECTOR), delay).0;
            var written := Run(g, erased, WriteCommands(g, offset, bytes), delay).0;
            && Run(g, written, ReadPlan(g, offset, |bytes|).commands, delay) == (written, bytes)
            && |written.memory| == |d.memory|
            && (forall a | 0 <= a < |d.memory| && !(from <= a < from + length) :: written.memory[a] == d.memory[a])
            && (forall a | from <= a < from + length && !(offset <= a < offset + |bytes|) :: written.memory[a] == 255)
  {
    hide EraseCommands, WriteCommands, ReadPlan, Run, And;
    var sectors := length / SECTOR;
    EraseRuns(g, d, from, sectors, delay);
    var erased := Run(g, d, EraseCommands(g, from, sectors), delay).0;
    WriteRuns(g, erased, offset, bytes, delay);
    var written := Run(g, erased, WriteCommands(g, offset, bytes), delay).0;
    ReadRuns(g, written, offset, |bytes|, delay);
    SpliceOnErased(d.memory, from, length, offset, bytes);
  }
}
