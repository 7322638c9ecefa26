/** The bus backend: transactions split to the adapter's limits, and flash operations driven over them. */
module Bus {
  import opened Wrappers
  import opened Bytes
  import opened Flash
  import opened NorDevice

  const MAX_EVIDENCE_BYTES := 64 * 1024 * 1024

  datatype BusError = Malformed | Transport

  /** The adapter's limits as discovered: both positive, both at most 16 bits. */
  datatype Limits = Limits(write: nat, read: nat) {
    predicate Valid() {
      0 < write <= 0xFFFF && 0 < read <= 0xFFFF
    }
  }

  method FromDiscovery(maxWrite: nat, maxRead: nat) returns (r: Result<Limits, BusError>)
    ensures r == if maxWrite > 0 && maxRead > 0 then Ok(Limits(Min(maxWrite, 0xFFFF), Min(maxRead, 0xFFFF))) else Err(Malformed)
    ensures r.Ok? ==> r.value.Valid()
  {
    var limits := Limits(Min(maxWrite, 0xFFFF), Min(maxRead, 0xFFFF));
    return if limits.write == 0 || limits.read == 0 then Err(Malformed) else Ok(limits);
  }

  // ----- SPI transactions -----

  datatype Request = Request(write: seq<Byte>, readBytes: nat, start: bool, stop: bool)

  /** The write requests for `tx`; the first one starts the transaction when `first` holds. */
  function WriteRequests(tx: seq<Byte>, limit: nat, first: bool): seq<Request>
    requires limit > 0
    decreases |tx|
  {
    if tx == [] then []
    else [Request(tx[..Min(limit, |tx|)], 0, first, false)] + WriteRequests(tx[Min(limit, |tx|)..], limit, false)
  }

  /** The read requests for `count` bytes; the last one stops the transaction. */
  function ReadRequests(count: nat, limit: nat, first: bool): seq<Request>
    requires limit > 0
    decreases count
  {
    if count == 0 then []
    else [Request([], Min(count, limit), first, count <= limit)] + ReadRequests(count - Min(count, limit), limit, false)
  }

  function SpiRequests(tx: seq<Byte>, rx: nat, limits: Limits): seq<Request>
    requires limits.Valid()
  {
    WriteRequests(tx, limits.write, true) + ReadRequests(rx, limits.read, tx == [])
    + if rx == 0 && tx != [] then [Request([], 0, false, true)] else []
  }

  /** An adapter that logs what it is asked and answers with exactly as many bytes as requested, or fails. */
  class SpiAdapter {
    var requests: seq<Request>
    var answered: seq<Byte>

    constructor ()
      ensures requests == [] && answered == []
    {
      requests, answered := [], [];
    }

    method Transfer(write: seq<Byte>, readBytes: nat, start: bool, stop: bool) returns (r: Result<seq<Byte>, BusError>)
      modifies this
      ensures requests == old(requests) + [Request(write, readBytes, start, stop)]
      ensures if r.Ok? then |r.value| == readBytes && answered == old(answered) + r.value else r.error == Transport
    {
      requests := requests + [Request(write, readBytes, start, stop)];
      var fails: bool := *;
      if fails { return Err(Transport); }
      var answer: seq<Byte> := *;
      if |answer| != readBytes { answer := Filler(readBytes); }
      answered := answered + answer;
      return Ok(answer);
    }

    /** Bytes that happen to have arrived, at most as many as asked for. */
    method TransferUpTo(readBytes: nat) returns (r: Result<seq<Byte>, BusError>)
      modifies this
      ensures requests == old(requests) + [Request([], readBytes, false, false)]
      ensures if r.Ok? then |r.value| <= readBytes && answered == old(answered) + r.value else r.error == Transport
    {
      requests := requests + [Request([], readBytes, false, false)];
      var fails: bool := *;
      if fails { return Err(Transport); }
      var answer: seq<Byte> := *;
      if |answer| > readBytes { answer := []; }
      answered := answered + answer;
      return Ok(answer);
    }
  }

  method SendChunks(adapter: SpiAdapter, tx: seq<Byte>, limits: Limits) returns (r: Outcome<BusError>)
    requires limits.Valid()
    modifies adapter
    ensures r.Pass? ==> adapter.requests == old(adapter.requests) + WriteRequests(tx, limits.write, true) && adapter.answered == old(adapter.answered)
    ensures r.Fail? ==> r.error == Transport && old(adapter.requests) < adapter.requests <= old(adapter.requests) + WriteRequests(tx, limits.write, true)
  {
    ghost var goal := adapter.requests + WriteRequests(tx, limits.write, true);
    var sent := 0;
    assert tx[0..] == tx;
    while sent < |tx|
      invariant sent <= |tx|
      invariant adapter.requests + WriteRequests(tx[sent..], limits.write, sent == 0) == goal && adapter.answered == old(adapter.answered)
      invariant old(adapter.requests) <= adapter.requests
    {
      var count := Min(limits.write, |tx| - sent);
      assert tx[sent..][..count] == tx[sent..sent + count] && tx[sent..][count..] == tx[sent + count..];
      ghost var rest := WriteRequests(tx[sent + count..], limits.write, false);
      assert WriteRequests(tx[sent..], limits.write, sent == 0) == [Request(tx[sent..sent + count], 0, sent == 0, false)] + rest;
      hide WriteRequests;
      var answer := adapter.Transfer(tx[sent..sent + count], 0, sent == 0, false);
      assert adapter.requests + rest == goal;
      if answer.Err? { return Fail(Transport); }
      sent := sent + count;
    }
    return Pass;
  }

  method ReceiveChunks(adapter: SpiAdapter, rx: nat, limits: Limits, started: bool) returns (r: Result<seq<Byte>, BusError>)
    requires limits.Valid()
    modifies adapter
    ensures r.Ok? ==> |r.value| == rx && adapter.requests == old(adapter.requests) + ReadRequests(rx, limits.read, !started)
    ensures r.Ok? ==> adapter.answered == old(adapter.answered) + r.value
    ensures r.Err? ==> r.error == Transport && old(adapter.requests) < adapter.requests <= old(adapter.requests) + ReadRequests(rx, limits.read, !started)
  {
    ghost var goal := adapter.requests + ReadRequests(rx, limits.read, !started);
    var received: seq<Byte>, remaining := [], rx;
    while remaining > 0
      invariant 0 <= remaining <= rx && |received| == rx - remaining && adapter.answered == old(adapter.answered) + received
      invariant adapter.requests + ReadRequests(remaining, limits.read, !started && remaining == rx) == goal
      invariant old(adapter.requests) <= adapter.requests
    {
      var count := Min(remaining, limits.read);
      var stop := count == remaining;
      ghost var rest := ReadRequests(remaining - count, limits.read, false);
      assert ReadRequests(remaining, limits.read, !started && remaining == rx) == [Request([], count, !started && remaining == rx, stop)] + rest;
      hide ReadRequests;
      var answer := adapter.Transfer([], count, !started && remaining == rx, stop);
      assert adapter.requests + rest == goal;
      if answer.Err? { return Err(Transport); }
      received := received + answer.value;
      remaining := remaining - count;
    }
    return Ok(received);
  }

  /** A successful transfer makes exactly the requests of the exchange; a failed one stops at the failing request. */
  method SpiTransfer(adapter: SpiAdapter, tx: seq<Byte>, rx: nat, limits: Limits) returns (r: Result<seq<Byte>, BusError>)
    requires limits.Valid()
    modifies adapter
    ensures rx > MAX_EVIDENCE_BYTES ==> r == Err(Malformed) && adapter.requests == old(adapter.requests)
    ensures r.Ok? ==> |r.value| == rx && adapter.requests == old(adapter.requests) + SpiRequests(tx, rx, limits)
    ensures r.Ok? ==> adapter.answered == old(adapter.answered) + r.value // the bytes answered, in order
    ensures r == Err(Transport) ==> old(adapter.requests) < adapter.requests <= old(adapter.requests) + SpiRequests(tx, rx, limits)
  {
    if rx > MAX_EVIDENCE_BYTES { return Err(Malformed); }
    hide WriteRequests, ReadRequests;
    var sent := SendChunks(adapter, tx, limits);
    if sent.Fail? { return Err(Transport); }
    r := ReceiveChunks(adapter, rx, limits, tx != []);
    if r.Err? { return r; }
    if rx == 0 && tx != [] {
      assert ReadRequests(0, limits.read, false) == [] by { NoReads(limits); }
      var answer := adapter.Transfer([], 0, false, true);
      if answer.Err? { return Err(answer.error); }
    }
  }

  lemma NoReads(limits: Limits)
    requires limits.Valid()
    ensures ReadRequests(0, limits.read, false) == []
  {
  }

  function Writes(requests: seq<Request>): seq<Byte> {
    if requests == [] then [] else requests[0].write + Writes(requests[1..])
  }

  function ReadTotal(requests: seq<Request>): nat {
    if requests == [] then 0 else requests[0].readBytes + ReadTotal(requests[1..])
  }

  lemma {:induction false} WritesConcat(a: seq<Request>, b: seq<Request>)
    ensures Writes(a + b) == Writes(a) + Writes(b) && ReadTotal(a + b) == ReadTotal(a) + ReadTotal(b)
    decreases |a|
  {
    if a == [] {
      assert a + b == b;
    } else {
      WritesConcat(a[1..], b);
      assert (a + b)[1..] == a[1..] + b;
    }
  }

  predicate WithinLimits(requests: seq<Request>, limits: Limits) {
    forall q | q in requests :: |q.write| <= limits.write && q.readBytes <= limits.read
  }

  lemma {:induction false} WriteRequestsShape(tx: seq<Byte>, limits: Limits, first: bool)
    requires limits.Valid()
    ensures var q := WriteRequests(tx, limits.write, first);
            && Writes(q) == tx && ReadTotal(q) == 0 && WithinLimits(q, limits) && (q == [] <==> tx == [])
            && forall i | 0 <= i < |q| :: !q[i].stop && (q[i].start <==> i == 0 && first)
    decreases |tx|
  {
    if tx != [] {
      var count := Min(limits.write, |tx|);
      WriteRequestsShape(tx[count..], limits, false);
      var head, rest := Request(tx[..count], 0, first, false), WriteRequests(tx[count..], limits.write, false);
      assert ([head] + rest)[1..] == rest;
      assert tx[..count] + tx[count..] == tx;
    }
  }

  predicate ReadShape(q: seq<Request>, count: nat, limits: Limits, first: bool) {
    && Writes(q) == [] && ReadTotal(q) == count && WithinLimits(q, limits) && (q == [] <==> count == 0)
    && forall i | 0 <= i < |q| :: (q[i].stop <==> i == |q| - 1) && (q[i].start <==> i == 0 && first)
  }

  lemma ReadShapePrepend(head: Request, rest: seq<Request>, count: nat, limits: Limits)
    requires ReadShape(rest, count, limits, false) && head.write == [] && head.readBytes <= limits.read && head.readBytes > 0
    requires head.stop <==> count == 0
    ensures ReadShape([head] + rest, head.readBytes + count, limits, head.start)
  {
    var q := [head] + rest;
    assert q[1..] == rest;
    assert [] + Writes(rest) == Writes(rest);
    hide Writes, ReadTotal;
    forall i | 0 <= i < |q|
      ensures (q[i].stop <==> i == |q| - 1) && (q[i].start <==> i == 0 && head.start)
    {
      assert i > 0 ==> q[i] == rest[i - 1];
    }
  }

  lemma {:induction false} ReadRequestsShape(count: nat, limits: Limits, first: bool)
    requires limits.Valid()
    ensures ReadShape(ReadRequests(count, limits.read, first), count, limits, first)
    decreases count
  {
    if count > 0 {
      var taken := Min(count, limits.read);
      ReadRequestsShape(count - taken, limits, false);
      hide ReadShape;
      ReadShapePrepend(Request([], taken, first, count <= limits.read), ReadRequests(count - taken, limits.read, false), count - taken, limits);
    }
  }

  /** A nonempty exchange is one transaction: it starts exactly once, on the first request, and stops exactly once,
      on the last; the writes concatenate to `tx`, the reads add up to `rx`, and every request respects the limits. */
  lemma SpiExchange(tx: seq<Byte>, rx: nat, limits: Limits)
    requires limits.Valid()
    ensures var q := SpiRequests(tx, rx, limits);
            && Writes(q) == tx && ReadTotal(q) == rx && WithinLimits(q, limits)
            && (q == [] <==> tx == [] && rx == 0)
            && forall i | 0 <= i < |q| :: (q[i].start <==> i == 0) && (q[i].stop <==> i == |q| - 1)
  {
    hide WriteRequests, ReadRequests, Writes, ReadTotal;
    WriteRequestsShape(tx, limits, true);
    ReadRequestsShape(rx, limits, tx == []);
    var writes, fetches := WriteRequests(tx, limits.write, true), ReadRequests(rx, limits.read, tx == []);
    var last := if rx == 0 && tx != [] then [Request([], 0, false, true)] else [];
    SpiTotals(writes, fetches, last);
    assert tx + [] + [] == tx;
    var q := writes + fetches + last;
    forall i | 0 <= i < |q|
      ensures (q[i].start <==> i == 0) && (q[i].stop <==> i == |q| - 1)
    {
      assert i < |writes| ==> q[i] == writes[i];
      assert |writes| <= i < |writes| + |fetches| ==> q[i] == fetches[i - |writes|];
    }
  }

  lemma SpiTotals(writes: seq<Request>, fetches: seq<Request>, last: seq<Request>)
    requires last == [] || last == [Request([], 0, false, true)]
    ensures Writes(writes + fetches + last) == Writes(writes) + Writes(fetches) + []
    ensures ReadTotal(writes + fetches + last) == ReadTotal(writes) + ReadTotal(fetches)
  {
    WritesConcat(writes + fetches, last);
    WritesConcat(writes, fetches);
    assert last != [] ==> last[1..] == [];
    assert Writes(last) == [] && ReadTotal(last) == 0;
  }

  /** What a capture has asked for so far. */
  ghost predicate Captured(before: seq<Request>, after: seq<Request>, limits: Limits, total: nat) {
    before <= after && WithinLimits(after[|before|..], limits) && ReadTotal(after[|before|..]) == total
  }

  lemma CaptureMore(before: seq<Request>, after: seq<Request>, limits: Limits, total: nat, count: nat)
    requires Captured(before, after, limits, total) && count <= limits.read
    ensures Captured(before, after + [Request([], count, false, false)], limits, total + count)
  {
    var made, request := after[|before|..], [Request([], count, false, false)];
    assert (after + request)[|before|..] == made + request;
    WritesConcat(made, request);
    assert request[1..] == [] && ReadTotal(request) == count;
  }

  /** A capture never exceeds what was asked for or the evidence limit, and ends early only after a short answer. */
  method UartCapture(adapter: SpiAdapter, maxBytes: nat, limits: Limits) returns (r: Result<seq<Byte>, BusError>, ghost asked: nat)
    requires limits.Valid()
    modifies adapter
    ensures maxBytes > MAX_EVIDENCE_BYTES ==> r == Err(Malformed) && adapter.requests == old(adapter.requests)
    ensures r.Ok? ==> |r.value| <= maxBytes <= MAX_EVIDENCE_BYTES && adapter.answered == old(adapter.answered) + r.value
    ensures Captured(old(adapter.requests), adapter.requests, limits, asked) && asked <= maxBytes
    ensures r.Ok? ==> |r.value| <= asked && (|r.value| == asked ==> asked == maxBytes)
  {
    asked := 0;
    if maxBytes > MAX_EVIDENCE_BYTES { return Err(Malformed), asked; }
    hide Captured;
    ghost var before := adapter.requests;
    assert Captured(before, before, limits, 0) by { NothingCaptured(before, limits); }
    var bytes: seq<Byte>, remaining := [], maxBytes;
    while remaining > 0
      invariant 0 <= remaining <= maxBytes && |bytes| == maxBytes - remaining && adapter.answered == old(adapter.answered) + bytes
      invariant asked == maxBytes - remaining && Captured(before, adapter.requests, limits, asked)
    {
      var requested := Min(remaining, limits.read);
      CaptureMore(before, adapter.requests, limits, asked, requested);
      asked := asked + requested;
      var received := adapter.TransferUpTo(requested);
      if received.Err? { return Err(received.error), asked; }
      bytes := bytes + received.value;
      if |received.value| < requested { break; }
      remaining := remaining - requested;
    }
    return Ok(bytes), asked;
  }

  lemma NothingCaptured(before: seq<Request>, limits: Limits)
    ensures Captured(before, before, limits, 0)
  {
    assert before[|before|..] == [];
  }
}
