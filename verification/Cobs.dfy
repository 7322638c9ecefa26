/** Consistent overhead byte stuffing: framing payloads so that zero only ever ends a frame. */
module Cobs {
  import opened Wrappers
  import opened Bytes

  const DELIMITER: Byte := 0
  const FULL := 254

  datatype FrameError = FrameTooLarge | MalformedCobs | EndOfStream

  // ----- Encoding -----

  /** A code byte counts itself and the block after it. */
  function Block(data: seq<Byte>): (r: seq<Byte>)
    requires |data| <= FULL
  {
    [|data| + 1] + data
  }

  /** The blocks of `rest`, continuing the unfinished block `pending`. */
  function Blocks(pending: seq<Byte>, rest: seq<Byte>): seq<Byte>
    requires |pending| < FULL
    decreases |rest|
  {
    if rest == [] then Block(pending)
    else if rest[0] == DELIMITER then Block(pending) + Blocks([], rest[1..])
    else if |pending| + 1 == FULL then Block(pending + [rest[0]]) + Blocks([], rest[1..])
    else Blocks(pending + [rest[0]], rest[1..])
  }

  function Frame(payload: seq<Byte>): seq<Byte> {
    Blocks([], payload) + [DELIMITER]
  }

  method Encode(payload: seq<Byte>) returns (frame: seq<Byte>)
    ensures frame == Frame(payload)
  {
    var block: seq<Byte> := [];
    frame := [];
    for i := 0 to |payload|
      invariant |block| < FULL
      invariant frame + Blocks(block, payload[i..]) == Blocks([], payload)
    {
      var byte := payload[i];
      assert payload[i..][1..] == payload[i + 1..];
      if byte == DELIMITER {
        frame := frame + Block(block);
        block := [];
      } else {
        block := block + [byte];
        if |block| == FULL {
          frame := frame + Block(block);
          block := [];
        }
      }
    }
    frame := frame + Block(block) + [DELIMITER];
  }

  /** Zero occurs in no code and in no block. */
  lemma {:induction false} BlocksHaveNoDelimiter(pending: seq<Byte>, rest: seq<Byte>)
    requires |pending| < FULL && DELIMITER !in pending
    ensures DELIMITER !in Blocks(pending, rest) && Blocks(pending, rest) != []
    decreases |rest|
  {
    if rest != [] {
      if rest[0] == DELIMITER || |pending| + 1 == FULL {
        BlocksHaveNoDelimiter([], rest[1..]);
      } else {
        BlocksHaveNoDelimiter(pending + [rest[0]], rest[1..]);
      }
    }
  }

  lemma {:induction false} BlocksLength(pending: seq<Byte>, rest: seq<Byte>)
    requires |pending| < FULL
    ensures |Blocks(pending, rest)| <= |pending| + |rest| + 1 + (|pending| + |rest|) / FULL
    decreases |rest|
  {
    if rest != [] {
      if rest[0] == DELIMITER || |pending| + 1 == FULL {
        BlocksLength([], rest[1..]);
      } else {
        BlocksLength(pending + [rest[0]], rest[1..]);
      }
    }
  }

  /** A frame ends in its only zero, and costs at most one byte per 254 and two more. */
  lemma FrameShape(payload: seq<Byte>)
    ensures var frame := Frame(payload);
            && |frame| <= |payload| + |payload| / FULL + 2
            && frame != [] && forall i | 0 <= i < |frame| :: frame[i] == DELIMITER <==> i == |frame| - 1
  {
    BlocksHaveNoDelimiter([], payload);
    BlocksLength([], payload);
    var blocks := Blocks([], payload);
    forall i | 0 <= i < |blocks|
      ensures blocks[i] != DELIMITER
    {
      assert blocks[i] in blocks;
    }
  }

  // ----- Decoding -----

  /** What a sequence of blocks stands for: a zero between two blocks unless the first one is full. */
  function Unblock(blocks: seq<Byte>): (r: Result<seq<Byte>, FrameError>)
    ensures r.Ok? ==> |r.value| <= |blocks|
    ensures r.Err? ==> r.error == MalformedCobs
    decreases |blocks|
  {
    if blocks == [] then Ok([])
    else
      var code := blocks[0];
      if code == 0 || code > |blocks| then Err(MalformedCobs)
      else
        var rest := blocks[code..];
        var tail :- Unblock(rest);
        Ok(blocks[1..code] + (if code != 255 && rest != [] then [DELIMITER] else []) + tail)
  }

  function Decoded(frame: seq<Byte>, limit: nat): Result<seq<Byte>, FrameError> {
    if frame == [] || |frame| > limit then Err(FrameTooLarge) else Unblock(frame)
  }

  /** The result of decoding when `decoded` came before it. */
  function After(decoded: seq<Byte>, r: Result<seq<Byte>, FrameError>): Result<seq<Byte>, FrameError> {
    if r.Ok? then Ok(decoded + r.value) else r
  }

  lemma AfterBlock(decoded: seq<Byte>, remaining: seq<Byte>, separator: seq<Byte>)
    requires remaining != [] && 0 < remaining[0] <= |remaining|
    requires separator == if remaining[0] != 255 && remaining[remaining[0]..] != [] then [DELIMITER] else []
    ensures After(decoded, Unblock(remaining)) == After(decoded + remaining[1..remaining[0]] + separator, Unblock(remaining[remaining[0]..]))
  {
    var tail := Unblock(remaining[remaining[0]..]);
    if tail.Ok? {
      assert decoded + (remaining[1..remaining[0]] + separator + tail.value) == decoded + remaining[1..remaining[0]] + separator + tail.value;
    }
  }

  /** The length check inside the loop never fires: what is decoded plus what remains never exceeds the frame. */
  method Decode(frame: seq<Byte>, limit: nat) returns (r: Result<seq<Byte>, FrameError>)
    ensures r == Decoded(frame, limit)
  {
    if frame == [] || |frame| > limit { return Err(FrameTooLarge); }
    var decoded: seq<Byte>, remaining := [], frame;
    var tooLarge := false;
    assert After([], Unblock(frame)) == Unblock(frame) by {
      if Unblock(frame).Ok? { assert [] + Unblock(frame).value == Unblock(frame).value; }
    }
    while remaining != [] && !tooLarge
      invariant |decoded| + |remaining| <= |frame| <= limit
      invariant !tooLarge
      invariant Unblock(frame) == After(decoded, Unblock(remaining))
      decreases |remaining|
    {
      var code := remaining[0];
      if code == 0 { return Err(MalformedCobs); }
      if code > |remaining| { return Err(MalformedCobs); }
      var block := remaining[1..code];
      var separator := if code != 255 && remaining[code..] != [] then [DELIMITER] else [];
      AfterBlock(decoded, remaining, separator);
      decoded := decoded + block + separator;
      remaining := remaining[code..];
      tooLarge := |decoded| > limit;
    }
    assert decoded + [] == decoded;
    return if tooLarge then Err(FrameTooLarge) else Ok(decoded);
  }

  lemma UnblockStep(data: seq<Byte>, rest: seq<Byte>)
    requires |data| <= FULL && rest != [] && Unblock(rest).Ok?
    ensures Unblock(Block(data) + rest) == Ok(data + (if |data| != FULL then [DELIMITER] else []) + Unblock(rest).value)
  {
    var blocks := Block(data) + rest;
    assert blocks[1..|data| + 1] == data && blocks[|data| + 1..] == rest;
  }

  /** A delimiter in the payload flushes the pending block and is put back between the two. */
  lemma DelimiterStep(pending: seq<Byte>, rest: seq<Byte>)
    requires |pending| < FULL && rest != [] && rest[0] == DELIMITER
    requires Unblock(Blocks([], rest[1..])) == Ok(rest[1..]) && Blocks([], rest[1..]) != []
    ensures Unblock(Blocks(pending, rest)) == Ok(pending + rest)
  {
    hide Unblock, Block;
    assert Blocks(pending, rest) == Block(pending) + Blocks([], rest[1..]);
    hide Blocks;
    UnblockStep(pending, Blocks([], rest[1..]));
    assert pending + [DELIMITER] + rest[1..] == pending + rest;
  }

  /** A full block is flushed with nothing put back. */
  lemma FullStep(pending: seq<Byte>, rest: seq<Byte>)
    requires |pending| + 1 == FULL && rest != [] && rest[0] != DELIMITER
    requires Unblock(Blocks([], rest[1..])) == Ok(rest[1..]) && Blocks([], rest[1..]) != []
    ensures Unblock(Blocks(pending, rest)) == Ok(pending + rest)
  {
    hide Unblock, Block;
    var data := pending + [rest[0]];
    assert Blocks(pending, rest) == Block(data) + Blocks([], rest[1..]);
    hide Blocks;
    UnblockStep(data, Blocks([], rest[1..]));
    assert data + [] + rest[1..] == pending + rest;
  }

  lemma {:induction false} UnblockBlocks(pending: seq<Byte>, rest: seq<Byte>)
    requires |pending| < FULL && DELIMITER !in pending
    ensures Unblock(Blocks(pending, rest)) == Ok(pending + rest)
    decreases |rest|
  {
    if rest == [] {
      LastBlock(pending);
      assert pending + [] == pending;
    } else if rest[0] != DELIMITER && |pending| + 1 < FULL {
      UnblockBlocks(pending + [rest[0]], rest[1..]);
      assert pending + [rest[0]] + rest[1..] == pending + rest;
      hide Unblock, Block;
    } else {
      hide Unblock, Block, Blocks;
      UnblockBlocks([], rest[1..]);
      assert [] + rest[1..] == rest[1..];
      BlocksHaveNoDelimiter([], rest[1..]);
      if rest[0] == DELIMITER { DelimiterStep(pending, rest); } else { FullStep(pending, rest); }
    }
  }

  lemma LastBlock(data: seq<Byte>)
    requires |data| < FULL
    ensures Unblock(Block(data)) == Ok(data)
  {
    var blocks := Block(data);
    assert blocks[1..|data| + 1] == data && blocks[|data| + 1..] == [];
    assert data + [] + [] == data;
  }

  /** Decoding an encoded payload, without its delimiter, gives the payload whenever the frame fits the limit. */
  lemma RoundTrip(payload: seq<Byte>, limit: nat)
    ensures var frame := Frame(payload);
            Decoded(frame[..|frame| - 1], limit) == if |frame| - 1 <= limit then Ok(payload) else Err(FrameTooLarge)
  {
    UnblockBlocks([], payload);
    BlocksHaveNoDelimiter([], payload);
    assert Frame(payload)[..|Frame(payload)| - 1] == Blocks([], payload);
    assert [] + payload == payload;
  }

  // ----- Reading from a stream -----

  /** What one read of a frame returns, and the bytes it leaves unread. */
  function FrameRead(read: seq<Byte>, stream: seq<Byte>, limit: nat): (Result<seq<Byte>, FrameError>, seq<Byte>)
    decreases |stream|
  {
    if stream == [] then (Err(EndOfStream), [])
    else if stream[0] == DELIMITER then (Decoded(read, limit), stream[1..])
    else if |read| + 1 > limit then (Err(FrameTooLarge), stream[1..])
    else FrameRead(read + [stream[0]], stream[1..], limit)
  }

  class ByteStream {
    var unread: seq<Byte>

    constructor (bytes: seq<Byte>)
      ensures unread == bytes
    {
      unread := bytes;
    }

    method Read() returns (byte: Option<Byte>)
      modifies this
      ensures old(unread) == [] ==> byte == None && unread == []
      ensures old(unread) != [] ==> byte == Some(old(unread)[0]) && unread == old(unread)[1..]
    {
      if unread == [] { return None; }
      byte := Some(unread[0]);
      unread := unread[1..];
    }
  }

  method ReadDelimited(stream: ByteStream, limit: nat) returns (r: Result<seq<Byte>, FrameError>)
    modifies stream
    ensures (r, stream.unread) == FrameRead([], old(stream.unread), limit)
  {
    var encoded: seq<Byte> := [];
    while true
      invariant FrameRead(encoded, stream.unread, limit) == FrameRead([], old(stream.unread), limit)
      decreases |stream.unread|
    {
      var byte := stream.Read();
      if byte.None? { return Err(EndOfStream); }
      if byte.value == DELIMITER {
        r := Decode(encoded, limit);
        return;
      }
      encoded := encoded + [byte.value];
      if |encoded| > limit { return Err(FrameTooLarge); }
    }
  }

  lemma {:induction false} ReadsUpToDelimiter(read: seq<Byte>, body: seq<Byte>, rest: seq<Byte>, limit: nat)
    requires DELIMITER !in body && |read| + |body| <= limit
    ensures FrameRead(read, body + [DELIMITER] + rest, limit) == (Decoded(read + body, limit), rest)
    decreases |body|
  {
    var stream := body + [DELIMITER] + rest;
    if body == [] {
      assert read + [] == read && stream[1..] == rest;
    } else {
      ReadsUpToDelimiter(read + [body[0]], body[1..], rest, limit);
      assert stream[1..] == body[1..] + [DELIMITER] + rest;
      assert read + [body[0]] + body[1..] == read + body;
    }
  }

  /** Reading a frame returns its payload and leaves exactly what followed it. */
  lemma ReadsOneFrame(payload: seq<Byte>, rest: seq<Byte>, limit: nat)
    requires |Frame(payload)| - 1 <= limit
    ensures FrameRead([], Frame(payload) + rest, limit) == (Ok(payload), rest)
  {
    BlocksHaveNoDelimiter([], payload);
    ReadsUpToDelimiter([], Blocks([], payload), rest, limit);
    RoundTrip(payload, limit);
    assert [] + Blocks([], payload) == Blocks([], payload);
    assert Frame(payload)[..|Frame(payload)| - 1] == Blocks([], payload);
  }

  function Frames(payloads: seq<seq<Byte>>): seq<Byte> {
    if payloads == [] then [] else Frame(payloads[0]) + Frames(payloads[1..])
  }

  /** Reads until the stream ends. */
  function ReadAll(stream: seq<Byte>, limit: nat): (r: Result<seq<seq<Byte>>, FrameError>)
    decreases |stream|
  {
    if stream == [] then Ok([])
    else
      var (first, rest) := FrameRead([], stream, limit);
      ReadShrinks([], stream, limit);
      if first.Err? then Err(first.error)
      else
        var others :- ReadAll(rest, limit);
        Ok([first.value] + others)
  }

  lemma {:induction false} ReadShrinks(read: seq<Byte>, stream: seq<Byte>, limit: nat)
    requires stream != []
    ensures |FrameRead(read, stream, limit).1| < |stream|
    decreases |stream|
  {
    if stream[0] != DELIMITER && |read| + 1 <= limit && stream[1..] != [] {
      ReadShrinks(read + [stream[0]], stream[1..], limit);
    }
  }

  /** A concatenation of frames is read back payload by payload, in order. */
  lemma {:induction false} ReadsEveryFrame(payloads: seq<seq<Byte>>, limit: nat)
    requires forall p | p in payloads :: |Frame(p)| - 1 <= limit
    ensures ReadAll(Frames(payloads), limit) == Ok(payloads)
    decreases |payloads|
  {
    if payloads != [] {
      ReadsOneFrame(payloads[0], Frames(payloads[1..]), limit);
      ReadsEveryFrame(payloads[1..], limit);
      assert [payloads[0]] + payloads[1..] == payloads;
      FrameShape(payloads[0]);
    }
  }
}
