/** The incremental frame decoder: a header buffer and a list of payload blocks, filled from
    arbitrary chunks. Its methods are proved against Push and End of FrameFormat. */
module FrameDecoding {
  import opened Wrappers
  import opened FrameFormat

  const PAYLOAD_BLOCK_SIZE := 64 * 1024

  /** Write the length prefix and copy the payload after it. */
  method EncodeFrame(payload: array<Byte>) returns (r: Result<array<Byte>, FrameError>)
    ensures r.Ok? <==> payload.Length <= MAX_UINT32
    ensures r.Ok? ==> fresh(r.value) && r.value[..] == Encode(payload[..])
    ensures r.Err? ==> r.error == TooLong
  {
    if payload.Length > MAX_UINT32 {
      return Err(TooLong);
    }
    var length := payload.Length;
    var frame := new Byte[FRAME_HEADER_LENGTH + length];
    frame[0] := Truncate(length / 0x100_0000);
    frame[1] := Truncate(length / 0x1_0000);
    frame[2] := Truncate(length / 0x100);
    frame[3] := Truncate(length);
    forall k | 0 <= k < length {
      frame[FRAME_HEADER_LENGTH + k] := payload[k];
    }
    assert frame[..FRAME_HEADER_LENGTH] == SplitLength(length);
    assert frame[..] == frame[..FRAME_HEADER_LENGTH] + payload[..];
    return Ok(frame);
  }

  datatype DecoderState = Opened | HasEnded | HasFailed

  function Min(a: nat, b: nat): nat {
    if a < b then a else b
  }

  /** The bytes reserved by a list of blocks. */
  function Reserved(blocks: seq<array<Byte>>): nat {
    if blocks == [] then 0 else Reserved(blocks[..|blocks| - 1]) + blocks[|blocks| - 1].Length
  }

  lemma {:induction false} ReservedByFullBlocks(blocks: seq<array<Byte>>)
    requires forall i :: 0 <= i < |blocks| ==> blocks[i].Length == PAYLOAD_BLOCK_SIZE
    ensures Reserved(blocks) == |blocks| * PAYLOAD_BLOCK_SIZE
  {
    if blocks != [] {
      ReservedByFullBlocks(blocks[..|blocks| - 1]);
    }
  }

  /** A complete header followed by part or all of its payload. */
  lemma ParseOneFrame(limit: nat, h: seq<Byte>, payload: seq<Byte>)
    requires |h| == FRAME_HEADER_LENGTH && |payload| <= JoinLength(h)
    ensures Parse(limit, h + payload) ==
            if JoinLength(h) > limit then Parsed([], h + payload, true)
            else if |payload| < JoinLength(h) then Parsed([], h + payload, false)
            else Parsed([payload], [], false)
  {
    assert (h + payload)[..FRAME_HEADER_LENGTH] == h;
    if JoinLength(h) <= limit && |payload| == JoinLength(h) {
      var s := h + payload;
      assert s[FRAME_HEADER_LENGTH..HeadEnd(s)] == payload;
      assert s[HeadEnd(s)..] == [];
      assert Parse(limit, s[HeadEnd(s)..]) == Parsed([], [], false);
    }
  }

  lemma JoinSlices(before: seq<Byte>, bytes: seq<Byte>, from: nat, to: nat)
    requires from <= to <= |bytes|
    ensures before + bytes[..from] + bytes[from..to] == before + bytes[..to]
    ensures before + bytes[..to] + bytes[to..] == before + bytes
  {
  }

  lemma JoinMiddle(before: seq<Byte>, bytes: seq<Byte>, from: nat, middle: nat, to: nat)
    requires from <= middle <= to <= |bytes|
    ensures before + bytes[from..middle] + bytes[middle..to] == before + bytes[from..to]
  {
  }

  lemma Associate(a: seq<Byte>, b: seq<Byte>, c: seq<Byte>)
    ensures a + (b + c) == (a + b) + c
  {
  }

  /** The bytes of an array between two places, as a part of its contents. */
  lemma ArraySlice(chunk: array<Byte>, from: nat, to: nat)
    requires from <= to <= chunk.Length
    ensures chunk[from..to] == chunk[..][from..to]
  {
  }

  /** The reading of the stream up to `to`, from the reading up to `from`. */
  lemma Advance(limit: nat, before: seq<Byte>, bytes: seq<Byte>, from: nat, to: nat, out: seq<seq<Byte>>, tail: seq<Byte>)
    requires from <= to <= |bytes|
    requires Parse(limit, before + bytes[..from]) == Parsed(out, tail, false)
    ensures var p := Parse(limit, tail + bytes[from..to]);
            && Parse(limit, before + bytes[..to]) == Parsed(out + p.frames, p.tail, p.oversize)
            && (p.oversize ==> Parse(limit, before + bytes).oversize)
  {
    JoinSlices(before, bytes, from, to);
    ParseResumes(limit, before + bytes[..from], bytes[from..to]);
    if Parse(limit, before + bytes[..to]).oversize {
      OversizeIsFinal(limit, before + bytes[..to], bytes[to..]);
    }
  }

  class FrameDecoder {
    const header: array<Byte>
    var headerLength: nat
    const maxFrameLength: nat
    var payloadBlocks: seq<array<Byte>>
    var currentPayloadBlock: array?<Byte>
    var currentPayloadBlockLength: nat
    var expectedPayloadLength: Option<nat>
    var payloadLength: nat
    var state: DecoderState
    /** The payload bytes received for the frame being read. */
    ghost var payload: seq<Byte>

    ghost function Repr(): set<object>
      reads this
    {
      {this, header} + set b | b in payloadBlocks
    }

    /** The sizes of the blocks: every block but the last is full. */
    ghost predicate BlockSizes(expected: nat)
      reads this
    {
      var n := |payloadBlocks|;
      && (n == 0 ==> currentPayloadBlock == null && currentPayloadBlockLength == 0 && payloadLength == 0)
      && (n > 0 ==>
            && currentPayloadBlock == payloadBlocks[n - 1]
            && currentPayloadBlockLength <= payloadBlocks[n - 1].Length
            && (n - 1) * PAYLOAD_BLOCK_SIZE + currentPayloadBlockLength == payloadLength
            && (n - 1) * PAYLOAD_BLOCK_SIZE < expected
            && payloadBlocks[n - 1].Length ==
               Min(PAYLOAD_BLOCK_SIZE, expected - (n - 1) * PAYLOAD_BLOCK_SIZE))
      && forall i :: 0 <= i < n - 1 ==> payloadBlocks[i].Length == PAYLOAD_BLOCK_SIZE
    }

    /** The blocks hold the payload in order. */
    ghost predicate BlocksHoldPayload()
      reads this, payloadBlocks
    {
      forall i, k :: 0 <= i < |payloadBlocks| && 0 <= k < payloadBlocks[i].Length
                     && i * PAYLOAD_BLOCK_SIZE + k < |payload| ==>
        payloadBlocks[i][k] == payload[i * PAYLOAD_BLOCK_SIZE + k]
    }

    /** The object invariant; a frame may be complete only while `Push` is at work. */
    ghost predicate Consistent()
      reads this, header, payloadBlocks
    {
      && header.Length == FRAME_HEADER_LENGTH
      && maxFrameLength <= MAX_UINT32
      && headerLength < FRAME_HEADER_LENGTH
      && payloadLength == |payload|
      && (forall i, j :: 0 <= i < j < |payloadBlocks| ==> payloadBlocks[i] != payloadBlocks[j])
      && header !in payloadBlocks
      && match expectedPayloadLength {
           case None =>
             payloadBlocks == [] && currentPayloadBlock == null && currentPayloadBlockLength == 0 && payload == []
           case Some(n) =>
             && headerLength == 0 && JoinLength(header[..]) == n && 0 < n <= maxFrameLength
             && payloadLength <= n && BlockSizes(n) && BlocksHoldPayload()
         }
      && (state != Opened ==> headerLength == 0 && expectedPayloadLength.None?)
    }

    ghost predicate Valid()
      reads this, header, payloadBlocks
    {
      && Consistent()
      && (expectedPayloadLength.Some? ==>
            && payloadLength < expectedPayloadLength.value
            && (payloadBlocks != [] ==> 0 < currentPayloadBlockLength))
    }

    /** The bytes consumed since the last complete frame. */
    ghost function Tail(): seq<Byte>
      reads this, header
      requires header.Length == FRAME_HEADER_LENGTH && headerLength <= header.Length
    {
      if expectedPayloadLength.Some? then header[..] + payload else header[..headerLength]
    }

    ghost function View(): Decoder
      reads this, header
      requires header.Length == FRAME_HEADER_LENGTH && headerLength <= header.Length
    {
      match state
      case Opened => Open(maxFrameLength, Tail())
      case HasEnded => Decoder.Ended
      case HasFailed => Decoder.Failed
    }

    constructor (limit: nat)
      requires limit <= MAX_UINT32
      ensures Valid() && fresh(Repr()) && View() == Open(limit, [])
    {
      header := new Byte[FRAME_HEADER_LENGTH];
      headerLength, maxFrameLength := 0, limit;
      payloadBlocks, currentPayloadBlock, currentPayloadBlockLength := [], null, 0;
      expectedPayloadLength, payloadLength, state := None, 0, Opened;
      payload := [];
    }

    /** A decoder, unless the limit is a bad one. */
    static method Create(limit: Option<int>) returns (r: Result<FrameDecoder, FrameError>)
      ensures r.Ok? <==> limit.None? || 0 <= limit.value <= MAX_UINT32
      ensures r.Ok? ==>
                && r.value.Valid() && fresh(r.value.Repr())
                && r.value.View() == Open(if limit.Some? then limit.value else DEFAULT_MAX_FRAME_LENGTH, [])
      ensures r.Err? ==> r.error == BadLimit
    {
      var resolved := ResolveMaxFrameLength(limit);
      if resolved.Err? {
        return Err(resolved.error);
      }
      var decoder := new FrameDecoder(resolved.value);
      return Ok(decoder);
    }

    /** The buffer is bounded by what was announced and runs less than one block ahead of what
        was received. */
    lemma BufferIsBounded()
      requires Valid() && expectedPayloadLength.Some?
      ensures payloadLength <= Reserved(payloadBlocks) <= expectedPayloadLength.value <= maxFrameLength
      ensures Reserved(payloadBlocks) < payloadLength + PAYLOAD_BLOCK_SIZE
      ensures |payloadBlocks| > 0 ==>
                payloadLength ==
                Reserved(payloadBlocks[..|payloadBlocks| - 1]) + currentPayloadBlockLength
    {
      if |payloadBlocks| > 0 {
        ReservedByFullBlocks(payloadBlocks[..|payloadBlocks| - 1]);
      }
    }

    method Fail()
      requires Consistent()
      modifies this
      ensures Valid() && state == HasFailed && payloadBlocks == []
    {
      state := HasFailed;
      headerLength := 0;
      payloadBlocks, currentPayloadBlock, currentPayloadBlockLength := [], null, 0;
      expectedPayloadLength, payloadLength := None, 0;
      payload := [];
    }

    /** Copy chunk bytes into the header until it is complete or the chunk is used up. */
    method ReadHeader(chunk: array<Byte>, offset: nat) returns (next: nat)
      requires Valid() && expectedPayloadLength.None? && state == Opened
      requires offset < chunk.Length && chunk !in Repr()
      modifies this`headerLength, header
      ensures offset < next <= chunk.Length && headerLength <= FRAME_HEADER_LENGTH
      ensures header[..headerLength] == old(Tail()) + chunk[offset..next]
      ensures headerLength < FRAME_HEADER_LENGTH ==> Valid()
    {
      var headerBytes := Min(FRAME_HEADER_LENGTH - headerLength, chunk.Length - offset);
      forall k | 0 <= k < headerBytes {
        header[headerLength + k] := chunk[offset + k];
      }
      next := offset + headerBytes;
      assert header[..headerLength + headerBytes] == old(header[..headerLength]) + chunk[offset..next];
      headerLength := headerLength + headerBytes;
    }

    /** Open the next block, sized for what is still to come. */
    method OpenBlock()
      requires Consistent() && state == Opened
      requires expectedPayloadLength.Some? && payloadLength < expectedPayloadLength.value
      requires payloadBlocks == [] || currentPayloadBlockLength == PAYLOAD_BLOCK_SIZE
      modifies this`payloadBlocks, this`currentPayloadBlock, this`currentPayloadBlockLength
      ensures Consistent() && payloadBlocks != [] && currentPayloadBlockLength == 0
      ensures 0 < payloadBlocks[|payloadBlocks| - 1].Length
      ensures |payloadBlocks| == |old(payloadBlocks)| + 1
      ensures payloadBlocks[..|payloadBlocks| - 1] == old(payloadBlocks)
      ensures fresh(payloadBlocks[|payloadBlocks| - 1])
    {
      var block := new Byte[Min(PAYLOAD_BLOCK_SIZE, expectedPayloadLength.value - payloadLength)];
      payloadBlocks := payloadBlocks + [block];
      currentPayloadBlock, currentPayloadBlockLength := block, 0;
    }

    static method CopyBytes(source: array<Byte>, from: nat, target: array<Byte>, to: nat, count: nat)
      requires from + count <= source.Length && to + count <= target.Length && source != target
      modifies target
      ensures forall k :: 0 <= k < target.Length ==>
                target[k] == if to <= k < to + count then source[from + (k - to)] else old(target[k])
    {
      forall k | 0 <= k < count {
        target[to + k] := source[from + k];
      }
    }

    /** Copy chunk bytes into the open block until it is full or the chunk is used up. */
    method FillOpenBlock(chunk: array<Byte>, offset: nat) returns (next: nat)
      requires Consistent() && state == Opened && expectedPayloadLength.Some? && payloadBlocks != []
      requires currentPayloadBlockLength < payloadBlocks[|payloadBlocks| - 1].Length
      requires offset < chunk.Length && chunk !in Repr()
      modifies this`currentPayloadBlockLength, this`payloadLength, this`payload,
               payloadBlocks[|payloadBlocks| - 1]
      ensures Consistent() && offset < next <= chunk.Length && 0 < currentPayloadBlockLength
      ensures payload == old(payload) + chunk[offset..next]
      ensures next < chunk.Length ==> currentPayloadBlockLength == payloadBlocks[|payloadBlocks| - 1].Length
    {
      var block := payloadBlocks[|payloadBlocks| - 1];
      var start := currentPayloadBlockLength;
      var payloadBytes := Min(block.Length - start, chunk.Length - offset);
      CopyBytes(chunk, offset, block, start, payloadBytes);
      next := offset + payloadBytes;
      currentPayloadBlockLength := start + payloadBytes;
      payloadLength := payloadLength + payloadBytes;
      payload := payload + chunk[offset..next];
    }

    /** One pass of the payload loop: open a block when the last one is full, then fill it. */
    method FillBlock(chunk: array<Byte>, offset: nat) returns (next: nat)
      requires Valid() && expectedPayloadLength.Some? && state == Opened
      requires offset < chunk.Length && chunk !in Repr()
      modifies this`payloadBlocks, this`currentPayloadBlock, this`currentPayloadBlockLength,
               this`payloadLength, this`payload, payloadBlocks
      ensures Consistent() && offset < next <= chunk.Length && (payloadBlocks != [] ==> 0 < currentPayloadBlockLength)
      ensures payload == old(payload) + chunk[offset..next]
      ensures fresh(Repr() - old(Repr()))
    {
      if payloadBlocks == [] || currentPayloadBlockLength == payloadBlocks[|payloadBlocks| - 1].Length {
        OpenBlock();
      }
      next := FillOpenBlock(chunk, offset);
    }

    /** Copy the full blocks, in order, into one array. */
    method JoinBlocks() returns (frame: array<Byte>)
      requires Consistent()
      requires expectedPayloadLength.Some? && payloadLength == expectedPayloadLength.value
      ensures fresh(frame) && frame[..] == payload
    {
      frame := new Byte[expectedPayloadLength.value];
      var offset := 0;
      for i := 0 to |payloadBlocks|
        invariant offset == if i < |payloadBlocks| then i * PAYLOAD_BLOCK_SIZE else frame.Length
        invariant offset <= frame.Length
        invariant forall k :: 0 <= k < offset ==> frame[k] == payload[k]
      {
        var block := payloadBlocks[i];
        assert block.Length ==
               if i < |payloadBlocks| - 1 then PAYLOAD_BLOCK_SIZE else frame.Length - offset;
        assert forall k :: 0 <= k < block.Length ==> block[k] == payload[offset + k];
        forall k | 0 <= k < block.Length {
          frame[offset + k] := block[k];
        }
        assert forall k :: offset <= k < offset + block.Length ==> frame[k] == block[k - offset];
        offset := offset + block.Length;
      }
    }

    /** Hand out the completed payload: the only block itself, or a new array joining them. */
    method TakePayload() returns (frame: array<Byte>)
      requires Consistent() && state == Opened
      requires expectedPayloadLength.Some? && payloadLength == expectedPayloadLength.value
      modifies this
      ensures Valid() && expectedPayloadLength.None? && headerLength == 0 && state == Opened
      ensures frame[..] == old(payload)
      ensures payloadBlocks == []
      ensures fresh(frame) || frame in old(payloadBlocks)
    {
      if |payloadBlocks| == 1 {
        frame := payloadBlocks[0];
        assert forall k :: 0 <= k < frame.Length ==> frame[k] == payload[k];
      } else {
        frame := JoinBlocks();
      }
      payloadBlocks, currentPayloadBlock, currentPayloadBlockLength := [], null, 0;
      expectedPayloadLength, payloadLength := None, 0;
      payload := [];
    }

    /** The payload loop: fill blocks until the chunk is used up or the payload is complete. */
    method ReadPayload(chunk: array<Byte>, offset: nat) returns (next: nat)
      requires Valid() && expectedPayloadLength.Some? && state == Opened
      requires offset <= chunk.Length && chunk !in Repr()
      modifies this`payloadBlocks, this`currentPayloadBlock, this`currentPayloadBlockLength,
               this`payloadLength, this`payload, payloadBlocks
      ensures Consistent() && (payloadBlocks != [] ==> 0 < currentPayloadBlockLength)
      ensures offset <= next <= chunk.Length && (offset < chunk.Length ==> offset < next)
      ensures next < chunk.Length ==> payloadLength == expectedPayloadLength.value
      ensures payload == old(payload) + chunk[offset..next]
      ensures fresh(Repr() - old(Repr()))
    {
      next := offset;
      ghost var bytes := chunk[..];
      while next < chunk.Length && payloadLength < expectedPayloadLength.value
        invariant Consistent() && (payloadBlocks != [] ==> 0 < currentPayloadBlockLength)
        invariant offset <= next <= chunk.Length
        invariant next == offset ==> payloadLength < expectedPayloadLength.value
        invariant payload == old(payload) + bytes[offset..next] && bytes == chunk[..]
        invariant fresh(Repr() - old(Repr()))
      {
        ghost var from := next;
        next := FillBlock(chunk, next);
        ArraySlice(chunk, from, next);
        JoinMiddle(old(payload), bytes, offset, from, next);
      }
      ArraySlice(chunk, offset, next);
    }

    /** What the reading of some bytes after `tail` says about a pass that consumed them. */
    ghost predicate Reads(tail: seq<Byte>, bytes: seq<Byte>, r: Result<Option<array<Byte>>, FrameError>)
      reads this, header, if r.Ok? && r.value.Some? then {r.value.value} else {}
      requires header.Length == FRAME_HEADER_LENGTH && headerLength <= header.Length
    {
      var p := Parse(maxFrameLength, tail + bytes);
      match r
      case Err(e) => p.oversize && e == Oversize && state == HasFailed
      case Ok(frame) =>
        && state == Opened
        && p == Parsed(if frame.Some? then [frame.value[..]] else [], Tail(), false)
    }

    /** Header bytes: the pass ends here on a partial header, a refused length or an empty frame. */
    method ReadLength(chunk: array<Byte>, offset: nat)
      returns (next: nat, r: Result<Option<array<Byte>>, FrameError>)
      requires Valid() && state == Opened && offset < chunk.Length && chunk !in Repr()
      requires expectedPayloadLength.None?
      modifies this, header
      ensures Valid() && payloadBlocks == [] && offset < next <= chunk.Length
      ensures r.Err? || r.value.Some? || expectedPayloadLength.None? ==> Reads(old(Tail()), chunk[offset..next], r)
      ensures r.Ok? && r.value.Some? ==> fresh(r.value.value) && expectedPayloadLength.None?
      ensures expectedPayloadLength.Some? ==>
                state == Opened && payload == [] && r == Ok(None) && header[..] == old(Tail()) + chunk[offset..next]
    {
      next := ReadHeader(chunk, offset);
      if headerLength < FRAME_HEADER_LENGTH {
        return next, Ok(None);
      }
      var frameLength := JoinLength(header[..]);
      headerLength := 0;
      assert header[..] + [] == old(Tail()) + chunk[offset..next];
      ParseOneFrame(maxFrameLength, header[..], []);
      r := AcceptLength(frameLength);
    }

    /** A complete header: its length is refused, or that of an empty frame, or a payload begins. */
    method AcceptLength(frameLength: nat) returns (r: Result<Option<array<Byte>>, FrameError>)
      requires Consistent() && state == Opened && expectedPayloadLength.None? && headerLength == 0
      requires frameLength == JoinLength(header[..])
      modifies this
      ensures Valid() && payloadBlocks == []
      ensures frameLength > maxFrameLength ==>
                r == Err(Oversize) && state == HasFailed && expectedPayloadLength.None?
      ensures frameLength <= maxFrameLength ==> r.Ok? && state == Opened && headerLength == 0
      ensures frameLength == 0 ==>
                r.value.Some? && fresh(r.value.value) && r.value.value[..] == [] && expectedPayloadLength.None?
      ensures 0 < frameLength <= maxFrameLength ==>
                r == Ok(None) && expectedPayloadLength == Some(frameLength) && payload == []
    {
      if frameLength > maxFrameLength {
        Fail();
        return Err(Oversize);
      }
      if frameLength == 0 {
        var empty := new Byte[0];
        return Ok(Some(empty));
      }
      expectedPayloadLength := Some(frameLength);
      payloadBlocks, currentPayloadBlock, currentPayloadBlockLength := [], null, 0;
      payloadLength := 0;
      payload := [];
      r := Ok(None);
    }

    /** Payload bytes: the pass ends with a frame when the payload is complete. */
    method ReadBody(chunk: array<Byte>, offset: nat)
      returns (next: nat, r: Result<Option<array<Byte>>, FrameError>)
      requires Valid() && state == Opened && offset <= chunk.Length && chunk !in Repr()
      requires expectedPayloadLength.Some?
      modifies this, payloadBlocks
      ensures Valid() && fresh(Repr() - old(Repr()))
      ensures offset <= next <= chunk.Length && (offset < chunk.Length ==> offset < next)
      ensures Reads(old(Tail()), chunk[offset..next], r)
      ensures r.Ok? && r.value.Some? ==>
                r.value.value !in Repr() && (fresh(r.value.value) || r.value.value in old(Repr()))
    {
      ghost var head, received := header[..], payload;
      next := ReadPayload(chunk, offset);
      assert header[..] == head;
      Associate(head, received, chunk[offset..next]);
      ParseOneFrame(maxFrameLength, header[..], payload);
      assert |payload| <= expectedPayloadLength.value == JoinLength(header[..]);
      var frame := TakeIfComplete();
      r := Ok(frame);
    }

    /** The frame, if its payload is complete. */
    method TakeIfComplete() returns (frame: Option<array<Byte>>)
      requires Consistent() && state == Opened && expectedPayloadLength.Some?
      requires payloadBlocks != [] ==> 0 < currentPayloadBlockLength
      modifies this
      ensures Valid() && state == Opened
      ensures frame.Some? <==> old(payloadLength == expectedPayloadLength.value)
      ensures frame.Some? ==>
                && frame.value[..] == old(payload) && Tail() == [] && payloadBlocks == []
                && (fresh(frame.value) || frame.value in old(payloadBlocks))
      ensures frame.None? ==> Tail() == old(Tail()) && payloadBlocks == old(payloadBlocks)
    {
      if payloadLength != expectedPayloadLength.value {
        return None;
      }
      var taken := TakePayload();
      frame := Some(taken);
    }

    /** One pass of the outer loop: finish the header if one is being read, then read payload. */
    method ReadFrame(chunk: array<Byte>, offset: nat)
      returns (next: nat, r: Result<Option<array<Byte>>, FrameError>)
      requires Valid() && state == Opened && offset < chunk.Length && chunk !in Repr()
      modifies this, header, payloadBlocks
      ensures Valid() && fresh(Repr() - old(Repr())) && offset < next <= chunk.Length
      ensures Reads(old(Tail()), chunk[offset..next], r)
      ensures r.Ok? && r.value.Some? ==>
                r.value.value !in Repr() && (fresh(r.value.value) || r.value.value in old(Repr()))
    {
      next := offset;
      if expectedPayloadLength.None? {
        next, r := ReadLength(chunk, offset);
        if expectedPayloadLength.None? {
          return;
        }
      } else {
        assert old(Tail()) + chunk[offset..offset] == old(Tail());
      }
      ghost var middle, tail, bytes := next, Tail(), chunk[..];
      ArraySlice(chunk, offset, middle);
      assert tail == old(Tail()) + bytes[offset..middle];
      next, r := ReadBody(chunk, next);
      ArraySlice(chunk, middle, next);
      ArraySlice(chunk, offset, next);
      JoinMiddle(old(Tail()), bytes, offset, middle, next);
    }

    /** The frames collected so far are those of the bytes consumed so far. */
    ghost predicate Progress(before: seq<Byte>, bytes: seq<Byte>, frames: seq<array<Byte>>, out: seq<seq<Byte>>)
      reads this, header, frames
      requires header.Length == FRAME_HEADER_LENGTH && headerLength <= header.Length
    {
      && state == Opened
      && Parse(maxFrameLength, before + bytes) == Parsed(out, Tail(), false)
      && Holds(frames, out)
    }

    /** The frames with the one a pass completed, if any. */
    static function Extend<T>(frames: seq<T>, frame: Option<T>): seq<T> {
      if frame.Some? then frames + [frame.value] else frames
    }

    /** The bytes of one pass, added to what was read before. */
    lemma Proceed(before: seq<Byte>, bytes: seq<Byte>, from: nat, to: nat, tail: seq<Byte>,
                  frames: seq<array<Byte>>, out: seq<seq<Byte>>, frame: Option<array<Byte>>)
      requires header.Length == FRAME_HEADER_LENGTH && headerLength <= header.Length
      requires from <= to <= |bytes|
      requires Parse(maxFrameLength, before + bytes[..from]) == Parsed(out, tail, false) && Holds(frames, out)
      requires Reads(tail, bytes[from..to], Ok(frame))
      requires frame.Some? ==> frame.value !in frames
      ensures Progress(before, bytes[..to], Extend(frames, frame),
                       Extend(out, if frame.Some? then Some(frame.value[..]) else None))
    {
      Advance(maxFrameLength, before, bytes, from, to, out, tail);
      assert frame.None? ==> out + [] == out;
      HoldMore(frames, out, frame);
    }

    static lemma HoldMore(frames: seq<array<Byte>>, out: seq<seq<Byte>>, frame: Option<array<Byte>>)
      requires Holds(frames, out) && (frame.Some? ==> frame.value !in frames)
      ensures Holds(Extend(frames, frame), Extend(out, if frame.Some? then Some(frame.value[..]) else None))
    {
    }

    /** One pass of the loop of `Push`: read, and collect the frame if one is complete. */
    method Collect(chunk: array<Byte>, offset: nat, frames: seq<array<Byte>>,
                   ghost before: seq<Byte>, ghost bytes: seq<Byte>, ghost out: seq<seq<Byte>>)
      returns (next: nat, refused: bool, frames': seq<array<Byte>>, ghost out': seq<seq<Byte>>)
      requires Valid() && offset < chunk.Length && chunk !in Repr() && bytes == chunk[..]
      requires Progress(before, bytes[..offset], frames, out)
      requires forall f :: f in frames ==> f !in Repr()
      modifies this, header, payloadBlocks
      ensures Valid() && fresh(Repr() - old(Repr())) && offset < next <= chunk.Length
      ensures refused ==> state == HasFailed && Parse(maxFrameLength, before + bytes).oversize
      ensures !refused ==> Progress(before, bytes[..next], frames', out')
      ensures forall f :: f in frames' ==> f !in Repr() && (f in frames || fresh(f) || f in old(Repr()))
    {
      ghost var tail := Tail();
      frames', out' := frames, out;
      var frame;
      next, frame := ReadFrame(chunk, offset);
      assert bytes[offset..next] == chunk[offset..next];
      assert Holds(frames, out);
      refused := frame.Err?;
      if refused {
        Advance(maxFrameLength, before, bytes, offset, next, out, tail);
      } else {
        Proceed(before, bytes, offset, next, tail, frames, out, frame.value);
        frames' := Extend(frames, frame.value);
        out' := Extend(out, if frame.value.Some? then Some(frame.value.value[..]) else None);
      }
    }

    /** The loop of `Push` on an open decoder. */
    method ReadFrames(chunk: array<Byte>)
      returns (r: Result<seq<array<Byte>>, FrameError>, ghost out: seq<seq<Byte>>)
      requires Valid() && state == Opened && chunk !in Repr()
      modifies this, header, payloadBlocks
      ensures Valid() && fresh(Repr() - old(Repr()))
      ensures r.Ok? ==> Progress(old(Tail()), chunk[..], r.value, out)
      ensures r.Err? ==> r.error == Oversize && state == HasFailed
                         && Parse(maxFrameLength, old(Tail()) + chunk[..]).oversize
      ensures r.Ok? ==> forall f :: f in r.value ==> f !in Repr() && (fresh(f) || f in old(Repr()))
    {
      var frames: seq<array<Byte>> := [];
      out := [];
      ghost var before, bytes := Tail(), chunk[..];
      var offset := 0;
      TailReadsAsItself();
      assert before + bytes[..0] == before;
      while offset < chunk.Length
        invariant Valid() && offset <= chunk.Length
        invariant chunk !in Repr() && fresh(Repr() - old(Repr())) && chunk[..] == bytes
        invariant Progress(before, bytes[..offset], frames, out)
        invariant forall f :: f in frames ==> f !in Repr() && (fresh(f) || f in old(Repr()))
      {
        var refused;
        offset, refused, frames, out := Collect(chunk, offset, frames, before, bytes, out);
        if refused {
          return Err(Oversize), out;
        }
      }
      assert bytes[..offset] == bytes;
      return Ok(frames), out;
    }

    /** Consume a chunk. The result and the new state are those of FrameFormat.Push; no returned
        frame shares storage with the decoder, the chunk or another frame. */
    method Push(chunk: array<Byte>) returns (r: Result<seq<array<Byte>>, FrameError>)
      requires Valid() && chunk !in Repr()
      modifies this, header, payloadBlocks
      ensures Valid() && fresh(Repr() - old(Repr()))
      ensures View() == FrameFormat.Push(old(View()), chunk[..]).1
      ensures var spec := FrameFormat.Push(old(View()), chunk[..]).0;
              && r.Ok? == spec.Ok?
              && (r.Err? ==> r.error == spec.error)
              && (r.Ok? ==> Holds(r.value, spec.value))
      ensures r.Ok? ==> forall f :: f in r.value ==>
                f !in Repr() && f != chunk && (fresh(f) || f in old(Repr()))
    {
      if state == HasEnded {
        return Err(FrameError.Ended);
      }
      if state == HasFailed {
        return Err(FrameError.Failed);
      }
      ghost var out;
      r, out := ReadFrames(chunk);
    }

    /** The arrays hold these byte strings, each in its own array. */
    static ghost predicate Holds(frames: seq<array<Byte>>, contents: seq<seq<Byte>>)
      reads frames
    {
      && |frames| == |contents|
      && (forall i :: 0 <= i < |frames| ==> frames[i][..] == contents[i])
      && (forall i, j :: 0 <= i < j < |frames| ==> frames[i] != frames[j])
    }

    lemma TailReadsAsItself()
      requires Valid()
      ensures Parse(maxFrameLength, Tail()) == Parsed([], Tail(), false)
    {
      if expectedPayloadLength.Some? {
        ParseOneFrame(maxFrameLength, header[..], payload);
      }
    }

    method End() returns (r: Result<(), FrameError>)
      requires Valid()
      modifies this
      ensures Valid() && fresh(Repr() - old(Repr()))
      ensures (r, View()) == FrameFormat.End(old(View()))
    {
      if state == HasEnded {
        return Err(FrameError.Ended);
      }
      if state == HasFailed {
        return Err(FrameError.Failed);
      }
      if headerLength != 0 || expectedPayloadLength.Some? {
        Fail();
        return Err(Truncated);
      }
      state := HasEnded;
      return Ok(());
    }
  }
}
