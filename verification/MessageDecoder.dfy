/** The validating message decoder over the frame decoder. The CBOR decoder and the schema
    check are one partial function from payload bytes to messages. */
module MessageDecoding {
  import opened Wrappers
  import opened FrameFormat
  import opened FrameDecoding

  type Codec<!T> = seq<Byte> -> Option<T>

  /** Every failure becomes the same kind of error. */
  datatype ProtocolError = Invalid

  /** `Dead` is the sticky failure flag; the frame decoder behind it no longer matters. */
  datatype MessageDecoder = Live(frames: Decoder) | Dead

  function ParseFrames<T>(codec: Codec<T>, frames: seq<seq<Byte>>): (r: Option<seq<T>>) {
    if frames == [] then Some([])
    else
      var head := codec(frames[0]);
      if head.None? then None
      else
        var rest := ParseFrames(codec, frames[1..]);
        if rest.None? then None else Some([head.value] + rest.value)
  }

  function PushMessages<T>(codec: Codec<T>, d: MessageDecoder, chunk: seq<Byte>)
    : (r: (Result<seq<T>, ProtocolError>, MessageDecoder))
  {
    if d.Dead? then (Err(Invalid), Dead)
    else
      var (frames, next) := Push(d.frames, chunk);
      if frames.Err? then (Err(Invalid), Dead)
      else
        var messages := ParseFrames(codec, frames.value);
        if messages.None? then (Err(Invalid), Dead) else (Ok(messages.value), Live(next))
  }

  function EndMessages(d: MessageDecoder): (r: (Result<(), ProtocolError>, MessageDecoder)) {
    if d.Dead? then (Err(Invalid), Dead)
    else
      var (ended, next) := End(d.frames);
      if ended.Err? then (Err(Invalid), Dead) else (Ok(()), Live(next))
  }

  /** Push every chunk in turn: all messages, or the error of the first push that fails. */
  function PushAllMessages<T>(codec: Codec<T>, d: MessageDecoder, chunks: seq<seq<Byte>>)
    : (r: (Result<seq<T>, ProtocolError>, MessageDecoder))
    decreases |chunks|
  {
    if chunks == [] then (Ok([]), d)
    else
      var (first, next) := PushMessages(codec, d, chunks[0]);
      if first.Err? then (first, next)
      else
        var (rest, last) := PushAllMessages(codec, next, chunks[1..]);
        if rest.Err? then (rest, last) else (Ok(first.value + rest.value), last)
  }

  lemma {:induction false} ParseFramesSplits<T>(codec: Codec<T>, a: seq<seq<Byte>>, b: seq<seq<Byte>>)
    ensures ParseFrames(codec, a + b) ==
            var x, y := ParseFrames(codec, a), ParseFrames(codec, b);
            if x.None? || y.None? then None else Some(x.value + y.value)
  {
    if a == [] {
      var y := ParseFrames(codec, b);
      assert a + b == b;
      assert y.Some? ==> [] + y.value == y.value;
    } else {
      assert (a + b)[1..] == a[1..] + b;
      ParseFramesSplits(codec, a[1..], b);
      var head, x, y := codec(a[0]), ParseFrames(codec, a[1..]), ParseFrames(codec, b);
      if head.Some? && x.Some? && y.Some? {
        assert [head.value] + (x.value + y.value) == ([head.value] + x.value) + y.value;
      }
    }
  }

  /** A stream that does not fail gives the same messages and state however it is cut, and a stream with
      a bad frame or a refused length fails under every cut. The messages that a caller received before
      the failure may differ: MessageDelivery says when. */
  lemma {:induction false} MessageChunkIndependence<T>(
      codec: Codec<T>, limit: nat, tail: seq<Byte>, chunks: seq<seq<Byte>>)
    requires Parse(limit, tail) == Parsed([], tail, false)
    ensures PushAllMessages(codec, Live(Open(limit, tail)), chunks) ==
            PushMessages(codec, Live(Open(limit, tail)), Flatten(chunks))
    decreases |chunks|
  {
    if chunks == [] {
      assert tail + [] == tail;
    } else {
      var s, rest := tail + chunks[0], Flatten(chunks[1..]);
      assert tail + Flatten(chunks) == s + rest;
      if Parse(limit, s).oversize {
        OversizeIsFinal(limit, s, rest);
      } else {
        var p := Parse(limit, s);
        ParseResumes(limit, s, rest);
        TailIsUnread(limit, s);
        MessageChunkIndependence(codec, limit, p.tail, chunks[1..]);
        ParseFramesSplits(codec, p.frames, Parse(limit, p.tail + rest).frames);
      }
    }
  }

  function EncodeMessages<T>(encode: T -> seq<Byte>, messages: seq<T>): (r: seq<seq<Byte>>)
    ensures |r| == |messages| && forall i :: 0 <= i < |messages| ==> r[i] == encode(messages[i])
  {
    seq(|messages|, i requires 0 <= i < |messages| => encode(messages[i]))
  }

  lemma {:induction false} ParseEncoded<T>(codec: Codec<T>, encode: T -> seq<Byte>, messages: seq<T>)
    requires forall m :: m in messages ==> codec(encode(m)) == Some(m)
    ensures ParseFrames(codec, EncodeMessages(encode, messages)) == Some(messages)
  {
    if messages != [] {
      ParseEncoded(codec, encode, messages[1..]);
      assert EncodeMessages(encode, messages)[1..] == EncodeMessages(encode, messages[1..]);
      assert [messages[0]] + messages[1..] == messages;
    }
  }

  /** Messages that the codec can carry within the limit survive the wire under any cut. */
  lemma MessageRoundTrip<T>(
      codec: Codec<T>, encode: T -> seq<Byte>, limit: nat, messages: seq<T>, chunks: seq<seq<Byte>>)
    requires limit <= MAX_UINT32
    requires forall m :: m in messages ==> codec(encode(m)) == Some(m) && |encode(m)| <= limit
    requires Flatten(chunks) == EncodeAll(EncodeMessages(encode, messages))
    ensures PushAllMessages(codec, Live(Open(limit, [])), chunks) == (Ok(messages), Live(Open(limit, [])))
    ensures EndMessages(PushAllMessages(codec, Live(Open(limit, [])), chunks).1).0 == Ok(())
  {
    MessageChunkIndependence(codec, limit, [], chunks);
    RoundTrip(limit, EncodeMessages(encode, messages));
    ParseEncoded(codec, encode, messages);
    assert [] + Flatten(chunks) == Flatten(chunks);
  }

  class ValidatedMessageDecoder<T> {
    var failed: bool
    const frames: FrameDecoder
    const codec: Codec<T>

    ghost function Repr(): set<object>
      reads this, frames
    {
      {this} + frames.Repr()
    }

    ghost predicate Valid()
      reads this, frames, frames.header, frames.payloadBlocks
    {
      frames.Valid()
    }

    ghost function View(): MessageDecoder
      reads this, frames, frames.header
      requires frames.header.Length == FRAME_HEADER_LENGTH && frames.headerLength <= frames.header.Length
    {
      if failed then Dead else Live(frames.View())
    }

    constructor (codec: Codec<T>, limit: nat)
      requires limit <= MAX_UINT32
      ensures Valid() && fresh(Repr()) && this.codec == codec
      ensures View() == Live(Open(limit, []))
    {
      this.codec := codec;
      failed := false;
      frames := new FrameDecoder(limit);
    }

    /** Consume a chunk, decoding each completed frame; any failure is final. */
    method Push(chunk: array<Byte>) returns (r: Result<seq<T>, ProtocolError>)
      requires Valid() && chunk !in Repr()
      modifies this, frames, frames.header, frames.payloadBlocks
      ensures Valid() && fresh(Repr() - old(Repr()))
      ensures (r, View()) == PushMessages(codec, old(View()), chunk[..])
    {
      if failed {
        return Err(Invalid);
      }
      ghost var spec := FrameFormat.Push(frames.View(), chunk[..]);
      var pushed := frames.Push(chunk);
      if pushed.Err? {
        failed := true;
        return Err(Invalid);
      }
      var messages := DecodeFrames(pushed.value, spec.0.value);
      failed := messages.None?;
      r := if failed then Err(Invalid) else Ok(messages.value);
    }

    /** Decode frames in order, stopping at the first bad one. */
    method DecodeFrames(payloads: seq<array<Byte>>, ghost contents: seq<seq<Byte>>) returns (r: Option<seq<T>>)
      requires FrameDecoder.Holds(payloads, contents)
      ensures r == ParseFrames(codec, contents)
    {
      var messages: seq<T> := [];
      assert contents[..0] == [];
      for i := 0 to |payloads|
        invariant ParseFrames(codec, contents[..i]) == Some(messages)
      {
        ghost var rest := contents[i + 1..];
        var message := codec(payloads[i][..]);
        ParseFramesSplits(codec, contents[..i], [contents[i]]);
        ParseFramesSplits(codec, contents[..i] + [contents[i]], rest);
        assert contents[..i] + [contents[i]] == contents[..i + 1];
        assert contents[..i] + [contents[i]] + rest == contents;
        if message.None? {
          return None;
        }
        assert [message.value] + [] == [message.value];
        messages := messages + [message.value];
      }
      assert contents[..|payloads|] == contents;
      return Some(messages);
    }

    method End() returns (r: Result<(), ProtocolError>)
      requires Valid()
      modifies this, frames
      ensures Valid() && fresh(Repr() - old(Repr()))
      ensures (r, View()) == EndMessages(old(View()))
    {
      if failed {
        return Err(Invalid);
      }
      var ended := frames.End();
      if ended.Err? {
        failed := true;
        return Err(Invalid);
      }
      return Ok(());
    }
  }
}
