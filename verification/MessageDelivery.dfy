/** Which messages a caller receives from the validating decoder before a stream fails. */
module MessageDelivery {
  import opened Wrappers
  import opened FrameFormat
  import opened MessageDecoding

  /** The messages in the frames, up to the first frame that does not decode. */
  function Decodable<T>(codec: Codec<T>, frames: seq<seq<Byte>>): seq<T> {
    if frames == [] || codec(frames[0]).None? then []
    else [codec(frames[0]).value] + Decodable(codec, frames[1..])
  }

  /** Something in the stream fails: a length above the limit, or a frame that does not decode. */
  predicate Fails<T>(codec: Codec<T>, limit: nat, s: seq<Byte>) {
    Parse(limit, s).oversize || ParseFrames(codec, Parse(limit, s).frames).None?
  }

  /** The first frame does not decode, or there is none before the refused length. */
  predicate FailsAtOnce<T>(codec: Codec<T>, limit: nat, s: seq<Byte>) {
    var p := Parse(limit, s);
    if p.frames == [] then p.oversize else codec(p.frames[0]).None?
  }

  /** The messages returned by the pushes before the first one that fails. */
  function DeliveredMessages<T>(codec: Codec<T>, d: MessageDecoder, chunks: seq<seq<Byte>>): seq<T>
    decreases |chunks|
  {
    if chunks == [] then []
    else
      var (first, next) := PushMessages(codec, d, chunks[0]);
      if first.Err? then [] else first.value + DeliveredMessages(codec, next, chunks[1..])
  }

  lemma {:induction false} DecodableAfter<T>(codec: Codec<T>, a: seq<seq<Byte>>, b: seq<seq<Byte>>)
    requires ParseFrames(codec, a).Some?
    ensures Decodable(codec, a + b) == ParseFrames(codec, a).value + Decodable(codec, b)
  {
    if a == [] {
      assert a + b == b;
    } else {
      assert (a + b)[1..] == a[1..] + b;
      DecodableAfter(codec, a[1..], b);
      var x, y := ParseFrames(codec, a[1..]).value, Decodable(codec, b);
      assert [codec(a[0]).value] + (x + y) == ([codec(a[0]).value] + x) + y;
    }
  }

  lemma {:induction false} DecodableIsParsed<T>(codec: Codec<T>, frames: seq<seq<Byte>>)
    ensures var n := |Decodable(codec, frames)|;
            && n <= |frames| && ParseFrames(codec, frames[..n]) == Some(Decodable(codec, frames))
            && (ParseFrames(codec, frames).Some? ==> n == |frames|)
  {
    if frames != [] && codec(frames[0]).Some? {
      DecodableIsParsed(codec, frames[1..]);
      var n := |Decodable(codec, frames)|;
      assert frames[..n][1..] == frames[1..][..n - 1];
    }
  }

  /** Whatever is delivered is a prefix of the decodable messages, and all of them when nothing fails. */
  lemma {:induction false} DeliveredAreDecodable<T>(
      codec: Codec<T>, limit: nat, tail: seq<Byte>, chunks: seq<seq<Byte>>)
    requires Parse(limit, tail) == Parsed([], tail, false)
    ensures var s := tail + Flatten(chunks);
            var delivered := DeliveredMessages(codec, Live(Open(limit, tail)), chunks);
            && delivered <= Decodable(codec, Parse(limit, s).frames)
            && (!Fails(codec, limit, s) ==> delivered == Decodable(codec, Parse(limit, s).frames))
    decreases |chunks|
  {
    if chunks == [] {
      assert tail + [] == tail;
    } else {
      var rest := Flatten(chunks[1..]);
      assert tail + Flatten(chunks) == (tail + chunks[0]) + rest;
      var p := Parse(limit, tail + chunks[0]);
      if p.oversize {
        OversizeIsFinal(limit, tail + chunks[0], rest);
      } else {
        ParseResumes(limit, tail + chunks[0], rest);
        TailIsUnread(limit, tail + chunks[0]);
        var q := Parse(limit, p.tail + rest);
        ParseFramesSplits(codec, p.frames, q.frames);
        if ParseFrames(codec, p.frames).Some? {
          DecodableAfter(codec, p.frames, q.frames);
          DeliveredAreDecodable(codec, limit, p.tail, chunks[1..]);
        }
      }
    }
  }

  /** In one push, messages before a failure are lost. */
  lemma OnePushDelivers<T>(codec: Codec<T>, limit: nat, s: seq<Byte>)
    requires Fails(codec, limit, s)
    ensures DeliveredMessages(codec, Live(Open(limit, [])), [s]) == []
  {
    assert [] + s == s;
  }

  lemma FirstPushDelivers<T>(codec: Codec<T>, limit: nat, a: seq<Byte>, b: seq<Byte>)
    requires !Parse(limit, a).oversize && ParseFrames(codec, Parse(limit, a).frames).Some?
    ensures ParseFrames(codec, Parse(limit, a).frames).value <=
            DeliveredMessages(codec, Live(Open(limit, [])), [a, b])
  {
    assert [] + a == a;
  }

  lemma {:induction false} EncodeAllSplits(a: seq<seq<Byte>>, b: seq<seq<Byte>>)
    ensures EncodeAll(a + b) == EncodeAll(a) + EncodeAll(b)
  {
    if a == [] {
      assert a + b == b;
    } else {
      assert (a + b)[1..] == a[1..] + b;
      EncodeAllSplits(a[1..], b);
    }
  }

  /** The stream begins with the encodings of any number of its frames, which read as those frames. */
  lemma CutAfterFrames(limit: nat, s: seq<Byte>, n: nat)
    requires limit <= MAX_UINT32
    ensures n <= |Parse(limit, s).frames| ==>
              var first := Parse(limit, s).frames[..n];
              EncodeAll(first) <= s && Parse(limit, EncodeAll(first)) == Parsed(first, [], false)
  {
    var p := Parse(limit, s);
    if n <= |p.frames| {
      ParseIsExact(limit, s);
      assert p.frames == p.frames[..n] + p.frames[n..];
      EncodeAllSplits(p.frames[..n], p.frames[n..]);
      RoundTrip(limit, p.frames[..n]);
    }
  }

  /** The encodings of the frames that decode, up to the first one that does not. */
  function DecodablePart<T>(codec: Codec<T>, limit: nat, s: seq<Byte>): seq<Byte> {
    var frames := Parse(limit, s).frames;
    DecodableIsParsed(codec, frames);
    EncodeAll(frames[..|Decodable(codec, frames)|])
  }

  /** Cut after them, they are delivered. */
  lemma TwoPushesDeliver<T>(codec: Codec<T>, limit: nat, s: seq<Byte>)
    requires limit <= MAX_UINT32
    ensures var part := DecodablePart(codec, limit, s);
            && part <= s
            && DeliveredMessages(codec, Live(Open(limit, [])), [part, s[|part|..]]) ==
               Decodable(codec, Parse(limit, s).frames)
  {
    var frames := Parse(limit, s).frames;
    var part := DecodablePart(codec, limit, s);
    DecodableIsParsed(codec, frames);
    CutAfterFrames(limit, s, |Decodable(codec, frames)|);
    var rest := s[|part|..];
    FirstPushDelivers(codec, limit, part, rest);
    FlattenFew(part, rest);
    assert [] + (part + rest) == s;
    DeliveredAreDecodable(codec, limit, [], [part, rest]);
  }

  /** Every way of cutting the stream delivers the same messages. */
  ghost predicate DeliversTheSameMessages<T>(codec: Codec<T>, limit: nat, s: seq<Byte>) {
    forall a, b :: Flatten(a) == s && Flatten(b) == s ==>
      DeliveredMessages(codec, Live(Open(limit, [])), a) == DeliveredMessages(codec, Live(Open(limit, [])), b)
  }

  /** That is so if and only if nothing in the stream fails, or its very first frame or length does. */
  lemma MessagesAreChunkIndependentIff<T>(codec: Codec<T>, limit: nat, s: seq<Byte>)
    requires limit <= MAX_UINT32
    ensures DeliversTheSameMessages(codec, limit, s) <==>
            !Fails(codec, limit, s) || FailsAtOnce(codec, limit, s)
  {
    var all := Decodable(codec, Parse(limit, s).frames);
    if Fails(codec, limit, s) && !FailsAtOnce(codec, limit, s) {
      OnePushDelivers(codec, limit, s);
      TwoPushesDeliver(codec, limit, s);
      var part := DecodablePart(codec, limit, s);
      var one, two := [s], [part, s[|part|..]];
      FlattenFew(s, []);
      FlattenFew(part, s[|part|..]);
      assert all != [];
      assert DeliveredMessages(codec, Live(Open(limit, [])), one) !=
             DeliveredMessages(codec, Live(Open(limit, [])), two);
    } else {
      forall a, b | Flatten(a) == s && Flatten(b) == s
        ensures DeliveredMessages(codec, Live(Open(limit, [])), a) ==
                DeliveredMessages(codec, Live(Open(limit, [])), b)
      {
        EveryCutDelivers(codec, limit, s, a);
        EveryCutDelivers(codec, limit, s, b);
      }
    }
  }

  lemma EveryCutDelivers<T>(codec: Codec<T>, limit: nat, s: seq<Byte>, chunks: seq<seq<Byte>>)
    requires Flatten(chunks) == s && (!Fails(codec, limit, s) || FailsAtOnce(codec, limit, s))
    ensures DeliveredMessages(codec, Live(Open(limit, [])), chunks) == Decodable(codec, Parse(limit, s).frames)
  {
    assert [] + s == s;
    DeliveredAreDecodable(codec, limit, [], chunks);
  }

  /** On a stream that no push refused, `end` succeeds exactly if the stream is a concatenation of encoded
      frames. */
  lemma MessageEndIff<T>(codec: Codec<T>, limit: nat, chunks: seq<seq<Byte>>)
    requires limit <= MAX_UINT32
    requires PushAllMessages(codec, Live(Open(limit, [])), chunks).0.Ok?
    ensures EndMessages(PushAllMessages(codec, Live(Open(limit, [])), chunks).1).0.Ok? <==>
            IsWhole(limit, Flatten(chunks))
  {
    MessageChunkIndependence(codec, limit, [], chunks);
    var s := Flatten(chunks);
    assert [] + s == s;
    WholeIffNoTail(limit, s);
  }

  /** A failed decoder refuses everything from then on. */
  lemma FailureIsFinal<T>(codec: Codec<T>, d: MessageDecoder, chunk: seq<Byte>, later: seq<Byte>)
    requires PushMessages(codec, d, chunk).0.Err?
    ensures var next := PushMessages(codec, d, chunk).1;
            PushMessages(codec, next, later) == (Err(Invalid), next) && EndMessages(next) == (Err(Invalid), next)
  {
  }

  /** A codec that knows the empty payload alone. */
  function EmptyOnly(payload: seq<Byte>): Option<nat> {
    if payload == [] then Some(0) else None
  }

  /** An empty frame and then a frame that does not decode, no length above the limit: one push delivers
      nothing, two pushes deliver the first message. */
  lemma MessageLostInOnePush()
    ensures var s: seq<Byte> := [0, 0, 0, 0, 0, 0, 0, 1, 7];
            && !Parse(100, s).oversize
            && DeliveredMessages(EmptyOnly, Live(Open(100, [])), [s]) == []
            && DeliveredMessages(EmptyOnly, Live(Open(100, [])), [s[..4], s[4..]]) == [0]
  {
    var s: seq<Byte> := [0, 0, 0, 0, 0, 0, 0, 1, 7];
    var empty: seq<Byte> := [0, 0, 0, 0];
    var one: seq<Byte> := [0, 0, 0, 1, 7];
    var frames: seq<seq<Byte>> := [[], [7]];
    assert Encode([]) == empty && Encode([7]) == one;
    assert frames[1..] == [[7]] && [[7]][1..] == [];
    assert EncodeAll(frames) == s;
    RoundTrip(100, frames);
    OnePushDelivers(EmptyOnly, 100, s);
    assert Decodable(EmptyOnly, frames) == [0];
    assert frames[..1][0] == [] && frames[..1][1..] == [];
    assert EncodeAll(frames[..1]) == empty;
    TwoPushesDeliver(EmptyOnly, 100, s);
    assert DecodablePart(EmptyOnly, 100, s) == empty && s[..4] == empty;
  }
}
