/** Streams with a length above the limit: which push refuses it, and which frames the caller still
    received before that. */
module FrameDelivery {
  import opened Wrappers
  import opened FrameFormat

  lemma FlattenNext(chunks: seq<seq<Byte>>, j: nat)
    requires j < |chunks|
    ensures Flatten(chunks[..j + 1]) == Flatten(chunks[..j]) + chunks[j]
  {
    FlattenSplits(chunks[..j + 1], j);
    assert chunks[..j + 1][..j] == chunks[..j] && chunks[..j + 1][j..] == [chunks[j]];
    assert Flatten([chunks[j]]) == chunks[j] + Flatten([]);
  }

  lemma {:induction false} FlattenSplits(chunks: seq<seq<Byte>>, j: nat)
    requires j <= |chunks|
    ensures Flatten(chunks) == Flatten(chunks[..j]) + Flatten(chunks[j..])
  {
    if j == 0 {
      assert chunks[0..] == chunks;
    } else {
      FlattenSplits(chunks[1..], j - 1);
      assert chunks[..j][1..] == chunks[1..][..j - 1] && chunks[1..][j - 1..] == chunks[j..];
    }
  }

  lemma {:induction false} PushAllNext(d: Decoder, chunks: seq<seq<Byte>>, j: nat)
    requires j < |chunks|
    ensures var before, after := PushAll(d, chunks[..j]), PushAll(d, chunks[..j + 1]);
            if before.0.Err? then after == before
            else
              var (last, next) := Push(before.1, chunks[j]);
              after.1 == next && (last.Err? <==> after.0.Err?) && (last.Err? ==> after.0 == last)
    decreases j
  {
    assert chunks[..j + 1][0] == chunks[0] && chunks[..j + 1][1..] == chunks[1..][..j];
    if j > 0 {
      PushAllNext(Push(d, chunks[0]).1, chunks[1..], j - 1);
      assert chunks[..j][0] == chunks[0] && chunks[..j][1..] == chunks[1..][..j - 1];
    } else {
      assert chunks[..1][1..] == [] && chunks[..0] == [];
    }
  }

  // ---- Where a length above the limit is refused ----

  /** Frames within the limit, then a header with a length above it, then anything. */
  predicate IsOversizeStream(limit: nat, frames: seq<seq<Byte>>, header: seq<Byte>) {
    && limit <= MAX_UINT32
    && (forall i :: 0 <= i < |frames| ==> |frames[i]| <= limit)
    && |header| == FRAME_HEADER_LENGTH && JoinLength(header) > limit
  }

  lemma CompleteHeaderIsOversize(limit: nat, frames: seq<seq<Byte>>, header: seq<Byte>, more: seq<Byte>)
    requires IsOversizeStream(limit, frames, header)
    ensures Parse(limit, EncodeAll(frames) + (header + more)).oversize
  {
    assert (header + more)[..FRAME_HEADER_LENGTH] == header;
    RoundTrip(limit, frames);
    ParseResumes(limit, EncodeAll(frames), header + more);
    assert [] + (header + more) == header + more;
  }

  /** A part of the stream is oversize exactly when it reaches the header's fourth byte. */
  lemma PartIsOversizeIff(limit: nat, frames: seq<seq<Byte>>, header: seq<Byte>, rest: seq<Byte>, part: seq<Byte>)
    requires IsOversizeStream(limit, frames, header) && part <= EncodeAll(frames) + header + rest
    ensures Parse(limit, part).oversize <==> |EncodeAll(frames)| + FRAME_HEADER_LENGTH <= |part|
  {
    var encoded := EncodeAll(frames);
    if |encoded| + FRAME_HEADER_LENGTH <= |part| {
      var more := part[|encoded| + FRAME_HEADER_LENGTH..];
      assert part == encoded + (header + more);
      CompleteHeaderIsOversize(limit, frames, header, more);
    } else {
      var waiting := encoded + header[..FRAME_HEADER_LENGTH - 1];
      PartialHeaderWaits(limit, frames, header[..FRAME_HEADER_LENGTH - 1]);
      assert [] + waiting == waiting;
      assert waiting == part + waiting[|part|..];
      if Parse(limit, part).oversize {
        OversizeIsFinal(limit, part, waiting[|part|..]);
      }
    }
  }

  lemma PartsOversizeIff(
      limit: nat, frames: seq<seq<Byte>>, header: seq<Byte>, rest: seq<Byte>, chunks: seq<seq<Byte>>, j: nat)
    requires IsOversizeStream(limit, frames, header)
    requires Flatten(chunks) == EncodeAll(frames) + header + rest && j <= |chunks|
    ensures var r := PushAll(Open(limit, []), chunks[..j]);
            && (r.0.Err? <==> |EncodeAll(frames)| + FRAME_HEADER_LENGTH <= |Flatten(chunks[..j])|)
            && (r.0.Err? ==> r == (Err(Oversize), Decoder.Failed))
  {
    FlattenSplits(chunks, j);
    ChunkIndependence(limit, [], chunks[..j]);
    assert [] + Flatten(chunks[..j]) == Flatten(chunks[..j]);
    PartIsOversizeIff(limit, frames, header, rest, Flatten(chunks[..j]));
  }

  /** However the stream is cut, the push that refuses the length is the one that brings the fourth
      byte of its header; every push before it succeeds, and every later `push` and `end` fails. */
  lemma OversizeFailsAtFourthByte(
      limit: nat, frames: seq<seq<Byte>>, header: seq<Byte>, rest: seq<Byte>, chunks: seq<seq<Byte>>, j: nat)
    requires IsOversizeStream(limit, frames, header)
    requires Flatten(chunks) == EncodeAll(frames) + header + rest && j < |chunks|
    ensures var fourth := |EncodeAll(frames)| + FRAME_HEADER_LENGTH;
            var before := PushAll(Open(limit, []), chunks[..j]);
            var after := PushAll(Open(limit, []), chunks[..j + 1]);
            && ((before.0.Ok? && Push(before.1, chunks[j]) == (Err(Oversize), Decoder.Failed)) <==>
                |Flatten(chunks[..j])| < fourth <= |Flatten(chunks[..j])| + |chunks[j]|)
            && (|Flatten(chunks[..j])| < fourth ==> before.0.Ok?)
            && (fourth <= |Flatten(chunks[..j])| ==> Push(before.1, chunks[j]) == (Err(FrameError.Failed), Decoder.Failed))
            && (fourth <= |Flatten(chunks[..j])| + |chunks[j]| ==> End(after.1) == (Err(FrameError.Failed), Decoder.Failed))
  {
    PartsOversizeIff(limit, frames, header, rest, chunks, j);
    PartsOversizeIff(limit, frames, header, rest, chunks, j + 1);
    PushAllNext(Open(limit, []), chunks, j);
    FlattenNext(chunks, j);
  }

  // ---- What the caller received ----

  /** The frames returned by the pushes before the first one that fails. */
  function Delivered(d: Decoder, chunks: seq<seq<Byte>>): seq<seq<Byte>>
    decreases |chunks|
  {
    if chunks == [] then []
    else
      var (first, next) := Push(d, chunks[0]);
      if first.Err? then [] else first.value + Delivered(next, chunks[1..])
  }

  /** Whatever is delivered is a prefix of the frames in the stream, and all of them when no length
      in it is above the limit. */
  lemma {:induction false} DeliveredAreFrames(limit: nat, tail: seq<Byte>, chunks: seq<seq<Byte>>)
    requires Parse(limit, tail) == Parsed([], tail, false)
    ensures var p := Parse(limit, tail + Flatten(chunks));
            && Delivered(Open(limit, tail), chunks) <= p.frames
            && (!p.oversize ==> Delivered(Open(limit, tail), chunks) == p.frames)
    decreases |chunks|
  {
    if chunks == [] {
      assert tail + [] == tail;
    } else {
      var rest := Flatten(chunks[1..]);
      assert tail + Flatten(chunks) == (tail + chunks[0]) + rest;
      if Parse(limit, tail + chunks[0]).oversize {
        OversizeIsFinal(limit, tail + chunks[0], rest);
      } else {
        ParseResumes(limit, tail + chunks[0], rest);
        TailIsUnread(limit, tail + chunks[0]);
        DeliveredAreFrames(limit, Parse(limit, tail + chunks[0]).tail, chunks[1..]);
      }
    }
  }

  /** In one push, frames before an oversize header are lost. */
  lemma OnePushDelivers(limit: nat, s: seq<Byte>)
    ensures Delivered(Open(limit, []), [s]) == if Parse(limit, s).oversize then [] else Parse(limit, s).frames
  {
    assert [] + s == s;
    assert Delivered(Open(limit, []), [s][1..]) == [];
    assert Parse(limit, s).frames + [] == Parse(limit, s).frames;
  }

  lemma FirstPushDelivers(limit: nat, a: seq<Byte>, b: seq<Byte>)
    requires !Parse(limit, a).oversize
    ensures Parse(limit, a).frames <= Delivered(Open(limit, []), [a, b])
  {
    assert [] + a == a;
  }

  /** Cut after them, they are delivered. */
  lemma TwoPushesDeliver(limit: nat, s: seq<Byte>)
    requires limit <= MAX_UINT32
    ensures var p := Parse(limit, s);
            && EncodeAll(p.frames) + p.tail == s
            && Delivered(Open(limit, []), [EncodeAll(p.frames), p.tail]) == p.frames
  {
    var p := Parse(limit, s);
    ParseIsExact(limit, s);
    RoundTrip(limit, p.frames);
    FirstPushDelivers(limit, EncodeAll(p.frames), p.tail);
    FlattenFew(EncodeAll(p.frames), p.tail);
    assert [] + s == s;
    DeliveredAreFrames(limit, [], [EncodeAll(p.frames), p.tail]);
  }

  lemma EveryCutDelivers(limit: nat, s: seq<Byte>, chunks: seq<seq<Byte>>)
    requires Flatten(chunks) == s && (!Parse(limit, s).oversize || Parse(limit, s).frames == [])
    ensures Delivered(Open(limit, []), chunks) == Parse(limit, s).frames
  {
    assert [] + s == s;
    DeliveredAreFrames(limit, [], chunks);
  }

  /** Every way of cutting the stream delivers the same frames. */
  ghost predicate DeliversTheSame(limit: nat, s: seq<Byte>) {
    forall a, b :: Flatten(a) == s && Flatten(b) == s ==>
      Delivered(Open(limit, []), a) == Delivered(Open(limit, []), b)
  }

  /** That is so if and only if no length read is above the limit or the first one already is. */
  lemma DeliveryIsChunkIndependentIff(limit: nat, s: seq<Byte>)
    requires limit <= MAX_UINT32
    ensures DeliversTheSame(limit, s) <==> !Parse(limit, s).oversize || Parse(limit, s).frames == []
  {
    var p := Parse(limit, s);
    if p.oversize && p.frames != [] {
      OnePushDelivers(limit, s);
      TwoPushesDeliver(limit, s);
      FlattenFew(s, []);
      FlattenFew(EncodeAll(p.frames), p.tail);
      var one, two := [s], [EncodeAll(p.frames), p.tail];
      assert Delivered(Open(limit, []), one) != Delivered(Open(limit, []), two);
    } else {
      forall a, b | Flatten(a) == s && Flatten(b) == s
        ensures Delivered(Open(limit, []), a) == Delivered(Open(limit, []), b)
      {
        EveryCutDelivers(limit, s, a);
        EveryCutDelivers(limit, s, b);
      }
    }
  }

  /** An empty frame and then a length of one under a limit of zero: one push delivers nothing, two
      pushes deliver the frame. */
  lemma FrameLostInOnePush()
    ensures var s: seq<Byte> := [0, 0, 0, 0, 0, 0, 0, 1];
            && Delivered(Open(0, []), [s]) == []
            && Delivered(Open(0, []), [s[..4], s[4..]]) == [[]]
  {
    var empty: seq<Byte> := [0, 0, 0, 0];
    var header: seq<Byte> := [0, 0, 0, 1];
    var frames: seq<seq<Byte>> := [[]];
    var s: seq<Byte> := [0, 0, 0, 0, 0, 0, 0, 1];
    assert EncodeAll(frames) == empty by {
      assert frames[1..] == [] && Encode([]) == empty;
    }
    assert s == empty + header && header + [] == header && header[..4] == header;
    RoundTrip(0, frames);
    ParseResumes(0, empty, header);
    assert [] + header == header && frames + [] == frames;
    assert Parse(0, s) == Parsed(frames, header, true);
    OnePushDelivers(0, s);
    TwoPushesDeliver(0, s);
    assert s[..4] == empty && s[4..] == header;
  }
}
