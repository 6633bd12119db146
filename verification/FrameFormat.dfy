/** The wire format: a four-byte unsigned big-endian length, then that many payload bytes. */
module FrameFormat {
  import opened Wrappers

  const FRAME_HEADER_LENGTH := 4
  const MAX_UINT32 := 0xffff_ffff
  const DEFAULT_MAX_FRAME_LENGTH := 16 * 1024 * 1024

  type Byte = b: int | 0 <= b < 256

  datatype FrameError = BadLimit | TooLong | Incomplete | Oversize | NotExact | Truncated | Ended | Failed

  /** The configured limit, or the default when none is given. */
  function ResolveMaxFrameLength(limit: Option<int>): (r: Result<nat, FrameError>)
    ensures r.Ok? <==> limit.None? || 0 <= limit.value <= MAX_UINT32
    ensures r.Ok? ==> r.value <= MAX_UINT32
  {
    var value := if limit.Some? then limit.value else DEFAULT_MAX_FRAME_LENGTH;
    if value < 0 || value > MAX_UINT32 then Err(BadLimit) else Ok(value)
  }

  /** Storing a number in a byte array keeps its low eight bits. */
  function Truncate(n: nat): Byte {
    n % 256
  }

  function SplitLength(n: nat): (h: seq<Byte>)
    ensures |h| == FRAME_HEADER_LENGTH
  {
    [Truncate(n / 0x100_0000), Truncate(n / 0x1_0000), Truncate(n / 0x100), Truncate(n)]
  }

  function JoinLength(h: seq<Byte>): (n: nat)
    requires |h| == FRAME_HEADER_LENGTH
    ensures n <= MAX_UINT32
  {
    (h[0] as int) * 0x100_0000 + (h[1] as int) * 0x1_0000 + (h[2] as int) * 0x100 + h[3]
  }

  /** Join undoes Split for every length that fits in 32 bits. */
  lemma JoinSplit(n: nat)
    requires n <= MAX_UINT32
    ensures JoinLength(SplitLength(n)) == n
  {
    var a, b, c := n / 0x100_0000, n / 0x1_0000, n / 0x100;
    assert c / 0x100 == b && b / 0x100 == a;
    assert a < 256;
  }

  /** Split undoes Join for every header, so the length field is a bijection. */
  lemma SplitJoin(h: seq<Byte>)
    requires |h| == FRAME_HEADER_LENGTH
    ensures SplitLength(JoinLength(h)) == h
  {
    var n := JoinLength(h);
    assert n / 0x100 == (h[0] as int) * 0x1_0000 + (h[1] as int) * 0x100 + h[2];
    assert n / 0x1_0000 == (h[0] as int) * 0x100 + h[1];
    assert n / 0x100_0000 == h[0];
  }

  function Encode(payload: seq<Byte>): (frame: seq<Byte>) {
    SplitLength(|payload|) + payload
  }

  function EncodeAll(payloads: seq<seq<Byte>>): seq<Byte> {
    if payloads == [] then [] else Encode(payloads[0]) + EncodeAll(payloads[1..])
  }

  /** The reading of a whole byte stream: the complete frames, the bytes after the last of
      them, and whether those bytes start with a length above the limit. */
  datatype Parsed = Parsed(frames: seq<seq<Byte>>, tail: seq<Byte>, oversize: bool)

  /** Whether a length prefix above the limit has been read. */
  predicate TooLarge(limit: nat, s: seq<Byte>) {
    |s| >= FRAME_HEADER_LENGTH && JoinLength(s[..FRAME_HEADER_LENGTH]) > limit
  }

  /** Where the first frame of the stream ends. */
  function HeadEnd(s: seq<Byte>): nat
    requires |s| >= FRAME_HEADER_LENGTH
  {
    FRAME_HEADER_LENGTH + JoinLength(s[..FRAME_HEADER_LENGTH])
  }

  predicate HasFrame(limit: nat, s: seq<Byte>) {
    |s| >= FRAME_HEADER_LENGTH && !TooLarge(limit, s) && |s| >= HeadEnd(s)
  }

  function Prepend(frame: seq<Byte>, p: Parsed): Parsed {
    p.(frames := [frame] + p.frames)
  }

  function Parse(limit: nat, s: seq<Byte>): (p: Parsed)
    decreases |s|
  {
    if HasFrame(limit, s) then
      Prepend(s[FRAME_HEADER_LENGTH..HeadEnd(s)], Parse(limit, s[HeadEnd(s)..]))
    else Parsed([], s, TooLarge(limit, s))
  }

  /** More bytes change neither the first frame nor a prefix that is too large. */
  lemma HeadIsStable(limit: nat, s: seq<Byte>, more: seq<Byte>)
    requires |s| >= FRAME_HEADER_LENGTH
    ensures TooLarge(limit, s + more) == TooLarge(limit, s)
    ensures HasFrame(limit, s) ==>
              && HasFrame(limit, s + more) && HeadEnd(s + more) == HeadEnd(s)
              && (s + more)[FRAME_HEADER_LENGTH..HeadEnd(s)] == s[FRAME_HEADER_LENGTH..HeadEnd(s)]
              && (s + more)[HeadEnd(s)..] == s[HeadEnd(s)..] + more
  {
    assert (s + more)[..FRAME_HEADER_LENGTH] == s[..FRAME_HEADER_LENGTH];
  }

  /** Reading can stop anywhere and resume from the tail. */
  lemma {:induction false} ParseResumes(limit: nat, s: seq<Byte>, more: seq<Byte>)
    requires !Parse(limit, s).oversize
    ensures var first := Parse(limit, s);
            var second := Parse(limit, first.tail + more);
            Parse(limit, s + more) == Parsed(first.frames + second.frames, second.tail, second.oversize)
    decreases |s|
  {
    if HasFrame(limit, s) {
      var head, rest := s[FRAME_HEADER_LENGTH..HeadEnd(s)], s[HeadEnd(s)..];
      HeadIsStable(limit, s, more);
      ParseResumes(limit, rest, more);
      var second := Parse(limit, Parse(limit, rest).tail + more);
      Concatenation(head, Parse(limit, rest).frames, second.frames);
    } else {
      Concatenation([], [], Parse(limit, s + more).frames);
    }
  }

  lemma Concatenation(head: seq<Byte>, a: seq<seq<Byte>>, b: seq<seq<Byte>>)
    ensures [head] + (a + b) == ([head] + a) + b
    ensures [] + b == b
  {
  }

  /** Once a length above the limit has been read, no continuation of the stream repairs it. */
  lemma {:induction false} OversizeIsFinal(limit: nat, s: seq<Byte>, more: seq<Byte>)
    requires Parse(limit, s).oversize
    ensures Parse(limit, s + more).oversize
    decreases |s|
  {
    HeadIsStable(limit, s, more);
    if HasFrame(limit, s) {
      OversizeIsFinal(limit, s[HeadEnd(s)..], more);
    }
  }

  /** What Parse returns rebuilds the stream; every frame is within the limit, and the tail holds
      no frame. */
  lemma {:induction false} ParseIsExact(limit: nat, s: seq<Byte>)
    ensures var p := Parse(limit, s);
            && s == EncodeAll(p.frames) + p.tail
            && (forall i :: 0 <= i < |p.frames| ==> |p.frames[i]| <= limit)
            && !HasFrame(limit, p.tail)
            && p.oversize == TooLarge(limit, p.tail)
    decreases |s|
  {
    if HasFrame(limit, s) {
      var head, rest := s[FRAME_HEADER_LENGTH..HeadEnd(s)], s[HeadEnd(s)..];
      ParseIsExact(limit, rest);
      HeadIsEncoded(limit, s);
      EncodeOneMore(head, Parse(limit, rest).frames, Parse(limit, rest).tail);
    }
  }

  lemma HeadIsEncoded(limit: nat, s: seq<Byte>)
    requires HasFrame(limit, s)
    ensures var head := s[FRAME_HEADER_LENGTH..HeadEnd(s)];
            |head| <= limit && s == Encode(head) + s[HeadEnd(s)..]
  {
    SplitJoin(s[..FRAME_HEADER_LENGTH]);
  }

  lemma EncodeOneMore(head: seq<Byte>, frames: seq<seq<Byte>>, tail: seq<Byte>)
    ensures EncodeAll([head] + frames) + tail == Encode(head) + (EncodeAll(frames) + tail)
  {
    assert ([head] + frames)[1..] == frames;
  }

  /** An encoded payload within the limit is read as the first frame. */
  lemma EncodedHead(limit: nat, payload: seq<Byte>, rest: seq<Byte>)
    requires |payload| <= limit <= MAX_UINT32
    ensures Parse(limit, Encode(payload) + rest) == Prepend(payload, Parse(limit, rest))
  {
    var s := Encode(payload) + rest;
    JoinSplit(|payload|);
    assert s[..FRAME_HEADER_LENGTH] == SplitLength(|payload|);
    assert s[FRAME_HEADER_LENGTH..HeadEnd(s)] == payload;
    assert s[HeadEnd(s)..] == rest;
  }

  /** Encoded payloads within the limit are read back exactly, with nothing left over. */
  lemma {:induction false} RoundTrip(limit: nat, payloads: seq<seq<Byte>>)
    requires limit <= MAX_UINT32
    requires forall i :: 0 <= i < |payloads| ==> |payloads[i]| <= limit
    ensures Parse(limit, EncodeAll(payloads)) == Parsed(payloads, [], false)
  {
    if payloads != [] {
      RoundTrip(limit, payloads[1..]);
      EncodedHead(limit, payloads[0], EncodeAll(payloads[1..]));
      assert [payloads[0]] + payloads[1..] == payloads;
    }
  }

  function CheckCompleteFrame(frame: seq<Byte>, limit: Option<int>): (r: Result<(), FrameError>) {
    if |frame| < FRAME_HEADER_LENGTH then Err(Incomplete)
    else
      var length := JoinLength(frame[..FRAME_HEADER_LENGTH]);
      var max := ResolveMaxFrameLength(limit);
      if max.Err? then Err(max.error)
      else if length > max.value then Err(Oversize)
      else if |frame| != FRAME_HEADER_LENGTH + length then Err(NotExact)
      else Ok(())
  }

  /** Why the complete-frame check refuses a frame: no whole header, a length above the limit, or not exactly
      as many bytes as its header says. */
  lemma CompleteFrameErrors(frame: seq<Byte>, limit: Option<int>, n: nat)
    requires ResolveMaxFrameLength(limit).Ok? && n <= MAX_UINT32
    ensures |frame| < FRAME_HEADER_LENGTH ==> CheckCompleteFrame(frame, limit) == Err(Incomplete)
    ensures SplitLength(n) <= frame ==>
              CheckCompleteFrame(frame, limit) ==
              if n > ResolveMaxFrameLength(limit).value then Err(Oversize)
              else if |frame| != |SplitLength(n)| + n then Err(NotExact) else Ok(())
  {
    JoinSplit(n);
    if SplitLength(n) <= frame {
      assert frame[..FRAME_HEADER_LENGTH] == SplitLength(n);
    }
  }

  /** The complete-frame check accepts exactly the encodings of payloads within the limit. */
  lemma CompleteFrameIffEncoded(frame: seq<Byte>, limit: Option<int>)
    requires ResolveMaxFrameLength(limit).Ok?
    ensures CheckCompleteFrame(frame, limit).Ok? <==>
            exists payload: seq<Byte> ::
              |payload| <= ResolveMaxFrameLength(limit).value && frame == Encode(payload)
  {
    if CheckCompleteFrame(frame, limit).Ok? {
      var payload := frame[FRAME_HEADER_LENGTH..];
      SplitJoin(frame[..FRAME_HEADER_LENGTH]);
      assert frame == Encode(payload);
    }
    forall payload: seq<Byte> | |payload| <= ResolveMaxFrameLength(limit).value && frame == Encode(payload)
      ensures CheckCompleteFrame(frame, limit).Ok?
    {
      JoinSplit(|payload|);
      assert frame[..FRAME_HEADER_LENGTH] == SplitLength(|payload|);
    }
  }

  // ---- The decoder as a machine over chunks ----

  datatype Decoder = Open(limit: nat, tail: seq<Byte>) | Ended | Failed

  /** One push: the frames it returns and the next state, or the error. */
  function Push(d: Decoder, chunk: seq<Byte>): (r: (Result<seq<seq<Byte>>, FrameError>, Decoder)) {
    match d
    case Ended => (Err(FrameError.Ended), d)
    case Failed => (Err(FrameError.Failed), d)
    case Open(limit, tail) =>
      var p := Parse(limit, tail + chunk);
      if p.oversize then (Err(Oversize), Decoder.Failed) else (Ok(p.frames), Open(limit, p.tail))
  }

  function End(d: Decoder): (r: (Result<(), FrameError>, Decoder)) {
    match d
    case Ended => (Err(FrameError.Ended), d)
    case Failed => (Err(FrameError.Failed), d)
    case Open(_, tail) => if tail == [] then (Ok(()), Decoder.Ended) else (Err(Truncated), Decoder.Failed)
  }

  /** Push every chunk in turn, collecting the frames until a push fails. */
  function PushAll(d: Decoder, chunks: seq<seq<Byte>>): (r: (Result<seq<seq<Byte>>, FrameError>, Decoder))
    decreases |chunks|
  {
    if chunks == [] then (Ok([]), d)
    else
      var (first, next) := Push(d, chunks[0]);
      if first.Err? then (first, next)
      else
        var (rest, last) := PushAll(next, chunks[1..]);
        if rest.Err? then (rest, last) else (Ok(first.value + rest.value), last)
  }

  function Flatten(chunks: seq<seq<Byte>>): seq<Byte> {
    if chunks == [] then [] else chunks[0] + Flatten(chunks[1..])
  }

  lemma FlattenFew(a: seq<Byte>, b: seq<Byte>)
    ensures Flatten([a]) == a && Flatten([a, b]) == a + b
  {
    assert [a][1..] == [] && [a, b][1..] == [b] && [b][1..] == [];
    assert a + [] == a && b + [] == b;
  }

  /** Chunk independence: however the stream is cut, empty chunks included, the frames and the
      final state are those of one push of the whole stream; and a stream with a length above
      the limit fails under every cut. */
  lemma {:induction false} ChunkIndependence(limit: nat, tail: seq<Byte>, chunks: seq<seq<Byte>>)
    requires Parse(limit, tail) == Parsed([], tail, false)
    ensures PushAll(Open(limit, tail), chunks) == Push(Open(limit, tail), Flatten(chunks))
    decreases |chunks|
  {
    if chunks == [] {
      assert tail + [] == tail;
    } else {
      var rest := Flatten(chunks[1..]);
      assert tail + Flatten(chunks) == (tail + chunks[0]) + rest;
      if Parse(limit, tail + chunks[0]).oversize {
        OversizeIsFinal(limit, tail + chunks[0], rest);
      } else {
        var t := Parse(limit, tail + chunks[0]).tail;
        ParseResumes(limit, tail + chunks[0], rest);
        TailIsUnread(limit, tail + chunks[0]);
        ChunkIndependence(limit, t, chunks[1..]);
      }
    }
  }

  /** The tail of a stream within the limit holds no complete frame: it reads as itself. */
  lemma {:induction false} TailIsUnread(limit: nat, s: seq<Byte>)
    requires !Parse(limit, s).oversize
    ensures Parse(limit, Parse(limit, s).tail) == Parsed([], Parse(limit, s).tail, false)
    decreases |s|
  {
    if HasFrame(limit, s) {
      TailIsUnread(limit, s[HeadEnd(s)..]);
    }
  }

  /** Encoding any payloads within the limit and decoding them under any cut returns them all,
      and then the stream may end. */
  lemma DecodeEncode(limit: nat, payloads: seq<seq<Byte>>, chunks: seq<seq<Byte>>)
    requires limit <= MAX_UINT32
    requires forall i :: 0 <= i < |payloads| ==> |payloads[i]| <= limit
    requires Flatten(chunks) == EncodeAll(payloads)
    ensures PushAll(Open(limit, []), chunks) == (Ok(payloads), Open(limit, []))
    ensures End(PushAll(Open(limit, []), chunks).1) == (Ok(()), Decoder.Ended)
  {
    ChunkIndependence(limit, [], chunks);
    RoundTrip(limit, payloads);
    assert [] + Flatten(chunks) == Flatten(chunks);
  }

  /** The stream is a concatenation of encoded frames within the limit. */
  ghost predicate IsWhole(limit: nat, s: seq<Byte>) {
    exists payloads: seq<seq<Byte>> ::
      && (forall i :: 0 <= i < |payloads| ==> |payloads[i]| <= limit)
      && s == EncodeAll(payloads)
  }

  lemma WholeIffNoTail(limit: nat, s: seq<Byte>)
    requires limit <= MAX_UINT32 && !Parse(limit, s).oversize
    ensures IsWhole(limit, s) <==> Parse(limit, s).tail == []
  {
    ParseIsExact(limit, s);
    var p := Parse(limit, s);
    if p.tail == [] {
      assert s == EncodeAll(p.frames);
    }
    forall payloads: seq<seq<Byte>> |
      && (forall i :: 0 <= i < |payloads| ==> |payloads[i]| <= limit)
      && s == EncodeAll(payloads)
      ensures p.tail == []
    {
      RoundTrip(limit, payloads);
    }
  }

  /** On a stream that no push refused, `end` succeeds exactly when the stream is a
      concatenation of encoded frames: it fails when the stream stops inside a header or payload. */
  lemma EndIffWholeFrames(limit: nat, chunks: seq<seq<Byte>>)
    requires limit <= MAX_UINT32
    requires PushAll(Open(limit, []), chunks).0.Ok?
    ensures End(PushAll(Open(limit, []), chunks).1).0.Ok? <==> IsWhole(limit, Flatten(chunks))
  {
    ChunkIndependence(limit, [], chunks);
    assert [] + Flatten(chunks) == Flatten(chunks);
    WholeIffNoTail(limit, Flatten(chunks));
  }

  /** A stream that has ended takes nothing more. */
  lemma EndIsFinal(limit: nat, chunks: seq<seq<Byte>>, chunk: seq<Byte>)
    requires PushAll(Open(limit, []), chunks).0.Ok? && End(PushAll(Open(limit, []), chunks).1).0.Ok?
    ensures var ended := End(PushAll(Open(limit, []), chunks).1).1;
            && Push(ended, chunk) == (Err(FrameError.Ended), ended)
            && End(ended) == (Err(FrameError.Ended), ended)
  {
  }

  /** A failed decoder stays failed. */
  lemma {:induction false} FailureIsSticky(chunks: seq<seq<Byte>>)
    ensures PushAll(Decoder.Failed, chunks).1 == Decoder.Failed
    ensures chunks != [] ==> PushAll(Decoder.Failed, chunks).0 == Err(FrameError.Failed)
    ensures End(PushAll(Decoder.Failed, chunks).1) == (Err(FrameError.Failed), Decoder.Failed)
  {
    if chunks != [] {
      assert Push(Decoder.Failed, chunks[0]).0.Err?;
    }
  }

  /** Frames followed by part of a header: the frames come out and the part waits. */
  lemma PartialHeaderWaits(limit: nat, frames: seq<seq<Byte>>, part: seq<Byte>)
    requires limit <= MAX_UINT32 && |part| < FRAME_HEADER_LENGTH
    requires forall i :: 0 <= i < |frames| ==> |frames[i]| <= limit
    ensures Push(Open(limit, []), EncodeAll(frames) + part) == (Ok(frames), Open(limit, part))
  {
    var s := EncodeAll(frames) + part;
    assert [] + s == s && [] + part == part && frames + [] == frames;
    RoundTrip(limit, frames);
    ParseResumes(limit, EncodeAll(frames), part);
  }
}
