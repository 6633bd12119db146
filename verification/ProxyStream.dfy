/** A response relayed by a proxy: the text stream is cut into lines whatever chunks it comes in, and
    the events on the lines rebuild the message block by block. */
module ProxyStream {
  import opened Wrappers
  import opened Whitespace

  // ---- Lines ----

  /** The newline-terminated lines of a text, and what follows the last of them. */
  function Lines(text: string): seq<string> {
    if text == [] then []
    else
      var n := |text| - 1;
      Lines(text[..n]) + if text[n] == '\n' then [Rest(text[..n])] else []
  }

  function Rest(text: string): string {
    if text == [] then []
    else
      var n := |text| - 1;
      if text[n] == '\n' then [] else Rest(text[..n]) + [text[n]]
  }

  function Unlines(lines: seq<string>): string {
    if lines == [] then [] else Unlines(lines[..|lines| - 1]) + (lines[|lines| - 1] + ['\n'])
  }

  predicate NoNewline(s: string) {
    forall i :: 0 <= i < |s| ==> s[i] != '\n'
  }

  lemma Regroup(a: string, b: string, c: string)
    ensures a + (b + c) == (a + b) + c
  {
  }

  /** The lines and the rest are the text again, and none of them contains a newline. */
  lemma {:induction false} LinesAreTheText(text: string)
    ensures Unlines(Lines(text)) + Rest(text) == text
    ensures NoNewline(Rest(text)) && forall k :: 0 <= k < |Lines(text)| ==> NoNewline(Lines(text)[k])
  {
    if text != [] {
      var n := |text| - 1;
      LinesAreTheText(text[..n]);
      var front, all := Lines(text[..n]), Lines(text);
      Regroup(Unlines(front), Rest(text[..n]), [text[n]]);
      if text[n] == '\n' {
        assert all[..|all| - 1] == front;
        assert Unlines(all) + [] == Unlines(all);
      } else {
        assert all == front;
      }
      assert text == text[..n] + [text[n]];
    }
  }

  /** Reading on needs only the rest of what was read before. */
  lemma {:induction false} LinesResume(a: string, b: string)
    ensures Lines(a + b) == Lines(a) + Lines(Rest(a) + b)
    ensures Rest(a + b) == Rest(Rest(a) + b)
    decreases |b|
  {
    if b == [] {
      assert a + b == a && Rest(a) + b == Rest(a);
      RestHasNoLines(a);
    } else {
      var n := |b| - 1;
      LinesResume(a, b[..n]);
      LastCharacter(a, b);
      LastCharacter(Rest(a), b);
      LinesJoin(Lines(a), Lines(Rest(a) + b[..n]), if b[n] == '\n' then [Rest(a + b[..n])] else []);
    }
  }

  /** One more character either ends a line or extends the rest. */
  lemma LastCharacter(a: string, b: string)
    requires b != []
    ensures var n := |b| - 1;
            && Lines(a + b) == Lines(a + b[..n]) + (if b[n] == '\n' then [Rest(a + b[..n])] else [])
            && Rest(a + b) == if b[n] == '\n' then [] else Rest(a + b[..n]) + [b[n]]
  {
    assert (a + b)[..|a + b| - 1] == a + b[..|b| - 1];
  }

  lemma LinesJoin(a: seq<string>, b: seq<string>, c: seq<string>)
    ensures (a + b) + c == a + (b + c)
  {
  }

  lemma {:induction false} RestHasNoLines(a: string)
    ensures Lines(Rest(a)) == [] && Rest(Rest(a)) == Rest(a)
  {
    if a != [] {
      var n := |a| - 1;
      RestHasNoLines(a[..n]);
      if a[n] != '\n' {
        assert Rest(a)[..|Rest(a)| - 1] == Rest(a[..n]);
      }
    }
  }

  /** Split at every newline; the last piece is what follows the last newline. */
  method SplitLines(text: string) returns (lines: seq<string>, rest: string)
    ensures lines == Lines(text) && rest == Rest(text)
  {
    lines, rest := [], [];
    for i := 0 to |text|
      invariant lines == Lines(text[..i]) && rest == Rest(text[..i])
    {
      assert text[..i + 1][..i] == text[..i];
      if text[i] == '\n' {
        lines, rest := lines + [rest], [];
      } else {
        rest := rest + [text[i]];
      }
    }
    assert text[..|text|] == text;
  }

  // ---- Events ----

  datatype CallData = CallData(id: string, name: string, arguments: string)

  datatype ProxyEvent =
    | Start
    | TextStart(index: nat)
    | TextDelta(index: nat, delta: string)
    | TextEnd(index: nat, signature: Option<string>)
    | ThinkingStart(index: nat)
    | ThinkingDelta(index: nat, delta: string)
    | ThinkingEnd(index: nat, signature: Option<string>)
    | CallStart(index: nat, id: string, name: string)
    | CallDelta(index: nat, delta: string)
    | CallEnd(index: nat, call: CallData)
    | Done(reason: string)
    | Error(reason: string, message: string)
    | Unknown

  /** `partialJson` is the text of a call's arguments so far, gone once the call has ended. */
  datatype Block =
    | Text(text: string, signature: Option<string>)
    | Thinking(thinking: string, thinkingSignature: Option<string>)
    | Call(call: CallData, partialJson: Option<string>)

  datatype Partial = Partial(content: map<nat, Block>, stopReason: string, errorMessage: Option<string>)

  const Empty := Partial(map[], "pending", None)

  /** How partial arguments are read is left open. */
  type ArgumentReader = string -> string

  function Grow(json: Option<string>, delta: string): string {
    (if json.Some? then json.value else "undefined") + delta
  }

  /** What an event does to the message; none when it throws. */
  function Process(read: ArgumentReader, p: Partial, e: ProxyEvent): Option<Partial> {
    match e
    case Start => Some(p)
    case TextStart(i) => Some(p.(content := p.content[i := Text("", None)]))
    case TextDelta(i, delta) =>
      if i in p.content && p.content[i].Text? then
        Some(p.(content := p.content[i := p.content[i].(text := p.content[i].text + delta)]))
      else None
    case TextEnd(i, signature) =>
      if i in p.content && p.content[i].Text? then
        Some(p.(content := p.content[i := p.content[i].(signature := signature)]))
      else None
    case ThinkingStart(i) => Some(p.(content := p.content[i := Thinking("", None)]))
    case ThinkingDelta(i, delta) =>
      if i in p.content && p.content[i].Thinking? then
        Some(p.(content := p.content[i := p.content[i].(thinking := p.content[i].thinking + delta)]))
      else None
    case ThinkingEnd(i, signature) =>
      if i in p.content && p.content[i].Thinking? then
        Some(p.(content := p.content[i := p.content[i].(thinkingSignature := signature)]))
      else None
    case CallStart(i, id, name) => Some(p.(content := p.content[i := Call(CallData(id, name, "{}"), Some(""))]))
    case CallDelta(i, delta) =>
      if i in p.content && p.content[i].Call? then
        var json := Grow(p.content[i].partialJson, delta);
        Some(p.(content := p.content[i := Call(p.content[i].call.(arguments := read(json)), Some(json))]))
      else None
    case CallEnd(i, call) =>
      if i in p.content && p.content[i].Call? then
        Some(p.(content := p.content[i := p.content[i].(call := call, partialJson := None)]))
      else Some(p)
    case Done(reason) => Some(p.(stopReason := reason))
    case Error(reason, message) => Some(p.(stopReason := reason, errorMessage := Some(message)))
    case Unknown => Some(p)
  }

  /** The message after these events; none when one of them threw. */
  function Run(read: ArgumentReader, events: seq<ProxyEvent>): Option<Partial> {
    if events == [] then Some(Empty)
    else
      var n := |events| - 1;
      var before := Run(read, events[..n]);
      if before.None? then None else Process(read, before.value, events[n])
  }

  predicate StartsAt(e: ProxyEvent, i: nat) {
    (e.TextStart? || e.ThinkingStart? || e.CallStart?) && e.index == i
  }

  /** The deltas for index `i`, put together. */
  function Deltas(events: seq<ProxyEvent>, i: nat): string {
    if events == [] then []
    else
      var n := |events| - 1;
      DeltasWith(Deltas(events[..n], i), events[n], i)
  }

  function DeltasWith(text: string, e: ProxyEvent, i: nat): string {
    if (e.TextDelta? || e.ThinkingDelta? || e.CallDelta?) && e.index == i then text + e.delta else text
  }

  /** The block belongs to this start and holds this text; a call holds it until it ends. */
  predicate Holds(read: ArgumentReader, start: ProxyEvent, block: Block, text: string, ended: bool) {
    match start
    case TextStart(_) => block.Text? && block.text == text
    case ThinkingStart(_) => block.Thinking? && block.thinking == text
    case CallStart(_, id, name) =>
      block.Call? &&
      (!ended ==>
         && block.partialJson == Some(text) && block.call.id == id && block.call.name == name
         && (text != [] ==> block.call.arguments == read(text)))
    case _ => false
  }

  predicate EndsCall(e: ProxyEvent, i: nat) {
    e.CallEnd? && e.index == i
  }

  /** The last start for index `i` is at `k`. */
  predicate LastStart(events: seq<ProxyEvent>, i: nat, k: nat) {
    k < |events| && StartsAt(events[k], i) && forall m :: k < m < |events| ==> !StartsAt(events[m], i)
  }

  predicate CallEnded(events: seq<ProxyEvent>, i: nat, k: nat)
    requires k < |events|
  {
    exists m :: k < m < |events| && EndsCall(events[m], i)
  }

  /** When no event threw, the block at an index is of the kind of its last start, and its text is
      the concatenation of the deltas since then. */
  lemma {:induction false} BlockIsItsDeltas(read: ArgumentReader, events: seq<ProxyEvent>, i: nat, k: nat)
    requires Run(read, events).Some? && LastStart(events, i, k)
    ensures i in Run(read, events).value.content
    ensures Holds(read, events[k], Run(read, events).value.content[i], Deltas(events[k + 1..], i), CallEnded(events, i, k))
  {
    var n := |events| - 1;
    var front, e := events[..n], events[n];
    if k == n {
      assert events[k + 1..] == [];
    } else {
      BlockIsItsDeltas(read, front, i, k);
      DeltasNext(events, i, k);
      EndedNext(events, i, k);
      BlockNext(read, Run(read, front).value, e, i, events[k], Deltas(front[k + 1..], i), CallEnded(front, i, k));
    }
  }

  lemma DeltasNext(events: seq<ProxyEvent>, i: nat, k: nat)
    requires k + 1 < |events|
    ensures var n := |events| - 1;
            Deltas(events[k + 1..], i) == DeltasWith(Deltas(events[..n][k + 1..], i), events[n], i)
  {
    var n := |events| - 1;
    var since := events[k + 1..];
    assert since[..|since| - 1] == events[..n][k + 1..];
  }

  lemma EndedNext(events: seq<ProxyEvent>, i: nat, k: nat)
    requires k + 1 < |events|
    ensures var n := |events| - 1;
            CallEnded(events, i, k) <==> CallEnded(events[..n], i, k) || EndsCall(events[n], i)
  {
    var n := |events| - 1;
    if m :| k < m < |events| && EndsCall(events[m], i) {
      assert m < n ==> events[..n][m] == events[m];
    }
    if m :| k < m < n && EndsCall(events[..n][m], i) {
      assert events[..n][m] == events[m];
    }
  }

  /** One more event that is not a start for `i`. */
  lemma BlockNext(read: ArgumentReader, p: Partial, e: ProxyEvent, i: nat, start: ProxyEvent, text: string, ended: bool)
    requires i in p.content && Holds(read, start, p.content[i], text, ended)
    requires !StartsAt(e, i) && Process(read, p, e).Some?
    ensures i in Process(read, p, e).value.content
    ensures Holds(read, start, Process(read, p, e).value.content[i], DeltasWith(text, e, i), ended || EndsCall(e, i))
  {
  }

  // ---- The stream ----

  const DataPrefix := "data: "

  /** What a line carries. */
  datatype Carried = Nothing | Garbage | Event(event: ProxyEvent)

  /** How event data is parsed is left open; none where the parser throws. */
  type Parser = string -> Option<ProxyEvent>

  function CarriedBy(parse: Parser, line: string): Carried {
    if !(DataPrefix <= line) then Nothing
    else
      var data := Trim(line[|DataPrefix|..]);
      if data == [] then Nothing
      else match parse(data) case None => Garbage case Some(e) => Event(e)
  }

  datatype Progress = Going(partial: Partial) | Failed(partial: Partial)

  function ReadLine(read: ArgumentReader, parse: Parser, before: Progress, line: string): Progress {
    match before
    case Failed(_) => before
    case Going(p) =>
      match CarriedBy(parse, line)
      case Nothing => before
      case Garbage => Failed(p.(stopReason := "error"))
      case Event(e) =>
        match Process(read, p, e)
        case Some(q) => Going(q)
        case None => Failed(p.(stopReason := "error"))
  }

  /** What reading these lines comes to; after the first failure nothing more is read. */
  function ReadLines(read: ArgumentReader, parse: Parser, lines: seq<string>): Progress {
    if lines == [] then Going(Empty)
    else ReadLine(read, parse, ReadLines(read, parse, lines[..|lines| - 1]), lines[|lines| - 1])
  }

  function EventsOn(parse: Parser, lines: seq<string>): seq<ProxyEvent> {
    if lines == [] then []
    else
      var n := |lines| - 1;
      var front := EventsOn(parse, lines[..n]);
      match CarriedBy(parse, lines[n])
      case Event(e) => front + [e]
      case _ => front
  }

  /** As long as nothing failed, the message is what the events on the lines make of it. */
  lemma {:induction false} LinesRunEvents(read: ArgumentReader, parse: Parser, lines: seq<string>)
    requires ReadLines(read, parse, lines).Going?
    ensures Run(read, EventsOn(parse, lines)) == Some(ReadLines(read, parse, lines).partial)
  {
    if lines != [] {
      var n := |lines| - 1;
      LinesRunEvents(read, parse, lines[..n]);
      match CarriedBy(parse, lines[n])
      case Event(e) => RunNext(read, EventsOn(parse, lines[..n]), e);
      case _ =>
    }
  }

  lemma RunNext(read: ArgumentReader, events: seq<ProxyEvent>, e: ProxyEvent)
    ensures Run(read, events + [e]) ==
            if Run(read, events).None? then None else Process(read, Run(read, events).value, e)
  {
    assert (events + [e])[..|events|] == events;
  }

  lemma {:induction false} ReadLinesAppend(read: ArgumentReader, parse: Parser, a: seq<string>, b: seq<string>)
    ensures ReadLines(read, parse, a).Failed? ==> ReadLines(read, parse, a + b) == ReadLines(read, parse, a)
    decreases |b|
  {
    if b == [] {
      assert a + b == a;
    } else {
      var n := |b| - 1;
      ReadLinesAppend(read, parse, a, b[..n]);
      assert (a + b)[..|a + b| - 1] == a + b[..n];
    }
  }

  function Joined(chunks: seq<string>): string {
    if chunks == [] then [] else Joined(chunks[..|chunks| - 1]) + chunks[|chunks| - 1]
  }

  class ProxyReader {
    const read: ArgumentReader
    const parse: Parser
    var buffer: string
    var content: map<nat, Block>
    var stopReason: string
    var errorMessage: Option<string>
    var failed: bool
    /** The text received so far. */
    ghost var text: string

    ghost function Message(): Partial
      reads this
    {
      Partial(content, stopReason, errorMessage)
    }

    /** The state depends on the text received alone, not on its chunks. */
    ghost predicate Valid()
      reads this
    {
      && ReadLines(read, parse, Lines(text)) == Standing()
      && (!failed ==> buffer == Rest(text))
    }

    constructor (read: ArgumentReader, parse: Parser)
      ensures Valid() && !failed && text == [] && this.read == read && this.parse == parse
    {
      this.read, this.parse := read, parse;
      buffer, failed, text := [], false, [];
      content, stopReason, errorMessage := map[], "pending", None;
    }

    /** Update the message; false stands for the error thrown. */
    method ProcessProxyEvent(e: ProxyEvent) returns (ok: bool)
      modifies this`content, this`stopReason, this`errorMessage
      ensures ok <==> Process(read, old(Message()), e).Some?
      ensures Message() == if ok then Process(read, old(Message()), e).value else old(Message())
    {
      ok := true;
      match e {
        case Start =>
        case TextStart(i) => content := content[i := Text("", None)];
        case TextDelta(i, delta) =>
          if i !in content || !content[i].Text? {
            return false;
          }
          content := content[i := content[i].(text := content[i].text + delta)];
        case TextEnd(i, signature) =>
          if i !in content || !content[i].Text? {
            return false;
          }
          content := content[i := content[i].(signature := signature)];
        case ThinkingStart(i) => content := content[i := Thinking("", None)];
        case ThinkingDelta(i, delta) =>
          if i !in content || !content[i].Thinking? {
            return false;
          }
          content := content[i := content[i].(thinking := content[i].thinking + delta)];
        case ThinkingEnd(i, signature) =>
          if i !in content || !content[i].Thinking? {
            return false;
          }
          content := content[i := content[i].(thinkingSignature := signature)];
        case CallStart(i, id, name) => content := content[i := Call(CallData(id, name, "{}"), Some(""))];
        case CallDelta(i, delta) =>
          if i !in content || !content[i].Call? {
            return false;
          }
          var json := Grow(content[i].partialJson, delta);
          content := content[i := Call(content[i].call.(arguments := read(json)), Some(json))];
        case CallEnd(i, call) =>
          if i in content && content[i].Call? {
            content := content[i := content[i].(call := call, partialJson := None)];
          }
        case Done(reason) => stopReason := reason;
        case Error(reason, message) => stopReason, errorMessage := reason, Some(message);
        case Unknown =>
      }
    }

    ghost function Standing(): Progress
      reads this
    {
      if failed then Failed(Message()) else Going(Message())
    }

    method HandleLine(line: string)
      requires !failed
      modifies this`content, this`stopReason, this`errorMessage, this`failed
      ensures Standing() == ReadLine(read, parse, old(Standing()), line)
    {
      var carried := CarriedBy(parse, line);
      var ok := carried.Nothing?;
      if carried.Event? {
        ok := ProcessProxyEvent(carried.event);
      }
      if !ok {
        failed, stopReason := true, "error";
      }
    }

    method HandleLines(ghost before: seq<string>, lines: seq<string>)
      requires !failed && Standing() == ReadLines(read, parse, before)
      modifies this`content, this`stopReason, this`errorMessage, this`failed
      ensures Standing() == ReadLines(read, parse, before + lines)
    {
      assert lines[..0] == [] && before + [] == before;
      for i := 0 to |lines|
        invariant !failed && ReadLines(read, parse, before + lines[..i]) == Standing()
      {
        HandleLine(lines[i]);
        NextLine(before, lines, i);
        if failed {
          FailureDecides(before, lines, i + 1);
          return;
        }
      }
      assert lines[..|lines|] == lines;
    }

    /** Read one chunk: cut what is buffered into lines, and process the lines that are complete. */
    method Receive(chunk: string)
      requires Valid() && !failed
      modifies this
      ensures Valid() && text == old(text) + chunk
    {
      var lines, rest := SplitLines(buffer + chunk);
      LinesResume(text, chunk);
      buffer := rest;
      HandleLines(Lines(text), lines);
      text := text + chunk;
    }

    lemma FailureDecides(before: seq<string>, lines: seq<string>, n: nat)
      requires n <= |lines| && ReadLines(read, parse, before + lines[..n]).Failed?
      ensures ReadLines(read, parse, before + lines) == ReadLines(read, parse, before + lines[..n])
    {
      ReadLinesAppend(read, parse, before + lines[..n], lines[n..]);
      assert before + lines[..n] + lines[n..] == before + lines;
    }

    lemma NextLine(before: seq<string>, lines: seq<string>, i: nat)
      requires i < |lines|
      ensures ReadLines(read, parse, before + lines[..i + 1]) ==
              ReadLine(read, parse, ReadLines(read, parse, before + lines[..i]), lines[i])
    {
      var all := before + lines[..i + 1];
      assert all[..|all| - 1] == before + lines[..i];
    }

    /** Each index with a start holds the block of its last start, with all the deltas since. */
    ghost predicate HoldsAll(events: seq<ProxyEvent>)
      reads this
    {
      forall i: nat, k: nat :: LastStart(events, i, k) ==>
        i in content && Holds(read, events[k], content[i], Deltas(events[k + 1..], i), CallEnded(events, i, k))
    }

    lemma LinesHoldAll(lines: seq<string>)
      requires !failed && Standing() == ReadLines(read, parse, lines)
      ensures HoldsAll(EventsOn(parse, lines))
    {
      LinesRunEvents(read, parse, lines);
      var events := EventsOn(parse, lines);
      forall i: nat, k: nat | LastStart(events, i, k)
        ensures i in content && Holds(read, events[k], content[i], Deltas(events[k + 1..], i), CallEnded(events, i, k))
      {
        BlockIsItsDeltas(read, events, i, k);
      }
    }

    /** Read chunks until they end or one fails: the outcome is that of the whole text, and unless it
        failed each block holds the deltas on the text's complete lines. */
    method ReceiveAll(chunks: seq<string>)
      requires Valid() && !failed && text == []
      modifies this
      ensures Standing() == ReadLines(read, parse, Lines(Joined(chunks)))
      ensures !failed ==> HoldsAll(EventsOn(parse, Lines(Joined(chunks))))
    {
      for i := 0 to |chunks|
        invariant Valid() && !failed && text == Joined(chunks[..i])
      {
        assert chunks[..i + 1][..i] == chunks[..i];
        Receive(chunks[i]);
        if failed {
          JoinedSplits(chunks, i + 1);
          FailureStays(text, Joined(chunks[i + 1..]));
          return;
        }
      }
      assert chunks[..|chunks|] == chunks;
      LinesHoldAll(Lines(text));
    }

    lemma FailureStays(a: string, b: string)
      requires ReadLines(read, parse, Lines(a)).Failed?
      ensures ReadLines(read, parse, Lines(a + b)) == ReadLines(read, parse, Lines(a))
    {
      LinesResume(a, b);
      ReadLinesAppend(read, parse, Lines(a), Lines(Rest(a) + b));
    }
  }

  lemma {:induction false} JoinedSplits(chunks: seq<string>, n: nat)
    requires n <= |chunks|
    ensures Joined(chunks) == Joined(chunks[..n]) + Joined(chunks[n..])
  {
    if n < |chunks| {
      var front, back := chunks[..|chunks| - 1], chunks[n..];
      JoinedSplits(front, n);
      assert front[..n] == chunks[..n];
      assert back[..|back| - 1] == front[n..];
    } else {
      assert chunks[..n] == chunks;
    }
  }
}
