/** What a relayed response comes to besides the text of its blocks: which lines carry events, when reading
    fails, how a call ends, and how the response stops. */
module ProxyOutcomes {
  import opened Wrappers
  import opened Whitespace
  import opened ProxyStream

  // ---- Lines ----

  /** The line is the prefix and this data, with white space around it. */
  ghost predicate HasData(line: string, data: string) {
    && IsTrimmed(data) && data != []
    && exists front, back :: AllSpace(front) && AllSpace(back) && line == DataPrefix + (front + data + back)
  }

  lemma DataOf(line: string, data: string)
    ensures HasData(line, data) <==>
            DataPrefix <= line && data != [] && Trim(line[|DataPrefix|..]) == data
  {
    if DataPrefix <= line {
      var rest := line[|DataPrefix|..];
      assert line == DataPrefix + rest;
      TrimIff(rest, data);
      if front, back :| AllSpace(front) && AllSpace(back) && rest == front + data + back {
        assert line == DataPrefix + (front + data + back);
      }
      if front, back :| AllSpace(front) && AllSpace(back) && line == DataPrefix + (front + data + back) {
        assert rest == front + data + back;
      }
    }
  }

  /** A line carries an event exactly if it has data that parses as that event. */
  lemma CarriesIff(parse: Parser, line: string, e: ProxyEvent)
    ensures CarriedBy(parse, line) == Event(e) <==> exists data :: HasData(line, data) && parse(data) == Some(e)
    ensures CarriedBy(parse, line) == Garbage <==> exists data :: HasData(line, data) && parse(data) == None
  {
    if DataPrefix <= line {
      var data := Trim(line[|DataPrefix|..]);
      DataOf(line, data);
    }
    forall data
      ensures HasData(line, data) <==> DataPrefix <= line && data != [] && Trim(line[|DataPrefix|..]) == data
    {
      DataOf(line, data);
    }
  }

  // ---- When reading fails ----

  predicate Continues(start: ProxyEvent, e: ProxyEvent) {
    || (start.TextStart? && (e.TextDelta? || e.TextEnd?))
    || (start.ThinkingStart? && (e.ThinkingDelta? || e.ThinkingEnd?))
    || (start.CallStart? && e.CallDelta?)
  }

  predicate NeedsBlock(e: ProxyEvent) {
    e.TextDelta? || e.TextEnd? || e.ThinkingDelta? || e.ThinkingEnd? || e.CallDelta?
  }

  /** The last start at the event's index is of the kind of block that it continues. */
  ghost predicate Fits(events: seq<ProxyEvent>, e: ProxyEvent)
    requires NeedsBlock(e)
  {
    exists k: nat :: LastStart(events, e.index, k) && Continues(events[k], e)
  }

  /** The event continues a block that was not started as such. */
  ghost predicate Misfits(events: seq<ProxyEvent>, m: nat) {
    m < |events| && NeedsBlock(events[m]) && !Fits(events[..m], events[m])
  }

  /** The block at an index is there only if it was started. */
  lemma {:induction false} BlockWasStarted(read: ArgumentReader, events: seq<ProxyEvent>, i: nat) returns (k: nat)
    requires Run(read, events).Some? && i in Run(read, events).value.content
    ensures LastStart(events, i, k)
  {
    var n := |events| - 1;
    if StartsAt(events[n], i) {
      k := n;
    } else {
      k := BlockWasStarted(read, events[..n], i);
    }
  }

  predicate IsBlockFor(block: Block, e: ProxyEvent) {
    || ((e.TextDelta? || e.TextEnd?) && block.Text?)
    || ((e.ThinkingDelta? || e.ThinkingEnd?) && block.Thinking?)
    || (e.CallDelta? && block.Call?)
  }

  lemma ThrowsIff(read: ArgumentReader, p: Partial, e: ProxyEvent)
    ensures Process(read, p, e).None? <==> NeedsBlock(e) && !(e.index in p.content && IsBlockFor(p.content[e.index], e))
  {
  }

  lemma MisfitThrows(read: ArgumentReader, events: seq<ProxyEvent>, e: ProxyEvent)
    requires Run(read, events).Some? && NeedsBlock(e)
    ensures Process(read, Run(read, events).value, e).None? <==> !Fits(events, e)
  {
    var p := Run(read, events).value;
    ThrowsIff(read, p, e);
    if e.index in p.content {
      var k := BlockWasStarted(read, events, e.index);
      BlockIsItsDeltas(read, events, e.index, k);
      assert IsBlockFor(p.content[e.index], e) <==> Continues(events[k], e);
    } else if k: nat :| LastStart(events, e.index, k) {
      BlockIsItsDeltas(read, events, e.index, k);
      assert false;
    }
  }

  /** Reading the events throws exactly if one of them continues a block that was not started as such. */
  lemma {:induction false} RunThrowsIff(read: ArgumentReader, events: seq<ProxyEvent>)
    ensures Run(read, events).None? <==> exists m :: Misfits(events, m)
  {
    if events != [] {
      var n := |events| - 1;
      RunThrowsIff(read, events[..n]);
      MisfitsNext(events);
      ThrowsOnlyContinuing(read, events, n);
    }
  }

  lemma ThrowsOnlyContinuing(read: ArgumentReader, events: seq<ProxyEvent>, n: nat)
    requires n < |events|
    ensures Run(read, events[..n]).Some? ==>
              (Process(read, Run(read, events[..n]).value, events[n]).None? <==> Misfits(events, n))
  {
    if Run(read, events[..n]).Some? {
      ThrowsIff(read, Run(read, events[..n]).value, events[n]);
      if NeedsBlock(events[n]) {
        MisfitThrows(read, events[..n], events[n]);
      }
    }
  }

  lemma MisfitsNext(events: seq<ProxyEvent>)
    requires events != []
    ensures var n := |events| - 1;
            (exists m :: Misfits(events, m)) <==> (exists m :: Misfits(events[..n], m)) || Misfits(events, n)
  {
    var n := |events| - 1;
    forall m: nat | m < n
      ensures Misfits(events, m) <==> Misfits(events[..n], m)
    {
      assert events[..n][..m] == events[..m];
    }
  }

  // ---- Ends ----

  predicate IsAbout(e: ProxyEvent, i: nat) {
    && (e.TextStart? || e.TextDelta? || e.TextEnd? || e.ThinkingStart? || e.ThinkingDelta? || e.ThinkingEnd? ||
        e.CallStart? || e.CallDelta? || e.CallEnd?)
    && e.index == i
  }

  /** A block stays as it is until an event about it. */
  lemma {:induction false} BlockStays(read: ArgumentReader, events: seq<ProxyEvent>, i: nat, m: nat)
    requires Run(read, events).Some? && m <= |events| && forall k :: m <= k < |events| ==> !IsAbout(events[k], i)
    ensures Run(read, events[..m]).Some?
    ensures i in Run(read, events).value.content <==> i in Run(read, events[..m]).value.content
    ensures i in Run(read, events).value.content ==>
              Run(read, events).value.content[i] == Run(read, events[..m]).value.content[i]
  {
    if m == |events| {
      assert events[..m] == events;
    } else {
      var n := |events| - 1;
      BlockStays(read, events[..n], i, m);
      assert events[..n][..m] == events[..m];
    }
  }

  lemma RunStep(read: ArgumentReader, events: seq<ProxyEvent>, m: nat)
    requires m < |events| && Run(read, events[..m + 1]).Some?
    ensures Run(read, events[..m]).Some?
    ensures Run(read, events[..m + 1]) == Process(read, Run(read, events[..m]).value, events[m])
  {
    assert events[..m + 1][..m] == events[..m];
  }

  /** A call that has ended is the one its end names, as long as nothing more comes for its index; the end
      of a call that was not started changes nothing. */
  lemma EndedCallIs(read: ArgumentReader, events: seq<ProxyEvent>, m: nat)
    requires Run(read, events).Some? && m < |events| && events[m].CallEnd?
    requires forall j :: m < j < |events| ==> !IsAbout(events[j], events[m].index)
    ensures Run(read, events[..m]).Some?
    ensures var i, before, after := events[m].index, Run(read, events[..m]).value.content, Run(read, events).value.content;
            if i in before && before[i].Call? then i in after && after[i] == Call(events[m].call, None)
            else (i in after <==> i in before) && (i in before ==> after[i] == before[i])
  {
    BlockStays(read, events, events[m].index, m + 1);
    RunStep(read, events, m);
  }

  /** The end of a text gives it its signature, and leaves its text alone. */
  lemma EndedTextIs(read: ArgumentReader, events: seq<ProxyEvent>, m: nat)
    requires Run(read, events).Some? && m < |events| && (events[m].TextEnd? || events[m].ThinkingEnd?)
    requires forall j :: m < j < |events| ==> !IsAbout(events[j], events[m].index)
    ensures var i := events[m].index;
            && i in Run(read, events).value.content
            && var block := Run(read, events).value.content[i];
               if events[m].TextEnd? then block.Text? && block.signature == events[m].signature
               else block.Thinking? && block.thinkingSignature == events[m].signature
  {
    BlockStays(read, events, events[m].index, m + 1);
    RunStep(read, events, m);
  }

  /** A block that was only started holds nothing yet; a call has its id and name, and no arguments. */
  lemma StartedBlockIs(read: ArgumentReader, events: seq<ProxyEvent>, m: nat, i: nat)
    requires Run(read, events).Some? && m < |events| && ProxyStream.StartsAt(events[m], i)
    requires forall j :: m < j < |events| ==> !IsAbout(events[j], i)
    ensures i in Run(read, events).value.content
    ensures Run(read, events).value.content[i] ==
            match events[m]
            case TextStart(_) => Text("", None)
            case ThinkingStart(_) => Thinking("", None)
            case CallStart(_, id, name) => Call(CallData(id, name, "{}"), Some(""))
            case _ => Text("", None)
  {
    BlockStays(read, events, i, m + 1);
    RunStep(read, events, m);
  }

  predicate Stops(e: ProxyEvent) {
    e.Done? || e.Error?
  }

  /** The response stops for the reason that its last done or error gives; until there is one it is
      pending. */
  lemma {:induction false} StopIsLast(read: ArgumentReader, events: seq<ProxyEvent>, m: nat)
    requires Run(read, events).Some? && m <= |events| && forall k :: m <= k < |events| ==> !Stops(events[k])
    ensures m == 0 ==> Run(read, events).value.stopReason == "pending"
    ensures m > 0 && Stops(events[m - 1]) ==> Run(read, events).value.stopReason == events[m - 1].reason
  {
    if m < |events| {
      StopIsLast(read, events[..|events| - 1], m);
    }
  }

  /** It has the message of its last error. */
  lemma {:induction false} ErrorIsLast(read: ArgumentReader, events: seq<ProxyEvent>, m: nat)
    requires Run(read, events).Some? && m <= |events| && forall k :: m <= k < |events| ==> !events[k].Error?
    ensures m == 0 ==> Run(read, events).value.errorMessage == None
    ensures m > 0 && events[m - 1].Error? ==> Run(read, events).value.errorMessage == Some(events[m - 1].message)
  {
    if m < |events| {
      ErrorIsLast(read, events[..|events| - 1], m);
    }
  }

  // ---- The stream ----

  /** Reading stops at this line: it carries no event, or one that throws. */
  ghost predicate StopsAt(read: ArgumentReader, parse: Parser, lines: seq<string>, k: nat) {
    && k < |lines| && ReadLines(read, parse, lines[..k]).Going?
    && match CarriedBy(parse, lines[k])
       case Nothing => false
       case Garbage => true
       case Event(e) => Run(read, EventsOn(parse, lines[..k]) + [e]).None?
  }

  /** Where reading stops, what was read before is kept, with an error for its reason. */
  lemma StopsThere(read: ArgumentReader, parse: Parser, lines: seq<string>, k: nat)
    requires StopsAt(read, parse, lines, k)
    ensures ReadLines(read, parse, lines) ==
            Failed(ReadLines(read, parse, lines[..k]).partial.(stopReason := "error"))
  {
    var front := lines[..k + 1];
    assert front[..k] == lines[..k];
    LinesRunEvents(read, parse, lines[..k]);
    if CarriedBy(parse, lines[k]).Event? {
      RunNext(read, EventsOn(parse, lines[..k]), CarriedBy(parse, lines[k]).event);
    }
    ReadLinesAppend(read, parse, front, lines[k + 1..]);
    assert front + lines[k + 1..] == lines;
  }

  lemma {:induction false} FailureStopsSomewhere(read: ArgumentReader, parse: Parser, lines: seq<string>) returns (k: nat)
    requires ReadLines(read, parse, lines).Failed?
    ensures StopsAt(read, parse, lines, k)
  {
    var n := |lines| - 1;
    if ReadLines(read, parse, lines[..n]).Failed? {
      k := FailureStopsSomewhere(read, parse, lines[..n]);
      assert lines[..n][..k] == lines[..k];
    } else {
      k := n;
      LinesRunEvents(read, parse, lines[..n]);
      if CarriedBy(parse, lines[n]).Event? {
        RunNext(read, EventsOn(parse, lines[..n]), CarriedBy(parse, lines[n]).event);
      }
    }
  }

  /** The stream fails exactly if some line's data does not parse or its event throws. */
  lemma StreamFailsIff(read: ArgumentReader, parse: Parser, lines: seq<string>)
    ensures ReadLines(read, parse, lines).Failed? <==> exists k: nat :: StopsAt(read, parse, lines, k)
  {
    if ReadLines(read, parse, lines).Failed? {
      var k := FailureStopsSomewhere(read, parse, lines);
    }
    if k: nat :| StopsAt(read, parse, lines, k) {
      StopsThere(read, parse, lines, k);
    }
  }
}
