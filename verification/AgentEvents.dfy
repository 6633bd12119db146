/** The agent's messages and events, and what a trace of events must look like. */
module AgentEvents {
  import opened Wrappers

  datatype StopReason = EndTurn | Length | ToolUse | Failure | Aborted

  datatype Call = Call(id: string, name: string)

  /** The text of a tool's result: given by the tool, a hook or an error, or the agent's own. */
  datatype Content =
    | Given(text: string)
    | ToolNotFound(name: string)
    | OperationAborted
    | ExecutionBlocked
    | CutOff(name: string)

  datatype Message =
    | Other(text: string)
    | Assistant(text: string, calls: seq<Call>, stop: StopReason)
    | ToolResult(callId: string, name: string, content: Content, isError: bool)

  /** The result of a tool call as its end reports it. */
  datatype EndReport = EndReport(content: Content, isError: bool)

  /** `slot` is the position of the call in its assistant message; it tells apart the events of two
      calls that carry the same id. */
  datatype Event =
    | AgentStart
    | TurnStart
    | MessageStart(message: Message)
    | MessageUpdate(message: Message)
    | MessageEnd(message: Message)
    | ToolStart(slot: nat, id: string)
    | ToolUpdate(slot: nat, id: string)
    | ToolEnd(slot: nat, id: string, report: EndReport)
    | TurnEnd(message: Message, results: seq<Message>)
    | AgentEnd(messages: seq<Message>)

  /** Where a trace stands. In a turn: the last assistant message, the tool results after it, the
      tool calls started and not ended, and what those that ended reported. */
  datatype Place =
    | Idle
    | Opening
    | Turn(last: Option<Message>, results: seq<Message>, running: map<nat, string>, ended: map<nat, EndReport>)
    | Streaming(message: Message, turn: Place)
    | Rest
    | Finished
    | Bad

  const FreshTurn := Turn(None, [], map[], map[])

  /** The results answer the assistant's calls, in order, from the first one on. */
  predicate Answers(message: Message, results: seq<Message>) {
    && message.Assistant?
    && |results| <= |message.calls|
    && forall i :: 0 <= i < |results| ==>
         && results[i].ToolResult? && results[i].callId == message.calls[i].id
         && results[i].name == message.calls[i].name
  }

  /** The results say what the ends of their calls reported. */
  predicate MatchReports(results: seq<Message>, ended: map<nat, EndReport>) {
    forall i :: 0 <= i < |results| ==>
      results[i].ToolResult? && i in ended && ended[i] == EndReport(results[i].content, results[i].isError)
  }

  /** The turn once a message has ended in it. */
  function TurnAfter(turn: Place, message: Message): Place
    requires turn.Turn?
  {
    match message
    case Assistant(_, _, _) => Turn(Some(message), [], turn.running, map[])
    case ToolResult(_, _, _, _) => turn.(results := turn.results + [message])
    case Other(_) => turn
  }

  /** The grammar of traces: agent_start, then turns, then agent_end; in a turn, messages that end
      before the next one starts, and tool calls that start, report and end outside messages. A
      turn ends with its assistant message, that message's results as the calls' ends reported them, and
      no call running. */
  function Next(place: Place, event: Event): Place {
    match (place, event)
    case (Idle, AgentStart) => Opening
    case (Opening, TurnStart) => FreshTurn
    case (Rest, TurnStart) => FreshTurn
    case (Turn(_, _, _, _), MessageStart(m)) => Streaming(m, place)
    case (Streaming(m, turn), MessageUpdate(n)) => if m.Assistant? && n.Assistant? then place else Bad
    case (Streaming(m, turn), MessageEnd(n)) =>
      if turn.Turn? && (m == n || (m.Assistant? && n.Assistant?)) then TurnAfter(turn, n) else Bad
    case (Turn(last, results, running, ended), ToolStart(slot, id)) =>
      if slot in running || slot in ended then Bad else Turn(last, results, running[slot := id], ended)
    case (Turn(last, results, running, ended), ToolUpdate(slot, id)) =>
      if slot in running && running[slot] == id then place else Bad
    case (Turn(last, results, running, ended), ToolEnd(slot, id, report)) =>
      if slot in running && running[slot] == id then Turn(last, results, running - {slot}, ended[slot := report])
      else Bad
    case (Turn(last, results, running, ended), TurnEnd(m, rs)) =>
      if last == Some(m) && results == rs && Answers(m, rs) && MatchReports(rs, ended) && running == map[] then Rest
      else Bad
    case (Rest, AgentEnd(_)) => Finished
    case (_, _) => Bad
  }

  function PlaceOf(events: seq<Event>): Place {
    if events == [] then Idle else Next(PlaceOf(events[..|events| - 1]), events[|events| - 1])
  }

  /** The messages that ended, in order. */
  function Ends(events: seq<Event>): seq<Message> {
    if events == [] then []
    else
      var front, last := Ends(events[..|events| - 1]), events[|events| - 1];
      if last.MessageEnd? then front + [last.message] else front
  }

  function PendingAfter(pending: set<string>, event: Event): set<string> {
    match event
    case ToolStart(_, id) => pending + {id}
    case ToolEnd(_, id, _) => pending - {id}
    case _ => pending
  }

  /** The ids the agent shows as pending: started and not ended since. */
  function PendingIds(events: seq<Event>): set<string> {
    if events == [] then {}
    else PendingAfter(PendingIds(events[..|events| - 1]), events[|events| - 1])
  }

  function OpenAfter(open: bool, event: Event): bool {
    match event
    case MessageStart(_) => true
    case MessageUpdate(_) => true
    case MessageEnd(_) => false
    case AgentEnd(_) => false
    case _ => open
  }

  /** Whether the agent shows a message as streaming. */
  function IsOpen(events: seq<Event>): bool {
    if events == [] then false else OpenAfter(IsOpen(events[..|events| - 1]), events[|events| - 1])
  }

  lemma Extend(events: seq<Event>, event: Event)
    ensures IsOpen(events + [event]) == OpenAfter(IsOpen(events), event)
    ensures PlaceOf(events + [event]) == Next(PlaceOf(events), event)
    ensures Ends(events + [event]) == if event.MessageEnd? then Ends(events) + [event.message] else Ends(events)
    ensures PendingIds(events + [event]) == PendingAfter(PendingIds(events), event)
  {
    assert (events + [event])[..|events|] == events;
  }

  /** What the agent shows is what its events make of it. */
  predicate Mirrors(transcript: seq<Message>, pending: set<string>, streaming: Option<Message>,
                    initial: seq<Message>, events: seq<Event>) {
    transcript == initial + Ends(events) && pending == PendingIds(events) && (streaming.Some? <==> IsOpen(events))
  }

  /** One more event is shown. */
  lemma MirrorsNext(transcript: seq<Message>, pending: set<string>, streaming: Option<Message>,
                    initial: seq<Message>, events: seq<Event>, e: Event, streaming': Option<Message>)
    requires Mirrors(transcript, pending, streaming, initial, events)
    requires streaming'.Some? <==> OpenAfter(streaming.Some?, e)
    ensures Mirrors(if e.MessageEnd? then transcript + [e.message] else transcript, PendingAfter(pending, e), streaming',
                    initial, events + [e])
  {
    Extend(events, e);
    if e.MessageEnd? {
      assert (initial + Ends(events)) + [e.message] == initial + (Ends(events) + [e.message]);
    }
  }

  /** In a good trace the agent shows a message exactly while one has started and not ended. */
  lemma {:induction false} OpenIsStreaming(events: seq<Event>)
    requires PlaceOf(events) != Bad
    ensures IsOpen(events) <==> PlaceOf(events).Streaming?
  {
    if events != [] {
      OpenIsStreaming(events[..|events| - 1]);
    }
  }

  function RunningIds(place: Place): set<string> {
    match place
    case Turn(_, _, running, _) => running.Values
    case Streaming(_, turn) => RunningIds(turn)
    case _ => {}
  }

  predicate WellNested(place: Place) {
    place.Streaming? ==> place.turn.Turn?
  }

  /** Every pending id belongs to a call that is still running, even when ids repeat. */
  lemma {:induction false} PendingAreRunning(events: seq<Event>)
    requires PlaceOf(events) != Bad
    ensures WellNested(PlaceOf(events)) && PendingIds(events) <= RunningIds(PlaceOf(events))
  {
    if events != [] {
      var front, last := events[..|events| - 1], events[|events| - 1];
      PendingAreRunning(front);
      var before := PlaceOf(front);
      match last
      case ToolStart(slot, id) =>
        assert before.running[slot := id].Values >= before.running.Values + {id} by {
          forall v | v in before.running.Values
            ensures v in before.running[slot := id].Values
          {
            var s :| s in before.running && before.running[s] == v;
            assert before.running[slot := id][s] == v;
          }
          assert before.running[slot := id][slot] == id;
        }
      case ToolEnd(slot, id, _) =>
        forall v | v in PendingIds(front) && v != id
          ensures v in (before.running - {slot}).Values
        {
          var s :| s in before.running && before.running[s] == v;
          assert (before.running - {slot})[s] == v;
        }
      case _ =>
    }
  }

  lemma {:induction false} BadIsFinal(events: seq<Event>, more: seq<Event>)
    requires PlaceOf(events) == Bad
    ensures PlaceOf(events + more) == Bad
    decreases |more|
  {
    if more == [] {
      assert events + more == events;
    } else {
      Extend(events, more[0]);
      BadIsFinal(events + [more[0]], more[1..]);
      assert events + [more[0]] + more[1..] == events + more;
    }
  }

  /** At every turn_end of a good trace the agent shows no pending call. */
  lemma NothingPendingAtTurnEnd(events: seq<Event>, k: nat)
    requires k < |events| && PlaceOf(events) != Bad && events[k].TurnEnd?
    ensures PendingIds(events[..k + 1]) == {}
  {
    var front := events[..k + 1];
    assert events == front + events[k + 1..];
    if PlaceOf(front) == Bad {
      BadIsFinal(front, events[k + 1..]);
    }
    PendingAreRunning(front);
    assert PlaceOf(front) == Rest;
  }

  /** In a good trace every turn_end carries results that answer its message's calls in order. */
  lemma TurnEndAnswers(events: seq<Event>, k: nat)
    requires k < |events| && PlaceOf(events) != Bad && events[k].TurnEnd?
    ensures Answers(events[k].message, events[k].results)
  {
    var front := events[..k + 1];
    assert events == front + events[k + 1..];
    if PlaceOf(front) == Bad {
      BadIsFinal(front, events[k + 1..]);
    }
    assert front[..k] == events[..k];
  }

  function TurnStarts(events: seq<Event>): nat {
    if events == [] then 0
    else TurnStarts(events[..|events| - 1]) + if events[|events| - 1].TurnStart? then 1 else 0
  }

  function TurnEnds(events: seq<Event>): nat {
    if events == [] then 0
    else TurnEnds(events[..|events| - 1]) + if events[|events| - 1].TurnEnd? then 1 else 0
  }

  /** How the turns begun and ended stand at a place. */
  predicate Balanced(place: Place, starts: nat, ends: nat) {
    match place
    case Turn(_, _, _, _) => starts == ends + 1
    case Streaming(_, _) => starts == ends + 1
    case Rest => starts == ends > 0
    case Finished => starts == ends > 0
    case _ => starts == ends == 0
  }

  /** Turns are balanced at every point of a good trace. */
  lemma {:induction false} TurnsBalance(events: seq<Event>)
    requires PlaceOf(events) != Bad
    ensures Balanced(PlaceOf(events), TurnStarts(events), TurnEnds(events))
  {
    if events != [] {
      TurnsBalance(events[..|events| - 1]);
    }
  }

  /** A good trace begins with its only agent_start and has an agent_end only at its end. */
  lemma {:induction false} StartAndEndOnce(events: seq<Event>)
    requires PlaceOf(events) != Bad
    ensures PlaceOf(events) == Idle <==> events == []
    ensures forall k :: 0 <= k < |events| ==> (events[k].AgentStart? <==> k == 0)
    ensures forall k :: 0 <= k < |events| && events[k].AgentEnd? ==> k == |events| - 1 && PlaceOf(events) == Finished
    ensures PlaceOf(events) == Finished ==> events[|events| - 1].AgentEnd?
  {
    if events != [] {
      StartAndEndOnce(events[..|events| - 1]);
    }
  }

  /** A finished trace is agent_start, one or more balanced turns, and exactly one agent_end, last. */
  lemma FinishedShape(events: seq<Event>)
    requires PlaceOf(events) == Finished
    ensures |events| > 0
    ensures forall k :: 0 <= k < |events| ==>
              && (events[k].AgentStart? <==> k == 0)
              && (events[k].AgentEnd? <==> k == |events| - 1)
    ensures TurnStarts(events) == TurnEnds(events) > 0
  {
    StartAndEndOnce(events);
    TurnsBalance(events);
  }

  /** Where the next turn may begin; the first one begins with the run. */
  predicate BetweenTurns(place: Place, firstTurn: bool) {
    if firstTurn then place.Turn? && place.running == map[] else place == Rest
  }

  // ---- Failure of a run ----

  /** What the agent emits itself when the run throws. */
  function FailureEvents(message: Message): seq<Event> {
    [MessageStart(message), MessageEnd(message), TurnEnd(message, []), AgentEnd([message])]
  }

  lemma TellMore(before: seq<Event>, told: seq<Event>, next: seq<Event>)
    ensures (before + told) + next == before + (told + next)
  {
  }

  lemma ExtendTwice(events: seq<Event>, a: Event, b: Event)
    ensures PlaceOf(events + [a, b]) == Next(Next(PlaceOf(events), a), b)
  {
    Extend(events, a);
    Extend(events + [a], b);
    assert events + [a, b] == events + [a] + [b];
  }

  lemma FailureMessage(place: Place, message: Message)
    requires message.Assistant?
    ensures Next(Next(place, MessageStart(message)), MessageEnd(message)) ==
            if place.Turn? then Turn(Some(message), [], place.running, map[]) else Bad
  {
  }

  lemma FailureTurn(place: Place, message: Message)
    requires message.Assistant?
    ensures Next(Next(place, TurnEnd(message, [])), AgentEnd([message])) == Finished <==>
            place.Turn? && place.last == Some(message) && place.results == [] && place.running == map[]
  {
  }

  /** The failure events fit a trace exactly where they come in a turn, with no message open and no
      tool call running. */
  lemma FailureFitsIff(events: seq<Event>, message: Message)
    requires message.Assistant?
    ensures PlaceOf(events + FailureEvents(message)) == Finished <==>
            PlaceOf(events).Turn? && PlaceOf(events).running == map[]
  {
    var place := PlaceOf(events);
    var told := events + [MessageStart(message), MessageEnd(message)];
    ExtendTwice(events, MessageStart(message), MessageEnd(message));
    FailureMessage(place, message);
    ExtendTwice(told, TurnEnd(message, []), AgentEnd([message]));
    FailureTurn(PlaceOf(told), message);
    assert events + FailureEvents(message) == told + [TurnEnd(message, []), AgentEnd([message])];
  }

  lemma AfterMessage(events: seq<Event>, message: Message)
    ensures var told := events + [MessageStart(message), MessageEnd(message)];
            Ends(told) == Ends(events) + [message] && PendingIds(told) == PendingIds(events)
  {
    Extend(events, MessageStart(message));
    Extend(events + [MessageStart(message)], MessageEnd(message));
    assert events + [MessageStart(message), MessageEnd(message)] ==
           events + [MessageStart(message)] + [MessageEnd(message)];
  }

  lemma AfterClosing(events: seq<Event>, message: Message)
    ensures var closed := events + [TurnEnd(message, []), AgentEnd([message])];
            Ends(closed) == Ends(events) && PendingIds(closed) == PendingIds(events) && !IsOpen(closed)
  {
    Extend(events, TurnEnd(message, []));
    Extend(events + [TurnEnd(message, [])], AgentEnd([message]));
    assert events + [TurnEnd(message, []), AgentEnd([message])] ==
           events + [TurnEnd(message, [])] + [AgentEnd([message])];
  }

  /** What the failure events leave of the agent's state, wherever they come. */
  lemma AfterFailure(events: seq<Event>, message: Message)
    ensures var all := events + FailureEvents(message);
            && Ends(all) == Ends(events) + [message] && PendingIds(all) == PendingIds(events) && !IsOpen(all)
            && all[|all| - 1] == AgentEnd([message])
  {
    var told := events + [MessageStart(message), MessageEnd(message)];
    AfterMessage(events, message);
    AfterClosing(told, message);
    assert events + FailureEvents(message) == told + [TurnEnd(message, []), AgentEnd([message])];
  }
}
