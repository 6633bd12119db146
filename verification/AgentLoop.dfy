/** The agent: its transcript and queues, and the loop of turns that fills them. What the
    environment answers is a script; a run whose script ends early still waits for its next answer. */
module AgentLoop {
  import opened Wrappers
  import opened AgentEvents
  import opened ToolCalls
  import opened ToolResults
  import opened PendingQueue
  import opened AgentScript
  import opened TurnTraces

  datatype AgentError = AlreadyProcessing | NothingToContinue | CannotContinue

  datatype Progress = Going | Waiting | Complete | Thrown

  /** How one turn goes: it ends, waits for a tool, or its response throws. */
  datatype TurnProgress = Ended | Unfinished | Broken

  /** How far a run has come when its script is used up. */
  datatype RunProgress = RunOver | RunWaits | RunFailed

  class Agent {
    const steering: PendingMessageQueue
    const followUps: PendingMessageQueue
    var active: bool
    /** The working context, the messages of the run, and the agent's own transcript. */
    var context: seq<Message>
    var newMessages: seq<Message>
    var transcript: seq<Message>
    var streamingMessage: Option<Message>
    var pendingToolCalls: set<string>
    var skipInitialSteeringPoll: bool
    /** The events of the current run, the transcript before it, and the history of the queues. */
    ghost var events: seq<Event>
    ghost var initial: seq<Message>
    ghost var log: seq<QueueEvent>

    ghost predicate QueuesMatch()
      reads this`log, steering, followUps
    {
      steering != followUps && History(log, steering.messages, followUps.messages)
    }

    /** The agent's state is what its events make of it. */
    ghost predicate StateFollows()
      reads this`transcript, this`initial, this`events, this`pendingToolCalls, this`streamingMessage
    {
      Mirrors(transcript, pendingToolCalls, streamingMessage, initial, events)
    }

    /** And the events fit the grammar so far. */
    ghost predicate StateMatches()
      reads this`transcript, this`initial, this`events, this`pendingToolCalls, this`streamingMessage
    {
      StateFollows() && PlaceOf(events) != Bad
    }

    ghost predicate Valid()
      reads this, steering, followUps
    {
      && QueuesMatch()
      && StateFollows()
      && Taken(log) == InjectedIn(log)
      && (active ==> PlaceOf(events) != Bad)
      && (!active ==> PendingIds(events) == {} && streamingMessage == None)
    }

    constructor (steeringMode: QueueMode, followUpMode: QueueMode, messages: seq<Message>)
      ensures Valid() && !active && transcript == messages && events == [] && log == []
      ensures fresh(steering) && fresh(followUps)
    {
      steering := new PendingMessageQueue(steeringMode);
      followUps := new PendingMessageQueue(followUpMode);
      active, skipInitialSteeringPoll := false, false;
      context, newMessages, transcript := [], [], messages;
      streamingMessage, pendingToolCalls := None, {};
      events, initial, log := [], messages, [];
    }

    /** The reducer of the agent's state, to which every event is handed. */
    method ProcessEvent(e: Event)
      requires StateFollows()
      modifies this`events, this`transcript, this`streamingMessage, this`pendingToolCalls
      ensures StateFollows() && events == old(events) + [e]
    {
      ghost var shown, pending, streaming := transcript, pendingToolCalls, streamingMessage;
      match e {
        case MessageStart(m) => streamingMessage := Some(m);
        case MessageUpdate(m) => streamingMessage := Some(m);
        case MessageEnd(m) =>
          streamingMessage := None;
          transcript := transcript + [m];
        case ToolStart(_, id) => pendingToolCalls := pendingToolCalls + {id};
        case ToolEnd(_, id, _) => pendingToolCalls := pendingToolCalls - {id};
        case AgentEnd(_) => streamingMessage := None;
        case _ =>
      }
      MirrorsNext(shown, pending, streaming, initial, events, e, streamingMessage);
      events := events + [e];
    }

    /** An event of the loop, which fits where it comes. */
    method Emit(e: Event)
      requires StateMatches() && Next(PlaceOf(events), e) != Bad
      modifies this`events, this`transcript, this`streamingMessage, this`pendingToolCalls
      ensures StateMatches()
      ensures events == old(events) + [e]
      ensures PlaceOf(events) == Next(old(PlaceOf(events)), e)
      ensures Ends(events) == if e.MessageEnd? then old(Ends(events)) + [e.message] else old(Ends(events))
    {
      Extend(events, e);
      ProcessEvent(e);
    }

    /** A message that is complete when it starts. */
    method EmitMessage(m: Message)
      requires StateMatches() && PlaceOf(events).Turn?
      modifies this`events, this`transcript, this`streamingMessage, this`pendingToolCalls
      ensures StateMatches()
      ensures PlaceOf(events) == TurnAfter(old(PlaceOf(events)), m)
      ensures PlaceOf(events).Turn? && PlaceOf(events).running == old(PlaceOf(events)).running
      ensures Ends(events) == old(Ends(events)) + [m]
    {
      Emit(MessageStart(m));
      Emit(MessageEnd(m));
    }

    /** Stream the assistant's response into the last slot of the context; none if the stream throws,
        which leaves a message open exactly when the response had started. */
    method StreamAssistantResponse(response: Response)
      returns (final: Option<Message>, ghost read: nat)
      requires StateMatches() && IsResponse(response)
      requires PlaceOf(events).Turn? && PlaceOf(events).running == map[]
      modifies this`events, this`transcript, this`streamingMessage, this`pendingToolCalls, this`context
      ensures StateMatches()
      ensures final == if response.ending.Returns? then Some(response.result) else None
      ensures final.Some? ==>
                && context == old(context) + [response.result]
                && PlaceOf(events) == Turn(final, [], map[], map[])
                && Ends(events) == old(Ends(events)) + [response.result]
      ensures final.None? ==> ThrewAt(PlaceOf(events), Starts(response)) && Ends(events) == old(Ends(events))
      ensures IsReadTo(response.events, read)
      ensures events == (old(events) + PassedOn(response.events, read)) +
                        if final.None? then []
                        else if Starts(response) then [MessageEnd(response.result)]
                        else [MessageStart(response.result), MessageEnd(response.result)]
    {
      ghost var turn := PlaceOf(events);
      var addedPartial;
      addedPartial, read := ReadStream(response, turn);
      StartedIffStarts(response, read);
      if response.ending.Throws? {
        return None, read;
      }
      PlaceResponse(response.result, addedPartial);
      final := Some(response.result);
    }

    /** Read the stream to its end, and pass on its start and its partial messages. */
    method ReadStream(response: Response, ghost turn: Place)
      returns (addedPartial: bool, ghost read: nat)
      requires StateMatches() && IsResponse(response) && turn == PlaceOf(events) && turn.Turn?
      modifies this`events, this`transcript, this`streamingMessage, this`pendingToolCalls, this`context
      ensures StateMatches() && Ends(events) == old(Ends(events))
      ensures IsReadTo(response.events, read) && addedPartial == StartedIn(response.events, read)
      ensures HasPartial(addedPartial, old(context), turn)
      ensures events == old(events) + PassedOn(response.events, read)
    {
      addedPartial := false;
      assert events + PassedOn(response.events, 0) == events;
      var i := 0;
      while i < |response.events| && !response.events[i].Done?
        invariant i <= |response.events| && StateMatches()
        invariant forall k :: 0 <= k < i ==> !response.events[k].Done?
        invariant Ends(events) == old(Ends(events)) && addedPartial == StartedIn(response.events, i)
        invariant HasPartial(addedPartial, old(context), turn)
        invariant events == old(events) + PassedOn(response.events, i)
      {
        if response.events[i].Start? {
          StartsOnce(response, i);
        }
        addedPartial := StreamEventIn(response.events[i], addedPartial, old(context), turn);
        TellMore(old(events), PassedOn(response.events, i), Passed(response.events[i], StartedIn(response.events, i)));
        i := i + 1;
      }
      read := i;
    }

    /** The context ends with the response so far, and its message is open; or it has not started. */
    ghost predicate HasPartial(addedPartial: bool, before: seq<Message>, turn: Place)
      reads this`context, this`events
    {
      if addedPartial then
        && |context| == |before| + 1 && context[..|before|] == before
        && PlaceOf(events).Streaming? && PlaceOf(events).message.Assistant? && PlaceOf(events).turn == turn
      else context == before && PlaceOf(events) == turn
    }

    method StreamEventIn(event: StreamEvent, addedPartial: bool, ghost before: seq<Message>, ghost turn: Place)
      returns (added: bool)
      requires StateMatches() && !event.Done? && event.partial.Assistant? && turn.Turn?
      requires HasPartial(addedPartial, before, turn) && !(addedPartial && event.Start?)
      modifies this`events, this`transcript, this`streamingMessage, this`pendingToolCalls, this`context
      ensures StateMatches() && HasPartial(added, before, turn) && added == (addedPartial || event.Start?)
      ensures Ends(events) == old(Ends(events)) && events == old(events) + Passed(event, addedPartial)
      ensures added ==> context[|context| - 1] == event.partial
    {
      added := addedPartial;
      match event {
        case Start(partial) =>
          context := context + [partial];
          added := true;
          Emit(MessageStart(partial));
        case Delta(partial) =>
          if addedPartial {
            context := context[..|context| - 1] + [partial];
            Emit(MessageUpdate(partial));
          }
      }
    }

    /** Put the final message into its slot and end it. */
    method PlaceResponse(message: Message, addedPartial: bool)
      requires StateMatches() && message.Assistant?
      requires if addedPartial then
                 && context != [] && PlaceOf(events).Streaming? && PlaceOf(events).message.Assistant?
                 && PlaceOf(events).turn.Turn? && PlaceOf(events).turn.running == map[]
               else PlaceOf(events).Turn? && PlaceOf(events).running == map[]
      modifies this`events, this`transcript, this`streamingMessage, this`pendingToolCalls, this`context
      ensures StateMatches()
      ensures context == (if addedPartial then old(context)[..|old(context)| - 1] else old(context)) + [message]
      ensures PlaceOf(events) == Turn(Some(message), [], map[], map[])
      ensures Ends(events) == old(Ends(events)) + [message]
      ensures events == old(events) +
                        if addedPartial then [MessageEnd(message)] else [MessageStart(message), MessageEnd(message)]
    {
      if addedPartial {
        context := context[..|context| - 1] + [message];
      } else {
        context := context + [message];
        Emit(MessageStart(message));
      }
      Emit(MessageEnd(message));
    }

    /** Report the partial results of one running tool until it settles; later ones are dropped. */
    method RunTool(slot: nat, id: string, actions: seq<Action>)
      requires StateMatches() && PlaceOf(events).Turn?
      requires slot in PlaceOf(events).running && PlaceOf(events).running[slot] == id
      modifies this`events, this`transcript, this`streamingMessage, this`pendingToolCalls
      ensures StateMatches() && PlaceOf(events) == old(PlaceOf(events)) && Ends(events) == old(Ends(events))
      ensures HasReported(old(events), events, slot, id, actions)
    {
      var acceptingUpdates := true;
      NoneReported(events, slot, id);
      for i := 0 to |actions|
        invariant StateMatches() && PlaceOf(events) == old(PlaceOf(events)) && Ends(events) == old(Ends(events))
        invariant acceptingUpdates == NoneSettles(actions[..i])
        invariant HasReported(old(events), events, slot, id, actions[..i])
      {
        NextReport(old(events), events, slot, id, actions, i);
        acceptingUpdates := TakeAction(slot, id, actions[i], acceptingUpdates);
      }
      assert actions[..|actions|] == actions;
    }

    method TakeAction(slot: nat, id: string, action: Action, accepting: bool) returns (accepting': bool)
      requires StateMatches() && PlaceOf(events).Turn?
      requires slot in PlaceOf(events).running && PlaceOf(events).running[slot] == id
      modifies this`events, this`transcript, this`streamingMessage, this`pendingToolCalls
      ensures StateMatches() && PlaceOf(events) == old(PlaceOf(events)) && Ends(events) == old(Ends(events))
      ensures accepting' == (accepting && action != Settle)
      ensures events == if accepting && action == Report then old(events) + [ToolUpdate(slot, id)] else old(events)
    {
      accepting' := accepting;
      match action {
        case Report =>
          if accepting {
            Emit(ToolUpdate(slot, id));
          }
        case Settle => accepting' := false;
      }
    }

    /** In the message's turn, with these results and no call running; calls below `n` are over. */
    ghost predicate Reported(message: Message, results: seq<Message>, n: nat)
      reads this`events
    {
      var place := PlaceOf(events);
      && place.Turn? && place.last == Some(message) && place.results == results && place.running == map[]
      && MatchReports(results, place.ended)
      && forall slot :: slot in place.ended ==> slot < n
    }

    /** Fail every call of a message that was cut off by the token limit. */
    method FailToolCallsFromTruncatedMessage(message: Message) returns (batch: Batch)
      requires StateMatches() && message.Assistant? && Reported(message, [], 0)
      modifies this`events, this`transcript, this`streamingMessage, this`pendingToolCalls
      ensures StateMatches() && Reported(message, batch.messages, |message.calls|)
      ensures batch == FailedBatch(message.calls)
      ensures Ends(events) == old(Ends(events)) + batch.messages
    {
      var messages: seq<Message> := [];
      for i := 0 to |message.calls|
        invariant StateMatches() && messages == FailedBatch(message.calls).messages[..i]
        invariant Reported(message, messages, i)
        invariant Ends(events) == old(Ends(events)) + messages
      {
        FailCall(message, messages, message.calls[i]);
        messages := messages + [ResultMessage(NotExecuted(message.calls[i]))];
      }
      batch := Batch(messages, false);
    }

    method FailCall(ghost message: Message, messages: seq<Message>, call: Call)
      requires StateMatches() && Reported(message, messages, |messages|)
      modifies this`events, this`transcript, this`streamingMessage, this`pendingToolCalls
      ensures StateMatches() && Reported(message, messages + [ResultMessage(NotExecuted(call))], |messages| + 1)
      ensures Ends(events) == old(Ends(events)) + [ResultMessage(NotExecuted(call))]
    {
      Emit(ToolStart(|messages|, call.id));
      ReportCall(message, messages, |messages|, NotExecuted(call));
    }

    /** End the only running call and report its result. */
    method ReportCall(ghost message: Message, ghost messages: seq<Message>, slot: nat, finalized: Finalized)
      requires StateMatches() && PlaceOf(events).Turn? && PlaceOf(events).last == Some(message)
      requires PlaceOf(events).results == messages && PlaceOf(events).running == map[slot := finalized.call.id]
      requires slot == |messages| && MatchReports(messages, PlaceOf(events).ended)
      requires forall s :: s in PlaceOf(events).ended ==> s < slot
      modifies this`events, this`transcript, this`streamingMessage, this`pendingToolCalls
      ensures StateMatches() && Reported(message, messages + [ResultMessage(finalized)], slot + 1)
      ensures Ends(events) == old(Ends(events)) + [ResultMessage(finalized)]
    {
      Emit(ToolEnd(slot, finalized.call.id, ReportOf(finalized)));
      assert map[slot := finalized.call.id] - {slot} == map[];
      EmitMessage(ResultMessage(finalized));
    }

    /** Prepare, run and finalize one call. */
    method RunCall(slot: nat, call: Call, script: CallScript) returns (finalized: Finalized)
      requires StateMatches() && PlaceOf(events).Turn? && PlaceOf(events).running == map[]
      requires slot !in PlaceOf(events).ended
      modifies this`events, this`transcript, this`streamingMessage, this`pendingToolCalls
      ensures StateMatches() && finalized == Outcome(call, script)
      ensures PlaceOf(events) == old(PlaceOf(events)).(running := map[slot := call.id])
      ensures Ends(events) == old(Ends(events))
    {
      Emit(ToolStart(slot, call.id));
      var preparation := PrepareToolCall(call, script.circumstances);
      if preparation.Immediate? {
        return Finalized(call, preparation.output, preparation.isError);
      }
      RunTool(slot, call.id, script.actions);
      finalized := FinalizeCall(call, script.execution, script.after);
    }

    /** Run one call and report its result. */
    method HandleCall(ghost message: Message, ghost messages: seq<Message>, slot: nat, call: Call, script: CallScript)
      returns (finalized: Finalized)
      requires StateMatches() && Reported(message, messages, slot) && slot == |messages|
      modifies this`events, this`transcript, this`streamingMessage, this`pendingToolCalls
      ensures StateMatches() && finalized == Outcome(call, script)
      ensures Reported(message, messages + [ResultMessage(finalized)], slot + 1)
      ensures Ends(events) == old(Ends(events)) + [ResultMessage(finalized)]
    {
      finalized := RunCall(slot, call, script);
      ReportCall(message, messages, slot, finalized);
    }

    /** One call after the other; each result is reported before the next call starts. */
    method ExecuteToolCallsSequential(message: Message, scripts: seq<CallScript>) returns (batch: Batch)
      requires StateMatches() && message.Assistant? && |scripts| == |message.calls| && Reported(message, [], 0)
      modifies this`events, this`transcript, this`streamingMessage, this`pendingToolCalls
      ensures StateMatches() && batch == BatchOf(message.calls, scripts)
      ensures IsBatchOf(message.calls, scripts, batch)
      ensures Reported(message, batch.messages, |message.calls|)
      ensures Ends(events) == old(Ends(events)) + batch.messages
    {
      var finalizedCalls, messages := RunInSequence(message, scripts);
      OutcomesAreBatch(message.calls, scripts, finalizedCalls, messages);
      batch := Batch(messages, ShouldTerminate(finalizedCalls));
    }

    /** Run and report one call after the other, up to an abort. */
    method RunInSequence(message: Message, scripts: seq<CallScript>)
      returns (finalizedCalls: seq<Finalized>, messages: seq<Message>)
      requires StateMatches() && message.Assistant? && |scripts| == |message.calls| && Reported(message, [], 0)
      modifies this`events, this`transcript, this`streamingMessage, this`pendingToolCalls
      ensures InSequence(message, scripts, |finalizedCalls|, finalizedCalls, messages, old(Ends(events)))
      ensures StartsUpTo(scripts, |finalizedCalls|)
    {
      finalizedCalls, messages := [], [];
      var i := 0;
      NoOutcomes(message.calls, scripts);
      assert Ends(events) + [] == Ends(events);
      while i < |message.calls|
        invariant i <= |message.calls| && NoneAborted(scripts, i)
        invariant InSequence(message, scripts, i, finalizedCalls, messages, old(Ends(events)))
      {
        finalizedCalls, messages := NextCall(message, scripts, i, finalizedCalls, messages, old(Ends(events)));
        i := i + 1;
        if scripts[i - 1].abortedAfter {
          break;
        }
      }
      NoneAbortedStarts(scripts, i);
    }

    /** The first calls were run and reported one after the other. */
    ghost predicate InSequence(message: Message, scripts: seq<CallScript>, n: nat, finalized: seq<Finalized>,
                               messages: seq<Message>, before: seq<Message>)
      reads this`transcript, this`initial, this`events, this`pendingToolCalls, this`streamingMessage
      requires message.Assistant?
    {
      && StateMatches() && |finalized| == |messages| == n && AreOutcomes(message.calls, scripts, finalized, messages)
      && Reported(message, messages, n) && Ends(events) == before + messages
    }

    method NextCall(message: Message, scripts: seq<CallScript>, n: nat, finalized: seq<Finalized>,
                    messages: seq<Message>, ghost before: seq<Message>)
      returns (finalized': seq<Finalized>, messages': seq<Message>)
      requires message.Assistant? && n < |message.calls| == |scripts|
      requires InSequence(message, scripts, n, finalized, messages, before)
      modifies this`events, this`transcript, this`streamingMessage, this`pendingToolCalls
      ensures InSequence(message, scripts, n + 1, finalized', messages', before)
    {
      OneMoreOutcome(message.calls, scripts, finalized, messages);
      Associate(before, messages, [ResultMessage(Outcome(message.calls[n], scripts[n]))]);
      var next := HandleCall(message, messages, n, message.calls[n], scripts[n]);
      finalized' := finalized + [next];
      messages' := messages + [ResultMessage(next)];
    }

    /** The calls started so far stand at these phases and have these results, none of which is reported
        as a message yet. */
    ghost predicate Concurrent(message: Message, phases: seq<CallPhase>, results: seq<Option<Finalized>>)
      reads this`events
      requires message.Assistant? && |phases| <= |message.calls|
    {
      PlaceOf(events) == Turn(Some(message), [], RunningCalls(message.calls, phases), EndedCalls(results))
    }

    /** A call that is over has its outcome, whenever it finished. */
    static ghost predicate Recorded(
        calls: seq<Call>, scripts: seq<CallScript>, phases: seq<CallPhase>, results: seq<Option<Finalized>>) {
      && |results| == |phases| <= |calls| == |scripts|
      && (forall i :: 0 <= i < |phases| ==>
            results[i] == if phases[i] == Over then Some(Outcome(calls[i], scripts[i])) else None)
      && (forall i :: 0 <= i < |phases| && phases[i] != Over ==>
            PrepareToolCall(calls[i], scripts[i].circumstances).Prepared?)
    }

    /** Start the calls in source order, up to an abort; a call that is refused is over at once. */
    method StartCalls(message: Message, scripts: seq<CallScript>)
      returns (phases: seq<CallPhase>, results: seq<Option<Finalized>>)
      requires StateMatches() && message.Assistant? && |scripts| == |message.calls|
      requires PlaceOf(events) == Turn(Some(message), [], map[], map[])
      modifies this`events, this`transcript, this`streamingMessage, this`pendingToolCalls
      ensures StateMatches() && |phases| == StartedCalls(scripts)
      ensures AreStartPhases(scripts, phases)
      ensures Recorded(message.calls, scripts, phases, results) && Concurrent(message, phases, results)
      ensures Ends(events) == old(Ends(events))
    {
      var calls := message.calls;
      phases, results := [], [];
      assert RunningCalls(calls, phases) == map[] && EndedCalls(results) == map[];
      var i := 0;
      while i < |calls|
        invariant i <= |calls| && |phases| == i && StateMatches()
        invariant forall j :: 0 <= j < i ==> !scripts[j].abortedAfter
        invariant AreStartPhases(scripts, phases)
        invariant Recorded(calls, scripts, phases, results) && Concurrent(message, phases, results)
        invariant Ends(events) == old(Ends(events))
      {
        phases, results := StartCall(message, scripts, phases, results);
        i := i + 1;
        if scripts[i - 1].abortedAfter {
          break;
        }
      }
      StartedIsFirstAbort(scripts, i);
    }

    method StartCall(message: Message, scripts: seq<CallScript>, phases: seq<CallPhase>, results: seq<Option<Finalized>>)
      returns (phases': seq<CallPhase>, results': seq<Option<Finalized>>)
      requires StateMatches() && message.Assistant? && |phases| < |message.calls|
      requires Recorded(message.calls, scripts, phases, results) && Concurrent(message, phases, results)
      modifies this`events, this`transcript, this`streamingMessage, this`pendingToolCalls
      ensures StateMatches() && phases' == phases + [StartPhase(scripts[|phases|])]
      ensures Recorded(message.calls, scripts, phases', results') && Concurrent(message, phases', results')
      ensures Ends(events) == old(Ends(events))
    {
      var i, call := |phases|, message.calls[|phases|];
      var preparation := PrepareToolCall(call, scripts[i].circumstances);
      if preparation.Immediate? {
        var finalized := Finalized(call, preparation.output, preparation.isError);
        AddPhase(message.calls, phases, Over);
        AddResult(results, Some(finalized));
        RefuseCall(i, call.id, ReportOf(finalized));
        phases' := phases + [Over];
        results' := results + [Some(finalized)];
      } else {
        AddPhase(message.calls, phases, Working);
        AddResult(results, None);
        BeginCall(i, call.id);
        phases' := phases + [Working];
        results' := results + [None];
      }
      RecordedNext(message.calls, scripts, phases, results, phases'[i], results'[i]);
    }

    static lemma RecordedNext(calls: seq<Call>, scripts: seq<CallScript>, phases: seq<CallPhase>,
                              results: seq<Option<Finalized>>, phase: CallPhase, result: Option<Finalized>)
      requires Recorded(calls, scripts, phases, results) && |phases| < |calls|
      requires if phase == Over then result == Some(Outcome(calls[|phases|], scripts[|phases|]))
               else result == None && PrepareToolCall(calls[|phases|], scripts[|phases|].circumstances).Prepared?
      ensures Recorded(calls, scripts, phases + [phase], results + [result])
    {
    }

    method BeginCall(slot: nat, id: string)
      requires StateMatches() && PlaceOf(events).Turn?
      requires slot !in PlaceOf(events).running && slot !in PlaceOf(events).ended
      modifies this`events, this`transcript, this`streamingMessage, this`pendingToolCalls
      ensures StateMatches()
      ensures PlaceOf(events) == old(PlaceOf(events)).(running := old(PlaceOf(events)).running[slot := id])
      ensures Ends(events) == old(Ends(events))
    {
      Emit(ToolStart(slot, id));
    }

    /** A call that is not executed starts and ends at once. */
    method RefuseCall(slot: nat, id: string, report: EndReport)
      requires StateMatches() && PlaceOf(events).Turn?
      requires slot !in PlaceOf(events).running && slot !in PlaceOf(events).ended
      modifies this`events, this`transcript, this`streamingMessage, this`pendingToolCalls
      ensures StateMatches()
      ensures PlaceOf(events) == old(PlaceOf(events)).(ended := old(PlaceOf(events)).ended[slot := report])
      ensures Ends(events) == old(Ends(events))
    {
      ghost var running := PlaceOf(events).running;
      Emit(ToolStart(slot, id));
      Emit(ToolEnd(slot, id, report));
      assert running[slot := id] - {slot} == running;
    }

    /** The started calls run concurrently: their reports and ends come in any order. */
    method RunConcurrently(message: Message, scripts: seq<CallScript>, moves: seq<Move>,
                           phases: seq<CallPhase>, results: seq<Option<Finalized>>)
      returns (phases': seq<CallPhase>, results': seq<Option<Finalized>>)
      requires StateMatches() && message.Assistant?
      requires Recorded(message.calls, scripts, phases, results) && Concurrent(message, phases, results)
      modifies this`events, this`transcript, this`streamingMessage, this`pendingToolCalls
      ensures StateMatches() && |phases'| == |phases|
      ensures Recorded(message.calls, scripts, phases', results') && Concurrent(message, phases', results')
      ensures Ends(events) == old(Ends(events))
      ensures AreStartPhases(scripts, phases) ==> AllMoved(moves, phases, phases')
    {
      phases', results' := phases, results;
      for i := 0 to |moves|
        invariant StateMatches() && |phases'| == |phases|
        invariant AreStartPhases(scripts, phases) ==> AllMoved(moves[..i], phases, phases')
        invariant Recorded(message.calls, scripts, phases', results') && Concurrent(message, phases', results')
        invariant Ends(events) == old(Ends(events))
      {
        if AreStartPhases(scripts, phases) {
          MovedOn(scripts, moves, i, phases, phases');
        }
        if moves[i].slot < |phases'| {
          phases', results' := MoveCall(message, scripts, moves[i], phases', results');
        }
      }
      assert moves[..|moves|] == moves;
    }

    method MoveCall(message: Message, scripts: seq<CallScript>, move: Move,
                    phases: seq<CallPhase>, results: seq<Option<Finalized>>)
      returns (phases': seq<CallPhase>, results': seq<Option<Finalized>>)
      requires StateMatches() && message.Assistant? && move.slot < |phases|
      requires Recorded(message.calls, scripts, phases, results) && Concurrent(message, phases, results)
      modifies this`events, this`transcript, this`streamingMessage, this`pendingToolCalls
      ensures StateMatches()
      ensures Recorded(message.calls, scripts, phases', results') && Concurrent(message, phases', results')
      ensures Ends(events) == old(Ends(events))
      ensures phases' == phases[move.slot := PhaseAfter(phases[move.slot], move, move.slot)]
      ensures events == old(events) +
                        if move == Act(move.slot, Report) && phases[move.slot] == Working then
                          [ToolUpdate(move.slot, message.calls[move.slot].id)]
                        else if move == Finish(move.slot) && phases[move.slot] == Quiet then
                          [ToolEnd(move.slot, message.calls[move.slot].id,
                                   ReportOf(Outcome(message.calls[move.slot], scripts[move.slot])))]
                        else []
    {
      phases', results' := phases, results;
      var slot := move.slot;
      match move
      case Act(_, Report) =>
        if phases[slot] == Working {
          ChangePhase(message.calls, phases, slot, Quiet);
          Emit(ToolUpdate(slot, message.calls[slot].id));
        }
      case Act(_, Settle) =>
        if phases[slot] == Working {
          ChangePhase(message.calls, phases, slot, Quiet);
          phases' := phases[slot := Quiet];
        }
      case Finish(_) =>
        if phases[slot] == Quiet {
          phases', results' := EndCall(message, scripts, slot, phases, results);
        }
    }

    /** A settled call is finalized and its end reported. */
    method EndCall(message: Message, scripts: seq<CallScript>, slot: nat,
                   phases: seq<CallPhase>, results: seq<Option<Finalized>>)
      returns (phases': seq<CallPhase>, results': seq<Option<Finalized>>)
      requires StateMatches() && message.Assistant? && slot < |phases| && phases[slot] == Quiet
      requires Recorded(message.calls, scripts, phases, results) && Concurrent(message, phases, results)
      modifies this`events, this`transcript, this`streamingMessage, this`pendingToolCalls
      ensures StateMatches() && phases' == phases[slot := Over]
      ensures Recorded(message.calls, scripts, phases', results') && Concurrent(message, phases', results')
      ensures Ends(events) == old(Ends(events))
      ensures events == old(events) +
                        [ToolEnd(slot, message.calls[slot].id, ReportOf(Outcome(message.calls[slot], scripts[slot])))]
    {
      var call := message.calls[slot];
      ChangePhase(message.calls, phases, slot, Over);
      var finalized := FinalizeCall(call, scripts[slot].execution, scripts[slot].after);
      SetResult(results, slot, finalized);
      Emit(ToolEnd(slot, call.id, ReportOf(finalized)));
      phases' := phases[slot := Over];
      results' := results[slot := Some(finalized)];
    }

    /** Report the results in source order once every call is over. */
    method ReportResults(message: Message, finalized: seq<Finalized>, ghost ended: map<nat, EndReport>)
      returns (messages: seq<Message>)
      requires StateMatches() && PlaceOf(events) == Turn(Some(message), [], map[], ended)
      modifies this`events, this`transcript, this`streamingMessage, this`pendingToolCalls
      ensures StateMatches() && messages == Messages(finalized)
      ensures PlaceOf(events) == Turn(Some(message), messages, map[], ended)
      ensures Ends(events) == old(Ends(events)) + messages
    {
      messages := [];
      for i := 0 to |finalized|
        invariant StateMatches() && messages == Messages(finalized)[..i]
        invariant PlaceOf(events) == Turn(Some(message), messages, map[], ended)
        invariant Ends(events) == old(Ends(events)) + messages
      {
        var result := ResultMessage(finalized[i]);
        EmitMessage(result);
        messages := messages + [result];
      }
    }

    /** Run the started calls together until they are over, unless one of them does not end. */
    method RunTogether(message: Message, scripts: seq<CallScript>, moves: seq<Move>)
      returns (finished: bool, finalized: seq<Finalized>)
      requires StateMatches() && message.Assistant? && |scripts| == |message.calls|
      requires PlaceOf(events) == Turn(Some(message), [], map[], map[])
      modifies this`events, this`transcript, this`streamingMessage, this`pendingToolCalls
      ensures StateMatches() && (finished <==> !IsUnfinished(scripts, moves))
      ensures finished ==>
                && finalized == Outcomes(message.calls, scripts, StartedCalls(scripts))
                && PlaceOf(events) == Turn(Some(message), [], map[], Reports(finalized))
      ensures Ends(events) == old(Ends(events))
    {
      var phases, results := StartCalls(message, scripts);
      ghost var start := phases;
      phases, results := RunConcurrently(message, scripts, moves, phases, results);
      UnfinishedIff(scripts, moves, start, phases);
      finished, finalized := Collect(message.calls, scripts, phases, results);
      if finished {
        AllOver(message.calls, phases, results, finalized);
      }
    }

    /** Run the started calls together and report their results in source order, unless one of them is
        still running. For every order of finishing the batch is the same. */
    method ExecuteToolCallsParallel(message: Message, scripts: seq<CallScript>, moves: seq<Move>)
      returns (finished: bool, batch: Batch)
      requires StateMatches() && message.Assistant? && |scripts| == |message.calls|
      requires PlaceOf(events) == Turn(Some(message), [], map[], map[])
      modifies this`events, this`transcript, this`streamingMessage, this`pendingToolCalls
      ensures StateMatches() && (finished <==> !IsUnfinished(scripts, moves))
      ensures finished ==> batch == BatchOf(message.calls, scripts) && IsBatchOf(message.calls, scripts, batch)
      ensures finished ==> Reported(message, batch.messages, |message.calls|)
      ensures finished ==> Ends(events) == old(Ends(events)) + batch.messages
      ensures !finished ==> Ends(events) == old(Ends(events))
    {
      var finalized: seq<Finalized>;
      finished, finalized := RunTogether(message, scripts, moves);
      if !finished {
        return false, Batch([], false);
      }
      BatchIsFromScripts(message.calls, scripts);
      ReportsMatch(finalized);
      var messages := ReportResults(message, finalized, Reports(finalized));
      batch := Batch(messages, ShouldTerminate(finalized));
    }

    /** The outcomes in source order, once every started call is over. */
    static method Collect(calls: seq<Call>, ghost scripts: seq<CallScript>, phases: seq<CallPhase>,
                          results: seq<Option<Finalized>>)
      returns (finished: bool, finalized: seq<Finalized>)
      requires Recorded(calls, scripts, phases, results)
      ensures finished <==> forall i :: 0 <= i < |phases| ==> phases[i] == Over
      ensures finished ==> finalized == Outcomes(calls, scripts, |phases|)
      ensures finished ==> forall i :: 0 <= i < |phases| ==> results[i] == Some(finalized[i])
    {
      finalized := [];
      for i := 0 to |phases|
        invariant forall j :: 0 <= j < i ==> phases[j] == Over
        invariant finalized == Outcomes(calls, scripts, i)
      {
        if phases[i] != Over {
          return false, [];
        }
        finalized := finalized + [results[i].value];
      }
      finished := true;
    }

    method ExecuteToolCalls(message: Message, t: TurnScript) returns (finished: bool, batch: Batch)
      requires StateMatches() && IsTurn(t) && message == t.response.result && !Fails(message)
      requires PlaceOf(events) == Turn(Some(message), [], map[], map[])
      modifies this`events, this`transcript, this`streamingMessage, this`pendingToolCalls
      ensures StateMatches()
      ensures !finished <==> WaitsForTool(t)
      ensures finished ==> batch == TurnBatch(t) && Reported(message, batch.messages, |message.calls|)
      ensures finished ==> Ends(events) == old(Ends(events)) + batch.messages
      ensures !finished ==> Ends(events) == old(Ends(events))
    {
      finished := true;
      if |message.calls| == 0 {
        batch := Batch([], true);
      } else if message.stop == Length {
        batch := FailToolCallsFromTruncatedMessage(message);
      } else if t.sequential {
        batch := ExecuteToolCallsSequential(message, t.calls);
      } else {
        finished, batch := ExecuteToolCallsParallel(message, t.calls, t.moves);
      }
    }

    /** The response and the tool calls of one turn. */
    method RunTurn(t: TurnScript) returns (ended: TurnProgress, more: bool)
      requires IsTurn(t) && StateMatches() && newMessages == Ends(events)
      requires PlaceOf(events).Turn? && PlaceOf(events).running == map[]
      modifies this`events, this`transcript, this`streamingMessage, this`pendingToolCalls
      modifies this`context, this`newMessages
      ensures StateMatches() && newMessages == Ends(events)
      ensures ended == Broken <==> t.response.ending.Throws?
      ensures ended == Ended ==> PlaceOf(events) == Rest && newMessages == old(newMessages) + TurnMessages(t)
      ensures ended == Ended ==> context == old(context) + TurnMessages(t)
      ensures ended == Ended ==> (more <==> AsksForMore(t))
      ensures ended == Unfinished <==> t.response.ending.Returns? && WaitsForTool(t)
      ensures ended == Unfinished ==> newMessages == old(newMessages) + [t.response.result]
      ensures ended == Unfinished ==> context == old(context) + [t.response.result]
      ensures ended == Broken ==> newMessages == old(newMessages) && ThrewAt(PlaceOf(events), Starts(t.response))
    {
      var response, _ := StreamAssistantResponse(t.response);
      if response.None? {
        return Broken, false;
      }
      var message := response.value;
      newMessages := newMessages + [message];
      TurnAppends(old(newMessages), t);
      TurnAppends(old(context), t);
      TurnFollowsScript(t);
      if message.stop == Failure || message.stop == Aborted {
        EndTurn(message, []);
        return Ended, false;
      }
      var answered;
      answered, more := AnswerCalls(message, t);
      ended := if answered then Ended else Unfinished;
    }

    method EndTurn(message: Message, results: seq<Message>)
      requires StateMatches() && Answers(message, results) && PlaceOf(events).Turn?
      requires PlaceOf(events).last == Some(message) && PlaceOf(events).results == results
      requires PlaceOf(events).running == map[] && MatchReports(results, PlaceOf(events).ended)
      modifies this`events, this`transcript, this`streamingMessage, this`pendingToolCalls
      ensures StateMatches() && PlaceOf(events) == Rest && Ends(events) == old(Ends(events))
    {
      Emit(TurnEnd(message, results));
    }

    /** Answer the response's tool calls and end the turn. */
    method AnswerCalls(message: Message, t: TurnScript) returns (ended: bool, more: bool)
      requires IsTurn(t) && message == t.response.result && StateMatches() && newMessages == Ends(events)
      requires !Fails(message)
      requires PlaceOf(events) == Turn(Some(message), [], map[], map[])
      modifies this`events, this`transcript, this`streamingMessage, this`pendingToolCalls
      modifies this`context, this`newMessages
      ensures StateMatches() && newMessages == Ends(events)
      ensures ended ==> PlaceOf(events) == Rest && newMessages == old(newMessages) + TurnBatch(t).messages
      ensures ended ==> context == old(context) + TurnBatch(t).messages
      ensures ended ==> more == !TurnBatch(t).terminate
      ensures !ended <==> WaitsForTool(t)
      ensures !ended ==> newMessages == old(newMessages) && context == old(context)
    {
      var batch;
      ended, batch := ExecuteToolCalls(message, t);
      if !ended {
        return false, false;
      }
      context := context + batch.messages;
      newMessages := newMessages + batch.messages;
      BatchAnswers(t);
      EndTurn(message, batch.messages);
      more := !batch.terminate;
    }

    // ---- Queues ----

    function Queue(which: QueueName): PendingMessageQueue {
      if which == Steering then steering else followUps
    }

    /** `steer` and `followUp`. */
    method EnqueueIn(which: QueueName, message: Message)
      requires QueuesMatch()
      modifies this`log, Queue(which)`messages
      ensures QueuesMatch() && log == old(log) + [Enqueued(which, message)]
      ensures Queue(which).messages == old(Queue(which).messages) + [message]
      ensures SameUse(old(log), log)
    {
      AfterEnqueue(log, steering.messages, followUps.messages, which, message);
      Queue(which).Enqueue(message);
      log := log + [Enqueued(which, message)];
    }

    /** `clearSteeringQueue` and `clearFollowUpQueue`. */
    method ClearQueue(which: QueueName)
      requires QueuesMatch()
      modifies this`log, Queue(which)`messages
      ensures QueuesMatch() && log == old(log) + [Cleared(which)] && Queue(which).messages == []
      ensures SameUse(old(log), log)
    {
      AfterClear(log, steering.messages, followUps.messages, which);
      Queue(which).Clear();
      log := log + [Cleared(which)];
    }

    method ClearAllQueues()
      requires QueuesMatch()
      modifies this`log, steering`messages, followUps`messages
      ensures QueuesMatch() && steering.messages == [] && followUps.messages == []
      ensures SameUse(old(log), log)
    {
      ClearQueue(Steering);
      ClearQueue(FollowUp);
    }

    /** What other callers do to the queues at some point of a run. */
    method ChangeQueues(ops: seq<QueueOp>)
      requires QueuesMatch()
      modifies this`log, steering, followUps
      ensures QueuesMatch()
      ensures SameUse(old(log), log) && (IsQuiet(ops) ==> NothingNew(old(log), log))
      ensures log == old(log) + HistoryOf(ops)
      ensures ops == [] ==> unchanged(steering, followUps)
    {
      for i := 0 to |ops|
        invariant QueuesMatch()
        invariant SameUse(old(log), log) && (IsQuiet(ops) ==> NothingNew(old(log), log))
        invariant i == 0 ==> unchanged(steering, followUps)
        invariant log == old(log) + HistoryOf(ops[..i])
      {
        assert ops[..i + 1][..i] == ops[..i];
        match ops[i] {
          case DoEnqueue(queue, message) => EnqueueIn(queue, message);
          case DoClear(queue) => ClearQueue(queue);
          case DoSetMode(queue, mode) => Queue(queue).mode := mode;
        }
      }
      assert ops[..|ops|] == ops;
    }

    /** Drain one of the queues. */
    method DrainQueue(which: QueueName) returns (drained: seq<Message>)
      requires QueuesMatch() && (which == FollowUp ==> LastSteering(log) == Some([]))
      modifies this`log, steering`messages, followUps`messages
      ensures QueuesMatch() && log == old(log) + [Drained(which, drained)]
      ensures Taken(log) == old(Taken(log)) + Tag(which, drained) && InjectedIn(log) == old(InjectedIn(log))
      ensures LastSteering(log) == if which == Steering then Some(drained) else old(LastSteering(log))
      ensures drained == [] ==> Queue(which).messages == []
      ensures drained == old(Front(Queue(which).mode, Queue(which).messages))
      ensures forall q :: q != which ==> unchanged(Queue(q))
    {
      ghost var before, others := steering.messages, followUps.messages;
      drained := Queue(which).Drain();
      AfterDrain(log, before, others, which, drained, Queue(which).messages);
      log := log + [Drained(which, drained)];
    }

    /** The steering messages for the next turn; the first poll may be told to leave the queue alone. */
    method PollSteering() returns (pending: seq<Message>)
      requires QueuesMatch() && Taken(log) == InjectedIn(log)
      modifies this`log, this`skipInitialSteeringPoll, steering`messages, followUps`messages
      ensures QueuesMatch() && Owed(log, Some(Steering), pending) && !skipInitialSteeringPoll
      ensures old(skipInitialSteeringPoll) ==> pending == [] && log == old(log)
      ensures !old(skipInitialSteeringPoll) ==>
                && log == old(log) + [Drained(Steering, pending)] && LastSteering(log) == Some(pending)
                && pending == old(Front(steering.mode, steering.messages))
    {
      if skipInitialSteeringPoll {
        skipInitialSteeringPoll := false;
        return [];
      }
      pending := DrainQueue(Steering);
    }

    /** Report the messages one by one; those that come from a queue are thereby injected. */
    method EmitMessages(messages: seq<Message>, ghost source: Option<QueueName>)
      requires StateMatches() && QueuesMatch() && Owed(log, source, messages)
      requires PlaceOf(events).Turn? && PlaceOf(events).running == map[]
      modifies this`events, this`transcript, this`streamingMessage, this`pendingToolCalls, this`log
      ensures StateMatches() && QueuesMatch() && Taken(log) == InjectedIn(log)
      ensures LastSteering(log) == old(LastSteering(log)) && old(log) <= log && NothingNew(old(log), log)
      ensures source.Some? ==> InjectedIn(log) == old(InjectedIn(log)) + Tag(source.value, messages)
      ensures source.None? ==> log == old(log)
      ensures PlaceOf(events).Turn? && PlaceOf(events).running == map[]
      ensures Ends(events) == old(Ends(events)) + messages
    {
      EmitEach(messages);
      RecordInjected(source, messages);
    }

    method EmitEach(messages: seq<Message>)
      requires StateMatches() && PlaceOf(events).Turn? && PlaceOf(events).running == map[]
      modifies this`events, this`transcript, this`streamingMessage, this`pendingToolCalls
      ensures StateMatches() && PlaceOf(events).Turn? && PlaceOf(events).running == map[]
      ensures Ends(events) == old(Ends(events)) + messages
    {
      for i := 0 to |messages|
        invariant StateMatches() && PlaceOf(events).Turn? && PlaceOf(events).running == map[]
        invariant Ends(events) == old(Ends(events)) + messages[..i]
      {
        EmitMessage(messages[i]);
      }
    }

    ghost method RecordInjected(source: Option<QueueName>, messages: seq<Message>)
      requires QueuesMatch() && Owed(log, source, messages)
      modifies this`log
      ensures QueuesMatch() && Taken(log) == InjectedIn(log) && LastSteering(log) == old(LastSteering(log))
      ensures source.Some? ==> old(log) <= log && InjectedIn(log) == old(InjectedIn(log)) + Tag(source.value, messages)
      ensures source.None? ==> log == old(log)
      ensures NothingNew(old(log), log)
    {
      if source.Some? {
        AfterInjections(log, steering.messages, followUps.messages, source.value, messages);
        log := log + Injections(source.value, messages);
      }
    }

    method HasQueuedMessages() returns (r: bool)
      ensures r <==> steering.messages != [] || followUps.messages != []
    {
      r := steering.HasItems();
      if !r {
        r := followUps.HasItems();
      }
    }

    // ---- The loop ----

    /** Inside a run: what was emitted, returned and stored agree. */
    ghost predicate Running()
      reads this, steering, followUps
    {
      QueuesMatch() && StateMatches() && newMessages == Ends(events)
    }

    /** Start a turn and inject the messages that wait for it. */
    method BeginTurn(firstTurn: bool, pending: seq<Message>, ghost source: QueueName)
      requires Running() && Owed(log, Some(source), pending) && BetweenTurns(PlaceOf(events), firstTurn)
      modifies this`events, this`transcript, this`streamingMessage, this`pendingToolCalls, this`log
      modifies this`context, this`newMessages
      ensures Running() && Taken(log) == InjectedIn(log) && LastSteering(log) == old(LastSteering(log))
      ensures old(log) <= log && NothingNew(old(log), log)
      ensures InjectedIn(log) == old(InjectedIn(log)) + Tag(source, pending)
      ensures PlaceOf(events).Turn? && PlaceOf(events).running == map[]
      ensures newMessages == old(newMessages) + pending && context == old(context) + pending
    {
      if !firstTurn {
        Emit(TurnStart);
      }
      EmitMessages(pending, Some(source));
      context := context + pending;
      newMessages := newMessages + pending;
    }

    /** A whole turn, up to the hooks after it. */
    method PlayTurn(ghost effects: seq<Effect>, turns: seq<TurnScript>, i: nat, pending: seq<Message>,
                    ghost source: QueueName)
      returns (ended: TurnProgress, halts: bool, more: bool)
      requires AreEffects(effects, turns) && i < |turns|
      requires Running() && Owed(log, Some(source), pending) && BetweenTurns(PlaceOf(events), i == 0)
      modifies this`events, this`transcript, this`streamingMessage, this`pendingToolCalls, this`log
      modifies this`context, this`newMessages
      ensures Running() && Taken(log) == InjectedIn(log) && LastSteering(log) == old(LastSteering(log))
      ensures old(log) <= log && NothingNew(old(log), log)
      ensures InjectedIn(log) == old(InjectedIn(log)) + Tag(source, pending)
      ensures ended == Broken <==> turns[i].response.ending.Throws?
      ensures ended == Unfinished <==> turns[i].response.ending.Returns? && WaitsForTool(turns[i])
      ensures ended == Broken ==>
                ThrewAt(PlaceOf(events), Starts(turns[i].response)) && newMessages == old(newMessages) + pending
      ensures ended == Ended ==>
                && PlaceOf(events) == Rest
                && newMessages == old(newMessages) + (pending + effects[i].messages)
                && context == (if effects[i].replacement.Some? then effects[i].replacement.value
                               else old(context) + (pending + effects[i].messages))
                && (halts <==> EndsRun(turns[i])) && (more <==> AsksForMore(turns[i]))
    {
      EffectAt(effects, turns, i);
      var t := turns[i];
      TurnFollowsScript(t);
      BeginTurn(i == 0, pending, source);
      ended, more := RunTurn(t);
      Associate(old(newMessages), pending, TurnMessages(t));
      Associate(old(context), pending, TurnMessages(t));
      var fails := Fails(t.response.result);
      if ended == Ended && !fails && t.replacement.Some? {
        context := t.replacement.value;
      }
      halts := fails || t.stop;
    }

    /** Before a turn: what was played, and the messages that wait to be injected. */
    ghost predicate Ready(outset: Outset, batches: seq<seq<Message>>, effects: seq<Effect>,
                          pending: seq<Message>, source: QueueName)
      reads this, steering, followUps
    {
      && Running() && Owed(log, Some(source), pending) && BetweenTurns(PlaceOf(events), batches == [])
      && !skipInitialSteeringPoll && Since(outset, log, batches)
      && ComesTo(outset.base, outset.start, batches, effects, newMessages, context)
      && (batches != [] ==> !effects[|batches| - 1].halts)
      && (batches != [] && source == Steering ==> LastSteering(log) == Some(pending))
    }

    /** After the run's last turn. */
    ghost predicate Done(outset: Outset, batches: seq<seq<Message>>, effects: seq<Effect>)
      reads this, steering, followUps
    {
      Running() && Concludes(outset, batches, effects, events, log, followUps.messages, newMessages, context)
    }

    /** The run stopped short: what was taken was injected, before these turns. */
    ghost predicate Paused(outset: Outset, batches: seq<seq<Message>>)
      reads this, steering, followUps
    {
      Running() && Taken(log) == InjectedIn(log) && Since(outset, log, batches)
    }

    method EmitAgentEnd()
      requires Running() && PlaceOf(events) == Rest
      modifies this`events, this`transcript, this`streamingMessage, this`pendingToolCalls
      ensures Running() && PlaceOf(events) == Finished && events == old(events) + [AgentEnd(newMessages)]
    {
      Emit(AgentEnd(newMessages));
    }

    /** The steering messages for the next turn, after what happened to the queues meanwhile. */
    method PollSteeringAfter(meanwhile: seq<QueueOp>) returns (pending: seq<Message>)
      requires Running() && Taken(log) == InjectedIn(log)
      modifies this`log, this`skipInitialSteeringPoll, steering, followUps
      ensures Running() && Owed(log, Some(Steering), pending) && !skipInitialSteeringPoll
      ensures old(log) <= log && InjectedIn(log) == old(InjectedIn(log))
      ensures IsQuiet(meanwhile) ==> NothingNew(old(log), log)
      ensures log == (old(log) + HistoryOf(meanwhile)) +
                     if old(skipInitialSteeringPoll) then [] else [Drained(Steering, pending)]
      ensures old(skipInitialSteeringPoll) ==> pending == []
      ensures !old(skipInitialSteeringPoll) ==> LastSteering(log) == Some(pending)
      ensures !old(skipInitialSteeringPoll) && meanwhile == [] ==>
                pending == old(Front(steering.mode, steering.messages))
    {
      ChangeQueues(meanwhile);
      pending := PollSteering();
    }

    method PollFollowUpsAfter(later: seq<QueueOp>) returns (pending: seq<Message>)
      requires Running() && Taken(log) == InjectedIn(log) && LastSteering(log) == Some([])
      modifies this`log, steering, followUps
      ensures Running() && Owed(log, Some(FollowUp), pending)
      ensures old(log) <= log && InjectedIn(log) == old(InjectedIn(log))
      ensures IsQuiet(later) ==> NothingNew(old(log), log)
      ensures log == (old(log) + HistoryOf(later)) + [Drained(FollowUp, pending)]
      ensures pending == [] ==> Taken(log) == InjectedIn(log) && followUps.messages == []
      ensures LastSteering(log) == Some([])
    {
      ChangeQueues(later);
      pending := DrainQueue(FollowUp);
    }

    /** A turn has ended: what was played, before the polls that follow. */
    ghost predicate Played(outset: Outset, batches: seq<seq<Message>>, effects: seq<Effect>)
      reads this, steering, followUps
    {
      && Paused(outset, batches) && PlaceOf(events) == Rest && batches != []
      && ComesTo(outset.base, outset.start, batches, effects, newMessages, context)
    }

    /** How the loop stands when it goes no further. */
    ghost predicate Stopped(progress: Progress, outset: Outset, batches: seq<seq<Message>>, effects: seq<Effect>,
                            turns: seq<TurnScript>)
      reads this, steering, followUps
    {
      match progress
      case Going => false
      case Waiting => Paused(outset, batches) && Follows(batches, effects) && AwaitsAnswer(turns, batches)
      case Complete => NoneThrows(turns, |batches|) && Done(outset, batches, effects)
      case Thrown =>
        && LastThrows(turns, batches) && Paused(outset, batches) && Follows(batches, effects)
        && ThrewAt(PlaceOf(events), Starts(turns[|batches| - 1].response))
        && StopsAt(outset.base, batches, effects, newMessages)
    }

    /** The script has no more turns: the run waits for the response of the turn that has begun. */
    method WaitForResponse(ghost outset: Outset, ghost batches: seq<seq<Message>>, ghost effects: seq<Effect>,
                           firstTurn: bool, pending: seq<Message>, ghost source: QueueName)
      requires Ready(outset, batches, effects, pending, source) && firstTurn == (batches == [])
      requires batches != [] ==> MayFollow(effects[|batches| - 1], pending)
      modifies this`events, this`transcript, this`streamingMessage, this`pendingToolCalls, this`log
      modifies this`context, this`newMessages
      ensures Paused(outset, batches + [pending]) && Follows(batches + [pending], effects)
    {
      ghost var before := log;
      OneMoreFollows(batches, pending, effects);
      BeginTurn(firstTurn, pending, source);
      SinceBatch(outset, before, log, batches, source, pending);
    }

    /** The next turn. */
    method PlayNext(ghost outset: Outset, ghost batches: seq<seq<Message>>, ghost effects: seq<Effect>,
                    turns: seq<TurnScript>, i: nat, pending: seq<Message>, ghost source: QueueName)
      returns (ended: TurnProgress, halts: bool, more: bool)
      requires AreEffects(effects, turns) && Ready(outset, batches, effects, pending, source)
      requires i == |batches| < |turns| && (batches != [] ==> MayFollow(effects[|batches| - 1], pending))
      modifies this`events, this`transcript, this`streamingMessage, this`pendingToolCalls, this`log
      modifies this`context, this`newMessages
      ensures Paused(outset, batches + [pending]) && Follows(batches + [pending], effects)
      ensures ended == Broken <==> turns[i].response.ending.Throws?
      ensures ended == Unfinished <==> turns[i].response.ending.Returns? && WaitsForTool(turns[i])
      ensures ended == Broken ==>
                && ThrewAt(PlaceOf(events), Starts(turns[i].response))
                && StopsAt(outset.base, batches + [pending], effects, newMessages)
      ensures ended == Ended ==>
                && Played(outset, batches + [pending], effects)
                && halts == effects[i].halts && more == effects[i].wantsMore
    {
      ghost var before := log;
      EffectAt(effects, turns, i);
      TurnFollowsScript(turns[i]);
      OneMoreFollows(batches, pending, effects);
      StopsNext(outset.base, outset.start, batches, effects, newMessages, context, pending);
      ComesToNext(outset.base, outset.start, batches, effects, newMessages, context, pending);
      ended, halts, more := PlayTurn(effects, turns, i, pending, source);
      SinceBatch(outset, before, log, batches, source, pending);
    }

    /** The poll after a turn that did not halt the run. */
    method PollNext(ghost outset: Outset, ghost batches: seq<seq<Message>>, ghost effects: seq<Effect>,
                    meanwhile: seq<QueueOp>) returns (next: seq<Message>)
      requires Played(outset, batches, effects) && !effects[|batches| - 1].halts && !skipInitialSteeringPoll
      requires outset.quiet ==> IsQuiet(meanwhile)
      modifies this`log, this`skipInitialSteeringPoll, steering, followUps
      ensures Ready(outset, batches, effects, next, Steering)
    {
      ghost var before := log;
      next := PollSteeringAfter(meanwhile);
      SinceUse(outset, before, log, batches);
    }

    /** The next turn and the steering poll after it. */
    method Advance(ghost outset: Outset, ghost batches: seq<seq<Message>>, ghost effects: seq<Effect>,
                   turns: seq<TurnScript>, i: nat, pending: seq<Message>, ghost source: QueueName)
      returns (progress: Progress, more: bool, next: seq<Message>, ghost batches': seq<seq<Message>>)
      requires AreEffects(effects, turns) && Ready(outset, batches, effects, pending, source) && i == |batches|
      requires (i == 0 || pending != [] || Wants(batches, effects, true)) && NoneThrows(turns, i)
      requires outset.quiet ==> AllQuiet(turns)
      modifies this`events, this`transcript, this`streamingMessage, this`pendingToolCalls, this`log
      modifies this`context, this`newMessages, this`skipInitialSteeringPoll, steering, followUps
      ensures batches' == batches + [pending]
      ensures progress != Going ==> Stopped(progress, outset, batches', effects, turns)
      ensures progress == Going ==>
                && i < |turns| && NoneThrows(turns, |batches'|)
                && Ready(outset, batches', effects, next, Steering) && Wants(batches', effects, more)
    {
      batches' := batches + [pending];
      OneMoreReturns(turns, batches');
      more, next := false, [];
      if i == |turns| {
        WaitForResponse(outset, batches, effects, i == 0, pending, source);
        return Waiting, more, next, batches';
      }
      var ended, halts;
      ended, halts, more := PlayNext(outset, batches, effects, turns, i, pending, source);
      if ended == Unfinished {
        return Waiting, more, next, batches';
      }
      if ended == Broken {
        return Thrown, more, next, batches';
      }
      if halts {
        EndHalted(outset, batches', effects);
        return Complete, more, next, batches';
      }
      next := PollNext(outset, batches', effects, turns[i].meanwhile);
      progress := Going;
    }

    method EndHalted(ghost outset: Outset, ghost batches: seq<seq<Message>>, ghost effects: seq<Effect>)
      requires Played(outset, batches, effects) && effects[|batches| - 1].halts
      modifies this`events, this`transcript, this`streamingMessage, this`pendingToolCalls
      ensures Done(outset, batches, effects)
    {
      EmitAgentEnd();
    }

    /** Turn after turn, while tool results ask for one or steering messages are waiting. */
    method RunTurns(ghost outset: Outset, ghost batches: seq<seq<Message>>, ghost effects: seq<Effect>,
                    turns: seq<TurnScript>, i: nat, pending: seq<Message>, ghost source: QueueName)
      returns (progress: Progress, j: nat, ghost batches': seq<seq<Message>>)
      requires AreEffects(effects, turns) && Ready(outset, batches, effects, pending, source) && i == |batches|
      requires (i > 0 ==> pending != []) && NoneThrows(turns, i) && (outset.quiet ==> AllQuiet(turns))
      modifies this`events, this`transcript, this`streamingMessage, this`pendingToolCalls, this`log
      modifies this`context, this`newMessages, this`skipInitialSteeringPoll, steering, followUps
      ensures i < |batches'| && FirstOf(batches', []) == FirstOf(batches, pending)
      ensures progress != Going ==> Stopped(progress, outset, batches', effects, turns) && j == |batches'| - 1
      ensures progress == Going ==>
                && j == |batches'| && NoneThrows(turns, j)
                && Ready(outset, batches', effects, [], Steering) && Wants(batches', effects, false)
    {
      j, batches' := i, batches;
      var more, waiting := true, pending;
      ghost var from := source;
      while more || waiting != []
        invariant i <= j == |batches'| && NoneThrows(turns, j)
        invariant Ready(outset, batches', effects, waiting, from)
        invariant j == i ==> more && waiting == pending && from == source
        invariant FirstOf(batches', waiting) == FirstOf(batches, pending)
        invariant j > i ==> Wants(batches', effects, more) && from == Steering
        decreases |turns| - j
      {
        FirstNext(batches', waiting);
        progress, more, waiting, batches' := Advance(outset, batches', effects, turns, j, waiting, from);
        if progress != Going {
          return;
        }
        j, from := j + 1, Steering;
      }
      assert waiting == [];
      progress := Going;
    }

    /** The agent would stop: look for follow-up messages, and end the run when there are none. */
    method FollowUpOrEnd(ghost outset: Outset, ghost batches: seq<seq<Message>>, ghost effects: seq<Effect>,
                         later: seq<QueueOp>) returns (pending: seq<Message>)
      requires Ready(outset, batches, effects, [], Steering) && Wants(batches, effects, false)
      requires outset.quiet ==> IsQuiet(later)
      modifies this`events, this`transcript, this`streamingMessage, this`pendingToolCalls, this`log
      modifies steering, followUps
      ensures pending != [] ==> Ready(outset, batches, effects, pending, FollowUp)
      ensures pending == [] ==> Done(outset, batches, effects)
    {
      ghost var before := log;
      pending := PollFollowUpsAfter(later);
      SinceUse(outset, before, log, batches);
      if pending == [] {
        EmitAgentEnd();
      }
    }

    /** The agent loop: turns, and more turns for follow-up messages, until nothing is left to do. */
    method RunLoop(before: seq<QueueOp>, turns: seq<TurnScript>, ghost effects: seq<Effect>, ghost outset: Outset)
      returns (progress: Progress, last: nat, ghost batches: seq<seq<Message>>)
      requires Running() && BetweenTurns(PlaceOf(events), true) && Taken(log) == InjectedIn(log)
      requires AreEffects(effects, turns)
      requires outset == Outset(newMessages, context, log, IsQuiet(before) && AllQuiet(turns))
      modifies this`events, this`transcript, this`streamingMessage, this`pendingToolCalls, this`log
      modifies this`context, this`newMessages, this`skipInitialSteeringPoll, steering, followUps
      ensures Stopped(progress, outset, batches, effects, turns) && last == |batches| - 1
      ensures old(skipInitialSteeringPoll) ==> batches[0] == []
      ensures !old(skipInitialSteeringPoll) && before == [] ==> batches[0] == old(Front(steering.mode, steering.messages))
    {
      batches, last := [], 0;
      SinceStart(newMessages, context, log, outset.quiet);
      var pending := PollSteeringAfter(before);
      ghost var first := pending;
      SinceUse(outset, outset.log, log, []);
      ghost var source := Steering;
      while true
        invariant last == |batches| && Ready(outset, batches, effects, pending, source)
        invariant (last > 0 ==> pending != []) && NoneThrows(turns, last)
        invariant FirstOf(batches, pending) == first
        decreases |turns| - last
      {
        progress, last, batches := RunTurns(outset, batches, effects, turns, last, pending, source);
        if progress != Going {
          return;
        }
        pending := FollowUpOrEnd(outset, batches, effects, turns[last - 1].later);
        source := FollowUp;
        if pending == [] {
          return Complete, last - 1, batches;
        }
      }
    }

    // ---- Whole runs ----

    /** Begin a run: from here on the events are those of this run. */
    method StartRun(prompts: seq<Message>, ghost source: Option<QueueName>, skip: bool)
      requires QueuesMatch() && StateFollows() && !active && PendingIds(events) == {} && Owed(log, source, prompts)
      modifies this
      ensures Running() && BetweenTurns(PlaceOf(events), true) && Taken(log) == InjectedIn(log)
      ensures active && initial == old(transcript) && old(log) <= log
      ensures source.Some? ==> InjectedIn(log) == old(InjectedIn(log)) + Tag(source.value, prompts)
      ensures source.None? ==> log == old(log)
      ensures newMessages == prompts && context == old(transcript) + prompts && skipInitialSteeringPoll == skip
    {
      SetRun(prompts, skip);
      OpenRun();
      EmitMessages(prompts, source);
    }

    method SetRun(prompts: seq<Message>, skip: bool)
      requires StateFollows() && PendingIds(events) == {}
      modifies this`active, this`skipInitialSteeringPoll, this`initial, this`events, this`streamingMessage
      modifies this`newMessages, this`context
      ensures StateMatches() && events == [] && active && initial == transcript
      ensures newMessages == prompts && context == transcript + prompts && skipInitialSteeringPoll == skip
    {
      active, skipInitialSteeringPoll := true, skip;
      initial, events, streamingMessage := transcript, [], None;
      newMessages, context := prompts, transcript + prompts;
    }

    method OpenRun()
      requires StateMatches() && events == []
      modifies this`events, this`transcript, this`streamingMessage, this`pendingToolCalls
      ensures StateMatches() && PlaceOf(events) == FreshTurn && Ends(events) == []
    {
      Emit(AgentStart);
      Emit(TurnStart);
    }

    /** The run is over: its events are complete, and the events, the returned messages, the transcript
        and the context agree. */
    ghost predicate RunIsOver(before: seq<Message>, outset: Outset, batches: seq<seq<Message>>, effects: seq<Effect>)
      reads this, steering, followUps
    {
      Done(outset, batches, effects) && outset.start == before + outset.base && transcript == before + newMessages
    }

    /** A response threw and ended the run: what was said before it stands, the agent adds a message of
        its own, and the events are those of a whole run exactly when the response had not started. */
    ghost predicate RunHasFailed(before: seq<Message>, outset: Outset, batches: seq<seq<Message>>, turns: seq<TurnScript>)
      reads this, steering, followUps
      requires AllTurns(turns)
    {
      && LastThrows(turns, batches) && Follows(batches, Effects(turns)) && Since(outset, log, batches)
      && StopsAt(outset.base, batches, Effects(turns), newMessages)
      && var response := turns[|batches| - 1].response;
         var message := FailureMessageFor(response.ending.aborted);
         && transcript == before + Ends(events) && Ends(events) == newMessages + [message]
         && events != [] && events[|events| - 1] == AgentEnd([message])
         && (PlaceOf(events) == Finished <==> !Starts(response))
    }

    /** How a run went: over, failed because a response threw, or still waiting. */
    ghost predicate RunWent(progress: RunProgress, before: seq<Message>, outset: Outset,
                            batches: seq<seq<Message>>, turns: seq<TurnScript>)
      reads this, steering, followUps
      requires AllTurns(turns)
    {
      && active == (progress == RunWaits) && initial == before && batches != []
      && match progress
         case RunOver => NoneThrows(turns, |batches|) && RunIsOver(before, outset, batches, Effects(turns))
         case RunFailed => RunHasFailed(before, outset, batches, turns)
         case RunWaits => AwaitsAnswer(turns, batches) && Follows(batches, Effects(turns)) && Paused(outset, batches)
    }

    /** What a finished run comes to: the messages that ended are the ones returned and stored, and
        are the prompts followed by each turn's injected messages and its own; the messages injected
        from the queues are those of the turns; the context is the transcript unless a hook replaced
        it; and the events have the shape of a whole run. */
    lemma FinishedRun(before: seq<Message>, outset: Outset, batches: seq<seq<Message>>, effects: seq<Effect>)
      requires RunIsOver(before, outset, batches, effects)
      ensures newMessages == Ends(events) == outset.base + RunMessages(batches, effects)
      ensures transcript == before + newMessages
      ensures InjectedIn(outset.log) <= InjectedIn(log)
      ensures Untagged(InjectedIn(log)[|InjectedIn(outset.log)|..]) == Joined(batches)
      ensures (forall i :: 0 <= i < |batches| ==> effects[i].replacement.None?) ==> context == transcript
      ensures events[|events| - 1] == AgentEnd(newMessages)
      ensures forall k :: 0 <= k < |events| ==>
                && (events[k].AgentStart? <==> k == 0)
                && (events[k].AgentEnd? <==> k == |events| - 1)
      ensures TurnStarts(events) == TurnEnds(events) > 0
      ensures Alternates(Boundaries(events)) && |Boundaries(events)| % 2 == 0
    {
      FinishedShape(events);
      MessagesAlternate(events);
      if forall i :: 0 <= i < |batches| ==> effects[i].replacement.None? {
        ContextFollowsMessages(outset.start, batches, effects);
        Associate(before, outset.base, RunMessages(batches, effects));
      }
    }

    /** No queued message is lost, duplicated or reordered, over any runs: past what was taken before a
        queue was last cleared, the messages injected from it followed by those still in it are exactly
        those put into it since. */
    lemma QueuesConserve(which: QueueName)
      requires Valid()
      ensures var cleared := LastClear(log, which);
              var before := From(Taken(log[..cleared]), which);
              && before <= From(InjectedIn(log), which)
              && From(InjectedIn(log), which)[|before|..] + Queue(which).messages == EnqueuedIn(log[cleared..], which)
    {
      InjectedThenQueued(log, which);
    }

    /** In a run during which nobody puts a message into the empty queues, nothing is injected: each turn but
        the last asks for another and does not end the run, and a run that is over ended with a turn that
        does not ask for more or ends it. */
    lemma QuietRun(progress: RunProgress, before: seq<Message>, outset: Outset, batches: seq<seq<Message>>,
                   turns: seq<TurnScript>)
      requires Valid() && AllTurns(turns) && RunWent(progress, before, outset, batches, turns) && outset.quiet
      requires AccountOf(outset.log, Steering).content == [] && AccountOf(outset.log, FollowUp).content == []
      requires Taken(outset.log) == InjectedIn(outset.log)
      ensures forall k :: 0 <= k < |batches| ==> batches[k] == []
      ensures forall k :: 0 <= k < |batches| - 1 ==> k < |turns| && AsksForMore(turns[k]) && !EndsRun(turns[k])
      ensures progress == RunOver ==>
                && |batches| <= |turns|
                && (EndsRun(turns[|batches| - 1]) || !AsksForMore(turns[|batches| - 1]))
    {
      var n := |outset.log|;
      assert log[..n] == outset.log;
      NothingTaken(log, n);
      NoneJoined(batches);
      forall k | 0 <= k < |batches| && k < |turns|
        ensures Effects(turns)[k].wantsMore <==> AsksForMore(turns[k])
        ensures Effects(turns)[k].halts <==> EndsRun(turns[k])
      {
        EffectAt(Effects(turns), turns, k);
        TurnFollowsScript(turns[k]);
      }
      forall k | 0 <= k < |batches| - 1
        ensures k < |turns| && MayFollow(Effects(turns)[k], [])
      {
        assert batches[k + 1] == [];
      }
    }

    /** A plain answer ends a quiet run after its first turn. */
    lemma PlainAnswerEnds(progress: RunProgress, before: seq<Message>, outset: Outset, batches: seq<seq<Message>>,
                          turns: seq<TurnScript>)
      requires Valid() && AllTurns(turns) && RunWent(progress, before, outset, batches, turns) && outset.quiet
      requires AccountOf(outset.log, Steering).content == [] && AccountOf(outset.log, FollowUp).content == []
      requires Taken(outset.log) == InjectedIn(outset.log)
      requires turns != [] && turns[0].response.ending.Returns? && turns[0].response.result.calls == []
      ensures progress == RunOver && |batches| == 1 && newMessages == outset.base + [turns[0].response.result]
    {
      QuietRun(progress, before, outset, batches, turns);
      assert !AsksForMore(turns[0]) && |batches| == 1;
      var effects := Effects(turns);
      EffectAt(effects, turns, 0);
      TurnFollowsScript(turns[0]);
      assert effects[0].messages == [turns[0].response.result];
      assert batches[..0] == [];
      assert RunMessages(batches, effects) == [turns[0].response.result];
    }

    /** Run from these prompts until the run is over, fails, or waits for an answer its script does not
        have. */
    method RunPromptMessages(prompts: seq<Message>, ghost source: Option<QueueName>, skip: bool,
                             before: seq<QueueOp>, turns: seq<TurnScript>)
      returns (progress: RunProgress, ghost outset: Outset, ghost batches: seq<seq<Message>>)
      requires QueuesMatch() && StateFollows() && !active && PendingIds(events) == {} && Owed(log, source, prompts)
      requires AllTurns(turns)
      modifies this, steering, followUps
      ensures Valid() && RunWent(progress, old(transcript), outset, batches, turns)
      ensures old(log) <= outset.log <= log && outset.base == prompts
      ensures source.Some? ==> InjectedIn(outset.log) == old(InjectedIn(log)) + Tag(source.value, prompts)
      ensures source.None? ==> outset.log == old(log)
      ensures outset.quiet == (IsQuiet(before) && AllQuiet(turns))
      ensures skip ==> batches[0] == []
      ensures !skip && before == [] ==> batches[0] == old(Front(steering.mode, steering.messages))
    {
      StartRun(prompts, source, skip);
      outset := Outset(newMessages, context, log, IsQuiet(before) && AllQuiet(turns));
      progress, batches := PlayRun(outset, before, turns);
    }

    /** Play a run that has begun, and finish it or report its failure. */
    method PlayRun(ghost outset: Outset, before: seq<QueueOp>, turns: seq<TurnScript>)
      returns (progress: RunProgress, ghost batches: seq<seq<Message>>)
      requires Running() && BetweenTurns(PlaceOf(events), true) && Taken(log) == InjectedIn(log) && active
      requires AllTurns(turns) && outset == Outset(newMessages, context, log, IsQuiet(before) && AllQuiet(turns))
      requires outset.start == initial + outset.base
      modifies this, steering, followUps
      ensures Valid() && RunWent(progress, old(initial), outset, batches, turns) && outset.log <= log
      ensures old(skipInitialSteeringPoll) ==> batches[0] == []
      ensures !old(skipInitialSteeringPoll) && before == [] ==> batches[0] == old(Front(steering.mode, steering.messages))
    {
      var loop, last;
      loop, last, batches := RunLoop(before, turns, Effects(turns), outset);
      if loop == Complete {
        FinishRun(outset, batches, turns);
        progress := RunOver;
      } else if loop == Thrown {
        FailRun(old(initial), outset, batches, turns, turns[last].response.ending.aborted);
        progress := RunFailed;
      } else {
        progress := RunWaits;
      }
    }

    method FinishRun(ghost outset: Outset, ghost batches: seq<seq<Message>>, ghost turns: seq<TurnScript>)
      requires AllTurns(turns) && Done(outset, batches, Effects(turns)) && NoneThrows(turns, |batches|)
      requires outset.start == initial + outset.base
      modifies this`active, this`streamingMessage, this`pendingToolCalls
      ensures Valid() && RunWent(RunOver, old(initial), outset, batches, turns)
    {
      PendingAreRunning(events);
      OpenIsStreaming(events);
      ClearRun();
      DoneIsOver(outset, batches, turns);
    }

    lemma DoneIsOver(outset: Outset, batches: seq<seq<Message>>, turns: seq<TurnScript>)
      requires AllTurns(turns) && Done(outset, batches, Effects(turns)) && NoneThrows(turns, |batches|)
      requires outset.start == initial + outset.base && !active && PendingIds(events) == {} && streamingMessage == None
      ensures Valid() && RunWent(RunOver, initial, outset, batches, turns)
    {
    }

    /** Clear what belongs to the run. */
    method ClearRun()
      requires StateFollows() && PendingIds(events) == {} && !IsOpen(events)
      modifies this`active, this`streamingMessage, this`pendingToolCalls
      ensures StateFollows() && !active && streamingMessage == None
    {
      active, streamingMessage, pendingToolCalls := false, None, {};
    }

    /** Report the agent's own message for a run that threw, as a turn of its own. */
    method HandleRunFailure(aborted: bool)
      requires StateFollows()
      modifies this`events, this`transcript, this`streamingMessage, this`pendingToolCalls
      ensures StateFollows() && events == old(events) + FailureEvents(FailureMessageFor(aborted))
    {
      var message := FailureMessageFor(aborted);
      ProcessEvent(MessageStart(message));
      ProcessEvent(MessageEnd(message));
      ProcessEvent(TurnEnd(message, []));
      ProcessEvent(AgentEnd([message]));
    }

    /** A response threw: report the failure and clear what belongs to the run. */
    method FailRun(ghost before: seq<Message>, ghost outset: Outset, ghost batches: seq<seq<Message>>,
                   ghost turns: seq<TurnScript>, aborted: bool)
      requires Paused(outset, batches) && AllTurns(turns) && LastThrows(turns, batches) && initial == before
      requires Follows(batches, Effects(turns))
      requires StopsAt(outset.base, batches, Effects(turns), newMessages)
      requires ThrewAt(PlaceOf(events), Starts(turns[|batches| - 1].response))
      requires aborted == turns[|batches| - 1].response.ending.aborted
      modifies this`active, this`events, this`transcript, this`streamingMessage, this`pendingToolCalls
      ensures Valid() && RunWent(RunFailed, before, outset, batches, turns)
    {
      NothingRuns(events, Starts(turns[|batches| - 1].response));
      FailureFitsIff(events, FailureMessageFor(aborted));
      AfterFailure(events, FailureMessageFor(aborted));
      HandleRunFailure(aborted);
      ClearRun();
    }

    method Prompt(messages: seq<Message>, before: seq<QueueOp>, turns: seq<TurnScript>)
      returns (r: Result<RunProgress, AgentError>, ghost outset: Outset, ghost batches: seq<seq<Message>>)
      requires Valid() && AllTurns(turns)
      modifies this, steering, followUps
      ensures Valid() && old(log) <= log
      ensures r.Err? <==> old(active)
      ensures r.Err? ==> r.error == AlreadyProcessing && unchanged(this, steering, followUps)
      ensures r.Ok? ==> outset.base == messages && outset.log == old(log)
      ensures r.Ok? ==> RunWent(r.value, old(transcript), outset, batches, turns)
      ensures r.Ok? && before == [] ==> batches[0] == old(Front(steering.mode, steering.messages))
      ensures r.Ok? && IsQuiet(before) && AllQuiet(turns) && old(steering.messages == [] && followUps.messages == []) &&
              turns != [] && turns[0].response.ending.Returns? && turns[0].response.result.calls == [] ==>
                r.value == RunOver && |batches| == 1 && newMessages == messages + [turns[0].response.result]
    {
      outset, batches := Outset([], [], [], false), [];
      if active {
        return Err(AlreadyProcessing), outset, batches;
      }
      var progress;
      progress, outset, batches := RunPromptMessages(messages, None, false, before, turns);
      r := Ok(progress);
      if outset.quiet && AccountOf(outset.log, Steering).content == [] && AccountOf(outset.log, FollowUp).content == [] &&
         turns != [] && turns[0].response.ending.Returns? && turns[0].response.result.calls == [] {
        PlainAnswerEnds(progress, old(transcript), outset, batches, turns);
      }
    }

    /** The messages to continue with after an assistant message: steering messages come first. */
    function NextQueued(): seq<Message>
      reads steering, followUps
    {
      if steering.messages != [] then Front(steering.mode, steering.messages)
      else Front(followUps.mode, followUps.messages)
    }

    /** What continuing takes from the queues and injects at once. */
    ghost function NextTagged(): seq<(QueueName, Message)>
      reads this`transcript, steering, followUps
    {
      if !EndsWithAssistant(transcript) then []
      else Tag(if steering.messages != [] then Steering else FollowUp, NextQueued())
    }

    /** Continue from the transcript; after an assistant message, only with queued messages. */
    method Continue(before: seq<QueueOp>, turns: seq<TurnScript>)
      returns (r: Result<RunProgress, AgentError>, ghost outset: Outset, ghost batches: seq<seq<Message>>)
      requires Valid() && AllTurns(turns)
      modifies this, steering, followUps
      ensures Valid() && old(log) <= log
      ensures r == Err(AlreadyProcessing) <==> old(active)
      ensures r == Err(NothingToContinue) <==> old(!active && transcript == [])
      ensures r == Err(CannotContinue) <==>
              old(!active && EndsWithAssistant(transcript) && steering.messages == [] && followUps.messages == [])
      ensures r.Err? ==> active == old(active) && transcript == old(transcript) && events == old(events)
      ensures r.Err? ==> steering.messages == old(steering.messages) && followUps.messages == old(followUps.messages)
      ensures r.Ok? ==> outset.base == old(if EndsWithAssistant(transcript) then NextQueued() else [])
      ensures r.Ok? ==> old(log) <= outset.log && InjectedIn(outset.log) == old(InjectedIn(log)) + old(NextTagged())
      ensures r.Ok? ==> RunWent(r.value, old(transcript), outset, batches, turns)
      ensures r.Ok? && old(EndsWithAssistant(transcript) && steering.messages != []) ==> batches[0] == []
    {
      outset, batches := Outset([], [], [], false), [];
      if active {
        return Err(AlreadyProcessing), outset, batches;
      }
      if |transcript| == 0 {
        return Err(NothingToContinue), outset, batches;
      }
      if transcript[|transcript| - 1].Assistant? {
        r, outset, batches := ContinueFromQueues(before, turns);
      } else {
        var progress;
        progress, outset, batches := RunPromptMessages([], None, false, before, turns);
        r := Ok(progress);
      }
    }

    method ContinueFromQueues(before: seq<QueueOp>, turns: seq<TurnScript>)
      returns (r: Result<RunProgress, AgentError>, ghost outset: Outset, ghost batches: seq<seq<Message>>)
      requires Valid() && !active && AllTurns(turns) && EndsWithAssistant(transcript)
      modifies this, steering, followUps
      ensures Valid() && old(log) <= log
      ensures r.Err? <==> old(NextQueued()) == []
      ensures r.Err? ==> r.error == CannotContinue && unchanged(this`active, this`transcript, this`events)
      ensures r.Err? ==> steering.messages == old(steering.messages) && followUps.messages == old(followUps.messages)
      ensures r.Ok? ==> outset.base == old(NextQueued())
      ensures r.Ok? ==> old(log) <= outset.log && InjectedIn(outset.log) == old(InjectedIn(log)) + old(NextTagged())
      ensures r.Ok? ==> RunWent(r.value, old(transcript), outset, batches, turns)
      ensures r.Ok? && old(steering.messages != []) ==> batches[0] == []
    {
      var queued, source := TakeNext();
      if queued == [] {
        return Err(CannotContinue), Outset([], [], [], false), [];
      }
      var progress;
      progress, outset, batches := RunPromptMessages(queued, Some(source), source == Steering, before, turns);
      r := Ok(progress);
    }

    /** Drain the steering queue, or, when it was empty, the follow-up queue. */
    method TakeNext() returns (queued: seq<Message>, source: QueueName)
      requires QueuesMatch() && Taken(log) == InjectedIn(log)
      modifies this`log, steering`messages, followUps`messages
      ensures QueuesMatch() && Owed(log, Some(source), queued)
      ensures queued == old(NextQueued()) && source == old(if steering.messages != [] then Steering else FollowUp)
      ensures old(log) <= log && InjectedIn(log) == old(InjectedIn(log))
      ensures queued == [] ==>
                && Taken(log) == InjectedIn(log)
                && steering.messages == old(steering.messages) && followUps.messages == old(followUps.messages)
    {
      source := Steering;
      queued := DrainQueue(Steering);
      if queued == [] {
        source := FollowUp;
        queued := DrainQueue(FollowUp);
      }
    }

    /** Forget the transcript and both queues. */
    method Reset() returns (r: Result<(), AgentError>)
      requires Valid()
      modifies this, steering, followUps
      ensures Valid() && old(log) <= log
      ensures r.Err? <==> old(active)
      ensures r.Err? ==> r.error == AlreadyProcessing && unchanged(this, steering, followUps)
      ensures r.Ok? ==> transcript == [] && steering.messages == [] && followUps.messages == []
      ensures r.Ok? ==> steering.mode == old(steering.mode) && followUps.mode == old(followUps.mode)
    {
      if active {
        return Err(AlreadyProcessing);
      }
      transcript, streamingMessage, pendingToolCalls := [], None, {};
      initial, events := [], [];
      ClearAllQueues();
      r := Ok(());
    }
  }

  /** A run whose only response throws after its start: the agent's own events do not fit, and the run's
      events are not those of a whole run. */
  method ThrowAfterStart() returns (agent: Agent)
    ensures fresh(agent) && agent.Valid() && !agent.active
    ensures PlaceOf(agent.events) != Finished
    ensures agent.transcript != [] && agent.transcript[|agent.transcript| - 1] == Assistant("", [], Failure)
  {
    agent := new Agent(All, All, []);
    var partial := Assistant("", [], EndTurn);
    var response := Response([Start(partial)], partial, Throws(false));
    assert Starts(response) by {
      assert response.events[0].Start?;
    }
    var turn := TurnScript(response, [], false, [], None, false, [], []);
    var r, _, batches := agent.Prompt([Other("hello")], [], [turn]);
    assert [turn][0].response.ending.Throws?;
  }
}
