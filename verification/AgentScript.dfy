/** What the environment answers during a run: the model's responses, the tools, the hooks, and what
    other callers do to the queues meanwhile; and what a run with these answers comes to. */
module AgentScript {
  import opened Wrappers
  import opened AgentEvents
  import opened ToolCalls
  import opened ToolResults
  import opened PendingQueue

  datatype StreamEvent = Start(partial: Message) | Delta(partial: Message) | Done

  /** How a response ends: with its message, or with an error while the signal is or is not aborted. */
  datatype Ending = Returns | Throws(aborted: bool)

  /** A streamed response and the message its `result()` gives, if the stream does not throw before. */
  datatype Response = Response(events: seq<StreamEvent>, result: Message, ending: Ending)

  /** The response's start is reported before the response ends. */
  predicate Starts(r: Response) {
    exists i :: 0 <= i < |r.events| && r.events[i].Start? && forall k :: 0 <= k < i ==> !r.events[k].Done?
  }

  predicate IsResponse(r: Response) {
    && r.result.Assistant?
    && (forall i :: 0 <= i < |r.events| && !r.events[i].Done? ==> r.events[i].partial.Assistant?)
    && (forall i, j :: 0 <= i < j < |r.events| ==> !(r.events[i].Start? && r.events[j].Start?))
  }

  /** A start is among the first `n` events. */
  predicate StartedIn(events: seq<StreamEvent>, n: nat)
    requires n <= |events|
  {
    n > 0 && (StartedIn(events, n - 1) || events[n - 1].Start?)
  }

  lemma {:induction false} StartedMeans(events: seq<StreamEvent>, n: nat)
    requires n <= |events|
    ensures StartedIn(events, n) <==> exists i :: 0 <= i < n && events[i].Start?
  {
    if n > 0 {
      StartedMeans(events, n - 1);
    }
  }

  /** A response has at most one start. */
  lemma StartsOnce(r: Response, i: nat)
    requires IsResponse(r) && i < |r.events| && r.events[i].Start?
    ensures !StartedIn(r.events, i)
  {
    StartedMeans(r.events, i);
  }

  /** Read up to its end, a response has started exactly if it starts at all. */
  lemma StartedIffStarts(r: Response, n: nat)
    requires IsReadTo(r.events, n)
    ensures Starts(r) <==> StartedIn(r.events, n)
  {
    StartedMeans(r.events, n);
  }

  /** The stream is read up to here: to its end, or to the event that says it is done. */
  predicate IsReadTo(stream: seq<StreamEvent>, n: nat) {
    && n <= |stream| && (n < |stream| ==> stream[n].Done?)
    && forall k :: 0 <= k < n ==> !stream[k].Done?
  }

  /** What one event of the stream makes of the message: nothing before the start. */
  function Passed(event: StreamEvent, started: bool): seq<Event> {
    match event
    case Start(partial) => [MessageStart(partial)]
    case Delta(partial) => if started then [MessageUpdate(partial)] else []
    case Done => []
  }

  /** What the first `n` events make of it. */
  function PassedOn(stream: seq<StreamEvent>, n: nat): seq<Event>
    requires n <= |stream|
  {
    if n == 0 then [] else PassedOn(stream, n - 1) + Passed(stream[n - 1], StartedIn(stream, n - 1))
  }

  /** An event of the stream that is to be passed on: its start, and each partial message after it. */
  ghost predicate ToPassOn(stream: seq<StreamEvent>, i: nat) {
    i < |stream| && (stream[i].Start? || (stream[i].Delta? && exists k :: 0 <= k < i && stream[k].Start?))
  }

  function Told(event: StreamEvent): Event
    requires !event.Done?
  {
    if event.Start? then MessageStart(event.partial) else MessageUpdate(event.partial)
  }

  lemma PassedIs(stream: seq<StreamEvent>, i: nat)
    requires i < |stream|
    ensures Passed(stream[i], StartedIn(stream, i)) == if ToPassOn(stream, i) then [Told(stream[i])] else []
  {
    StartedMeans(stream, i);
  }

  /** The start is passed on as message_start and each later partial message as message_update: each comes
      right after what is passed on of the events before it. */
  lemma {:induction false} PassedInOrder(stream: seq<StreamEvent>, i: nat, n: nat)
    requires i < n <= |stream| && ToPassOn(stream, i)
    ensures PassedOn(stream, i) + [Told(stream[i])] <= PassedOn(stream, n)
    decreases n
  {
    PassedIs(stream, n - 1);
    if i < n - 1 {
      PassedInOrder(stream, i, n - 1);
    }
  }

  ghost function ToPass(stream: seq<StreamEvent>, n: nat): set<nat> {
    set i: nat | i < n && ToPassOn(stream, i)
  }

  /** And nothing else is. */
  lemma {:induction false} NothingElsePassed(stream: seq<StreamEvent>, n: nat)
    requires n <= |stream|
    ensures |PassedOn(stream, n)| == |ToPass(stream, n)|
  {
    if n == 0 {
      assert ToPass(stream, 0) == {};
    } else {
      NothingElsePassed(stream, n - 1);
      PassedIs(stream, n - 1);
      assert ToPass(stream, n) == ToPass(stream, n - 1) + if ToPassOn(stream, n - 1) then {n - 1} else {};
    }
  }

  datatype QueueOp =
    | DoEnqueue(queue: QueueName, message: Message)
    | DoClear(queue: QueueName)
    | DoSetMode(queue: QueueName, mode: QueueMode)

  /** A step of concurrently running tools: the tool of a call acts, or its end is reported. */
  datatype Move = Act(slot: nat, action: Action) | Finish(slot: nat)

  /** One turn's answers. `replacement` and `stop` are the hooks after the turn; `meanwhile` and
      `later` are what happens to the queues before the steering and the follow-up poll. */
  datatype TurnScript = TurnScript(
    response: Response, calls: seq<CallScript>, sequential: bool, moves: seq<Move>,
    replacement: Option<seq<Message>>, stop: bool, meanwhile: seq<QueueOp>, later: seq<QueueOp>)

  predicate IsTurn(t: TurnScript) {
    IsResponse(t.response) && |t.calls| == |t.response.result.calls|
  }

  /** The tool of this call settles, and afterwards its end is reported. */
  predicate Completes(moves: seq<Move>, slot: nat) {
    exists a, b :: 0 <= a < b < |moves| && moves[a] == Act(slot, Settle) && moves[b] == Finish(slot)
  }

  /** The calls before this one leave the signal alone. */
  predicate IsStarted(scripts: seq<CallScript>, i: nat) {
    i < |scripts| && forall k :: 0 <= k < i ==> !scripts[k].abortedAfter
  }

  /** A call that was started together with others has not come to its end. */
  ghost predicate IsUnfinished(calls: seq<CallScript>, moves: seq<Move>) {
    exists i: nat :: IsStarted(calls, i) && IsExecuted(calls[i].circumstances) && !Completes(moves, i)
  }

  /** The turn waits for one of its tools. */
  ghost predicate WaitsForTool(t: TurnScript) {
    && t.response.result.Assistant? && t.response.result.calls != []
    && t.response.result.stop !in {Failure, Aborted, Length} && !t.sequential && IsUnfinished(t.calls, t.moves)
  }

  /** Another turn follows to answer the results of this one: the response has calls and did not fail,
      and it was cut off, or the final result of some started call does not ask for the run to end. */
  ghost predicate AsksForMore(t: TurnScript) {
    && t.response.result.Assistant? && t.response.result.calls != [] && t.response.result.stop !in {Failure, Aborted}
    && (t.response.result.stop == Length || exists i: nat :: IsStarted(t.calls, i) && !AsksToEnd(t.calls[i]))
  }

  /** The run ends with this turn, whatever is queued. */
  predicate EndsRun(t: TurnScript) {
    (t.response.result.Assistant? && t.response.result.stop in {Failure, Aborted}) || t.stop
  }

  /** The results that follow the response. */
  predicate AreResults(t: TurnScript, results: seq<Message>) {
    t.response.result.Assistant? &&
    var calls := t.response.result.calls;
    if t.response.result.stop in {Failure, Aborted} || calls == [] then results == []
    else if t.response.result.stop == Length then
      && |results| == |calls|
      && forall i :: 0 <= i < |calls| ==> results[i] == ToolResult(calls[i].id, calls[i].name, CutOff(calls[i].name), true)
    else
      && |calls| == |t.calls| && |results| <= |calls| && StartsUpTo(t.calls, |results|)
      && forall i :: 0 <= i < |results| ==> IsResultOf(calls[i], t.calls[i], results[i])
  }

  predicate AllTurns(turns: seq<TurnScript>) {
    forall i :: 0 <= i < |turns| ==> IsTurn(turns[i])
  }

  /** None of the first `n` turns has a response that throws. */
  predicate NoneThrows(turns: seq<TurnScript>, n: nat) {
    forall i :: 0 <= i < n && i < |turns| ==> turns[i].response.ending.Returns?
  }

  /** These batches were injected before turns that did not throw, and before one that did. */
  predicate LastThrows(turns: seq<TurnScript>, batches: seq<seq<Message>>) {
    && 0 < |batches| <= |turns| && NoneThrows(turns, |batches| - 1)
    && turns[|batches| - 1].response.ending.Throws?
  }

  lemma OneMoreReturns(turns: seq<TurnScript>, batches: seq<seq<Message>>)
    requires batches != [] && NoneThrows(turns, |batches| - 1)
    ensures if |batches| <= |turns| && turns[|batches| - 1].response.ending.Throws? then LastThrows(turns, batches)
            else NoneThrows(turns, |batches|)
  {
  }

  /** Where the trace stands when a response threw. */
  predicate ThrewAt(place: Place, started: bool) {
    if started then place.Streaming? && place.turn.Turn? && place.turn.running == map[]
    else place.Turn? && place.running == map[]
  }

  lemma NothingRuns(events: seq<Event>, started: bool)
    requires ThrewAt(PlaceOf(events), started)
    ensures PendingIds(events) == {}
    ensures PlaceOf(events).Turn? && PlaceOf(events).running == map[] <==> !started
  {
    PendingAreRunning(events);
  }

  /** What the agent adds to its transcript when a run throws. */
  function FailureMessageFor(aborted: bool): Message {
    Assistant("", [], if aborted then Aborted else Failure)
  }

  /** The model failed, or was aborted. */
  predicate Fails(message: Message) {
    message.Assistant? && (message.stop == Failure || message.stop == Aborted)
  }

  /** The batch of a turn's calls; with no calls there is nothing to go on for. */
  function TurnBatch(t: TurnScript): Batch
    requires IsTurn(t)
  {
    var message := t.response.result;
    if message.calls == [] then Batch([], true)
    else if message.stop == Length then FailedBatch(message.calls)
    else BatchOf(message.calls, t.calls)
  }

  lemma BatchAnswers(t: TurnScript)
    requires IsTurn(t)
    ensures Answers(t.response.result, TurnBatch(t).messages)
  {
    ResultsAnswer(t.response.result, t.calls, StartedCalls(t.calls));
  }

  /** Calls of a message that was cut off are not executed: whatever the tools would have answered, each
      gets an error in place of its result, in order, and another turn follows. */
  lemma CutOffCallsAllFail(t: TurnScript, other: TurnScript)
    requires IsTurn(t) && IsTurn(other) && other.response == t.response
    requires t.response.result.stop == Length && t.response.result.calls != []
    ensures var b := TurnBatch(t);
            && b == TurnBatch(other) && |b.messages| == |t.response.result.calls| && Answers(t.response.result, b.messages)
            && (forall i :: 0 <= i < |b.messages| ==> b.messages[i].isError)
            && EffectOf(t).wantsMore
  {
    BatchAnswers(t);
  }

  lemma StartedIff(scripts: seq<CallScript>, n: nat)
    requires StartsUpTo(scripts, n)
    ensures forall i: nat :: i < n <==> IsStarted(scripts, i)
  {
    forall i: nat
      ensures i < n <==> IsStarted(scripts, i)
    {
      if n <= i < |scripts| {
        assert scripts[n - 1].abortedAfter;
      }
    }
  }

  /** What a turn does, in terms of its script alone. */
  lemma TurnFollowsScript(t: TurnScript)
    requires IsTurn(t)
    ensures var e := EffectOf(t);
            && (e.wantsMore <==> AsksForMore(t)) && (e.halts <==> EndsRun(t))
            && e.messages != [] && e.messages[0] == t.response.result && AreResults(t, e.messages[1..])
            && e.replacement == if t.response.result.stop in {Failure, Aborted} then None else t.replacement
  {
    TurnHasResults(t);
    TurnAsksIff(t);
    AfterFirst(t.response.result, TurnResults(t));
  }

  function TurnResults(t: TurnScript): seq<Message>
    requires IsTurn(t)
  {
    if Fails(t.response.result) then [] else TurnBatch(t).messages
  }

  lemma AfterFirst(m: Message, results: seq<Message>)
    ensures ([m] + results)[1..] == results
  {
  }

  lemma TurnHasResults(t: TurnScript)
    requires IsTurn(t)
    ensures AreResults(t, TurnResults(t))
  {
    BatchIsFromScripts(t.response.result.calls, t.calls);
  }

  lemma TurnAsksIff(t: TurnScript)
    requires IsTurn(t)
    ensures !Fails(t.response.result) && !TurnBatch(t).terminate <==> AsksForMore(t)
  {
    if t.response.result.calls != [] {
      BatchAsksIff(t);
    }
  }

  lemma BatchAsksIff(t: TurnScript)
    requires IsTurn(t) && t.response.result.calls != []
    ensures !BatchOf(t.response.result.calls, t.calls).terminate <==>
            exists i: nat :: IsStarted(t.calls, i) && !AsksToEnd(t.calls[i])
  {
    var batch := BatchOf(t.response.result.calls, t.calls);
    BatchIsFromScripts(t.response.result.calls, t.calls);
    var n := |batch.messages|;
    StartedIff(t.calls, n);
    if i :| 0 <= i < n && !AsksToEnd(t.calls[i]) {
      assert IsStarted(t.calls, i);
    }
  }

  /** What one turn adds to the transcript after the messages injected into it. */
  function TurnMessages(t: TurnScript): seq<Message>
    requires IsTurn(t)
  {
    [t.response.result] + TurnResults(t)
  }

  lemma TurnAppends(before: seq<Message>, t: TurnScript)
    requires IsTurn(t)
    ensures var m := t.response.result;
            before + TurnMessages(t) == if Fails(m) then before + [m] else before + [m] + TurnBatch(t).messages
  {
    Associate(before, [t.response.result], TurnBatch(t).messages);
  }

  /** All that a turn does to the loop: its messages, the context a hook puts in place of the old
      one (a turn that failed has no hooks), whether the run ends with it whatever is queued, and
      whether its tool results ask for another turn. */
  datatype Effect = Effect(messages: seq<Message>, replacement: Option<seq<Message>>, halts: bool, wantsMore: bool)

  function EffectOf(t: TurnScript): Effect
    requires IsTurn(t)
  {
    var fails := Fails(t.response.result);
    Effect(TurnMessages(t), if fails then None else t.replacement, fails || t.stop,
           !fails && !TurnBatch(t).terminate)
  }

  predicate AreEffects(effects: seq<Effect>, turns: seq<TurnScript>) {
    && |effects| == |turns| && AllTurns(turns)
    && forall i {:trigger EffectOf(turns[i])} :: 0 <= i < |turns| ==> effects[i] == EffectOf(turns[i])
  }

  function Effects(turns: seq<TurnScript>): (r: seq<Effect>)
    requires AllTurns(turns)
    ensures AreEffects(r, turns)
  {
    seq(|turns|, i requires 0 <= i < |turns| => EffectOf(turns[i]))
  }

  predicate EndsWithAssistant(transcript: seq<Message>) {
    transcript != [] && transcript[|transcript| - 1].Assistant?
  }

  lemma EffectAt(effects: seq<Effect>, turns: seq<TurnScript>, i: nat)
    requires AreEffects(effects, turns) && i < |turns|
    ensures IsTurn(turns[i]) && effects[i] == EffectOf(turns[i])
  {
  }

  /** A turn follows another when that one did not halt the run and either its tool results ask for it
      or messages were waiting. */
  predicate MayFollow(before: Effect, batch: seq<Message>) {
    !before.halts && (before.wantsMore || batch != [])
  }

  /** Whether the last turn's tool results ask for another. */
  predicate Wants(batches: seq<seq<Message>>, effects: seq<Effect>, more: bool) {
    0 < |batches| <= |effects| && more == effects[|batches| - 1].wantsMore
  }

  predicate Follows(batches: seq<seq<Message>>, effects: seq<Effect>) {
    forall k :: 0 < k < |batches| ==> k <= |effects| && MayFollow(effects[k - 1], batches[k])
  }

  /** The messages of the first turns, each with the batch injected before its response. */
  function RunMessages(batches: seq<seq<Message>>, effects: seq<Effect>): seq<Message>
    requires |batches| <= |effects|
  {
    if batches == [] then []
    else
      var n := |batches| - 1;
      RunMessages(batches[..n], effects) + (batches[n] + effects[n].messages)
  }

  /** The working context after these turns. */
  function ContextAfter(start: seq<Message>, batches: seq<seq<Message>>, effects: seq<Effect>): seq<Message>
    requires |batches| <= |effects|
  {
    if batches == [] then start
    else
      var n := |batches| - 1;
      if effects[n].replacement.Some? then effects[n].replacement.value
      else ContextAfter(start, batches[..n], effects) + (batches[n] + effects[n].messages)
  }

  lemma OneMoreTurn(start: seq<Message>, batches: seq<seq<Message>>, batch: seq<Message>, effects: seq<Effect>)
    requires |batches| < |effects|
    ensures var e := effects[|batches|];
            && RunMessages(batches + [batch], effects) == RunMessages(batches, effects) + (batch + e.messages)
            && ContextAfter(start, batches + [batch], effects) ==
               if e.replacement.Some? then e.replacement.value
               else ContextAfter(start, batches, effects) + (batch + e.messages)
  {
    assert (batches + [batch])[..|batches|] == batches;
  }

  lemma OneMoreFollows(batches: seq<seq<Message>>, batch: seq<Message>, effects: seq<Effect>)
    requires Follows(batches, effects) && |batches| <= |effects|
    requires batches != [] ==> MayFollow(effects[|batches| - 1], batch)
    ensures Follows(batches + [batch], effects)
  {
    var more := batches + [batch];
    forall k | 0 < k < |more|
      ensures MayFollow(effects[k - 1], more[k])
    {
      assert more[k] == if k < |batches| then batches[k] else batch;
    }
  }

  /** The run has no answer yet for the turn before which the last batch was injected: there is none in
      its script, or the turn waits for a tool. */
  ghost predicate AwaitsAnswer(turns: seq<TurnScript>, batches: seq<seq<Message>>) {
    && 0 < |batches| <= |turns| + 1 && NoneThrows(turns, |batches|)
    && (|batches| <= |turns| ==> WaitsForTool(turns[|batches| - 1]))
  }

  /** A run's messages and context after these turns, when it started from `base` and `start`. */
  predicate ComesTo(base: seq<Message>, start: seq<Message>, batches: seq<seq<Message>>, effects: seq<Effect>,
                    messages: seq<Message>, context: seq<Message>)
  {
    && |batches| <= |effects| && Follows(batches, effects)
    && messages == base + RunMessages(batches, effects)
    && context == ContextAfter(start, batches, effects)
  }

  /** The messages when the run stopped before the response of the last of these turns. */
  predicate StopsAt(base: seq<Message>, batches: seq<seq<Message>>, effects: seq<Effect>, messages: seq<Message>) {
    && 0 < |batches| <= |effects|
    && messages == base + RunMessages(batches[..|batches| - 1], effects) + batches[|batches| - 1]
  }

  lemma StopsNext(base: seq<Message>, start: seq<Message>, batches: seq<seq<Message>>, effects: seq<Effect>,
                  messages: seq<Message>, context: seq<Message>, batch: seq<Message>)
    requires ComesTo(base, start, batches, effects, messages, context) && |batches| < |effects|
    ensures StopsAt(base, batches + [batch], effects, messages + batch)
  {
    assert (batches + [batch])[..|batches|] == batches;
  }

  lemma ComesToNext(base: seq<Message>, start: seq<Message>, batches: seq<seq<Message>>, effects: seq<Effect>,
                    messages: seq<Message>, context: seq<Message>, batch: seq<Message>)
    requires ComesTo(base, start, batches, effects, messages, context) && |batches| < |effects|
    requires batches != [] ==> MayFollow(effects[|batches| - 1], batch)
    ensures var e := effects[|batches|];
            ComesTo(base, start, batches + [batch], effects, messages + (batch + e.messages),
                    if e.replacement.Some? then e.replacement.value else context + (batch + e.messages))
  {
    OneMoreTurn(start, batches, batch, effects);
    OneMoreFollows(batches, batch, effects);
    Associate(base, RunMessages(batches, effects), batch + effects[|batches|].messages);
  }

  /** The history of what other callers do to the queues. */
  function HistoryOf(ops: seq<QueueOp>): seq<QueueEvent> {
    if ops == [] then []
    else
      var front := HistoryOf(ops[..|ops| - 1]);
      match ops[|ops| - 1]
      case DoEnqueue(queue, message) => front + [Enqueued(queue, message)]
      case DoClear(queue) => front + [Cleared(queue)]
      case DoSetMode(_, _) => front
  }

  /** Nobody puts a message into a queue. */
  predicate IsQuiet(ops: seq<QueueOp>) {
    forall i :: 0 <= i < |ops| ==> !ops[i].DoEnqueue?
  }

  predicate AllQuiet(turns: seq<TurnScript>) {
    forall i :: 0 <= i < |turns| ==> IsQuiet(turns[i].meanwhile) && IsQuiet(turns[i].later)
  }

  /** The messages, the context and the history of the queues from which the loop of a run sets out, and
      whether nobody puts a message into a queue during the run. */
  datatype Outset = Outset(base: seq<Message>, start: seq<Message>, log: seq<QueueEvent>, quiet: bool)

  /** Since then the history was only extended, exactly these batches were injected, and in a quiet run
      nothing was put into a queue. */
  predicate Since(outset: Outset, log: seq<QueueEvent>, batches: seq<seq<Message>>) {
    && outset.log <= log && InjectedSince(log, InjectedIn(outset.log), batches)
    && (outset.quiet ==> NothingNew(outset.log, log))
  }

  lemma SinceStart(base: seq<Message>, start: seq<Message>, log: seq<QueueEvent>, quiet: bool)
    ensures Since(Outset(base, start, log, quiet), log, [])
  {
  }

  lemma SinceUse(outset: Outset, log: seq<QueueEvent>, log': seq<QueueEvent>, batches: seq<seq<Message>>)
    requires Since(outset, log, batches) && log <= log' && InjectedIn(log') == InjectedIn(log)
    requires outset.quiet ==> NothingNew(log, log')
    ensures Since(outset, log', batches)
  {
  }

  lemma SinceBatch(outset: Outset, log: seq<QueueEvent>, log': seq<QueueEvent>, batches: seq<seq<Message>>,
                   queue: QueueName, batch: seq<Message>)
    requires Since(outset, log, batches) && log <= log' && InjectedIn(log') == InjectedIn(log) + Tag(queue, batch)
    requires NothingNew(log, log')
    ensures Since(outset, log', batches + [batch])
  {
    OneMoreBatch(log, log', InjectedIn(outset.log), batches, queue, batch);
  }

  /** The run has ended: its events are complete, and its last turn halted it, or asked for no more while
      both queues had nothing to give. */
  predicate Concludes(outset: Outset, batches: seq<seq<Message>>, effects: seq<Effect>, events: seq<Event>,
                      log: seq<QueueEvent>, followUps: seq<Message>, messages: seq<Message>, context: seq<Message>) {
    && Taken(log) == InjectedIn(log) && Since(outset, log, batches)
    && PlaceOf(events) == Finished && events[|events| - 1] == AgentEnd(messages)
    && batches != [] && ComesTo(outset.base, outset.start, batches, effects, messages, context)
    && (effects[|batches| - 1].halts ||
        (Wants(batches, effects, false) && LastSteering(log) == Some([]) && followUps == []))
  }

  /** Unless a hook replaces it, the context is the initial one followed by the run's messages. */
  lemma {:induction false} ContextFollowsMessages(
      start: seq<Message>, batches: seq<seq<Message>>, effects: seq<Effect>)
    requires |batches| <= |effects|
    requires forall i :: 0 <= i < |batches| ==> effects[i].replacement.None?
    ensures ContextAfter(start, batches, effects) == start + RunMessages(batches, effects)
  {
    if batches != [] {
      var n := |batches| - 1;
      ContextFollowsMessages(start, batches[..n], effects);
      Associate(start, RunMessages(batches[..n], effects), batches[n] + effects[n].messages);
    }
  }

  lemma Associate(a: seq<Message>, b: seq<Message>, c: seq<Message>)
    ensures (a + b) + c == a + (b + c)
  {
  }

  predicate NoneSettles(actions: seq<Action>) {
    forall k :: 0 <= k < |actions| ==> actions[k] != Settle
  }

  /** The partial results a tool reports before it settles. */
  function EarlyReports(actions: seq<Action>): set<nat> {
    set i: nat | i < |actions| && actions[i] == Report && NoneSettles(actions[..i])
  }

  /** Since these events exactly one update was emitted for each report of the tool before it settled. */
  predicate HasReported(before: seq<Event>, events: seq<Event>, slot: nat, id: string, actions: seq<Action>) {
    && before <= events && |events| == |before| + |EarlyReports(actions)|
    && forall k :: |before| <= k < |events| ==> events[k] == ToolUpdate(slot, id)
  }

  lemma NoneReported(events: seq<Event>, slot: nat, id: string)
    ensures HasReported(events, events, slot, id, [])
  {
    assert EarlyReports([]) == {};
  }

  lemma NextReport(before: seq<Event>, events: seq<Event>, slot: nat, id: string, actions: seq<Action>, i: nat)
    requires i < |actions| && HasReported(before, events, slot, id, actions[..i])
    ensures NoneSettles(actions[..i + 1]) == (NoneSettles(actions[..i]) && actions[i] != Settle)
    ensures HasReported(before,
                        if NoneSettles(actions[..i]) && actions[i] == Report then events + [ToolUpdate(slot, id)] else events,
                        slot, id, actions[..i + 1])
  {
    var front, next := actions[..i], actions[..i + 1];
    assert next == front + [actions[i]];
    assert forall k: nat :: k < i ==> next[..k] == front[..k];
    assert next[..i] == front;
    assert EarlyReports(next) ==
           EarlyReports(front) + if actions[i] == Report && NoneSettles(front) then {i as nat} else {};
  }

  /** How far a concurrently started call has come. */
  datatype CallPhase = Working | Quiet | Over

  /** The calls still running, in terms of their phases, and what those that are over reported. */
  function RunningCalls(calls: seq<Call>, phases: seq<CallPhase>): map<nat, string>
    requires |phases| <= |calls|
  {
    map i: nat | i < |phases| && phases[i] != Over :: calls[i].id
  }

  function EndedCalls(results: seq<Option<Finalized>>): map<nat, EndReport> {
    map i: nat | i < |results| && results[i].Some? :: ReportOf(results[i].value)
  }

  lemma AddPhase(calls: seq<Call>, phases: seq<CallPhase>, phase: CallPhase)
    requires |phases| < |calls|
    ensures var k := |phases|;
            && RunningCalls(calls, phases + [phase]) ==
               (if phase == Over then RunningCalls(calls, phases) else RunningCalls(calls, phases)[k := calls[k].id])
            && k !in RunningCalls(calls, phases)
  {
  }

  lemma AddResult(results: seq<Option<Finalized>>, result: Option<Finalized>)
    ensures var k := |results|;
            && EndedCalls(results + [result]) ==
               (if result.Some? then EndedCalls(results)[k := ReportOf(result.value)] else EndedCalls(results))
            && k !in EndedCalls(results)
  {
  }

  lemma ChangePhase(calls: seq<Call>, phases: seq<CallPhase>, k: nat, phase: CallPhase)
    requires |phases| <= |calls| && k < |phases| && phases[k] != Over
    ensures k in RunningCalls(calls, phases) && RunningCalls(calls, phases)[k] == calls[k].id
    ensures RunningCalls(calls, phases[k := phase]) ==
            (if phase == Over then RunningCalls(calls, phases) - {k} else RunningCalls(calls, phases))
  {
  }

  lemma SetResult(results: seq<Option<Finalized>>, k: nat, f: Finalized)
    requires k < |results|
    ensures EndedCalls(results[k := Some(f)]) == EndedCalls(results)[k := ReportOf(f)]
  {
  }

  /** What one move does to the phase of this call. */
  function PhaseAfter(phase: CallPhase, move: Move, slot: nat): CallPhase {
    if move == Act(slot, Settle) && phase == Working then Quiet
    else if move == Finish(slot) && phase == Quiet then Over
    else phase
  }

  /** How far the moves so far take a call that was started at this phase. */
  predicate MovedTo(moves: seq<Move>, slot: nat, phase: CallPhase) {
    && (phase == Over <==> Completes(moves, slot))
    && (phase == Working <==> forall i :: 0 <= i < |moves| ==> moves[i] != Act(slot, Settle))
  }

  lemma MovedNext(moves: seq<Move>, move: Move, slot: nat, phase: CallPhase)
    requires MovedTo(moves, slot, phase)
    ensures MovedTo(moves + [move], slot, PhaseAfter(phase, move, slot))
  {
    var more := moves + [move];
    if a, b :| 0 <= a < b < |moves| && moves[a] == Act(slot, Settle) && moves[b] == Finish(slot) {
      assert more[a] == Act(slot, Settle) && more[b] == Finish(slot);
    }
    if i :| 0 <= i < |moves| && moves[i] == Act(slot, Settle) {
      assert more[i] == Act(slot, Settle) && more[|moves|] == move;
    }
    assert more[|moves|] == move;
  }

  /** Where a call stands once it was started: at work, or over because it was refused. */
  function StartPhase(script: CallScript): CallPhase {
    if IsExecuted(script.circumstances) then Working else Over
  }

  predicate AreStartPhases(scripts: seq<CallScript>, phases: seq<CallPhase>) {
    |phases| <= |scripts| && forall k :: 0 <= k < |phases| ==> phases[k] == StartPhase(scripts[k])
  }

  /** Each call that was at work at the start is where its moves have taken it. */
  predicate AllMoved(moves: seq<Move>, start: seq<CallPhase>, phases: seq<CallPhase>) {
    && |phases| == |start|
    && forall k :: 0 <= k < |start| ==>
         if start[k] == Working then MovedTo(moves, k, phases[k]) else phases[k] == start[k]
  }

  lemma MovedOn(scripts: seq<CallScript>, moves: seq<Move>, i: nat, start: seq<CallPhase>, phases: seq<CallPhase>)
    requires i < |moves| && AreStartPhases(scripts, start) && AllMoved(moves[..i], start, phases)
    ensures var slot := moves[i].slot;
            AllMoved(moves[..i + 1], start,
                     if slot < |phases| then phases[slot := PhaseAfter(phases[slot], moves[i], slot)] else phases)
  {
    forall k | 0 <= k < |start| && start[k] == Working
      ensures MovedTo(moves[..i + 1], k, PhaseAfter(phases[k], moves[i], k))
    {
      MovedNext(moves[..i], moves[i], k, phases[k]);
      assert moves[..i] + [moves[i]] == moves[..i + 1];
    }
  }

  lemma UnfinishedIff(scripts: seq<CallScript>, moves: seq<Move>, start: seq<CallPhase>, phases: seq<CallPhase>)
    requires |start| == StartedCalls(scripts) && AreStartPhases(scripts, start) && AllMoved(moves, start, phases)
    ensures (forall i :: 0 <= i < |phases| ==> phases[i] == Over) <==> !IsUnfinished(scripts, moves)
  {
    StartedIff(scripts, |start|);
    if i :| 0 <= i < |phases| && phases[i] != Over {
      assert IsStarted(scripts, i) && IsExecuted(scripts[i].circumstances) && !Completes(moves, i);
    }
  }

  function Reports(finalized: seq<Finalized>): map<nat, EndReport> {
    map i: nat | i < |finalized| :: ReportOf(finalized[i])
  }

  lemma ReportsMatch(finalized: seq<Finalized>)
    ensures MatchReports(Messages(finalized), Reports(finalized))
  {
  }

  lemma AllOver(calls: seq<Call>, phases: seq<CallPhase>, results: seq<Option<Finalized>>, finalized: seq<Finalized>)
    requires |phases| == |results| == |finalized| <= |calls|
    requires forall i :: 0 <= i < |phases| ==> phases[i] == Over && results[i] == Some(finalized[i])
    ensures RunningCalls(calls, phases) == map[] && EndedCalls(results) == Reports(finalized)
  {
  }

  /** The first of these batches, or the one that comes next. */
  function FirstOf(batches: seq<seq<Message>>, pending: seq<Message>): seq<Message> {
    if batches == [] then pending else batches[0]
  }

  lemma FirstNext(batches: seq<seq<Message>>, pending: seq<Message>)
    ensures forall more: seq<Message> :: FirstOf(batches + [pending], more) == FirstOf(batches, pending)
  {
  }
}
