# Verified models of the agent, its server and its client

The repository is a coding agent with a server that shares sessions between clients. This project
models its state machines, codecs and loops in Dafny 4.11 and proves what they keep over every run,
every chunking, every completion order and every object graph. `dafny verify dfyconfig.toml` checks
everything.

Code that changes things step by step is modelled by classes and loops; each method is proved against
a specification function, and the properties are proved about that function. Asynchronous code is
modelled as a transition system with one step per stretch between awaits (or between callbacks), and
the classes beside it have one method per stretch, proved to take exactly that step. A run may take
any pending stretch next.

| files | what they model |
|---|---|
| `FrameFormat`, `FrameDelivery`, `FrameDecoder`, `MessageDecoder`, `MessageDelivery` | length-prefixed framing, its block-list decoder, and the message decoder on top |
| `SessionState`, `SessionInvariant`, `SessionSafety`, `SessionReservations`, `SessionAttachment`, `SessionOutcomes`, `SessionManager` | live sessions, their openings and disposals, who is attached to them, and connection stages |
| `SnapshotState`, `SnapshotDelivery`, `SnapshotPublisher` | server snapshots, their revisions, what each broadcast brings, and their convergence at the clients |
| `AgentEvents`, `ToolTraces`, `TurnTraces`, `ToolCalls`, `ToolResults`, `PendingQueue`, `AgentScript`, `AgentLoop` | the agent loop, its events, its tool batches and its two queues |
| `Catalog`, `ProviderCatalog` | publication of refreshed models, and the overlay a provider offers |
| `Values`, `JsonConversion`, `JsonErrors`, `JsonUnfolding`, `Sanitizer`, `SanitizerCopies`, `ValueWalker` | conversion of object graphs to JSON trees and the protocol's test of them |
| `ClientConnection`, `ClientOutcomes`, `Client` | the client's connection, transports and requests |
| `Whitespace`, `ProxyStream`, `ProxyOutcomes` | a response relayed as lines of events |
| `FuzzyMatching`, `FuzzyScores`, `FuzzyFilter` | fuzzy matching, its scores, and filtering |

## Where a property fails, and exactly when

The code is modelled as it is. Each of these properties has a concrete input at which it fails and an
if-and-only-if theorem.

- "The conversion returns the tree unfolding of a value, and the protocol's test accepts it" fails for
  an own key `__proto__`: `result[key] = value` then sets the prototype of the copy, or does nothing
  for a primitive (`JsonUnfolding.ProtoKeyIsLost`). The copy is the unfolding if and only if no object
  on the way has such a key (`JsonUnfolding.ConvertedUnfoldsIff`). The copy, or a sanitized value,
  passes the conversion unchanged and the protocol's test if and only if no such key met on the way has
  a copy that is null, an array or an object (`Sanitizer.ConvertedPassesIff`,
  `Sanitizer.SanitizedPassesIff`); `Sanitizer.CopyIsRefused` is an object for which it does not.
- "However a stream is cut, the same frames are delivered" fails when an oversize header follows frames
  in one `push`: the error drops them (`FrameDelivery.FrameLostInOnePush`). It holds if and only if no
  length in the stream is above the limit or the very first one is
  (`FrameDelivery.DeliveryIsChunkIndependentIff`).
- "However a stream is cut, the same messages are delivered" fails in the same way for a frame that does
  not decode (`MessageDelivery.MessageLostInOnePush`). It holds if and only if nothing in the stream
  fails or its very first frame or length does (`MessageDelivery.MessagesAreChunkIndependentIff`).
- "The events of every run that ends are those of a whole run" fails when a response throws after its
  start, since the agent then starts its own message while one is open (`AgentLoop.ThrowAfterStart`).
  A run whose response throws has the events of a whole run if and only if the response had not
  started (`RunHasFailed` in the contract of `AgentLoop.Agent.RunPromptMessages`).

## Model

| member | source | states |
|---|---|---|
| SessionSafety.AtMostOneRuntime | packages/server/src/sessions.ts:186-246 | over every run, outside shutdown, at most one opening or not yet fully disposed runtime exists per session id, and that id is listed in `openingSessions` or `liveSessions` |
| SessionSafety.HolderIsListed | packages/server/src/sessions.ts:186-246 | whatever holds a session id (an opening, or a runtime whose dispose has not settled) is exactly what the two maps say of that id |
| SessionSafety.DisposedAtMostOnce | packages/server/src/sessions.ts:152-169 | every runtime the service handed over has `dispose` called at most once in every run, shutdown included |
| SessionSafety.DisposalStartsUnused | packages/server/src/sessions.ts:324-345 | outside shutdown a dispose call either refuses a runtime that was never published or ends a session with no connection, no operation and an idle or terminal runtime |
| SessionSafety.NoOperationAfterDisposal | packages/server/src/sessions.ts:171-184 | once a runtime's `dispose` has been called no operation on it is in flight outside shutdown, whether or not it was ever published |
| SessionSafety.AttachedAreConnected | packages/server/src/sessions.ts:300-307 | a connection in a registered session's set lists that session in its own `sessionIds`, completed its handshake and is not disconnected |
| SessionSafety.NoCommandBeforeReady | packages/server/src/server.ts:185-219 | a command exists only for a connection that completed its handshake |
| SessionSafety.StagesMoveForward | packages/server/src/server.ts:221-341 | between any two states of a run a connection's stage rank does not go down, it is not reconnected, and once disconnected it is in no registered session |
| SessionSafety.RunKeepsInv | packages/server/src/sessions.ts:47-345 | the whole invariant holds in every state of every run |
| SessionAttachment.StartsOnlyAttached | packages/server/src/sessions.ts:309-318 | over every run an operation starts only for a connection that attached to that session and has neither detached from it nor disconnected since, on the runtime listed for it, while that is neither terminal nor disposing |
| SessionAttachment.ListsIff | packages/server/src/sessions.ts:300-307 | a connection lists a session exactly if it attached to it and has neither detached nor disconnected since |
| SessionAttachment.MembersIff | packages/server/src/sessions.ts:300-307 | a session's set holds exactly the connections that attached to it and have not left it since |
| SessionAttachment.StageIff | packages/server/src/server.ts:221-341 | a connection is in its handshake, or ready, exactly from the stretch that brings it there until one that ends it |
| SessionAttachment.OnlyReadyMayAsk | packages/server/src/server.ts:185-219 | requests are executed only for a connection whose handshake was completed and that nothing has ended since |
| SessionOutcomes.CommandBegins | packages/server/src/sessions.ts:62-72 | a create or attach command begins by looking for its session |
| SessionOutcomes.NothingStartsAfterError | packages/server/src/sessions.ts:248-275 | once a runtime has reported an error no operation starts on it and nobody is sent to attach to it |
| SessionOutcomes.CommandEndsIff | packages/server/src/sessions.ts:186-207 | a command ends exactly because its session is terminating, its awaited disposal or opening failed, it has come to attach, or its operation is over |
| SessionOutcomes.JoinersShare | packages/server/src/sessions.ts:195-206 | all commands that waited for one opening go on to attach to its one runtime, or all fail |
| SessionOutcomes.ClosingIff | packages/server/src/server.ts:152-160 | the server is closing exactly from when its close began |
| SessionReservations.ReservedIsReleased | packages/server/src/sessions.ts:197-206 | an id in `openingSessions` always has a command waiting for it, which takes the id out as soon as its opening has settled |
| SessionInvariant.StepKeepsInv | packages/server/src/sessions.ts:47-345 | each uninterrupted stretch keeps links between the tables, reservations, the account of every runtime, attachment, stages and operation counts |
| SessionInvariant.AcquireKeepsInv | packages/server/src/sessions.ts:186-207 | an iteration of the retry loop starts an opening only for an id that is neither live nor opening |
| SessionInvariant.ResumeKeepsInv | packages/server/src/sessions.ts:200-205 | the starter of an opening clears only its own entry |
| SessionInvariant.CheckSucceedsKeepsInv | packages/server/src/sessions.ts:209-236 | publishing a checked runtime moves its id from the openings to the live sessions |
| SessionInvariant.MaybeDisposeKeepsInv | packages/server/src/sessions.ts:324-345 | starting a disposal keeps every account: one dispose call, still listed until it settles |
| SessionInvariant.SweepKeepsInv | packages/server/src/sessions.ts:152-169 | the sweep of a shutdown disposes of each session whose disposal had not started, once |
| SessionManager.LiveSessionManager.AcquireOnce | packages/server/src/sessions.ts:186-199 | the method's new tables are those of the acquire step, and the command fails, attaches, waits for the disposal, waits for the opening or starts one exactly as the session is terminating, live, being disposed of, being opened or none of these |
| SessionManager.LiveSessionManager.OpeningAwaited | packages/server/src/sessions.ts:200-205 | a waiting command attaches exactly if its opening succeeded, and the starter's entry is gone |
| SessionManager.LiveSessionManager.RuntimeAcquired | packages/server/src/sessions.ts:209-214 | a runtime that arrives during shutdown is disposed of at once, any other is checked first |
| SessionManager.LiveSessionManager.CheckSucceeds | packages/server/src/sessions.ts:215-236 | a checked runtime becomes the listed live session of its id, ready, with no connection and no operation |
| SessionManager.LiveSessionManager.AttachNow | packages/server/src/sessions.ts:300-307 | a connection that is gone attaches nowhere; any other is then in the session's set and lists the session, and nothing else changes |
| SessionManager.LiveSessionManager.DetachNow | packages/server/src/sessions.ts:75-88 | afterwards the connection does not list the session and is not in its set, and nothing else changes |
| SessionManager.LiveSessionManager.FindAttached | packages/server/src/sessions.ts:309-318 | a session is found exactly when the connection lists it and it is registered, not terminal and not disposing |
| SessionManager.LiveSessionManager.StartOperation | packages/server/src/sessions.ts:171-177 | an operation starts exactly when the connection lists the session and it is registered, not terminal and not disposing, and is then counted on it |
| SessionManager.LiveSessionManager.MaybeDispose | packages/server/src/sessions.ts:324-336 | dispose is called exactly outside shutdown, on a ready session whose disposal has not started, with no connection, no operation and an idle or terminal runtime |
| SessionManager.LiveSessionManager.DisposeSettles | packages/server/src/sessions.ts:336-342 | a settled disposal unlists exactly the ids that list this session |
| SessionManager.LiveSessionManager.Disconnect | packages/server/src/server.ts:282-291 | the loop takes the connection out of exactly the sessions it listed |
| SessionManager.LiveSessionManager.SweepSessions | packages/server/src/sessions.ts:152-169 | the loop calls dispose once per listed session whose disposal has not started, and unlists all |
| SessionManager.SweptAll | packages/server/src/sessions.ts:158-168 | the sessions the loop goes through are all the sweepable ones |
| SnapshotConvergence.Converges | packages/server/src/snapshots.ts:34-61 | a ready client to which nothing is on its way holds exactly the publisher's revision, for any interleaving of handshakes with broadcasts |
| SnapshotConvergence.StoredNeverDecreases | packages/client/src/state.ts:100-104 | a client's stored revision never decreases over a run |
| SnapshotConvergence.StoredIsHighest | packages/client/src/state.ts:100-104 | the stored revision is the highest delivered one |
| SnapshotConvergence.HelloFirst | packages/server/src/server.ts:221-250 | a client is sent hello first and only once |
| SnapshotConvergence.StepKeepsInv | packages/server/src/server.ts:221-250 | every ready peer always has the current revision written, being fetched again, or being broadcast to it |
| SnapshotDelivery.BroadcastStarts | packages/server/src/snapshots.ts:50-55 | over every run a queued broadcast raises the revision by one, for exactly the peers then ready, exactly if the server is not closing and there are any; otherwise only the queue gets shorter |
| SnapshotDelivery.BroadcastReachesAll | packages/server/src/snapshots.ts:50-61 | once it has finished, every peer that was ready when it started has left or has been sent its revision since |
| SnapshotDelivery.BroadcastCanFinish | packages/server/src/snapshots.ts:50-61 | a broadcast that has started can always come to its end |
| SnapshotDelivery.GoneStays | packages/server/src/snapshots.ts:50-53 | a peer that has left is never the target of a later broadcast |
| SnapshotDelivery.HelloCarries | packages/server/src/server.ts:230-237 | unless the server is closing hello carries the revision at which the client's own hello was received |
| SnapshotDelivery.SecondSnapshotIff | packages/server/src/server.ts:238-249 | a client that becomes ready is to get a second snapshot exactly if the revision moved meanwhile |
| SnapshotDelivery.SecondSnapshotIsSent | packages/server/src/server.ts:242-248 | it is sent unless the connection has closed |
| SnapshotDelivery.QueuedIsRequested | packages/server/src/snapshots.ts:44-48 | every broadcast that was asked for is performed or still queued |
| SnapshotPublisher.Publisher.FinishHandshake | packages/server/src/server.ts:238-249 | a peer becomes ready, and gets a second snapshot exactly when the revision moved |
| SnapshotPublisher.Publisher.ReadyPeers | packages/server/src/snapshots.ts:50-53 | the targets are exactly the ready connections, each once |
| SnapshotPublisher.Publisher.PerformBroadcast | packages/server/src/snapshots.ts:50-55 | a broadcast takes the next revision for the peers ready at that moment exactly when there are any and the server is not closing; otherwise it does nothing |
| SnapshotPublisher.ClientState.ApplyServerSnapshot | packages/client/src/state.ts:100-104 | the kept snapshot is the fold of all messages so far |
| FrameFormat.ChunkIndependence | packages/protocol/src/framing.ts:73-144 | for a stream whose prefixes are within the limit, every way of cutting it gives the same frames and the same decoder state |
| FrameFormat.DecodeEncode | packages/protocol/src/framing.ts:28-39 | encoding any payloads within the limit and decoding the concatenation under any chunking gives them back, and then `end` succeeds |
| FrameFormat.EndIffWholeFrames | packages/protocol/src/framing.ts:146-153 | on a decoder that has not failed `end` fails exactly when the stream stops inside a header or payload |
| FrameFormat.FailureIsSticky | packages/protocol/src/framing.ts:155-164 | after a failure every later `push` and `end` fails |
| FrameFormat.EndIsFinal | packages/protocol/src/framing.ts:146-153 | a stream that has ended takes nothing more |
| FrameDelivery.OversizeFailsAtFourthByte | packages/protocol/src/framing.ts:88-93 | however a stream is cut, the push that refuses an oversize length is exactly the one that brings the fourth byte of its header; those before succeed, every later `push` and `end` fails |
| FrameDelivery.DeliveryIsChunkIndependentIff | packages/protocol/src/framing.ts:73-144 | all ways of cutting a stream deliver the same frames if and only if no length in it is above the limit or the first one already is |
| FrameDelivery.DeliveredAreFrames | packages/protocol/src/framing.ts:73-144 | what is delivered before the first failing push is a prefix of the stream's frames, and all of them when no length is above the limit |
| FrameDelivery.FrameLostInOnePush | packages/protocol/src/framing.ts:91-95 | a concrete stream: one push delivers nothing, two pushes deliver its frame |
| FrameFormat.PartialHeaderWaits | packages/protocol/src/framing.ts:82-86 | whole frames followed by part of a header are all returned and the decoder waits |
| FrameFormat.ParseIsExact | packages/protocol/src/framing.ts:80-142 | the frames returned, encoded again, and the unread tail are exactly the stream |
| FrameFormat.ParseResumes | packages/protocol/src/framing.ts:80-142 | decoding resumes from the unread tail alone |
| FrameFormat.OversizeIsFinal | packages/protocol/src/framing.ts:91-93 | no later bytes repair an oversize prefix |
| FrameFormat.RoundTrip | packages/protocol/src/framing.ts:28-39 | parsing the encodings of payloads gives the payloads |
| FrameFormat.JoinSplit | packages/protocol/src/framing.ts:33-36 | big-endian split then join is the identity for every length below 2^32 |
| FrameFormat.SplitJoin | packages/protocol/src/framing.ts:45 | big-endian join then split is the identity on four bytes |
| FrameFormat.CompleteFrameIffEncoded | packages/protocol/src/framing.ts:42-53 | the complete-frame check passes exactly for encodings of payloads within the limit |
| FrameFormat.CompleteFrameErrors | packages/protocol/src/framing.ts:42-53 | which error the complete-frame check gives: no whole header, a length above the limit, or not exactly the bytes its header says |
| FrameDecoding.EncodeFrame | packages/protocol/src/framing.ts:28-39 | the array filled byte by byte is the encoding; payloads of 2^32 bytes or more are refused |
| FrameDecoding.FrameDecoder.Push | packages/protocol/src/framing.ts:73-144 | the class over blocks does what the specification does; the frames handed out are not kept |
| FrameDecoding.FrameDecoder.End | packages/protocol/src/framing.ts:146-153 | the same for `end` |
| FrameDecoding.FrameDecoder.BufferIsBounded | packages/protocol/src/framing.ts:107-123 | received bytes are the full blocks and the filled part of the last; allocation never exceeds the expected length nor runs 64 KiB ahead |
| FrameDecoding.FrameDecoder.JoinBlocks | packages/protocol/src/framing.ts:128-134 | the joined array is the concatenation of the blocks |
| FrameDecoding.FrameDecoder.FillBlock | packages/protocol/src/framing.ts:107-123 | filling blocks from a chunk consumes exactly the bytes it adds |
| FrameDecoding.FrameDecoder.TakePayload | packages/protocol/src/framing.ts:124-141 | a completed payload is handed out whole and nothing of it stays |
| MessageDecoding.MessageChunkIndependence | packages/protocol/src/codec.ts:102-115 | the messages of a stream that does not fail, and whether it fails at all, do not depend on the chunks |
| MessageDelivery.MessagesAreChunkIndependentIff | packages/protocol/src/codec.ts:102-115 | all ways of cutting a stream deliver the same messages if and only if nothing in it fails (no length above the limit, every frame decodes) or its very first frame or length does |
| MessageDelivery.DeliveredAreDecodable | packages/protocol/src/codec.ts:102-115 | what is delivered before the first failing push is a prefix of the messages up to the first frame that does not decode, and all of them when nothing fails |
| MessageDelivery.MessageLostInOnePush | packages/protocol/src/codec.ts:104-113 | a concrete stream with no length above the limit: one push delivers nothing, two pushes deliver its first message |
| MessageDecoding.MessageRoundTrip | packages/protocol/src/codec.ts:60-75 | messages that the codec reads back survive encoding, framing and any chunking |
| MessageDecoding.ValidatedMessageDecoder.Push | packages/protocol/src/codec.ts:102-115 | a frame that does not decode fails the push and every later call |
| MessageDecoding.ValidatedMessageDecoder.End | packages/protocol/src/codec.ts:117-125 | the sticky failure of `end` |
| MessageDelivery.MessageEndIff | packages/protocol/src/codec.ts:117-125 | on a stream that no push refused `end` succeeds exactly if it is a concatenation of encoded frames |
| MessageDelivery.FailureIsFinal | packages/protocol/src/codec.ts:102-125 | a failed decoder refuses every later push and end |
| AgentEvents.FinishedShape | packages/agent/src/agent-loop.ts:95-118 | a finished trace is agent_start, one or more balanced turns, and exactly one agent_end at the end |
| AgentEvents.TurnsBalance | packages/agent/src/agent-loop.ts:155-275 | turns are balanced at every point of a trace |
| AgentEvents.StartAndEndOnce | packages/agent/src/agent-loop.ts:95-118 | agent_start is first and only first; agent_end is last |
| AgentEvents.NothingPendingAtTurnEnd | packages/agent/src/agent.ts:544-571 | the agent shows no pending tool call at any turn_end, even when ids repeat |
| AgentEvents.TurnEndAnswers | packages/agent/src/agent-loop.ts:204-224 | a turn_end's results answer its message's calls in order, ids and names matching |
| AgentEvents.PendingAreRunning | packages/agent/src/agent.ts:560-571 | every pending id belongs to a call that is running |
| AgentEvents.FailureFitsIff | packages/agent/src/agent.ts:511-527 | where in a trace the events the agent emits for a run that threw fit |
| AgentLoop.Agent.RunPromptMessages | packages/agent/src/agent.ts:486-527 | every run is over, waits, or failed; one whose response threw keeps what was said before, adds one message, and has the events of a whole run if and only if the response threw before its start; queues and pending calls stay accounted for |
| AgentLoop.Agent.FailRun | packages/agent/src/agent.ts:503-535 | the catch of a run: the failure's events, and nothing of the run left active |
| AgentLoop.ThrowAfterStart | packages/agent/src/agent.ts:511-527 | a concrete run whose response throws after its start: its events are not those of a whole run |
| TurnTraces.MessagesAlternate | packages/agent/src/agent-loop.ts:155-372 | message starts and ends strictly alternate, each end completing the start before it |
| TurnTraces.UpdatesInsideMessages | packages/agent/src/agent-loop.ts:328-345 | updates come only while a message is open, every event but updates and ends only while none is |
| TurnTraces.EventsInsideTurns | packages/agent/src/agent-loop.ts:95-275 | every event but the agent's start and end and the turn's start comes between a turn_start and its turn_end |
| ToolTraces.UpdatesFollowStart | packages/agent/src/agent-loop.ts:670-711 | every update or end belongs to a call started with the same id, with only its updates in between |
| ToolTraces.NothingAfterEnd | packages/agent/src/agent-loop.ts:670-711 | no update, end or start of a call after its end within its assistant message |
| ToolTraces.ResultsAreReported | packages/agent/src/agent-loop.ts:766-791 | each result in a turn_end carries the content and error flag that the end of its own call reported |
| ToolCalls.WholeListUnlessAborted | packages/agent/src/agent-loop.ts:433-554 | the results are a prefix of the calls, in source order with matching ids, and the whole list unless the signal aborted |
| ToolCalls.ResultsAnswer | packages/agent/src/agent-loop.ts:777-791 | result messages answer the calls in order |
| ToolCalls.PrepareToolCall | packages/agent/src/agent-loop.ts:600-668 | a call is executed exactly when its tool is found, its arguments pass, nothing aborted and the hook allows it |
| ToolCalls.StartedCalls | packages/agent/src/agent-loop.ts:433-487 | calls are started up to the first one after which the signal is aborted |
| ToolResults.BatchIsFromScripts | packages/agent/src/agent-loop.ts:433-764 | a batch holds one result per started call: an error exactly when the call was refused, the after-hook threw or said so, or it left that open and the tool threw; its content is the hook's error, else the hook's content, else the tool's; a refused call's is the error text of its cause; and it asks to end exactly when not empty and every result does |
| ToolResults.BatchIsUnique | packages/agent/src/agent-loop.ts:433-764 | these properties determine the batch |
| AgentScript.TurnFollowsScript | packages/agent/src/agent-loop.ts:190-262 | what a turn adds, whether it asks for another and whether it halts the run, in terms of the response, the tools' and the hooks' answers |
| AgentScript.PassedInOrder | packages/agent/src/agent-loop.ts:314-345 | the start of a stream and each partial message after it are passed on, in order |
| AgentScript.NothingElsePassed | packages/agent/src/agent-loop.ts:314-345 | nothing else of the stream is passed on |
| AgentScript.CutOffCallsAllFail | packages/agent/src/agent-loop.ts:381-406 | calls of a cut-off message are not executed: whatever the tools would answer, each gets an error result in order and another turn follows |
| AgentLoop.Agent.ExecuteToolCallsSequential | packages/agent/src/agent-loop.ts:433-487 | results are reported before the next call starts, and the batch is the one that the tools' and hooks' answers determine |
| AgentLoop.Agent.ExecuteToolCallsParallel | packages/agent/src/agent-loop.ts:489-554 | the batch is finished exactly when every started call has settled and ended, and is the same for every order of reports and completions: the one that the answers determine, in source order |
| AgentLoop.Agent.FailToolCallsFromTruncatedMessage | packages/agent/src/agent-loop.ts:381-406 | none of the calls is executed and each gets an error result that says so |
| AgentLoop.Agent.StreamAssistantResponse | packages/agent/src/agent-loop.ts:281-372 | what is read of the stream is passed on, the last context slot is replaced in place and holds the final message; a stream that throws leaves a message open exactly when it had started |
| AgentLoop.Agent.RunTool | packages/agent/src/agent-loop.ts:670-711 | one update is emitted for each report before the tool settled, and none after |
| AgentLoop.Agent.MoveCall | packages/agent/src/agent-loop.ts:670-711 | one step of a concurrent call: a report while it works, or its end with its outcome, with the event that goes with it |
| AgentLoop.Agent.ProcessEvent | packages/agent/src/agent.ts:544-590 | transcript, pending set and streaming message are at all times what the events make of them |
| AgentLoop.Agent.RunTurn | packages/agent/src/agent-loop.ts:192-224 | a turn adds exactly its response and its results to messages and context; it waits exactly for a tool that does not end, and asks for another turn exactly when the response did not fail, has calls, and was cut off or has a started call whose final result does not ask to end |
| AgentLoop.Agent.PlayTurn | packages/agent/src/agent-loop.ts:172-262 | the injected messages, the turn and the hooks after it, as one effect; the run halts exactly when the response failed or the stop hook says so |
| AgentLoop.Agent.RunLoop | packages/agent/src/agent-loop.ts:155-275 | a finished run played turns each of which was due, and stopped only when a turn halted it, or asked for no more and both queues had nothing to give; a waiting one awaits a response or a tool |
| AgentLoop.Agent.Prompt | packages/agent/src/agent.ts:348-359 | refused exactly when a run is active; otherwise the run goes one of the three ways; what was steered before goes into its first turn; a first response without calls and nothing queued end it after that turn |
| AgentLoop.Agent.Continue | packages/agent/src/agent.ts:361-388 | each error occurs exactly in its case and changes nothing; otherwise the run starts from the steering messages, and then does not poll them again before its first response, else from the follow-ups, else from the transcript |
| AgentLoop.Agent.Reset | packages/agent/src/agent.ts:333-345 | clears transcript and queues unless a run is active; the history of the queues is only extended |
| AgentLoop.Agent.PollSteering | packages/agent/src/agent.ts:475-481 | the first poll after continuing with steering messages leaves the queue alone; every other poll drains it |
| AgentLoop.Agent.EmitMessages | packages/agent/src/agent-loop.ts:180-188 | what was drained is injected, in order, before the next response |
| AgentLoop.Agent.FinishedRun | packages/agent/src/agent-loop.ts:95-275 | the end results of a run agree: events, returned messages, transcript, the messages injected from the queues and, unless a hook replaced it, context; the events have the shape of a whole run |
| AgentLoop.Agent.QuietRun | packages/agent/src/agent-loop.ts:155-275 | while nobody queues anything nothing is injected, each turn but the last asks for another and does not halt the run, and a run that is over ended with a turn that halts it or asks for no more |
| AgentLoop.Agent.PlainAnswerEnds | packages/agent/src/agent-loop.ts:204-275 | a quiet run whose first response returns without calls is over after that turn, with the prompts and the response as its messages |
| AgentLoop.Agent.QueuesConserve | packages/agent/src/agent.ts:125-159 | over any runs: past the messages taken before a queue was last cleared, those injected from it followed by those still in it are exactly those enqueued since, in order |
| AgentScript.ContextFollowsMessages | packages/agent/src/agent-loop.ts:155-275 | unless a hook replaces it the working context is the initial one followed by the run's messages |
| PendingQueue.Conservation | packages/agent/src/agent.ts:125-159 | since a queue was last cleared, what was drained followed by what is queued is what was enqueued, in order |
| PendingQueue.InjectedThenQueued | packages/agent/src/agent.ts:475-482 | the same of any history in which everything taken was injected |
| PendingQueue.DrainedSinceClear | packages/agent/src/agent.ts:141-158 | what was taken from a queue is what was taken before its last clear and then what was drained since |
| PendingQueue.EnqueuedSinceClear | packages/agent/src/agent.ts:136-158 | a queue's account lists exactly the messages put into it since its last clear |
| PendingQueue.DrainWasFair | packages/agent/src/agent-loop.ts:163-275 | every drain took a prefix of its queue, and a follow-up was drained only after the latest steering drain came back empty |
| PendingQueue.PendingMessageQueue.Drain | packages/agent/src/agent.ts:141-154 | all messages, or the first one, come off the front |
| Catalog.MutationsNeverOverlap | packages/ai/src/models.ts:338-365 | while a publication mutates the store every earlier one has settled and no later one has started |
| Catalog.UpdatesInOrder | packages/ai/src/models.ts:338-365 | updates of memory happen in publication order and non-decreasing generation order |
| Catalog.UpdateIsCurrentAndStored | packages/ai/src/models.ts:346-358 | at the instant memory is updated the refresh is current and not aborted, and the store holds exactly that publication's entry |
| Catalog.NoUpdateOnceSuperseded | packages/ai/src/models.ts:320-336 | once a refresh is superseded or aborted nothing it publishes reaches memory |
| Catalog.MemoryChangesOnlyByUpdate | packages/ai/src/models.ts:346-358 | memory changes only through a recorded update |
| Catalog.StepKeepsInv | packages/ai/src/models.ts:320-365 | the chain stays serial although its entry is dropped when it settles |
| Catalog.ControllerIff | packages/ai/src/models.ts:320-336 | the generation counts what superseded a refresh, and the refresh that can be aborted is the one last begun until it settles or is superseded |
| Catalog.AbortedIff | packages/ai/src/models.ts:320-329 | a refresh is aborted exactly if its signal was or it was superseded while it ran |
| Catalog.StoreIsWritten | packages/ai/src/models.ts:346-354 | the store changes exactly by the mutations it carries out; one that it rejects leaves its publication unsuccessful |
| ProviderCatalog.MergedLookup | packages/ai/src/models.ts:766-774 | looking up an id in the merged list finds the last dynamic model with it, else the baseline one |
| ProviderCatalog.MergedOrder | packages/ai/src/models.ts:766-774 | the baseline keeps its places and ids; models after it have new ids |
| ProviderCatalog.NewModelsInOrder | packages/ai/src/models.ts:766-774 | models after the baseline come in the order in which their ids first occur in the dynamic list |
| ProviderCatalog.ProviderRefresh.PublishAlone | packages/ai/src/models.ts:338-364 | with nothing queued before it a publication whose store answers comes through exactly when its refresh is current, and then store and memory hold what it brought; otherwise both are left alone |
| ProviderCatalog.ProviderRefresh.RefreshAlone | packages/ai/src/models.ts:320-364 | a new refresh makes every earlier one stale, and its own publication comes through |
| ProviderCatalog.CurrentModels | packages/ai/src/models.ts:766-774 | the two nested loops compute the overlay |
| JsonConversion.ConvertsIff | packages/server/src/protocol.ts:142-163 | conversion succeeds exactly when no path closes a cycle and every leaf and container on the way is JSON-plain; shared nodes are accepted |
| JsonConversion.ProtocolValueIff | packages/protocol/src/codec.ts:25-39 | the protocol's test passes exactly when no path closes a cycle and every container and leaf on the way may be sent |
| JsonErrors.ErrorNamesDefect | packages/server/src/protocol.ts:142-163 | a refused conversion met a defect of the sort its error names: a number that is not finite, an unsupported value, a reference back to a node the walk is inside of, or an object that is not plain |
| JsonUnfolding.ConversionIsUnfolding | packages/server/src/protocol.ts:142-163 | where no property `__proto__` is reachable, the conversion returns a tree exactly when it is the unfolding of the value |
| JsonUnfolding.ConvertedUnfoldsIff | packages/server/src/protocol.ts:157-159 | a successful conversion returns the unfolding if and only if no object on the way has a property `__proto__` |
| JsonUnfolding.ProtoKeyIsLost | packages/server/src/protocol.ts:157-159 | a concrete object with a property `__proto__`: it converts, and the copy has lost the property to its prototype |
| JsonUnfolding.AcceptedIffPlain | packages/protocol/src/codec.ts:25-39 | the protocol's test accepts a tree, however it is held, exactly when its objects are ordinary |
| JsonUnfolding.UnchangedIffPlain | packages/server/src/protocol.ts:142-163 | converting a tree again changes nothing exactly when its objects are ordinary |
| Sanitizer.SanitizeKeepsJson | packages/server/src/protocol.ts:166-186 | where strict conversion succeeds the sanitizer gives the same, so it is the identity on JSON trees |
| Sanitizer.SanitizeFailsIff | packages/server/src/protocol.ts:171 | sanitizing fails exactly when it meets an invalid date; no cycle makes it fail |
| SanitizerCopies.SanitizedIffCopy | packages/server/src/protocol.ts:166-186 | where no property `__proto__` is reachable the sanitizer returns a tree exactly if it is the value's copy: with text for numbers that are not finite, big integers and dates, `[Circular]` for references back, null or nothing for what has no copy |
| SanitizerCopies.CopyIsUnique | packages/server/src/protocol.ts:166-186 | a value has at most one such copy |
| Sanitizer.PlainIffNothingLost | packages/server/src/protocol.ts:178-182 | the sanitized tree has ordinary objects only exactly when no property `__proto__` met on the way has a null, array or object copy |
| Sanitizer.SanitizedPassesIff | packages/server/src/protocol.ts:142-186 | a defined result passes through the strict conversion unchanged, and the protocol's test accepts it, under exactly that condition |
| Sanitizer.ConvertedPassesIff | packages/server/src/protocol.ts:142-163 | the same for the strict conversion's own result |
| Sanitizer.CopyIsRefused | packages/server/src/protocol.ts:142-159 | a concrete object whose converted and sanitized tree both later checks refuse |
| Values.UnfoldingIsUnique | packages/server/src/protocol.ts:142-163 | a value has at most one unfolding |
| ValueWalker.Walker.ToJson | packages/server/src/protocol.ts:142-163 | the walk that adds to and deletes from one set is the conversion, and leaves the set as it was however it ends |
| ValueWalker.Walker.SanitizeDetails | packages/server/src/protocol.ts:166-186 | the same for the sanitizer |
| ValueWalker.Walker.CheckProtocolValue | packages/protocol/src/codec.ts:25-39 | the same for the protocol's test |
| ClientConnection.ConnectsSettle | packages/client/src/connection.ts:66-90 | every `connect()` promise is settled at most once, and is settled whenever the connection is disconnected |
| ClientConnection.TransportsAreOwned | packages/client/src/connection.ts:119-140 | a transport is in use exactly when it is the connection's; every other one is closed or about to be |
| ClientConnection.RequestsSettle | packages/client/src/client.ts:294-340 | a request is settled at most once, is unsettled only while pending or being applied, and none is pending unless connected |
| ClientConnection.RequestIdsAreFresh | packages/client/src/client.ts:189-207 | the ids of two accepted requests of a run differ |
| ClientConnection.StepKeepsInv | packages/client/src/connection.ts:66-235 | each stretch keeps connects, transports, requests and handshakes accounted for |
| ClientConnection.FailKeepsInv | packages/client/src/connection.ts:218-231 | losing the connection settles what was outstanding and leaves the transport to be closed |
| Client.PiClient.Connect | packages/client/src/client.ts:107-111 | connecting is accepted exactly when not disposed and disconnected |
| Client.PiClient.Fail | packages/client/src/connection.ts:225-231 | the method rejects the handshake and every pending request once |
| Client.PiClient.ReceiveResponse | packages/client/src/client.ts:294-319 | a response settles exactly its own request, or fails the connection |
| Client.PiClient.Request | packages/client/src/client.ts:189-207 | a request gets a fresh number exactly when connected and not disposed |
| Client.PiClient.RejectPendingRequests | packages/client/src/client.ts:336-340 | the loop rejects each pending request exactly once |
| ClientOutcomes.ConnectionLostIff | packages/client/src/connection.ts:119-231 | over every run a connection is lost for exactly the listed reasons; of messages, only those the protocol does not allow at that point |
| ClientOutcomes.TransportTakenIff | packages/client/src/connection.ts:119-131 | a transport is taken exactly by the connect still waiting for it; any other is closed |
| ClientOutcomes.HelloConnectsIff | packages/client/src/connection.ts:164-188 | a connection comes up exactly by the server's hello on its transport |
| ClientOutcomes.AnnouncedIff | packages/client/src/connection.ts:189-196 | a handshake is announced exactly if its snapshot was applied and its connection is still there |
| ClientOutcomes.ConnectSettlesIff | packages/client/src/connection.ts:66-231 | a connect is settled exactly when its connection is lost or its handshake was announced |
| ClientOutcomes.RequestSettlesIff | packages/client/src/client.ts:294-340 | a pending request is settled exactly when its response refuses it or is of another command or the connection is lost, and goes on to be applied exactly by its own fitting response |
| ClientOutcomes.LostTransportCloses | packages/client/src/connection.ts:206-223 | a lost connection leaves its transport to be closed, unless that closed by itself |
| ClientOutcomes.ClosedStaysClosed | packages/client/src/connection.ts:218-223 | a transport that is to be closed gets closed and stays so |
| ClientOutcomes.DisposedIff | packages/client/src/client.ts:342-352 | the client is disposed of exactly from its first dispose on, and then accepts no connect and no request |
| ProxyStream.LinesAreTheText | packages/agent/src/proxy.ts:193-195 | the lines with their newlines and the rest are the text again |
| ProxyStream.LinesResume | packages/agent/src/proxy.ts:193-195 | cutting on needs only the buffered rest |
| ProxyStream.ProxyReader.Receive | packages/agent/src/proxy.ts:187-209 | the state depends on the text received, not on its chunks |
| ProxyStream.ProxyReader.ReceiveAll | packages/agent/src/proxy.ts:187-370 | for every chunking the outcome is that of the whole text, failures included; unless it failed, each block holds all deltas on the text's complete lines since its last start |
| ProxyStream.BlockIsItsDeltas | packages/agent/src/proxy.ts:240-370 | when no event threw, the block at an index is of the kind of its last start and its text is the concatenation of the deltas since |
| ProxyStream.LinesRunEvents | packages/agent/src/proxy.ts:197-208 | the message is what the events on the complete lines make of it |
| ProxyOutcomes.CarriesIff | packages/agent/src/proxy.ts:197-202 | a line carries an event exactly if it is the prefix and data that parses as it, with white space around |
| Whitespace.TrimIff | packages/agent/src/proxy.ts:199 | trimming takes white space off both ends and nothing else |
| ProxyOutcomes.RunThrowsIff | packages/agent/src/proxy.ts:240-370 | reading throws exactly if an event continues a block that was not started as such |
| ProxyOutcomes.StreamFailsIff | packages/agent/src/proxy.ts:197-226 | a stream fails exactly if some line's data does not parse or its event throws |
| ProxyOutcomes.StopsThere | packages/agent/src/proxy.ts:216-226 | a failed stream keeps what was read before, with an error for its reason |
| ProxyOutcomes.StartedBlockIs | packages/agent/src/proxy.ts:248-336 | a block that was only started is empty, and a call has its id and name |
| ProxyOutcomes.EndedTextIs | packages/agent/src/proxy.ts:265-312 | the end of a text gives it its signature |
| ProxyOutcomes.EndedCallIs | packages/agent/src/proxy.ts:338-351 | an ended call is the one its end names; an end without a call changes nothing |
| ProxyOutcomes.StopIsLast | packages/agent/src/proxy.ts:353-363 | the response stops for the reason of its last done or error |
| ProxyOutcomes.ErrorIsLast | packages/agent/src/proxy.ts:358-363 | it has the message of its last error |
| FuzzyMatching.Match | packages/tui/src/fuzzy.ts:12-93 | a query matches exactly when it, or its swapped form, is a subsequence of the text, both lower-cased |
| FuzzyMatching.MatchQuery | packages/tui/src/fuzzy.ts:16-67 | the greedy scan is complete; the leftmost places are scored |
| FuzzyMatching.Scan | packages/tui/src/fuzzy.ts:25-56 | the loop finds the leftmost embedding or there is none |
| FuzzyMatching.Swapped | packages/tui/src/fuzzy.ts:74-80 | the swapped form exists exactly for letters then digits or digits then letters |
| FuzzyMatching.ScoreIsUnique | packages/tui/src/fuzzy.ts:12-93 | a match has exactly one score |
| FuzzyScores.ScoreIsSum | packages/tui/src/fuzzy.ts:25-60 | the score is a sum over the places: runs and word boundaries are rewarded, gaps and late places are not |
| FuzzyScores.ExactMatchIsBest | packages/tui/src/fuzzy.ts:16-67 | an exact match scores better by at least 100 than any other text that the query matches |
| FuzzyScores.SwappedScoresWorse | packages/tui/src/fuzzy.ts:82-92 | a query that matches only swapped scores 5 worse than the swapped query itself |
| FuzzyFilter.Filter | packages/tui/src/fuzzy.ts:99-137 | exactly the items matched by every token are kept, sorted by total score, ties in list order |
| FuzzyFilter.TotalIsUnique | packages/tui/src/fuzzy.ts:116-127 | an item has exactly one total |
| FuzzyFilter.MatchTokens | packages/tui/src/fuzzy.ts:116-127 | an item is kept exactly when every token matches it |
| FuzzyFilter.SortByTotal | packages/tui/src/fuzzy.ts:135 | a stable sort |
| FuzzyFilter.TokensAreTheQuery | packages/tui/src/fuzzy.ts:104-107 | tokens are non-empty, hold no separator, and together are the query without its separators |
| FuzzyFilter.TokensCut | packages/tui/src/fuzzy.ts:104-107 | a separator cuts the query in two |
| FuzzyFilter.TokensAreUnique | packages/tui/src/fuzzy.ts:104-107 | with text without separators as one token, or none when empty, that determines the tokens |
| FuzzyFilter.TrimKeepsTokens | packages/tui/src/fuzzy.ts:100-107 | white space around the query makes no difference |
| FuzzyFilter.TotalsAdd | packages/tui/src/fuzzy.ts:116-127 | totals of tokens add up |
| FuzzyFilter.TotalOfOne | packages/tui/src/fuzzy.ts:116-127 | the total of one token is its score |

## Left out

- CBOR and the message schemas: an abstract partial codec; the round trip assumes that the codec reads back what it writes.
- Sockets, timers, telemetry, authentication, listeners' own effects and timestamps; event sinks and hooks do not throw, service calls settle, and sends on one connection arrive in order.
- Session interleavings: any pending stretch may run at any time, `maybeDispose` included, so the runs are more than those of the program; only safety is claimed, not that a disposal is eventually attempted.
- `attach` does not look at `disposing` or `terminal` again after the awaited `acquire`, so "attached implies not disposing" is not claimed, nor that a connection which lists a session id is in the set of the session now listed under that id: it may have attached to the one before.
- SessionSafety.DisposalStartsUnused: says nothing of the sweep during shutdown, which disposes of sessions whatever their use.
- Requests that arrive during the handshake: that they run at most once and only when ready, not their order.
- Session snapshots, events sent to attached clients and `listMetadata`; a session's `terminate` is the mark, the disconnects and the disposal as separate steps.
- Snapshot contents: only revisions are modelled; fetching a snapshot and sending it succeed unless the peer is leaving.
- SnapshotConvergence.StoredNeverDecreases: over one connection; `connect` starts from an empty state.
- Session snapshots, attachment and leases in the client, and the order of microtasks that leases depend on.
- Client connection: chunks are taken apart into messages that may be handled at any later time, also on a later connection, and callbacks may be resumed in any order; these are more runs than the program's. A `connect()` or request that is rejected at once is not counted.
- Catalog: one provider's slice; credentials, network fetches and the collection of errors in `refresh` are not modelled, and stored models of other providers are not filtered out.
- Agent: message contents beyond text, calls and stop reason; context transforms, model and reasoning changes between turns, usage, and the abort signal except where the executors look at it.
- Agent: other callers change the queues at three points of a turn (before each poll and before the run); changes in between are collapsed into the next of these points.
- AgentLoop.Agent.RunLoop: a run whose script of answers ends is one that still waits for its next response; nothing is said of its end. A response has at most one start event.
- Errors thrown elsewhere than by a model's response: queue polls, hooks, context transforms and event sinks do not throw.
- Tool errors: the agent's own error texts are constructors, not strings; the text of a failed run's message is left empty.
- Object graphs are finite and have no getters; the listed keys of an object are taken as they are listed, and keys that are not own enumerable strings are not seen by the code either. Minus zero is zero.
- Proxy: UTF-8 decoding, JSON parsing and the reading of partial arguments are parameters; only the `data: ` lines are read; usage, the error text of a failure and aborts are not modelled, and events are not forwarded.
- Text is a sequence of characters, not of UTF-16 units; lower-casing is a parameter, and scores are exact numbers where the program rounds.
- Terminal user interface, command line, package manager, model generator, and tables of keys and models.
