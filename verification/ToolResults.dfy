/** What the result of a tool call must be, in terms of what the tool and the hooks answered. */
module ToolResults {
  import opened Wrappers
  import opened AgentEvents
  import opened ToolCalls

  /** The call is executed. */
  predicate IsExecuted(c: Circumstances) {
    && c.toolFound && c.argumentError.None? && !c.aborted
    && !c.before.BeforeThrows? && !c.before.Blocks?
  }

  /** A call that is not executed carries the error text of the first thing that stands in its way. */
  predicate SaysWhyRefused(call: Call, c: Circumstances, content: Content) {
    var asked := c.toolFound && c.argumentError.None?;
    && (!c.toolFound ==> content == ToolNotFound(call.name))
    && (c.toolFound && c.argumentError.Some? ==> content == Given(c.argumentError.value))
    && (asked && c.before.BeforeThrows? ==> content == Given(c.before.message))
    && (asked && !c.before.BeforeThrows? && c.aborted ==> content == OperationAborted)
    && (asked && c.before.Blocks? && !c.aborted ==>
          content == if c.before.reason == "" then ExecutionBlocked else Given(c.before.reason))
  }

  /** The result is an error: the call was refused, or the hook after it threw or said so, or that hook
      left it open and the tool threw. */
  predicate IsFailure(s: CallScript) {
    || !IsExecuted(s.circumstances)
    || s.after.AfterThrows?
    || (s.after.Overrides? && s.after.isError == Some(true))
    || (s.execution.Threw? && (s.after.NoAfter? || (s.after.Overrides? && s.after.isError.None?)))
  }

  /** The content of an executed call: the error of the hook after it, else what that hook put in its
      place, else what the tool returned, else the tool's own error. */
  predicate HasContent(s: CallScript, content: Content) {
    && (s.after.AfterThrows? ==> content == Given(s.after.message))
    && (s.after.Overrides? && s.after.content.Some? ==> content == s.after.content.value)
    && (s.after.NoAfter? || (s.after.Overrides? && s.after.content.None?) ==>
          (s.execution.Returned? ==> content == s.execution.output.content) &&
          (s.execution.Threw? ==> content == Given(s.execution.message)))
  }

  /** The result, after the hooks, asks for the run to end. */
  predicate AsksToEnd(s: CallScript) {
    if !IsExecuted(s.circumstances) then
      && s.circumstances.toolFound && s.circumstances.argumentError.None? && !s.circumstances.aborted
      && s.circumstances.before.Blocks? && s.circumstances.before.terminate
    else
      || (s.after.Overrides? && s.after.terminate == Some(true))
      || (s.execution.Returned? && s.execution.output.terminate &&
          (s.after.NoAfter? || (s.after.Overrides? && s.after.terminate.None?)))
  }

  predicate IsResultOf(call: Call, s: CallScript, m: Message) {
    && m.ToolResult? && m.callId == call.id && m.name == call.name
    && (m.isError <==> IsFailure(s))
    && if IsExecuted(s.circumstances) then HasContent(s, m.content) else SaysWhyRefused(call, s.circumstances, m.content)
  }

  /** Calls are started up to the first one after which the signal is aborted. */
  predicate StartsUpTo(scripts: seq<CallScript>, n: nat) {
    && n <= |scripts| && (scripts != [] ==> n > 0)
    && (forall i :: 0 <= i < n - 1 ==> !scripts[i].abortedAfter)
    && (n < |scripts| ==> scripts[n - 1].abortedAfter)
  }

  /** One result for each started call, in order; the batch asks for the run to end exactly if it is not
      empty and each of its results does. */
  predicate IsBatchOf(calls: seq<Call>, scripts: seq<CallScript>, batch: Batch) {
    var n := |batch.messages|;
    && n <= |calls| == |scripts| && StartsUpTo(scripts, n)
    && (forall i :: 0 <= i < n ==> IsResultOf(calls[i], scripts[i], batch.messages[i]))
    && (batch.terminate <==> n > 0 && forall i :: 0 <= i < n ==> AsksToEnd(scripts[i]))
  }

  lemma OutcomeIsResult(call: Call, s: CallScript)
    ensures IsResultOf(call, s, ResultMessage(Outcome(call, s)))
    ensures Outcome(call, s).output.terminate <==> AsksToEnd(s)
  {
  }

  /** What a batch of calls comes to, however its calls are run. */
  lemma BatchIsFromScripts(calls: seq<Call>, scripts: seq<CallScript>)
    requires |scripts| == |calls|
    ensures IsBatchOf(calls, scripts, BatchOf(calls, scripts))
  {
    forall i | 0 <= i < StartedCalls(scripts)
      ensures IsResultOf(calls[i], scripts[i], BatchOf(calls, scripts).messages[i])
      ensures Outcome(calls[i], scripts[i]).output.terminate <==> AsksToEnd(scripts[i])
    {
      OutcomeIsResult(calls[i], scripts[i]);
    }
  }

  lemma ResultIsUnique(call: Call, s: CallScript, a: Message, b: Message)
    requires IsResultOf(call, s, a) && IsResultOf(call, s, b)
    ensures a == b
  {
  }

  /** The scripts leave no choice: two batches with these properties are the same. */
  lemma BatchIsUnique(calls: seq<Call>, scripts: seq<CallScript>, a: Batch, b: Batch)
    requires IsBatchOf(calls, scripts, a) && IsBatchOf(calls, scripts, b)
    ensures a == b
  {
    StartedIsFirstAbort(scripts, |a.messages|);
    StartedIsFirstAbort(scripts, |b.messages|);
    forall i | 0 <= i < |a.messages|
      ensures a.messages[i] == b.messages[i]
    {
      ResultIsUnique(calls[i], scripts[i], a.messages[i], b.messages[i]);
    }
  }

  /** The outcomes of the first calls, and their messages. */
  predicate AreOutcomes(calls: seq<Call>, scripts: seq<CallScript>, finalized: seq<Finalized>, messages: seq<Message>) {
    && |finalized| <= |calls| == |scripts|
    && finalized == Outcomes(calls, scripts, |finalized|) && messages == Messages(finalized)
  }

  lemma NoOutcomes(calls: seq<Call>, scripts: seq<CallScript>)
    requires |scripts| == |calls|
    ensures AreOutcomes(calls, scripts, [], [])
  {
  }

  predicate NoneAborted(scripts: seq<CallScript>, n: nat) {
    n <= |scripts| && forall i :: 0 <= i < n ==> !scripts[i].abortedAfter
  }

  lemma NoneAbortedStarts(scripts: seq<CallScript>, n: nat)
    requires n <= |scripts| && (n == |scripts| || (n > 0 && scripts[n - 1].abortedAfter))
    requires n > 0 ==> NoneAborted(scripts, n - 1)
    ensures StartsUpTo(scripts, n)
  {
  }

  lemma OneMoreOutcome(calls: seq<Call>, scripts: seq<CallScript>, finalized: seq<Finalized>, messages: seq<Message>)
    requires AreOutcomes(calls, scripts, finalized, messages) && |finalized| < |calls|
    ensures var next := Outcome(calls[|finalized|], scripts[|finalized|]);
            AreOutcomes(calls, scripts, finalized + [next], messages + [ResultMessage(next)])
  {
    NextOutcome(calls, scripts, |finalized|);
  }

  lemma OutcomesAreBatch(calls: seq<Call>, scripts: seq<CallScript>, finalized: seq<Finalized>, messages: seq<Message>)
    requires AreOutcomes(calls, scripts, finalized, messages) && StartsUpTo(scripts, |finalized|)
    ensures Batch(messages, ShouldTerminate(finalized)) == BatchOf(calls, scripts)
    ensures IsBatchOf(calls, scripts, BatchOf(calls, scripts))
  {
    StartedIsFirstAbort(scripts, |finalized|);
    BatchIsFromScripts(calls, scripts);
  }
}
