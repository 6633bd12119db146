/** Preparing and finalizing one tool call, and what a batch of calls comes to. */
module ToolCalls {
  import opened Wrappers
  import opened AgentEvents

  datatype Output = Output(content: Content, terminate: bool)

  function ErrorOutput(content: Content): Output {
    Output(content, false)
  }

  /** What the hook before a call answers. */
  datatype Before = NoBefore | Allows | Blocks(reason: string, terminate: bool) | BeforeThrows(message: string)

  /** What preparing a call meets: the tool, its argument check, the hook and the abort signal. */
  datatype Circumstances = Circumstances(
    toolFound: bool, argumentError: Option<string>, before: Before, aborted: bool)

  datatype Preparation = Immediate(output: Output, isError: bool) | Prepared

  function PrepareToolCall(call: Call, c: Circumstances): (p: Preparation)
    ensures p.Prepared? <==>
            c.toolFound && c.argumentError.None? && !c.aborted && (c.before.NoBefore? || c.before.Allows?)
    ensures p.Immediate? ==> p.isError
    ensures p.Immediate? && p.output.terminate ==> c.before.Blocks? && c.before.terminate && !c.aborted
  {
    if !c.toolFound then Immediate(ErrorOutput(ToolNotFound(call.name)), true)
    else if c.argumentError.Some? then Immediate(ErrorOutput(Given(c.argumentError.value)), true)
    else if c.before.BeforeThrows? then Immediate(ErrorOutput(Given(c.before.message)), true)
    else if c.aborted then Immediate(ErrorOutput(OperationAborted), true)
    else if c.before.Blocks? then
      Immediate(Output(if c.before.reason == "" then ExecutionBlocked else Given(c.before.reason),
                       c.before.terminate), true)
    else Prepared
  }

  datatype Execution = Returned(output: Output) | Threw(message: string)

  /** What the hook after a call answers. */
  datatype After =
    | NoAfter
    | Overrides(content: Option<Content>, terminate: Option<bool>, isError: Option<bool>)
    | AfterThrows(message: string)

  datatype Finalized = Finalized(call: Call, output: Output, isError: bool)

  function FinalizeCall(call: Call, execution: Execution, after: After): Finalized {
    var output := if execution.Returned? then execution.output else ErrorOutput(Given(execution.message));
    var isError := execution.Threw?;
    match after
    case NoAfter => Finalized(call, output, isError)
    case AfterThrows(message) => Finalized(call, ErrorOutput(Given(message)), true)
    case Overrides(content, terminate, error) =>
      Finalized(call,
                Output(if content.Some? then content.value else output.content,
                       if terminate.Some? then terminate.value else output.terminate),
                if error.Some? then error.value else isError)
  }

  /** What a running tool does next, as its caller sees it: it reports a partial result, or settles. */
  datatype Action = Report | Settle

  /** Everything the environment answers about one call. `abortedAfter` is the abort signal as seen
      by the executor's loop after it handled the call. */
  datatype CallScript = CallScript(
    circumstances: Circumstances, actions: seq<Action>, execution: Execution, after: After, abortedAfter: bool)

  /** The outcome of one call, whichever way and whenever it runs. */
  function Outcome(call: Call, script: CallScript): Finalized {
    match PrepareToolCall(call, script.circumstances)
    case Immediate(output, isError) => Finalized(call, output, isError)
    case Prepared => FinalizeCall(call, script.execution, script.after)
  }

  function ResultMessage(f: Finalized): Message {
    ToolResult(f.call.id, f.call.name, f.output.content, f.isError)
  }

  function ReportOf(f: Finalized): EndReport {
    EndReport(f.output.content, f.isError)
  }

  /** How many calls are started: all, or up to the first after which the signal is aborted. */
  function StartedCalls(scripts: seq<CallScript>): (n: nat)
    ensures n <= |scripts|
    ensures scripts != [] ==> n > 0
    ensures forall i :: 0 <= i < n - 1 ==> !scripts[i].abortedAfter
    ensures n < |scripts| ==> n > 0 && scripts[n - 1].abortedAfter
    ensures (forall i :: 0 <= i < |scripts| ==> !scripts[i].abortedAfter) ==> n == |scripts|
  {
    if scripts == [] then 0
    else if scripts[0].abortedAfter then 1
    else 1 + StartedCalls(scripts[1..])
  }

  /** The number of started calls is determined by what its contract says of it. */
  lemma {:induction false} StartedIsFirstAbort(scripts: seq<CallScript>, n: nat)
    requires n <= |scripts|
    requires forall i :: 0 <= i < n - 1 ==> !scripts[i].abortedAfter
    requires n < |scripts| ==> n > 0 && scripts[n - 1].abortedAfter
    ensures n == StartedCalls(scripts)
  {
    if scripts != [] && !scripts[0].abortedAfter {
      StartedIsFirstAbort(scripts[1..], n - 1);
    }
  }

  function Outcomes(calls: seq<Call>, scripts: seq<CallScript>, n: nat): (r: seq<Finalized>)
    requires n <= |calls| && n <= |scripts|
    ensures |r| == n && forall i :: 0 <= i < n ==> r[i] == Outcome(calls[i], scripts[i])
  {
    seq(n, i requires 0 <= i < n => Outcome(calls[i], scripts[i]))
  }

  function Messages(finalized: seq<Finalized>): (r: seq<Message>)
    ensures |r| == |finalized| && forall i :: 0 <= i < |r| ==> r[i] == ResultMessage(finalized[i])
  {
    seq(|finalized|, i requires 0 <= i < |finalized| => ResultMessage(finalized[i]))
  }

  lemma NextOutcome(calls: seq<Call>, scripts: seq<CallScript>, n: nat)
    requires n < |calls| && n < |scripts|
    ensures var next := Outcome(calls[n], scripts[n]);
            && Outcomes(calls, scripts, n + 1) == Outcomes(calls, scripts, n) + [next]
            && Messages(Outcomes(calls, scripts, n + 1)) == Messages(Outcomes(calls, scripts, n)) + [ResultMessage(next)]
  {
  }

  /** A batch ends the loop when it is not empty and every result asks for it. */
  predicate ShouldTerminate(finalized: seq<Finalized>) {
    |finalized| > 0 && forall i :: 0 <= i < |finalized| ==> finalized[i].output.terminate
  }

  /** The result messages of a batch answer the assistant's calls in source order. */
  lemma ResultsAnswer(message: Message, scripts: seq<CallScript>, n: nat)
    requires message.Assistant? && n <= |message.calls| && n <= |scripts|
    ensures Answers(message, Messages(Outcomes(message.calls, scripts, n)))
  {
  }

  datatype Batch = Batch(messages: seq<Message>, terminate: bool)

  /** What a batch comes to: it depends on the calls and the environment's answers, not on the order
      in which concurrent calls finish. */
  function BatchOf(calls: seq<Call>, scripts: seq<CallScript>): Batch
    requires |scripts| == |calls|
  {
    var finalized := Outcomes(calls, scripts, StartedCalls(scripts));
    Batch(Messages(finalized), ShouldTerminate(finalized))
  }

  /** Unless the signal aborted, the results cover the whole list of calls, one each. */
  lemma WholeListUnlessAborted(message: Message, scripts: seq<CallScript>)
    requires message.Assistant? && |scripts| == |message.calls|
    ensures var results := BatchOf(message.calls, scripts).messages;
            && Answers(message, results)
            && (|results| < |message.calls| ==>
                  exists i :: 0 <= i < |scripts| && scripts[i].abortedAfter && |results| == i + 1)
  {
    ResultsAnswer(message, scripts, StartedCalls(scripts));
    var n := StartedCalls(scripts);
    assert n < |scripts| ==> scripts[n - 1].abortedAfter;
  }

  function NotExecuted(call: Call): Finalized {
    Finalized(call, ErrorOutput(CutOff(call.name)), true)
  }

  /** The batch of a message that was cut off: every call fails, and the loop goes on. */
  function FailedBatch(calls: seq<Call>): (b: Batch)
    ensures |b.messages| == |calls| && !b.terminate
    ensures forall i :: 0 <= i < |calls| ==>
              && b.messages[i] == ResultMessage(NotExecuted(calls[i]))
              && b.messages[i].callId == calls[i].id && b.messages[i].name == calls[i].name
              && b.messages[i].isError && b.messages[i].content == CutOff(calls[i].name)
  {
    Batch(seq(|calls|, i requires 0 <= i < |calls| => ResultMessage(NotExecuted(calls[i]))), false)
  }
}
