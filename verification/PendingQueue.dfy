/** The queues of messages waiting to be injected into a run, and the history of their use. */
module PendingQueue {
  import opened Wrappers
  import opened AgentEvents

  datatype QueueMode = All | OneAtATime

  /** What a drain takes from the front of a queue. */
  function DrainCount(mode: QueueMode, queued: nat): nat {
    if mode == All then queued else if queued == 0 then 0 else 1
  }

  function Front(mode: QueueMode, messages: seq<Message>): seq<Message> {
    messages[..DrainCount(mode, |messages|)]
  }

  class PendingMessageQueue {
    var messages: seq<Message>
    var mode: QueueMode

    constructor (mode: QueueMode)
      ensures messages == [] && this.mode == mode
    {
      messages, this.mode := [], mode;
    }

    method Enqueue(message: Message)
      modifies this`messages
      ensures messages == old(messages) + [message]
    {
      messages := messages + [message];
    }

    method HasItems() returns (r: bool)
      ensures r <==> messages != []
    {
      r := |messages| > 0;
    }

    /** Take everything, or the first message, off the front. */
    method Drain() returns (drained: seq<Message>)
      modifies this`messages
      ensures drained + messages == old(messages)
      ensures if mode == All then messages == [] else |drained| == if old(messages) == [] then 0 else 1
      ensures drained == Front(mode, old(messages))
    {
      if mode == All {
        drained := messages;
        messages := [];
        return;
      }
      if |messages| == 0 {
        return [];
      }
      var first := messages[0];
      messages := messages[1..];
      return [first];
    }

    method Clear()
      modifies this`messages
      ensures messages == []
    {
      messages := [];
    }
  }

  // ---- History ----

  datatype QueueName = Steering | FollowUp

  datatype QueueEvent =
    | Enqueued(queue: QueueName, message: Message)
    | Cleared(queue: QueueName)
    | Drained(queue: QueueName, batch: seq<Message>)
    | Injected(queue: QueueName, message: Message)

  /** The messages a queue has received and given out since it was last cleared, and what is in it. */
  datatype Account = Account(enqueued: seq<Message>, drained: seq<Message>, content: seq<Message>)

  function Post(a: Account, queue: QueueName, e: QueueEvent): Account {
    if e.queue != queue then a
    else
      match e
      case Enqueued(_, m) => a.(enqueued := a.enqueued + [m], content := a.content + [m])
      case Cleared(_) => Account([], [], [])
      case Drained(_, batch) =>
        a.(drained := a.drained + batch,
           content := if |batch| <= |a.content| then a.content[|batch|..] else [])
      case Injected(_, _) => a
  }

  function AccountOf(log: seq<QueueEvent>, queue: QueueName): Account {
    if log == [] then Account([], [], [])
    else Post(AccountOf(log[..|log| - 1], queue), queue, log[|log| - 1])
  }

  /** The messages taken from the queues and the messages injected, in order, each with its queue. */
  function Taken(log: seq<QueueEvent>): seq<(QueueName, Message)> {
    if log == [] then []
    else
      var front, e := Taken(log[..|log| - 1]), log[|log| - 1];
      if e.Drained? then front + Tag(e.queue, e.batch) else front
  }

  function InjectedIn(log: seq<QueueEvent>): seq<(QueueName, Message)> {
    if log == [] then []
    else
      var front, e := InjectedIn(log[..|log| - 1]), log[|log| - 1];
      if e.Injected? then front + [(e.queue, e.message)] else front
  }

  function Tag(queue: QueueName, batch: seq<Message>): (r: seq<(QueueName, Message)>)
    ensures |r| == |batch| && forall i :: 0 <= i < |r| ==> r[i] == (queue, batch[i])
  {
    seq(|batch|, i requires 0 <= i < |batch| => (queue, batch[i]))
  }

  /** These messages, taken from this queue, are all that was taken and not yet injected. */
  predicate Owed(log: seq<QueueEvent>, source: Option<QueueName>, pending: seq<Message>) {
    Taken(log) == InjectedIn(log) + if source.Some? then Tag(source.value, pending) else []
  }

  /** What the latest drain of the steering queue took. */
  function LastSteering(log: seq<QueueEvent>): Option<seq<Message>> {
    if log == [] then None
    else if log[|log| - 1].Drained? && log[|log| - 1].queue == Steering then Some(log[|log| - 1].batch)
    else LastSteering(log[..|log| - 1])
  }

  /** Every drain took a prefix of what was in its queue, and a follow-up was drained only when the
      latest steering drain had come back empty. */
  predicate DrainsAreFair(log: seq<QueueEvent>) {
    if log == [] then true
    else
      var front, e := log[..|log| - 1], log[|log| - 1];
      && DrainsAreFair(front)
      && (e.Drained? ==>
            && e.batch <= AccountOf(front, e.queue).content
            && (e.queue == FollowUp ==> LastSteering(front) == Some([])))
  }

  lemma {:induction false} DrainWasFair(log: seq<QueueEvent>, k: nat)
    requires DrainsAreFair(log) && k < |log| && log[k].Drained?
    ensures log[k].batch <= AccountOf(log[..k], log[k].queue).content
    ensures log[k].queue == FollowUp ==> LastSteering(log[..k]) == Some([])
  {
    if k < |log| - 1 {
      DrainWasFair(log[..|log| - 1], k);
      assert log[..|log| - 1][..k] == log[..k];
    }
  }

  lemma ExtendLog(log: seq<QueueEvent>, e: QueueEvent)
    ensures forall q :: AccountOf(log + [e], q) == Post(AccountOf(log, q), q, e)
    ensures Taken(log + [e]) == if e.Drained? then Taken(log) + Tag(e.queue, e.batch) else Taken(log)
    ensures InjectedIn(log + [e]) == if e.Injected? then InjectedIn(log) + [(e.queue, e.message)] else InjectedIn(log)
    ensures LastSteering(log + [e]) == if e.Drained? && e.queue == Steering then Some(e.batch) else LastSteering(log)
    ensures DrainsAreFair(log + [e]) <==>
            && DrainsAreFair(log)
            && (e.Drained? ==>
                  && e.batch <= AccountOf(log, e.queue).content
                  && (e.queue == FollowUp ==> LastSteering(log) == Some([])))
  {
    assert (log + [e])[..|log|] == log;
  }

  // ---- The history goes on ----

  /** The history of queues with these contents. */
  predicate History(log: seq<QueueEvent>, steering: seq<Message>, followUps: seq<Message>) {
    && AccountOf(log, Steering).content == steering
    && AccountOf(log, FollowUp).content == followUps
    && DrainsAreFair(log)
  }

  /** The history went on, and nothing more was taken or injected. */
  predicate SameUse(log: seq<QueueEvent>, log': seq<QueueEvent>) {
    log <= log' && Taken(log') == Taken(log) && InjectedIn(log') == InjectedIn(log) && LastSteering(log') == LastSteering(log)
  }

  /** Nothing was put into a queue since. */
  predicate NothingNew(log: seq<QueueEvent>, log': seq<QueueEvent>) {
    forall k :: |log| <= k < |log'| ==> !log'[k].Enqueued?
  }

  lemma AfterEnqueue(log: seq<QueueEvent>, steering: seq<Message>, followUps: seq<Message>, q: QueueName, m: Message)
    requires History(log, steering, followUps)
    ensures History(log + [Enqueued(q, m)], if q == Steering then steering + [m] else steering,
                    if q == FollowUp then followUps + [m] else followUps)
    ensures SameUse(log, log + [Enqueued(q, m)])
  {
    ExtendLog(log, Enqueued(q, m));
  }

  lemma AfterClear(log: seq<QueueEvent>, steering: seq<Message>, followUps: seq<Message>, q: QueueName)
    requires History(log, steering, followUps)
    ensures History(log + [Cleared(q)], if q == Steering then [] else steering, if q == FollowUp then [] else followUps)
    ensures SameUse(log, log + [Cleared(q)])
  {
    ExtendLog(log, Cleared(q));
  }

  /** A batch is drained from a queue, of which this rest is left. */
  lemma AfterDrain(log: seq<QueueEvent>, steering: seq<Message>, followUps: seq<Message>, q: QueueName,
                   batch: seq<Message>, rest: seq<Message>)
    requires History(log, steering, followUps) && batch + rest == if q == Steering then steering else followUps
    requires q == FollowUp ==> LastSteering(log) == Some([])
    ensures History(log + [Drained(q, batch)], if q == Steering then rest else steering,
                    if q == FollowUp then rest else followUps)
    ensures Taken(log + [Drained(q, batch)]) == Taken(log) + Tag(q, batch)
    ensures InjectedIn(log + [Drained(q, batch)]) == InjectedIn(log)
    ensures LastSteering(log + [Drained(q, batch)]) == if q == Steering then Some(batch) else LastSteering(log)
  {
    ExtendLog(log, Drained(q, batch));
    assert (batch + rest)[|batch|..] == rest;
  }

  function Injections(q: QueueName, messages: seq<Message>): (r: seq<QueueEvent>)
    ensures forall i :: 0 <= i < |r| ==> r[i].Injected?
  {
    if messages == [] then []
    else Injections(q, messages[..|messages| - 1]) + [Injected(q, messages[|messages| - 1])]
  }

  lemma Regroup<T>(a: seq<T>, b: seq<T>, c: seq<T>)
    ensures (a + b) + c == a + (b + c)
  {
  }

  lemma {:induction false} AfterInjections(log: seq<QueueEvent>, steering: seq<Message>, followUps: seq<Message>,
                                           q: QueueName, messages: seq<Message>)
    requires History(log, steering, followUps)
    ensures var log' := log + Injections(q, messages);
            && History(log', steering, followUps)
            && Taken(log') == Taken(log) && LastSteering(log') == LastSteering(log)
            && InjectedIn(log') == InjectedIn(log) + Tag(q, messages)
    decreases |messages|
  {
    if messages == [] {
      assert log + Injections(q, messages) == log;
    } else {
      var n := |messages| - 1;
      AfterInjections(log, steering, followUps, q, messages[..n]);
      AfterInjection(log + Injections(q, messages[..n]), steering, followUps, q, messages[n]);
      Regroup(log, Injections(q, messages[..n]), [Injected(q, messages[n])]);
      TagNext(q, messages);
      Regroup(InjectedIn(log), Tag(q, messages[..n]), [(q, messages[n])]);
    }
  }

  lemma AfterInjection(log: seq<QueueEvent>, steering: seq<Message>, followUps: seq<Message>, q: QueueName, m: Message)
    requires History(log, steering, followUps)
    ensures var log' := log + [Injected(q, m)];
            && History(log', steering, followUps)
            && Taken(log') == Taken(log) && LastSteering(log') == LastSteering(log)
            && InjectedIn(log') == InjectedIn(log) + [(q, m)]
  {
    ExtendLog(log, Injected(q, m));
  }

  lemma TagNext(q: QueueName, messages: seq<Message>)
    requires messages != []
    ensures var n := |messages| - 1;
            Tag(q, messages) == Tag(q, messages[..n]) + [(q, messages[n])]
  {
  }

  /** Conservation: since a queue was last cleared, what was drained followed by what is still
      queued is exactly what was enqueued, in order. */
  lemma {:induction false} Conservation(log: seq<QueueEvent>, queue: QueueName)
    requires DrainsAreFair(log)
    ensures var a := AccountOf(log, queue);
            a.enqueued == a.drained + a.content
  {
    if log != [] {
      var front, e := log[..|log| - 1], log[|log| - 1];
      Conservation(front, queue);
      var a := AccountOf(front, queue);
      if e.queue == queue {
        match e
        case Enqueued(_, m) => assert a.drained + a.content + [m] == a.drained + (a.content + [m]);
        case Drained(_, batch) =>
          assert a.content == batch + a.content[|batch|..];
          assert a.drained + (batch + a.content[|batch|..]) == (a.drained + batch) + a.content[|batch|..];
        case _ =>
      }
    }
  }

  function From(tagged: seq<(QueueName, Message)>, queue: QueueName): seq<Message> {
    if tagged == [] then []
    else
      var front, last := From(tagged[..|tagged| - 1], queue), tagged[|tagged| - 1];
      if last.0 == queue then front + [last.1] else front
  }

  lemma {:induction false} FromAppend(a: seq<(QueueName, Message)>, batch: seq<Message>, of: QueueName, queue: QueueName)
    ensures From(a + Tag(of, batch), queue) == From(a, queue) + if of == queue then batch else []
    decreases |batch|
  {
    if batch == [] {
      assert a + Tag(of, batch) == a;
    } else {
      var n := |batch| - 1;
      FromAppend(a, batch[..n], of, queue);
      var whole := a + Tag(of, batch);
      assert whole[..|whole| - 1] == a + Tag(of, batch[..n]);
      assert whole[|whole| - 1] == (of, batch[n]);
      assert batch == batch[..n] + [batch[n]];
    }
  }

  /** Up to where the history is over for a queue: after the last time it was cleared. */
  function LastClear(log: seq<QueueEvent>, queue: QueueName): (n: nat)
    ensures n <= |log|
    ensures n > 0 ==> log[n - 1] == Cleared(queue)
    ensures forall k :: n <= k < |log| ==> log[k] != Cleared(queue)
  {
    if log == [] then 0
    else if log[|log| - 1] == Cleared(queue) then |log|
    else LastClear(log[..|log| - 1], queue)
  }

  /** The messages that were put into a queue, in order. */
  function EnqueuedIn(log: seq<QueueEvent>, queue: QueueName): seq<Message> {
    if log == [] then []
    else
      var front, e := EnqueuedIn(log[..|log| - 1], queue), log[|log| - 1];
      if e.Enqueued? && e.queue == queue then front + [e.message] else front
  }

  /** What was taken from a queue is what was taken before it was last cleared, then what its account
      has drained. */
  lemma {:induction false} DrainedSinceClear(log: seq<QueueEvent>, queue: QueueName)
    ensures From(Taken(log), queue) ==
            From(Taken(log[..LastClear(log, queue)]), queue) + AccountOf(log, queue).drained
  {
    if log != [] {
      var front, e := log[..|log| - 1], log[|log| - 1];
      if e == Cleared(queue) {
        assert log[..|log|] == log;
      } else {
        DrainedSinceClear(front, queue);
        assert log[..LastClear(log, queue)] == front[..LastClear(front, queue)];
        if e.Drained? {
          FromAppend(Taken(front), e.batch, e.queue, queue);
        }
      }
    }
  }

  /** A queue's account lists the messages put into it since it was last cleared. */
  lemma {:induction false} EnqueuedSinceClear(log: seq<QueueEvent>, queue: QueueName)
    ensures AccountOf(log, queue).enqueued == EnqueuedIn(log[LastClear(log, queue)..], queue)
  {
    if log != [] {
      var front, e := log[..|log| - 1], log[|log| - 1];
      if e == Cleared(queue) {
        assert log[|log|..] == [];
      } else {
        EnqueuedSinceClear(front, queue);
        var n := LastClear(front, queue);
        assert log[n..][..|log| - n - 1] == front[n..];
      }
    }
  }

  /** When everything taken has been injected: past the messages that were taken before a queue was
      last cleared, the messages injected from it followed by those still queued are exactly those
      enqueued since. */
  lemma InjectedThenQueued(log: seq<QueueEvent>, queue: QueueName)
    requires DrainsAreFair(log) && Taken(log) == InjectedIn(log)
    ensures var cleared := LastClear(log, queue);
            var before := From(Taken(log[..cleared]), queue);
            && before <= From(InjectedIn(log), queue)
            && From(InjectedIn(log), queue)[|before|..] + AccountOf(log, queue).content ==
               EnqueuedIn(log[cleared..], queue)
  {
    Conservation(log, queue);
    DrainedSinceClear(log, queue);
    EnqueuedSinceClear(log, queue);
  }

  /** The messages without their queues. */
  function Untagged(tagged: seq<(QueueName, Message)>): (r: seq<Message>)
    ensures |r| == |tagged| && forall i :: 0 <= i < |r| ==> r[i] == tagged[i].1
  {
    seq(|tagged|, i requires 0 <= i < |tagged| => tagged[i].1)
  }

  function Joined(batches: seq<seq<Message>>): seq<Message> {
    if batches == [] then [] else Joined(batches[..|batches| - 1]) + batches[|batches| - 1]
  }

  /** Since these messages had been injected, exactly the batches were, in order. */
  predicate InjectedSince(log: seq<QueueEvent>, before: seq<(QueueName, Message)>, batches: seq<seq<Message>>) {
    before <= InjectedIn(log) && Untagged(InjectedIn(log)[|before|..]) == Joined(batches)
  }

  lemma OneMoreBatch(log: seq<QueueEvent>, log': seq<QueueEvent>, before: seq<(QueueName, Message)>,
                     batches: seq<seq<Message>>, queue: QueueName, batch: seq<Message>)
    requires InjectedSince(log, before, batches) && InjectedIn(log') == InjectedIn(log) + Tag(queue, batch)
    ensures InjectedSince(log', before, batches + [batch])
  {
    var since := InjectedIn(log)[|before|..];
    assert InjectedIn(log')[|before|..] == since + Tag(queue, batch);
    assert Untagged(since + Tag(queue, batch)) == Untagged(since) + batch;
    assert (batches + [batch])[..|batches|] == batches;
  }

  /** Queues that are empty stay empty, and give out nothing, while nothing is put into them. */
  lemma {:induction false} NothingTaken(log: seq<QueueEvent>, n: nat)
    requires n <= |log| && DrainsAreFair(log) && NothingNew(log[..n], log)
    requires forall q :: AccountOf(log[..n], q).content == []
    ensures forall q :: AccountOf(log, q).content == []
    ensures Taken(log) == Taken(log[..n])
  {
    if n == |log| {
      assert log[..n] == log;
    } else {
      var front, e := log[..|log| - 1], log[|log| - 1];
      assert front[..n] == log[..n];
      NothingTaken(front, n);
      if e.Drained? {
        assert e.batch == [] && Tag(e.queue, e.batch) == [];
      }
    }
  }

  lemma {:induction false} NoneJoined(batches: seq<seq<Message>>)
    requires Joined(batches) == []
    ensures forall k :: 0 <= k < |batches| ==> batches[k] == []
  {
    if batches != [] {
      NoneJoined(batches[..|batches| - 1]);
    }
  }
}
