/** What a good trace says of messages and turns, without the grammar: messages start and end in turn,
    and everything between the agent's start and end happens inside a turn. */
module TurnTraces {
  import opened AgentEvents
  import opened ToolTraces

  /** The starts and ends of messages, in order. */
  function Boundaries(events: seq<Event>): seq<Event> {
    if events == [] then []
    else
      var front, e := Boundaries(events[..|events| - 1]), events[|events| - 1];
      if e.MessageStart? || e.MessageEnd? then front + [e] else front
  }

  /** Starts and ends alternate, and each end is of the message before it, or of a later state of the
      same assistant message. */
  predicate Alternates(boundaries: seq<Event>) {
    forall k :: 0 <= k < |boundaries| ==> AlternatesAt(boundaries, k)
  }

  predicate AlternatesAt(boundaries: seq<Event>, k: nat)
    requires k < |boundaries|
  {
    if k % 2 == 0 then boundaries[k].MessageStart?
    else boundaries[k].MessageEnd? && Completes(boundaries[k - 1], boundaries[k])
  }

  predicate Completes(start: Event, end: Event) {
    && start.MessageStart? && end.MessageEnd?
    && (start.message == end.message || (start.message.Assistant? && end.message.Assistant?))
  }

  /** In a good trace message starts and ends strictly alternate, beginning with a start; one message is
      open exactly when their number is odd. */
  lemma {:induction false} MessagesAlternate(events: seq<Event>)
    requires PlaceOf(events) != Bad
    ensures Alternates(Boundaries(events))
    ensures PlaceOf(events).Streaming? <==> |Boundaries(events)| % 2 == 1
    ensures PlaceOf(events).Streaming? ==>
              Boundaries(events)[|Boundaries(events)| - 1] == MessageStart(PlaceOf(events).message)
  {
    if events != [] {
      var front, e := events[..|events| - 1], events[|events| - 1];
      MessagesAlternate(front);
      if e.MessageStart? || e.MessageEnd? {
        AlternatesNext(Boundaries(front), e);
      }
    }
  }

  lemma AlternatesNext(boundaries: seq<Event>, e: Event)
    requires Alternates(boundaries)
    requires AlternatesAt(boundaries + [e], |boundaries|)
    ensures Alternates(boundaries + [e])
  {
    forall k | 0 <= k < |boundaries|
      ensures AlternatesAt(boundaries + [e], k)
    {
      assert AlternatesAt(boundaries, k);
    }
  }

  /** Every message update comes while a message is open, and every other event while none is. */
  lemma UpdatesInsideMessages(events: seq<Event>, k: nat)
    requires PlaceOf(events) != Bad && k < |events|
    ensures |Boundaries(events[..k])| % 2 == (if events[k].MessageUpdate? || events[k].MessageEnd? then 1 else 0)
  {
    EventFits(events, k);
    MessagesAlternate(events[..k]);
  }

  /** Every event but the agent's own start and end, and the turn's start, comes inside a turn. */
  lemma EventsInsideTurns(events: seq<Event>, k: nat)
    requires PlaceOf(events) != Bad && k < |events|
    ensures var starts, ends := TurnStarts(events[..k]), TurnEnds(events[..k]);
            if events[k].AgentStart? || events[k].AgentEnd? || events[k].TurnStart? then starts == ends
            else starts == ends + 1
  {
    EventFits(events, k);
    TurnsBalance(events[..k]);
  }
}
