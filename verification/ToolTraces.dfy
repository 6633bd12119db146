/** What a good trace says of each tool call: start, then updates, then one end, and nothing after. */
module ToolTraces {
  import opened AgentEvents

  /** The event is about the call in this position. */
  predicate About(e: Event, slot: nat) {
    (e.ToolStart? || e.ToolUpdate? || e.ToolEnd?) && e.slot == slot
  }

  /** The event ends an assistant message or a turn; positions count anew after it. */
  predicate Renews(e: Event) {
    e.TurnEnd? || (e.MessageEnd? && e.message.Assistant?)
  }

  function TurnOf(place: Place): Place {
    if place.Streaming? then place.turn else place
  }

  /** The call was started with this id at `i`, and has neither ended nor been restarted since. */
  ghost predicate OpenSince(events: seq<Event>, slot: nat, id: string, i: nat) {
    && i < |events| && events[i] == ToolStart(slot, id)
    && forall k :: i < k < |events| && About(events[k], slot) ==> events[k].ToolUpdate? && events[k].id == id
  }

  lemma OpenSinceNext(events: seq<Event>, e: Event, slot: nat, id: string, i: nat)
    requires OpenSince(events, slot, id, i) && (About(e, slot) ==> e == ToolUpdate(slot, id))
    ensures OpenSince(events + [e], slot, id, i)
  {
  }

  /** A running call was started, and has only reported since. */
  lemma {:induction false} RunningWasStarted(events: seq<Event>, slot: nat)
    requires PlaceOf(events) != Bad && TurnOf(PlaceOf(events)).Turn? && slot in TurnOf(PlaceOf(events)).running
    ensures exists i :: OpenSince(events, slot, TurnOf(PlaceOf(events)).running[slot], i)
  {
    if events != [] {
      var n := |events| - 1;
      var front, e := events[..n], events[n];
      assert events == front + [e];
      var id := TurnOf(PlaceOf(events)).running[slot];
      if e == ToolStart(slot, id) {
        assert OpenSince(events, slot, id, n);
      } else {
        RunningWasStarted(front, slot);
        var i :| OpenSince(front, slot, id, i);
        OpenSinceNext(front, e, slot, id, i);
      }
    }
  }

  lemma GoodPrefix(events: seq<Event>, n: nat)
    requires PlaceOf(events) != Bad && n <= |events|
    ensures PlaceOf(events[..n]) != Bad
  {
    assert events == events[..n] + events[n..];
    if PlaceOf(events[..n]) == Bad {
      BadIsFinal(events[..n], events[n..]);
    }
  }

  /** Each event of a good trace fits where it comes. */
  lemma EventFits(events: seq<Event>, j: nat)
    requires PlaceOf(events) != Bad && j < |events|
    ensures PlaceOf(events[..j]) != Bad && Next(PlaceOf(events[..j]), events[j]) != Bad
  {
    GoodPrefix(events, j);
    GoodPrefix(events, j + 1);
    assert events[..j + 1][..j] == events[..j];
  }

  /** Every update and every end belongs to a call that was started with the same id before, with
      only updates of that call in between. */
  lemma UpdatesFollowStart(events: seq<Event>, j: nat)
    requires PlaceOf(events) != Bad && j < |events| && (events[j].ToolUpdate? || events[j].ToolEnd?)
    ensures exists i :: OpenSince(events[..j], events[j].slot, events[j].id, i)
  {
    EventFits(events, j);
    RunningWasStarted(events[..j], events[j].slot);
  }

  /** Once a call has ended its position stays closed until the positions count anew. */
  lemma {:induction false} EndedStays(events: seq<Event>, slot: nat, i: nat)
    requires PlaceOf(events) != Bad && i < |events| && events[i].ToolEnd? && events[i].slot == slot
    requires forall k :: i < k < |events| ==> !Renews(events[k])
    ensures TurnOf(PlaceOf(events)).Turn?
    ensures slot in TurnOf(PlaceOf(events)).ended && slot !in TurnOf(PlaceOf(events)).running
  {
    var n := |events| - 1;
    if i < n {
      GoodPrefix(events, n);
      EndedStays(events[..n], slot, i);
    }
  }

  /** After its end a call neither reports, ends nor starts again: an event about the same position
      comes only after another assistant message or turn. */
  lemma NothingAfterEnd(events: seq<Event>, slot: nat, i: nat, j: nat)
    requires PlaceOf(events) != Bad && i < j < |events|
    requires events[i].ToolEnd? && events[i].slot == slot && About(events[j], slot)
    ensures exists k :: i < k < j && Renews(events[k])
  {
    EventFits(events, j);
    if forall k :: i < k < j ==> !Renews(events[k]) {
      EndedStays(events[..j], slot, i);
      assert false;
    }
  }

  /** The call in this position ended with this report, and the positions have not counted anew since. */
  ghost predicate EndedSince(events: seq<Event>, slot: nat, report: EndReport, i: nat) {
    && i < |events| && events[i].ToolEnd? && events[i].slot == slot && events[i].report == report
    && forall k :: i < k < |events| ==> !Renews(events[k])
  }

  lemma {:induction false} EndedWasReported(events: seq<Event>, slot: nat)
    requires PlaceOf(events) != Bad && TurnOf(PlaceOf(events)).Turn? && slot in TurnOf(PlaceOf(events)).ended
    ensures exists i :: EndedSince(events, slot, TurnOf(PlaceOf(events)).ended[slot], i)
  {
    if events != [] {
      var n := |events| - 1;
      var front, e := events[..n], events[n];
      var report := TurnOf(PlaceOf(events)).ended[slot];
      if e.ToolEnd? && e.slot == slot {
        assert EndedSince(events, slot, report, n);
      } else {
        EndedWasReported(front, slot);
        var i :| EndedSince(front, slot, report, i);
        assert EndedSince(events, slot, report, i);
      }
    }
  }

  /** Each result of a turn carries the content and the error flag that the end of its call, in the same
      position since the turn's message, reported. */
  lemma ResultsAreReported(events: seq<Event>, k: nat, i: nat)
    requires PlaceOf(events) != Bad && k < |events| && events[k].TurnEnd? && i < |events[k].results|
    ensures var m := events[k].results[i];
            m.ToolResult? && exists j :: EndedSince(events[..k], i, EndReport(m.content, m.isError), j)
  {
    EventFits(events, k);
    EndedWasReported(events[..k], i);
  }
}
