/** What makes and loses the client's connection, and what settles its promises, over every run. */
module ClientOutcomes {
  import opened Wrappers
  import opened ClientConnection

  // ---- What losing a connection leaves alone ----

  predicate SameRest(st: State, next: State) {
    && next.disposed == st.disposed && next.sequence == st.sequence && next.requestSequence == st.requestSequence
    && next.factories == st.factories
  }

  lemma FailKeepsRest(st: State)
    ensures SameRest(st, Fail(st)) && SameRest(st, FailAndClose(st))
  {
  }

  lemma MessageKeepsRest(st: State, message: Message)
    ensures SameRest(st, HandleMessage(st, message))
  {
    FailKeepsRest(st);
    if st.lifecycle.Connected? && message.Response? {
      ResponseKeepsRest(st, message.id, message.outcome);
    }
  }

  lemma ResponseKeepsRest(st: State, r: RequestId, outcome: ResponseOutcome)
    ensures SameRest(st, HandleResponse(st, r, outcome))
  {
    FailKeepsRest(st);
    FailKeepsRest(st.(pending := st.pending - {r}, requests := Settle(st.requests, {r})));
  }

  lemma RequestKeepsRest(st: State, encodes: bool, sends: bool)
    ensures var next := StartRequest(st, encodes, sends);
            && next.disposed == st.disposed && next.sequence == st.sequence && next.factories == st.factories
            && (next.requestSequence != st.requestSequence ==> !st.disposed)
  {
    var r := st.requestSequence + 1;
    FailKeepsRest(st.(requestSequence := r, requests := st.requests[r := 0], pending := st.pending + {r}));
  }

  // ---- Losing the connection ----

  /** A message that the protocol does not allow here: anything but hello on a transport that is not
      greeted yet; a second hello, or a response to no pending request or to another command, later. */
  predicate BreaksProtocol(st: State, message: Message) {
    match st.lifecycle
    case Disconnected => false
    case Connecting(_, transport) => !(message.Hello? && transport.Some?)
    case Connected(_, _, _) =>
      || message.Hello? || message.HelloError?
      || (message.Response? && (message.id !in st.pending || message.outcome == WrongCommand))
  }

  /** This stretch loses a connection that is there. */
  predicate Loses(st: State, step: Step) {
    !st.lifecycle.Disconnected? &&
    match step
    case FactoryRejects(id) => st.lifecycle.id == id
    case HelloFails(id) => st.lifecycle.id == id
    case Receive(message) => BreaksProtocol(st, message)
    case ReceiveGarbage => true
    case HandshakeApplied(id, threw) => threw && IsHandshaking(st.lifecycle, id)
    case TransportCloses(id) => st.lifecycle.id == id
    case TransportErrs(id) => st.lifecycle.id == id
    case Disconnect => true
    case Request(encodes, sends) => !st.disposed && st.lifecycle.Connected? && encodes && !sends
    case SendFails(t) => TransportOf(st.lifecycle) == Some(t)
    case Dispose => !st.disposed
    case _ => false
  }

  lemma FailDisconnects(st: State)
    ensures Fail(st).lifecycle.Disconnected? && FailAndClose(st).lifecycle.Disconnected?
  {
  }

  lemma ReceiveLosesIff(st: State, message: Message)
    requires !st.lifecycle.Disconnected?
    ensures HandleMessage(st, message).lifecycle.Disconnected? <==> BreaksProtocol(st, message)
  {
    FailDisconnects(st);
    if st.lifecycle.Connected? && message.Response? {
      ResponseLosesIff(st, message.id, message.outcome);
    }
  }

  lemma ResponseLosesIff(st: State, r: RequestId, outcome: ResponseOutcome)
    requires st.lifecycle.Connected?
    ensures HandleResponse(st, r, outcome).lifecycle.Disconnected? <==> r !in st.pending || outcome == WrongCommand
  {
    FailDisconnects(st);
    FailDisconnects(st.(pending := st.pending - {r}, requests := Settle(st.requests, {r})));
  }

  lemma RequestLosesIff(st: State, encodes: bool, sends: bool)
    requires !st.lifecycle.Disconnected?
    ensures StartRequest(st, encodes, sends).lifecycle.Disconnected? <==>
            !st.disposed && st.lifecycle.Connected? && encodes && !sends
  {
    var r := st.requestSequence + 1;
    FailDisconnects(st.(requestSequence := r, requests := st.requests[r := 0], pending := st.pending + {r}));
  }

  lemma StepLosesIff(st: State, step: Step)
    requires Enabled(st, step) && !st.lifecycle.Disconnected?
    ensures Apply(st, step).lifecycle.Disconnected? <==> Loses(st, step)
  {
    FailDisconnects(st);
    match step
    case FactoryRejects(id) => FailDisconnects(st.(factories := st.factories[id := Finished]));
    case Receive(message) => ReceiveLosesIff(st, message);
    case HandshakeApplied(id, _) => FailDisconnects(st.(handshakes := st.handshakes - {id}));
    case Request(encodes, sends) => RequestLosesIff(st, encodes, sends);
    case Dispose => FailDisconnects(RejectPending(st.(disposed := true)));
    case _ =>
  }

  /** A connection is lost for exactly these reasons. */
  lemma ConnectionLostIff(states: seq<State>, steps: seq<Step>, i: nat)
    requires IsRun(states, steps) && i < |steps| && !states[i].lifecycle.Disconnected?
    ensures states[i + 1].lifecycle.Disconnected? <==> Loses(states[i], steps[i])
  {
    assert StepAt(states, steps, i);
    StepLosesIff(states[i], steps[i]);
  }

  // ---- Making the connection ----

  /** A transport that a factory hands over is used exactly if its connect is still waiting for it. */
  lemma TransportTakenIff(states: seq<State>, steps: seq<Step>, i: nat, id: ConnectId, t: TransportId)
    requires IsRun(states, steps) && i < |steps| && steps[i] == FactoryResolves(id, t)
    ensures states[i + 1].lifecycle ==
            if states[i].lifecycle == Connecting(id, None) then Connecting(id, Some(t)) else states[i].lifecycle
    ensures t in states[i + 1].transports
    ensures states[i + 1].transports[t] == if states[i].lifecycle == Connecting(id, None) then InUse else ClosedLocally
  {
    RunKeepsInv(states, steps, i);
    assert StepAt(states, steps, i);
  }

  /** A transport that is connecting is connected exactly by the server's hello, after the transport is
      there; its promise then waits for the two callbacks. */
  lemma HelloConnectsIff(states: seq<State>, steps: seq<Step>, i: nat)
    requires IsRun(states, steps) && i < |steps| && !states[i].lifecycle.Connected?
    ensures states[i + 1].lifecycle.Connected? <==>
            steps[i] == Receive(Hello) && states[i].lifecycle.Connecting? && states[i].lifecycle.pendingTransport.Some?
    ensures states[i + 1].lifecycle.Connected? ==>
              states[i + 1].lifecycle ==
              Connected(states[i].lifecycle.id, states[i].lifecycle.pendingTransport.value, true)
  {
    assert StepAt(states, steps, i);
    if !steps[i].Receive? {
      NeverConnects(states[i], steps[i]);
    }
  }

  lemma NeverConnects(st: State, step: Step)
    requires Enabled(st, step) && !st.lifecycle.Connected? && !step.Receive?
    ensures !Apply(st, step).lifecycle.Connected?
  {
  }

  // ---- Settling promises ----

  lemma StaysOutstandingIff(st: State, step: Step, id: ConnectId)
    requires Inv(st) && Enabled(st, step) && IsOutstanding(st.lifecycle, id) && !Loses(st, step)
    ensures IsOutstanding(Apply(st, step).lifecycle, id) <==> !(step == Announced(id) && st.lifecycle.Connected?)
  {
    StepLosesIff(st, step);
    if step.Request? {
      RequestKeepsLifecycle(st, step.encodes, step.sends);
    }
  }

  lemma RequestKeepsLifecycle(st: State, encodes: bool, sends: bool)
    requires !Loses(st, Request(encodes, sends)) && !st.lifecycle.Disconnected?
    ensures StartRequest(st, encodes, sends).lifecycle == st.lifecycle
  {
  }

  /** The promise of a connect is settled exactly when its connection is lost or, once its handshake was
      applied and announced, resolved. */
  lemma ConnectSettlesIff(states: seq<State>, steps: seq<Step>, i: nat, id: ConnectId)
    requires IsRun(states, steps) && i < |steps| && IsOutstanding(states[i].lifecycle, id)
    ensures id in states[i + 1].connects
    ensures states[i + 1].connects[id] == 1 <==>
            Loses(states[i], steps[i]) || (steps[i] == Announced(id) && states[i].lifecycle.Connected?)
  {
    RunKeepsInv(states, steps, i);
    RunKeepsInv(states, steps, i + 1);
    assert StepAt(states, steps, i);
    ConnectionLostIff(states, steps, i);
    SequenceGrows(states[i], steps[i]);
    if !Loses(states[i], steps[i]) {
      StaysOutstandingIff(states[i], steps[i], id);
    }
  }

  lemma SequenceGrows(st: State, step: Step)
    requires Enabled(st, step)
    ensures Apply(st, step).sequence == st.sequence || Apply(st, step).sequence == st.sequence + 1
  {
    match step
    case Receive(message) => MessageKeepsRest(st, message);
    case Request(encodes, sends) => RequestKeepsRest(st, encodes, sends);
    case _ =>
  }

  /** This stretch settles a pending request: its response refuses it or is of another command, the
      connection is lost, or the client is disposed of. */
  predicate Rejects(st: State, step: Step, r: RequestId) {
    || Loses(st, step)
    || (step.Receive? && step.message.Response? && step.message.id == r && step.message.outcome != Fits)
  }

  lemma LossClearsPending(st: State)
    ensures FailAndClose(st).resolving == st.resolving && Fail(st).resolving == st.resolving
    ensures !st.lifecycle.Disconnected? ==> FailAndClose(st).pending == {} && Fail(st).pending == {}
  {
  }

  lemma ResponseMoves(st: State, s: RequestId, outcome: ResponseOutcome, r: RequestId)
    requires Inv(st) && st.lifecycle.Connected? && r in st.pending
    ensures var next := HandleResponse(st, s, outcome);
            && (r in next.pending <==> s in st.pending && outcome != WrongCommand && s != r)
            && (r in next.resolving <==> s == r && outcome == Fits)
  {
    LossClearsPending(st);
    LossClearsPending(st.(pending := st.pending - {s}, requests := Settle(st.requests, {s})));
  }

  lemma RequestMoves(st: State, encodes: bool, sends: bool, r: RequestId)
    requires Inv(st) && r in st.pending
    ensures var next := StartRequest(st, encodes, sends);
            && (r in next.pending <==> !Loses(st, Request(encodes, sends))) && r !in next.resolving
  {
    var s := st.requestSequence + 1;
    LossClearsPending(st.(requestSequence := s, requests := st.requests[s := 0], pending := st.pending + {s}));
  }

  lemma MessageMoves(st: State, message: Message, r: RequestId)
    requires Inv(st) && r in st.pending
    ensures var next := HandleMessage(st, message);
            && (r in next.pending <==> !Rejects(st, Receive(message), r) && message != Response(r, Fits))
            && (r in next.resolving <==> message == Response(r, Fits))
  {
    LossClearsPending(st);
    if message.Response? {
      ResponseMoves(st, message.id, message.outcome, r);
    }
  }

  /** What the transport reports, and a disconnect. */
  lemma TransportMoves(st: State, step: Step, r: RequestId)
    requires Inv(st) && Enabled(st, step) && r in st.pending
    requires step.HelloFails? || step.ReceiveGarbage? || step.TransportCloses? || step.TransportErrs? ||
             step.Disconnect? || step.SendFails?
    ensures r in Apply(st, step).pending <==> !Loses(st, step)
    ensures Apply(st, step).resolving == st.resolving
  {
    LossClearsPending(st);
  }

  /** Stretches that cannot lose the connection. */
  lemma OtherMoves(st: State, step: Step, r: RequestId)
    requires Inv(st) && Enabled(st, step) && r in st.pending
    requires step.Connect? || step.OpenTransport? || step.FactoryResolves? || step.Announced? ||
             step.CloseTransport? || step.ResponseApplied?
    ensures r in Apply(st, step).pending && Apply(st, step).resolving <= st.resolving
  {
  }

  lemma StepMoves(st: State, step: Step, r: RequestId)
    requires Inv(st) && Enabled(st, step) && r in st.pending
    ensures r in Apply(st, step).pending <==> !Rejects(st, step, r) && step != Receive(Response(r, Fits))
    ensures r in Apply(st, step).resolving <==> step == Receive(Response(r, Fits))
  {
    match step
    case FactoryRejects(id) => LossClearsPending(st.(factories := st.factories[id := Finished]));
    case Receive(message) => MessageMoves(st, message, r);
    case HandshakeApplied(id, _) => LossClearsPending(st.(handshakes := st.handshakes - {id}));
    case Request(encodes, sends) => RequestMoves(st, encodes, sends, r);
    case Dispose => LossClearsPending(RejectPending(st.(disposed := true)));
    case HelloFails(_) => TransportMoves(st, step, r);
    case ReceiveGarbage => TransportMoves(st, step, r);
    case TransportCloses(_) => TransportMoves(st, step, r);
    case TransportErrs(_) => TransportMoves(st, step, r);
    case Disconnect => TransportMoves(st, step, r);
    case SendFails(_) => TransportMoves(st, step, r);
    case _ => OtherMoves(st, step, r);
  }

  /** A pending request is settled for exactly these reasons, and goes on to be applied exactly by its own
      fitting response. */
  lemma RequestSettlesIff(states: seq<State>, steps: seq<Step>, i: nat, r: RequestId)
    requires IsRun(states, steps) && i < |steps| && r in states[i].pending
    ensures r in states[i + 1].requests
    ensures states[i + 1].requests[r] == 1 <==> Rejects(states[i], steps[i], r)
    ensures r in states[i + 1].resolving <==> steps[i] == Receive(Response(r, Fits))
  {
    RunKeepsInv(states, steps, i);
    RunKeepsInv(states, steps, i + 1);
    assert StepAt(states, steps, i);
    StepMoves(states[i], steps[i], r);
    RequestsOnlyGrow(states[i], steps[i]);
  }

  /** A lost connection leaves its transport to be closed, unless that closed by itself. */
  lemma LostTransportCloses(states: seq<State>, steps: seq<Step>, i: nat, t: TransportId)
    requires IsRun(states, steps) && i < |steps| && Loses(states[i], steps[i])
    requires TransportOf(states[i].lifecycle) == Some(t)
    ensures t in states[i + 1].transports
    ensures states[i + 1].transports[t] == if steps[i].TransportCloses? then ClosedItself else CloseDue
  {
    RunKeepsInv(states, steps, i);
    assert StepAt(states, steps, i);
  }

  /** A handshake whose snapshot was applied is announced, unless it failed or its connection was lost
      meanwhile. */
  lemma AnnouncedIff(states: seq<State>, steps: seq<Step>, i: nat, id: ConnectId, threw: bool)
    requires IsRun(states, steps) && i < |steps| && steps[i] == HandshakeApplied(id, threw)
    requires id !in states[i].announcements
    ensures id in states[i + 1].announcements <==> !threw && IsHandshaking(states[i].lifecycle, id)
  {
    assert StepAt(states, steps, i);
  }

  // ---- Transports and disposal ----

  predicate IsClosed(st: State, t: TransportId) {
    t in st.transports && (st.transports[t] == ClosedLocally || st.transports[t] == ClosedItself)
  }

  lemma StepKeepsClosed(st: State, step: Step, t: TransportId)
    requires Inv(st) && Enabled(st, step) && IsClosed(st, t)
    ensures IsClosed(Apply(st, step), t)
  {
    match step
    case Receive(message) => MessageKeepsClosed(st, message, t);
    case Request(encodes, sends) => RequestKeepsClosed(st, encodes, sends, t);
    case _ =>
  }

  lemma MessageKeepsClosed(st: State, message: Message, t: TransportId)
    requires Inv(st) && IsClosed(st, t)
    ensures IsClosed(HandleMessage(st, message), t)
  {
  }

  lemma RequestKeepsClosed(st: State, encodes: bool, sends: bool, t: TransportId)
    requires Inv(st) && IsClosed(st, t)
    ensures IsClosed(StartRequest(st, encodes, sends), t)
  {
  }

  /** A transport that is to be closed gets closed, and stays so. */
  lemma {:induction false} ClosedStaysClosed(states: seq<State>, steps: seq<Step>, i: nat, j: nat, t: TransportId)
    requires IsRun(states, steps) && i < j < |states|
    requires steps[i] == CloseTransport(t) || IsClosed(states[i], t)
    ensures IsClosed(states[j], t)
    decreases j
  {
    RunKeepsInv(states, steps, j - 1);
    assert StepAt(states, steps, j - 1);
    if i < j - 1 {
      ClosedStaysClosed(states, steps, i, j - 1, t);
    }
    if IsClosed(states[j - 1], t) {
      StepKeepsClosed(states[j - 1], steps[j - 1], t);
    }
  }

  lemma StepDisposes(st: State, step: Step)
    requires Enabled(st, step)
    ensures Apply(st, step).disposed <==> st.disposed || step == Dispose
    ensures Apply(st, step).sequence != st.sequence ==> step == Connect && !st.disposed
    ensures Apply(st, step).requestSequence != st.requestSequence ==> step.Request? && !st.disposed
  {
    match step
    case Receive(message) => MessageKeepsRest(st, message);
    case Request(encodes, sends) => RequestKeepsRest(st, encodes, sends);
    case _ =>
  }

  /** The client is disposed of exactly from its first dispose on; after that no connect and no request is
      accepted. */
  lemma {:induction false} DisposedIff(states: seq<State>, steps: seq<Step>, i: nat)
    requires IsRun(states, steps) && i < |states|
    ensures states[i].disposed <==> exists j :: 0 <= j < i && steps[j] == Dispose
    ensures i < |steps| && states[i].disposed ==>
              && states[i + 1].sequence == states[i].sequence
              && states[i + 1].requestSequence == states[i].requestSequence
  {
    if i > 0 {
      DisposedIff(states, steps, i - 1);
      assert StepAt(states, steps, i - 1);
      StepDisposes(states[i - 1], steps[i - 1]);
    }
    if i < |steps| {
      assert StepAt(states, steps, i);
      StepDisposes(states[i], steps[i]);
    }
  }
}
