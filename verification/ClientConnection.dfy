/** The client's connection and its requests, as a transition system. Calls into listeners, the
    transport and the promise queue cut the program into stretches; any pending stretch may run next,
    so whatever a listener does during a callback is among the runs. */
module ClientConnection {
  import opened Wrappers

  type ConnectId = nat
  type RequestId = nat
  type TransportId = nat

  /** `handshaking` is whether the `connect()` promise is still to be settled. */
  datatype Lifecycle =
    | Disconnected
    | Connecting(id: ConnectId, pendingTransport: Option<TransportId>)
    | Connected(id: ConnectId, transport: TransportId, handshaking: bool)

  /** The transport factory of a `connect()`: about to be called, called, or settled. */
  datatype FactoryPhase = Waiting | Calling | Finished

  datatype TransportStatus = InUse | CloseDue | ClosedLocally | ClosedItself

  /** `connects` and `requests` count how often each promise was resolved or rejected. `pending` are
      the requests without a response; `resolving` those whose response is just being applied.
      `handshakes` and `announcements` are the connects inside the two callbacks of the handshake. */
  datatype State = State(
    lifecycle: Lifecycle, sequence: nat, connects: map<ConnectId, nat>, factories: map<ConnectId, FactoryPhase>,
    transports: map<TransportId, TransportStatus>, handshakes: set<ConnectId>, announcements: set<ConnectId>,
    requestSequence: nat, pending: set<RequestId>, resolving: set<RequestId>, requests: map<RequestId, nat>,
    disposed: bool)

  const Initial := State(Disconnected, 0, map[], map[], map[], {}, {}, 0, {}, {}, map[], false)

  datatype ResponseOutcome = Refused | WrongCommand | Fits

  datatype Message = Hello | HelloError | Response(id: RequestId, outcome: ResponseOutcome) | Notice

  datatype Step =
    | Connect
    | OpenTransport(id: ConnectId)
    | FactoryResolves(id: ConnectId, t: TransportId)
    | FactoryRejects(id: ConnectId)
    | HelloFails(id: ConnectId)
    | Receive(message: Message)
    | ReceiveGarbage
    | HandshakeApplied(id: ConnectId, threw: bool)
    | Announced(id: ConnectId)
    | TransportCloses(id: ConnectId)
    | TransportErrs(id: ConnectId)
    | Disconnect
    | CloseTransport(t: TransportId)
    | Request(encodes: bool, sends: bool)
    | SendFails(t: TransportId)
    | ResponseApplied(r: RequestId)
    | Dispose

  predicate IsCurrent(lifecycle: Lifecycle, id: ConnectId) {
    !lifecycle.Disconnected? && lifecycle.id == id
  }

  function TransportOf(lifecycle: Lifecycle): Option<TransportId> {
    match lifecycle
    case Disconnected => None
    case Connecting(_, t) => t
    case Connected(_, t, _) => Some(t)
  }

  /** The `connect()` whose promise is still to be settled. */
  predicate IsOutstanding(lifecycle: Lifecycle, id: ConnectId) {
    IsCurrent(lifecycle, id) && (lifecycle.Connecting? || lifecycle.handshaking)
  }

  function Settle(counts: map<nat, nat>, ids: set<nat>): map<nat, nat> {
    map i | i in counts :: if i in ids then counts[i] + 1 else counts[i]
  }

  /** The connection is lost: its promise and every pending request are rejected. */
  function Fail(st: State): State {
    if st.lifecycle.Disconnected? then st
    else
      st.(lifecycle := Disconnected,
          connects := Settle(st.connects, if IsOutstanding(st.lifecycle, st.lifecycle.id) then {st.lifecycle.id} else {}),
          requests := Settle(st.requests, st.pending),
          pending := {})
  }

  /** The same, and the transport is to be closed once the listeners have been told. */
  function FailAndClose(st: State): State {
    var t := TransportOf(st.lifecycle);
    Fail(st).(transports := if t.Some? then st.transports[t.value := CloseDue] else st.transports)
  }

  predicate Enabled(st: State, step: Step) {
    match step
    case OpenTransport(id) => id in st.factories && st.factories[id] == Waiting
    case FactoryResolves(id, t) => id in st.factories && st.factories[id] == Calling && t !in st.transports
    case FactoryRejects(id) => id in st.factories && st.factories[id] == Calling
    case HandshakeApplied(id, _) => id in st.handshakes
    case Announced(id) => id in st.announcements
    case CloseTransport(t) => t in st.transports && st.transports[t] == CloseDue
    case ResponseApplied(r) => r in st.resolving
    case _ => true
  }

  function StartConnect(st: State): State {
    if st.disposed || !st.lifecycle.Disconnected? then st
    else
      var id := st.sequence + 1;
      st.(sequence := id, lifecycle := Connecting(id, None), connects := st.connects[id := 0],
          factories := st.factories[id := Waiting])
  }

  function AcceptTransport(st: State, id: ConnectId, t: TransportId): State {
    var next := st.(factories := st.factories[id := Finished]);
    if st.lifecycle.Connecting? && st.lifecycle.id == id then
      next.(lifecycle := st.lifecycle.(pendingTransport := Some(t)), transports := st.transports[t := InUse])
    else next.(transports := st.transports[t := ClosedLocally])
  }

  function HandleResponse(st: State, r: RequestId, outcome: ResponseOutcome): State {
    if r !in st.pending then FailAndClose(st)
    else
      var taken := st.(pending := st.pending - {r});
      match outcome
      case Refused => taken.(requests := Settle(st.requests, {r}))
      case WrongCommand => FailAndClose(taken.(requests := Settle(st.requests, {r})))
      case Fits => taken.(resolving := st.resolving + {r})
  }

  function HandleMessage(st: State, message: Message): State {
    match st.lifecycle
    case Disconnected => st
    case Connecting(id, t) =>
      if message.Hello? && t.Some? then
        st.(lifecycle := Connected(id, t.value, true), handshakes := st.handshakes + {id})
      else FailAndClose(st)
    case Connected(_, _, _) =>
      match message
      case Hello => FailAndClose(st)
      case HelloError => FailAndClose(st)
      case Response(r, outcome) => HandleResponse(st, r, outcome)
      case Notice => st
  }

  predicate IsHandshaking(lifecycle: Lifecycle, id: ConnectId) {
    lifecycle.Connected? && lifecycle.id == id && lifecycle.handshaking
  }

  function AfterHandshake(st: State, id: ConnectId, threw: bool): State {
    var next := st.(handshakes := st.handshakes - {id});
    if !IsHandshaking(st.lifecycle, id) then next
    else if threw then FailAndClose(next)
    else next.(announcements := st.announcements + {id})
  }

  function AfterAnnouncement(st: State, id: ConnectId): State {
    var next := st.(announcements := st.announcements - {id});
    if !IsHandshaking(st.lifecycle, id) then next
    else next.(lifecycle := st.lifecycle.(handshaking := false), connects := Settle(st.connects, {id}))
  }

  /** The transport closes by itself. */
  function CloseItself(st: State, id: ConnectId): State {
    if !IsCurrent(st.lifecycle, id) then st
    else
      var t := TransportOf(st.lifecycle);
      Fail(st).(transports := if t.Some? then st.transports[t.value := ClosedItself] else st.transports)
  }

  function StartRequest(st: State, encodes: bool, sends: bool): State {
    if st.disposed || !st.lifecycle.Connected? then st
    else
      var r := st.requestSequence + 1;
      if !encodes then st.(requestSequence := r, requests := st.requests[r := 1])
      else
        var next := st.(requestSequence := r, requests := st.requests[r := 0], pending := st.pending + {r});
        if sends then next else FailAndClose(next)
  }

  function RejectPending(st: State): State {
    st.(requests := Settle(st.requests, st.pending), pending := {})
  }

  function Apply(st: State, step: Step): State
    requires Enabled(st, step)
  {
    match step
    case Connect => StartConnect(st)
    case OpenTransport(id) => st.(factories := st.factories[id := Calling])
    case FactoryResolves(id, t) => AcceptTransport(st, id, t)
    case FactoryRejects(id) =>
      var next := st.(factories := st.factories[id := Finished]);
      if IsCurrent(st.lifecycle, id) then Fail(next) else next
    case HelloFails(id) => if IsCurrent(st.lifecycle, id) then FailAndClose(st) else st
    case Receive(message) => HandleMessage(st, message)
    case ReceiveGarbage => FailAndClose(st)
    case HandshakeApplied(id, threw) => AfterHandshake(st, id, threw)
    case Announced(id) => AfterAnnouncement(st, id)
    case TransportCloses(id) => CloseItself(st, id)
    case TransportErrs(id) => if IsCurrent(st.lifecycle, id) then FailAndClose(st) else st
    case Disconnect => FailAndClose(st)
    case CloseTransport(t) => st.(transports := st.transports[t := ClosedLocally])
    case Request(encodes, sends) => StartRequest(st, encodes, sends)
    case SendFails(t) => if TransportOf(st.lifecycle) == Some(t) then FailAndClose(st) else st
    case ResponseApplied(r) => st.(resolving := st.resolving - {r}, requests := Settle(st.requests, {r}))
    case Dispose => if st.disposed then st else FailAndClose(RejectPending(st.(disposed := true)))
  }

  // ---- The invariant ----

  /** Each `connect()` promise has been settled once, but for the one outstanding. */
  ghost predicate ConnectsCounted(lifecycle: Lifecycle, sequence: nat, connects: map<ConnectId, nat>) {
    && (forall id :: id in connects <==> 1 <= id <= sequence)
    && (forall id :: id in connects ==> connects[id] == if IsOutstanding(lifecycle, id) then 0 else 1)
    && (!lifecycle.Disconnected? ==> lifecycle.id == sequence && sequence > 0)
  }

  /** A transport is in use exactly when it is the connection's; a connect whose factory has not
      settled has none yet. */
  ghost predicate TransportsOwned(lifecycle: Lifecycle, sequence: nat, factories: map<ConnectId, FactoryPhase>,
                                  transports: map<TransportId, TransportStatus>) {
    && (TransportOf(lifecycle).Some? ==> TransportOf(lifecycle).value in transports)
    && (forall t :: t in transports ==> (transports[t] == InUse <==> TransportOf(lifecycle) == Some(t)))
    && (forall id :: id in factories ==> id <= sequence)
    && (forall id :: id in factories && factories[id] != Finished && IsCurrent(lifecycle, id) ==>
          lifecycle == Connecting(id, None))
  }

  /** Each request has been settled once, but for those pending or being applied. */
  ghost predicate RequestsCounted(requestSequence: nat, pending: set<RequestId>, resolving: set<RequestId>,
                                  requests: map<RequestId, nat>) {
    && (forall r :: r in requests <==> 1 <= r <= requestSequence)
    && pending !! resolving
    && (forall r :: r in pending + resolving ==> r in requests)
    && (forall r :: r in requests ==> requests[r] == if r in pending + resolving then 0 else 1)
  }

  /** An outstanding handshake is inside one of its callbacks. */
  ghost predicate HandshakeMoves(lifecycle: Lifecycle, handshakes: set<ConnectId>, announcements: set<ConnectId>) {
    lifecycle.Connected? && lifecycle.handshaking ==> lifecycle.id in handshakes + announcements
  }

  ghost predicate Inv(st: State) {
    && ConnectsCounted(st.lifecycle, st.sequence, st.connects)
    && TransportsOwned(st.lifecycle, st.sequence, st.factories, st.transports)
    && RequestsCounted(st.requestSequence, st.pending, st.resolving, st.requests)
    && HandshakeMoves(st.lifecycle, st.handshakes, st.announcements)
    && (st.pending != {} ==> st.lifecycle.Connected?)
  }

  lemma FailKeepsInv(st: State, status: TransportStatus)
    requires Inv(st) && status != InUse
    ensures var t := TransportOf(st.lifecycle);
            Inv(Fail(st).(transports := if t.Some? then st.transports[t.value := status] else st.transports))
    ensures TransportOf(st.lifecycle).None? ==> Inv(Fail(st))
  {
  }

  lemma MessageKeepsInv(st: State, message: Message)
    requires Inv(st)
    ensures Inv(HandleMessage(st, message))
  {
    FailKeepsInv(st, CloseDue);
    if st.lifecycle.Connected? && message.Response? {
      ResponseKeepsInv(st, message.id, message.outcome);
    }
  }

  lemma ResponseKeepsInv(st: State, r: RequestId, outcome: ResponseOutcome)
    requires Inv(st) && st.lifecycle.Connected?
    ensures Inv(HandleResponse(st, r, outcome))
  {
    if r !in st.pending {
      FailKeepsInv(st, CloseDue);
    } else {
      var taken := st.(pending := st.pending - {r}, requests := Settle(st.requests, {r}));
      assert Inv(taken);
      FailKeepsInv(taken, CloseDue);
    }
  }

  lemma HandshakeKeepsInv(st: State, id: ConnectId, threw: bool)
    requires Inv(st) && id in st.handshakes
    ensures Inv(AfterHandshake(st, id, threw))
  {
    if IsHandshaking(st.lifecycle, id) && threw {
      FailKeepsInv(st, CloseDue);
    }
  }

  lemma AnnouncementKeepsInv(st: State, id: ConnectId)
    requires Inv(st) && id in st.announcements
    ensures Inv(AfterAnnouncement(st, id))
  {
  }

  lemma RequestKeepsInv(st: State, encodes: bool, sends: bool)
    requires Inv(st)
    ensures Inv(StartRequest(st, encodes, sends))
  {
    if !st.disposed && st.lifecycle.Connected? && encodes {
      var r := st.requestSequence + 1;
      var next := st.(requestSequence := r, requests := st.requests[r := 0], pending := st.pending + {r});
      assert Inv(next);
      FailKeepsInv(next, CloseDue);
    }
  }

  lemma FactoryKeepsInv(st: State, id: ConnectId, t: TransportId)
    requires Inv(st) && Enabled(st, FactoryResolves(id, t))
    ensures Inv(AcceptTransport(st, id, t))
  {
    var next := AcceptTransport(st, id, t);
    if st.lifecycle.Connecting? && st.lifecycle.id == id {
      NewTransportIsOwned(st.lifecycle, st.sequence, st.factories, st.transports, id, t);
      assert forall i :: i in st.connects ==> (IsOutstanding(next.lifecycle, i) <==> IsOutstanding(st.lifecycle, i));
    }
  }

  /** The transport a factory hands over to its own connect is the one in use. */
  lemma NewTransportIsOwned(lifecycle: Lifecycle, sequence: nat, factories: map<ConnectId, FactoryPhase>,
                            transports: map<TransportId, TransportStatus>, id: ConnectId, t: TransportId)
    requires TransportsOwned(lifecycle, sequence, factories, transports) && t !in transports
    requires lifecycle.Connecting? && lifecycle.id == id && id in factories && factories[id] == Calling
    ensures TransportsOwned(lifecycle.(pendingTransport := Some(t)), sequence, factories[id := Finished],
                            transports[t := InUse])
  {
  }

  lemma FactoryRejectionKeepsInv(st: State, id: ConnectId)
    requires Inv(st) && Enabled(st, FactoryRejects(id))
    ensures Inv(Apply(st, FactoryRejects(id)))
  {
    var next := st.(factories := st.factories[id := Finished]);
    assert Inv(next);
    FailKeepsInv(next, CloseDue);
  }

  lemma DisposeKeepsInv(st: State)
    requires Inv(st)
    ensures Inv(Apply(st, Dispose))
  {
    var rejected := RejectPending(st.(disposed := true));
    assert Inv(rejected);
    FailKeepsInv(rejected, CloseDue);
  }

  lemma ConnectKeepsInv(st: State)
    requires Inv(st)
    ensures Inv(StartConnect(st))
  {
  }

  lemma ResponseAppliedKeepsInv(st: State, r: RequestId)
    requires Inv(st) && r in st.resolving
    ensures Inv(st.(resolving := st.resolving - {r}, requests := Settle(st.requests, {r})))
  {
  }

  lemma StepKeepsInv(st: State, step: Step)
    requires Inv(st) && Enabled(st, step)
    ensures Inv(Apply(st, step))
  {
    match step
    case Connect => ConnectKeepsInv(st);
    case ResponseApplied(r) => ResponseAppliedKeepsInv(st, r);
    case HelloFails(_) => FailKeepsInv(st, CloseDue);
    case ReceiveGarbage => FailKeepsInv(st, CloseDue);
    case TransportCloses(_) => FailKeepsInv(st, ClosedItself);
    case TransportErrs(_) => FailKeepsInv(st, CloseDue);
    case Disconnect => FailKeepsInv(st, CloseDue);
    case SendFails(_) => FailKeepsInv(st, CloseDue);
    case FactoryResolves(id, t) => FactoryKeepsInv(st, id, t);
    case FactoryRejects(id) => FactoryRejectionKeepsInv(st, id);
    case Receive(message) => MessageKeepsInv(st, message);
    case HandshakeApplied(id, threw) => HandshakeKeepsInv(st, id, threw);
    case Announced(id) => AnnouncementKeepsInv(st, id);
    case Request(encodes, sends) => RequestKeepsInv(st, encodes, sends);
    case Dispose => DisposeKeepsInv(st);
    case _ =>
  }

  // ---- Runs ----

  predicate Follows(st: State, step: Step, next: State) {
    Enabled(st, step) && next == Apply(st, step)
  }

  ghost predicate StepAt(states: seq<State>, steps: seq<Step>, i: nat) {
    i < |steps| && |states| == |steps| + 1 && Follows(states[i], steps[i], states[i + 1])
  }

  ghost predicate IsRun(states: seq<State>, steps: seq<Step>) {
    && |states| == |steps| + 1 && states[0] == Initial
    && forall i :: 0 <= i < |steps| ==> StepAt(states, steps, i)
  }

  lemma {:induction false} RunKeepsInv(states: seq<State>, steps: seq<Step>, i: nat)
    requires IsRun(states, steps) && i < |states|
    ensures Inv(states[i])
  {
    if i > 0 {
      RunKeepsInv(states, steps, i - 1);
      assert StepAt(states, steps, i - 1);
      StepKeepsInv(states[i - 1], steps[i - 1]);
    }
  }

  /** Every `connect()` promise is settled at most once, and is settled whenever the connection is
      disconnected. */
  lemma ConnectsSettle(states: seq<State>, steps: seq<Step>, i: nat, id: ConnectId)
    requires IsRun(states, steps) && i < |states| && id in states[i].connects
    ensures states[i].connects[id] <= 1
    ensures states[i].lifecycle.Disconnected? ==> states[i].connects[id] == 1
    ensures states[i].connects[id] == 0 ==> IsOutstanding(states[i].lifecycle, id)
  {
    RunKeepsInv(states, steps, i);
  }

  /** Every transport obtained is the current one, or closed, or about to be closed. */
  lemma TransportsAreOwned(states: seq<State>, steps: seq<Step>, i: nat, t: TransportId)
    requires IsRun(states, steps) && i < |states| && t in states[i].transports
    ensures states[i].transports[t] == InUse <==> TransportOf(states[i].lifecycle) == Some(t)
  {
    RunKeepsInv(states, steps, i);
  }

  /** A request is settled at most once, is settled unless its response is still to come or just
      being applied, and none is pending unless the connection is up. */
  lemma RequestsSettle(states: seq<State>, steps: seq<Step>, i: nat, r: RequestId)
    requires IsRun(states, steps) && i < |states| && r in states[i].requests
    ensures states[i].requests[r] <= 1
    ensures states[i].requests[r] == 0 <==> r in states[i].pending || r in states[i].resolving
    ensures !states[i].lifecycle.Connected? ==> states[i].pending == {}
  {
    RunKeepsInv(states, steps, i);
  }

  /** The same requests, under the same numbers. */
  predicate SameRequests(st: State, next: State) {
    next.requests.Keys == st.requests.Keys && next.requestSequence == st.requestSequence
  }

  lemma FailKeepsRequests(st: State)
    ensures SameRequests(st, Fail(st)) && SameRequests(st, FailAndClose(st))
  {
  }

  lemma ReceiveKeepsRequests(st: State, message: Message)
    ensures SameRequests(st, HandleMessage(st, message))
  {
    FailKeepsRequests(st);
    if st.lifecycle.Connected? && message.Response? {
      ResponseKeepsRequests(st, message.id, message.outcome);
    }
  }

  lemma ResponseKeepsRequests(st: State, r: RequestId, outcome: ResponseOutcome)
    ensures SameRequests(st, HandleResponse(st, r, outcome))
  {
    if r !in st.pending {
      FailKeepsRequests(st);
    } else {
      FailKeepsRequests(st.(pending := st.pending - {r}, requests := Settle(st.requests, {r})));
    }
  }

  lemma StartRequestGrows(st: State, encodes: bool, sends: bool)
    ensures var next := StartRequest(st, encodes, sends);
            && st.requests.Keys <= next.requests.Keys
            && (SameRequests(st, next) || next.requestSequence == st.requestSequence + 1)
  {
    if !st.disposed && st.lifecycle.Connected? {
      var r := st.requestSequence + 1;
      FailKeepsRequests(
        st.(requestSequence := r, requests := st.requests[r := 0], pending := st.pending + {r}));
    }
  }

  lemma DisposeKeepsRequests(st: State)
    ensures SameRequests(st, Apply(st, Dispose))
  {
    FailKeepsRequests(RejectPending(st.(disposed := true)));
  }

  lemma RequestsOnlyGrow(st: State, step: Step)
    requires Enabled(st, step)
    ensures st.requests.Keys <= Apply(st, step).requests.Keys
    ensures !step.Request? ==> SameRequests(st, Apply(st, step))
    ensures step.Request? ==>
              SameRequests(st, Apply(st, step)) || Apply(st, step).requestSequence == st.requestSequence + 1
  {
    match step
    case Connect =>
    case OpenTransport(_) =>
    case FactoryResolves(_, _) =>
    case FactoryRejects(id) => FailKeepsRequests(st.(factories := st.factories[id := Finished]));
    case HelloFails(_) => FailKeepsRequests(st);
    case Receive(message) => ReceiveKeepsRequests(st, message);
    case ReceiveGarbage => FailKeepsRequests(st);
    case HandshakeApplied(id, threw) => FailKeepsRequests(st.(handshakes := st.handshakes - {id}));
    case Announced(_) =>
    case TransportCloses(_) => FailKeepsRequests(st);
    case TransportErrs(_) => FailKeepsRequests(st);
    case Disconnect => FailKeepsRequests(st);
    case CloseTransport(_) =>
    case Request(encodes, sends) => StartRequestGrows(st, encodes, sends);
    case SendFails(_) => FailKeepsRequests(st);
    case ResponseApplied(_) =>
    case Dispose => DisposeKeepsRequests(st);
  }

  lemma {:induction false} RequestsStay(states: seq<State>, steps: seq<Step>, i: nat, j: nat)
    requires IsRun(states, steps) && i <= j < |states|
    ensures states[i].requests.Keys <= states[j].requests.Keys
    decreases j
  {
    if i < j {
      RequestsStay(states, steps, i, j - 1);
      assert StepAt(states, steps, j - 1);
      RequestsOnlyGrow(states[j - 1], steps[j - 1]);
    }
  }

  /** Request ids never repeat: two requests of a run that were accepted carry different ids. */
  lemma RequestIdsAreFresh(states: seq<State>, steps: seq<Step>, i: nat, j: nat)
    requires IsRun(states, steps) && i < j < |steps|
    requires steps[i].Request? && states[i + 1].requestSequence != states[i].requestSequence
    requires steps[j].Request? && states[j + 1].requestSequence != states[j].requestSequence
    ensures states[j + 1].requestSequence != states[i + 1].requestSequence
    ensures states[j + 1].requestSequence !in states[j].requests && states[i + 1].requestSequence in states[j].requests
  {
    RunKeepsInv(states, steps, i + 1);
    RunKeepsInv(states, steps, j);
    RunKeepsInv(states, steps, j + 1);
    RequestsStay(states, steps, i + 1, j);
    assert StepAt(states, steps, i) && StepAt(states, steps, j);
    RequestsOnlyGrow(states[i], steps[i]);
    RequestsOnlyGrow(states[j], steps[j]);
    assert states[i + 1].requestSequence in states[i + 1].requests;
  }
}
