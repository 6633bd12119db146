/** What holds over every run of the session manager. */
module SessionSafety {
  import opened Wrappers
  import opened SessionState
  import opened SessionInvariant

  ghost predicate StepAt(states: seq<State>, steps: seq<Step>, i: nat) {
    i < |steps| && |states| == |steps| + 1 && Follows(states[i], steps[i], states[i + 1])
  }

  /** A run: the states passed through and the stretch taken between each and the next. */
  ghost predicate IsRun(states: seq<State>, steps: seq<Step>) {
    && |states| == |steps| + 1
    && states[0] == Initial
    && forall i :: 0 <= i < |steps| ==> StepAt(states, steps, i)
  }

  ghost predicate Follows(st: State, step: Step, next: State) {
    Linked(st) && Enabled(st, step) && next == Apply(st, step)
  }

  lemma {:induction false} RunKeepsInv(states: seq<State>, steps: seq<Step>, i: nat)
    requires IsRun(states, steps) && i < |states|
    ensures Inv(states[i])
  {
    if i == 0 {
      InitialInv();
    } else {
      RunKeepsInv(states, steps, i - 1);
      assert StepAt(states, steps, i - 1);
      StepKeepsInv(states[i - 1], steps[i - 1]);
    }
  }

  /** Something that holds a session id: an opening that waits for its runtime, or a runtime whose
      dispose has not settled. */
  datatype Holder = Waiting(o: OpeningId) | Running(r: RuntimeId)

  predicate HoldsSession(st: State, h: Holder, id: SessionId) {
    match h
    case Waiting(o) => o in st.openings && st.openings[o].phase.Acquiring? && st.openings[o].id == id
    case Running(r) => r in st.runtimes && !st.runtimes[r].gone && st.runtimes[r].id == id
  }

  /** Until the server closes, whatever holds an id is found through one of the two maps. */
  lemma HolderIsListed(st: State, h: Holder, id: SessionId)
    requires Inv(st) && !st.closing && HoldsSession(st, h, id)
    ensures || (id in st.liveSessions && h == Running(st.liveSessions[id]))
            || (&& id !in st.liveSessions && id in st.openingSessions
                && (h == Waiting(st.openingSessions[id])
                    || (h.Running? && st.runtimes[h.r].opener == st.openingSessions[id]
                        && RuntimeOf(st.openings[st.openingSessions[id]].phase) == Some(h.r))))
  {
    if h.Running? {
      assert Account(h.r, st.runtimes[h.r], st.openings[st.runtimes[h.r].opener].phase, st.lives,
                     st.liveSessions, st.closing);
    }
  }

  /** While the server is not closing, at most one runtime per session id is being opened or is open
      and not fully disposed, in every run; its id is in `openingSessions` or `liveSessions`. */
  lemma AtMostOneRuntime(states: seq<State>, steps: seq<Step>, i: nat, id: SessionId, a: Holder, b: Holder)
    requires IsRun(states, steps) && i < |states| && !states[i].closing
    requires HoldsSession(states[i], a, id) && HoldsSession(states[i], b, id)
    ensures a == b
    ensures id in states[i].openingSessions || id in states[i].liveSessions
  {
    RunKeepsInv(states, steps, i);
    HolderIsListed(states[i], a, id);
    HolderIsListed(states[i], b, id);
  }

  /** The dispose of a runtime is called at most once over any run, shutdown included. */
  lemma DisposedAtMostOnce(states: seq<State>, steps: seq<Step>, i: nat, r: RuntimeId)
    requires IsRun(states, steps) && i < |states| && r in states[i].runtimes
    ensures states[i].runtimes[r].disposeCalls <= 1
    ensures states[i].runtimes[r].gone ==> states[i].runtimes[r].disposeCalls == 1
  {
    RunKeepsInv(states, steps, i);
    var st := states[i];
    assert Account(r, st.runtimes[r], st.openings[st.runtimes[r].opener].phase, st.lives, st.liveSessions, st.closing);
  }

  /** Nothing uses the session: no connection, no operation, and idle or terminal. */
  ghost predicate Unused(st: State, r: RuntimeId, idle: bool) {
    && r in st.lives
    && st.lives[r].connections == {} && Operating(st.commands, r) == {}
    && (st.lives[r].terminal || idle)
  }

  /** Which stretches call dispose while the server is not closing. */
  lemma OpenDisposes(st: State, step: OpenStep, r: RuntimeId)
    requires Inv(st) && OpenEnabled(st, step) && !st.closing && r in st.runtimes
    ensures r in ApplyOpen(st, step).runtimes
    ensures ApplyOpen(st, step).runtimes[r].disposeCalls > st.runtimes[r].disposeCalls ==>
              r !in st.lives && st.openings[st.runtimes[r].opener].phase == Checking(r)
  {
    assert Account(r, st.runtimes[r], st.openings[st.runtimes[r].opener].phase, st.lives, st.liveSessions, st.closing);
    assert st.openings[step.o].phase.Checking? ==> st.runtimes[st.openings[step.o].phase.runtime].opener == step.o;
  }

  lemma DisposesUnused(st: State, q: RuntimeId, idle: bool)
    requires Linked(st) && Counted(st.lives, st.commands) && q in st.lives && !MustKeep(st, q, idle)
    ensures Unused(st, q, idle)
  {
    assert st.lives[q].operationCount == |Operating(st.commands, q)|;
  }

  lemma UseDisposes(st: State, step: UseStep, r: RuntimeId)
    requires Linked(st) && Counted(st.lives, st.commands) && UseEnabled(st, step) && !st.closing && r in st.runtimes
    ensures r in ApplyUse(st, step).runtimes
    ensures ApplyUse(st, step).runtimes[r].disposeCalls > st.runtimes[r].disposeCalls ==>
              step.MaybeDispose? && step.r == r && Unused(st, r, step.idle)
  {
    match step
    case MaybeDispose(q, idle) =>
      if !MustKeep(st, q, idle) {
        DisposesUnused(st, q, idle);
      }
    case DetachNow(d, id) => DetachKeepsRuntimes(st, d, id);
    case StartOperation(_, _, _) =>
    case EndOperation(k) =>
    case RuntimeError(q) =>
    case DisposeSettles(q) =>
  }

  lemma DetachKeepsRuntimes(st: State, c: ConnectionId, id: SessionId)
    requires c in st.connections && forall s :: s in st.liveSessions ==> st.liveSessions[s] in st.lives
    ensures DetachConnection(st, c, id).runtimes == st.runtimes
  {
  }

  lemma PeerKeepsRuntimes(st: State, step: PeerStep)
    requires PeerEnabled(st, step)
    ensures ApplyPeer(st, step).runtimes == st.runtimes
  {
  }

  lemma PhaseChanges(st: State, k: CommandId, phase: CommandPhase)
    requires k in st.commands
    ensures SetPhase(st, k, phase).runtimes == st.runtimes && SetPhase(st, k, phase).connections == st.connections
  {
  }

  lemma AcquireChanges(st: State, k: CommandId, o: OpeningId)
    requires k in st.commands && forall id :: id in st.liveSessions ==> st.liveSessions[id] in st.lives
    ensures var next := AcquireIteration(st, k, o);
            next.runtimes == st.runtimes && next.connections == st.connections
  {
    PhaseChanges(st, k, AcquirePhase(st, st.commands[k].id, o));
  }

  lemma ResumeChanges(st: State, k: CommandId)
    requires k in st.commands && st.commands[k].phase.AwaitOpening? && st.commands[k].phase.opening in st.openings
    ensures var next := ResumeAfterOpening(st, k);
            next.runtimes == st.runtimes && next.connections == st.connections
  {
    var phase := st.openings[st.commands[k].phase.opening].phase;
    if phase.Opened? {
      PhaseChanges(st, k, Attach(phase.runtime));
    } else {
      PhaseChanges(st, k, Done);
    }
  }

  lemma ClaimKeepsRuntimes(st: State, step: ClaimStep)
    requires Linked(st) && ClaimEnabled(st, step)
    ensures ApplyClaim(st, step).runtimes == st.runtimes
  {
    match step
    case StartAcquire(_, _, _) =>
    case AcquireOnce(k, o) => AcquireChanges(st, k, o);
    case DisposalAwaited(_, _) =>
    case OpeningAwaited(k) => ResumeChanges(st, k);
    case AttachNow(_) =>
  }

  /** Outside shutdown, a dispose call either refuses a runtime that was never published or ends a
      session that nothing uses. */
  lemma DisposalStartsUnused(states: seq<State>, steps: seq<Step>, i: nat, r: RuntimeId)
    requires IsRun(states, steps) && i < |steps| && !states[i].closing
    requires r in states[i].runtimes && r in states[i + 1].runtimes
    requires states[i + 1].runtimes[r].disposeCalls > states[i].runtimes[r].disposeCalls
    ensures var st := states[i];
            || (r !in st.lives && st.runtimes[r].opener in st.openings &&
                st.openings[st.runtimes[r].opener].phase == Checking(r))
            || (steps[i].Use? && steps[i].use.MaybeDispose? && steps[i].use.r == r && Unused(st, r, steps[i].use.idle))
  {
    RunKeepsInv(states, steps, i);
    assert StepAt(states, steps, i);
    match steps[i]
    case Open(step) => OpenDisposes(states[i], step, r);
    case Use(step) => UseDisposes(states[i], step, r);
    case Peer(step) => PeerKeepsRuntimes(states[i], step);
    case Claim(step) => ClaimKeepsRuntimes(states[i], step);
    case Close(step) =>
  }

  lemma OperationIsCounted(st: State, r: RuntimeId, k: CommandId)
    requires Counted(st.lives, st.commands) && r in st.lives && k in st.commands
    requires st.commands[k].phase == Operate(r)
    ensures st.lives[r].operationCount > 0
  {
    assert k in Operating(st.commands, r);
  }

  /** From the first call of dispose on a runtime, no operation on it is in flight outside shutdown. */
  lemma NoOperationAfterDisposal(states: seq<State>, steps: seq<Step>, i: nat, r: RuntimeId, k: CommandId)
    requires IsRun(states, steps) && i < |states| && !states[i].closing
    requires r in states[i].runtimes && states[i].runtimes[r].disposeCalls > 0
    requires k in states[i].commands
    ensures states[i].commands[k].phase != Operate(r)
  {
    RunKeepsInv(states, steps, i);
    var st := states[i];
    assert PhaseLinked(st.commands[k], st.lives, st.openings);
    if st.commands[k].phase == Operate(r) {
      ReadyIsOpened(st, r);
      OperationIsCounted(st, r, k);
    }
  }

  lemma AttachedIsConnected(st: State, id: SessionId, c: ConnectionId)
    requires Attached(st.liveSessions, st.lives, st.connections)
    requires id in st.liveSessions && st.liveSessions[id] in st.lives && c in st.lives[st.liveSessions[id]].connections
    ensures c in st.connections
    ensures id in st.connections[c].sessionIds && !st.connections[c].disconnected && st.connections[c].handshakeComplete
  {
  }

  /** A connection in a registered live session is connected, completed its handshake, and lists
      the session among its own. */
  lemma AttachedAreConnected(states: seq<State>, steps: seq<Step>, i: nat, id: SessionId, c: ConnectionId)
    requires IsRun(states, steps) && i < |states| && id in states[i].liveSessions
    requires states[i].liveSessions[id] in states[i].lives
    requires c in states[i].lives[states[i].liveSessions[id]].connections
    ensures c in states[i].connections
    ensures var conn := states[i].connections[c];
            id in conn.sessionIds && !conn.disconnected && conn.handshakeComplete
  {
    RunKeepsInv(states, steps, i);
    AttachedIsConnected(states[i], id, c);
  }

  /** A command is in progress only for a connection that completed its handshake. */
  lemma NoCommandBeforeReady(states: seq<State>, steps: seq<Step>, i: nat, k: CommandId)
    requires IsRun(states, steps) && i < |states| && k in states[i].commands
    ensures states[i].commands[k].connection in states[i].connections
    ensures states[i].connections[states[i].commands[k].connection].handshakeComplete
  {
    RunKeepsInv(states, steps, i);
  }

  /** A connection moved forward, was not reconnected, and kept its handshake. */
  ghost predicate Forward(before: map<ConnectionId, Connection>, after: map<ConnectionId, Connection>, c: ConnectionId)
    requires c in before
  {
    && c in after
    && Rank(before[c].stage) <= Rank(after[c].stage)
    && (before[c].disconnected ==> after[c].disconnected)
    && (before[c].handshakeComplete ==> after[c].handshakeComplete)
  }

  lemma PeerMovesForward(st: State, step: PeerStep, c: ConnectionId)
    requires Staged(st.connections, st.registered) && PeerEnabled(st, step) && c in st.connections
    ensures Forward(st.connections, ApplyPeer(st, step).connections, c)
  {
    match step
    case Accept(d) =>
    case Hello(d) =>
    case HandshakeDone(d) =>
    case FailProtocol(d) =>
    case TransportCloses(d) =>
    case Disconnect(d) =>
  }

  lemma ClaimMovesForward(st: State, step: ClaimStep, c: ConnectionId)
    requires Linked(st) && ClaimEnabled(st, step) && c in st.connections
    ensures Forward(st.connections, ApplyClaim(st, step).connections, c)
  {
    match step
    case AttachNow(k) =>
    case StartAcquire(_, _, _) =>
    case AcquireOnce(k, o) => AcquireChanges(st, k, o);
    case DisposalAwaited(k, ok) =>
    case OpeningAwaited(k) => ResumeChanges(st, k);
  }

  lemma UseMovesForward(st: State, step: UseStep, c: ConnectionId)
    requires Linked(st) && UseEnabled(st, step) && c in st.connections
    ensures Forward(st.connections, ApplyUse(st, step).connections, c)
  {
    match step
    case DetachNow(d, id) => DetachMovesForward(st, d, id, c);
    case StartOperation(_, _, _) =>
    case EndOperation(k) =>
    case RuntimeError(r) =>
    case MaybeDispose(r, idle) =>
    case DisposeSettles(r) =>
  }

  lemma DetachMovesForward(st: State, d: ConnectionId, id: SessionId, c: ConnectionId)
    requires d in st.connections && c in st.connections
    requires forall s :: s in st.liveSessions ==> st.liveSessions[s] in st.lives
    ensures Forward(st.connections, DetachConnection(st, d, id).connections, c)
  {
  }

  lemma OpenMovesForward(st: State, step: OpenStep, c: ConnectionId)
    requires Linked(st) && OpenEnabled(st, step) && c in st.connections
    ensures Forward(st.connections, ApplyOpen(st, step).connections, c)
  {
  }

  lemma CloseMovesForward(st: State, step: CloseStep, c: ConnectionId)
    requires Linked(st) && Staged(st.connections, st.registered) && CloseEnabled(st, step) && c in st.connections
    ensures Forward(st.connections, ApplyClose(st, step).connections, c)
  {
  }

  lemma StepMovesForward(st: State, step: Step, c: ConnectionId)
    requires Linked(st) && Staged(st.connections, st.registered) && Enabled(st, step) && c in st.connections
    ensures Forward(st.connections, Apply(st, step).connections, c)
  {
    match step
    case Peer(s) => PeerMovesForward(st, s, c);
    case Claim(s) => ClaimMovesForward(st, s, c);
    case Open(s) => OpenMovesForward(st, s, c);
    case Use(s) => UseMovesForward(st, s, c);
    case Close(s) => CloseMovesForward(st, s, c);
  }

  lemma DisconnectedIsAbsent(st: State, c: ConnectionId)
    requires Inv(st) && c in st.connections && st.connections[c].disconnected
    ensures forall id :: id in st.liveSessions && st.liveSessions[id] in st.lives ==>
              c !in st.lives[st.liveSessions[id]].connections
  {
  }

  lemma NextMovesForward(states: seq<State>, steps: seq<Step>, i: nat, c: ConnectionId)
    requires IsRun(states, steps) && i < |steps| && c in states[i].connections
    ensures Forward(states[i].connections, states[i + 1].connections, c)
  {
    RunKeepsInv(states, steps, i);
    assert StepAt(states, steps, i);
    StepMovesForward(states[i], steps[i], c);
  }

  lemma {:induction false} RunMovesForward(states: seq<State>, steps: seq<Step>, i: nat, j: nat, c: ConnectionId)
    requires IsRun(states, steps) && i <= j < |states| && c in states[i].connections
    ensures Forward(states[i].connections, states[j].connections, c)
    decreases j
  {
    if i < j {
      RunMovesForward(states, steps, i, j - 1, c);
      NextMovesForward(states, steps, j - 1, c);
    }
  }

  /** Connection stages only move forward, and a disconnected connection never appears in a
      registered live session again. */
  lemma StagesMoveForward(states: seq<State>, steps: seq<Step>, i: nat, j: nat, c: ConnectionId)
    requires IsRun(states, steps) && i <= j < |states| && c in states[i].connections
    ensures c in states[j].connections
    ensures Rank(states[i].connections[c].stage) <= Rank(states[j].connections[c].stage)
    ensures states[i].connections[c].disconnected ==>
              && states[j].connections[c].disconnected
              && forall id :: id in states[j].liveSessions && states[j].liveSessions[id] in states[j].lives ==>
                   c !in states[j].lives[states[j].liveSessions[id]].connections
  {
    RunMovesForward(states, steps, i, j, c);
    RunKeepsInv(states, steps, j);
    if states[j].connections[c].disconnected {
      DisconnectedIsAbsent(states[j], c);
    }
  }
}
