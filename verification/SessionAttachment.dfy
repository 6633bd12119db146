/** Who is attached to what, over every run of the session manager: what a connection lists and which
    sets it is in is decided by where it attached and left. */
module SessionAttachment {
  import opened SessionState
  import opened SessionInvariant
  import opened SessionSafety

  predicate Lists(st: State, c: ConnectionId, id: SessionId) {
    c in st.connections && id in st.connections[c].sessionIds
  }

  predicate IsMember(st: State, c: ConnectionId, r: RuntimeId) {
    r in st.lives && c in st.lives[r].connections
  }

  predicate IsUp(conn: Connection) {
    !conn.disconnected && conn.stage == Ready && !conn.transportClosed
  }

  /** This stretch attaches the connection to the session that this runtime holds. */
  predicate Attaches(st: State, step: Step, c: ConnectionId, id: SessionId, r: RuntimeId) {
    && step.Claim? && step.claim.AttachNow? && step.claim.k in st.commands
    && st.commands[step.claim.k] == Command(c, id, Attach(r))
    && c in st.connections && IsUp(st.connections[c])
  }

  predicate Leaves(step: Step, c: ConnectionId, id: SessionId) {
    step == Use(DetachNow(c, id)) || step == Peer(Disconnect(c))
  }

  ghost predicate AttachesSomehow(st: State, step: Step, c: ConnectionId, id: SessionId) {
    exists r :: Attaches(st, step, c, id, r)
  }

  // ---- One stretch ----

  /** Who is disconnected lists nothing. */
  predicate GoneListNothing(connections: map<ConnectionId, Connection>) {
    forall c :: c in connections && connections[c].disconnected ==> connections[c].sessionIds == {}
  }

  lemma StepKeepsGone(st: State, step: Step)
    requires Inv(st) && Enabled(st, step) && GoneListNothing(st.connections)
    ensures GoneListNothing(Apply(st, step).connections)
  {
    match step
    case Peer(s) => PeerKeepsGone(st, s);
    case Claim(s) => ClaimConnections(st, s);
    case Open(s) => OpenConnections(st, s);
    case Use(s) => UseConnections(st, s);
    case Close(s) => CloseConnections(st, s);
  }

  lemma PeerKeepsGone(st: State, step: PeerStep)
    requires PeerEnabled(st, step) && GoneListNothing(st.connections)
    ensures GoneListNothing(ApplyPeer(st, step).connections)
  {
  }

  lemma OpenConnections(st: State, step: OpenStep)
    requires Linked(st) && OpenEnabled(st, step)
    ensures ApplyOpen(st, step).connections == st.connections
  {
  }

  lemma CloseConnections(st: State, step: CloseStep)
    requires Linked(st) && CloseEnabled(st, step)
    ensures SameStandings(st.connections, ApplyClose(st, step).connections)
    ensures ApplyClose(st, step).connections.Keys == st.connections.Keys
  {
  }

  /** Of the create and attach commands only the last stretch changes a connection record. */
  lemma ClaimConnections(st: State, step: ClaimStep)
    requires Linked(st) && ClaimEnabled(st, step)
    ensures var next := ApplyClaim(st, step);
            if step.AttachNow? && IsUp(st.connections[st.commands[step.k].connection]) then
              var c, id := st.commands[step.k].connection, st.commands[step.k].id;
              next.connections == st.connections[c := st.connections[c].(sessionIds := st.connections[c].sessionIds + {id})]
            else next.connections == st.connections
  {
    match step
    case AcquireOnce(k, o) => AcquireChanges(st, k, o);
    case OpeningAwaited(k) => ResumeChanges(st, k);
    case AttachNow(k) => assert PhaseLinked(st.commands[k], st.lives, st.openings);
    case _ =>
  }

  lemma UseConnections(st: State, step: UseStep)
    requires Linked(st) && UseEnabled(st, step)
    ensures ApplyUse(st, step).connections ==
            if step.DetachNow? && step.id in st.connections[step.c].sessionIds then
              st.connections[step.c := st.connections[step.c].(sessionIds := st.connections[step.c].sessionIds - {step.id})]
            else st.connections
  {
  }

  lemma PeerLists(st: State, step: PeerStep, c: ConnectionId, id: SessionId)
    requires PeerEnabled(st, step) && GoneListNothing(st.connections)
    ensures Lists(ApplyPeer(st, step), c, id) <==> Lists(st, c, id) && step != Disconnect(c)
  {
  }

  lemma ClaimLists(st: State, step: ClaimStep, c: ConnectionId, id: SessionId)
    requires Linked(st) && ClaimEnabled(st, step)
    ensures Lists(ApplyClaim(st, step), c, id) <==> AttachesSomehow(st, Claim(step), c, id) || Lists(st, c, id)
  {
    ClaimConnections(st, step);
    if step.AttachNow? {
      assert Attaches(st, Claim(step), c, id, st.commands[step.k].phase.runtime) <==>
             st.commands[step.k].connection == c && st.commands[step.k].id == id && IsUp(st.connections[c]);
    }
  }

  lemma UseLists(st: State, step: UseStep, c: ConnectionId, id: SessionId)
    requires Linked(st) && UseEnabled(st, step)
    ensures Lists(ApplyUse(st, step), c, id) <==> Lists(st, c, id) && step != DetachNow(c, id)
  {
    UseConnections(st, step);
  }

  lemma CloseLists(st: State, step: CloseStep, c: ConnectionId, id: SessionId)
    requires Linked(st) && CloseEnabled(st, step)
    ensures Lists(ApplyClose(st, step), c, id) <==> Lists(st, c, id)
  {
    CloseConnections(st, step);
  }

  /** After a stretch a connection lists exactly the sessions it just attached to, and those it listed
      and did not leave. */
  lemma StepLists(st: State, step: Step, c: ConnectionId, id: SessionId)
    requires Inv(st) && Enabled(st, step) && GoneListNothing(st.connections)
    ensures Lists(Apply(st, step), c, id) <==>
            AttachesSomehow(st, step, c, id) || (Lists(st, c, id) && !Leaves(step, c, id))
  {
    match step
    case Peer(s) => PeerLists(st, s, c, id);
    case Claim(s) => ClaimLists(st, s, c, id);
    case Open(s) => OpenConnections(st, s);
    case Use(s) => UseLists(st, s, c, id);
    case Close(s) => CloseLists(st, s, c, id);
  }

  // ---- Every run ----

  /** The connection attached to the session at `j` and has not left it up to `i`. */
  ghost predicate AttachedSince(states: seq<State>, steps: seq<Step>, i: nat, c: ConnectionId, id: SessionId, j: nat)
    requires |states| == |steps| + 1
  {
    && j < i < |states| && AttachesSomehow(states[j], steps[j], c, id)
    && forall k :: j < k < i ==> !Leaves(steps[k], c, id)
  }

  /** A connection lists a session exactly if it attached to it and has neither detached from it nor
      disconnected since. */
  lemma {:induction false} ListsIff(states: seq<State>, steps: seq<Step>, i: nat, c: ConnectionId, id: SessionId)
    requires IsRun(states, steps) && i < |states|
    ensures GoneListNothing(states[i].connections)
    ensures Lists(states[i], c, id) <==> exists j :: AttachedSince(states, steps, i, c, id, j)
  {
    if i > 0 {
      var n := i - 1;
      ListsIff(states, steps, n, c, id);
      RunKeepsInv(states, steps, n);
      assert StepAt(states, steps, n);
      StepKeepsGone(states[n], steps[n]);
      StepLists(states[n], steps[n], c, id);
      SinceNext(states, steps, n, i, c, id);
    }
  }

  lemma SinceNext(states: seq<State>, steps: seq<Step>, n: nat, i: nat, c: ConnectionId, id: SessionId)
    requires |states| == |steps| + 1 && i == n + 1 <= |steps|
    ensures (exists j :: AttachedSince(states, steps, i, c, id, j)) <==>
            || AttachesSomehow(states[n], steps[n], c, id)
            || ((exists j :: AttachedSince(states, steps, n, c, id, j)) && !Leaves(steps[n], c, id))
  {
    if AttachesSomehow(states[n], steps[n], c, id) {
      assert AttachedSince(states, steps, i, c, id, n);
    }
    if j :| AttachedSince(states, steps, n, c, id, j) && !Leaves(steps[n], c, id) {
      assert AttachedSince(states, steps, i, c, id, j);
    }
    if j: nat :| AttachedSince(states, steps, i, c, id, j) && j < n {
      assert AttachedSince(states, steps, n, c, id, j);
    }
  }

  /** An operation starts only for a connection that attached to that session and has not left it since,
      on the runtime the session is listed with, while that has reported no error and is not being
      disposed of; and then it is counted. */
  lemma StartsOnlyAttached(states: seq<State>, steps: seq<Step>, i: nat, k: CommandId, c: ConnectionId, id: SessionId)
    requires IsRun(states, steps) && i < |steps| && steps[i] == Use(StartOperation(k, c, id))
    ensures Lists(states[i], c, id) && exists j :: AttachedSince(states, steps, i, c, id, j)
    ensures id in states[i].liveSessions && states[i].liveSessions[id] in states[i].lives
    ensures var r := states[i].liveSessions[id];
            && !states[i].lives[r].terminal && states[i].lives[r].disposing == NotDisposing
            && k in states[i + 1].commands && states[i + 1].commands[k] == Command(c, id, Operate(r))
            && r in states[i + 1].lives
            && states[i + 1].lives[r].operationCount == states[i].lives[r].operationCount + 1
  {
    ListsIff(states, steps, i, c, id);
    assert StepAt(states, steps, i);
  }

  // ---- The sets of connections ----

  /** This stretch takes the connection out of the set of the session that this runtime holds. */
  predicate LeavesRuntime(st: State, step: Step, c: ConnectionId, r: RuntimeId) {
    && r in st.lives && Leaves(step, c, st.lives[r].id) && Lists(st, c, st.lives[r].id)
    && Holds(st.liveSessions, st.lives[r].id, r)
  }

  ghost predicate AttachesTo(st: State, step: Step, c: ConnectionId, r: RuntimeId) {
    exists id :: Attaches(st, step, c, id, r)
  }

  lemma OpenMembers(st: State, step: OpenStep, c: ConnectionId, r: RuntimeId)
    requires Inv(st) && OpenEnabled(st, step)
    ensures IsMember(ApplyOpen(st, step), c, r) <==> IsMember(st, c, r)
  {
    if step.SubscribeFails? || step.CheckSucceeds? {
      var q := st.openings[step.o].phase.runtime;
      assert Account(q, st.runtimes[q], st.openings[st.runtimes[q].opener].phase, st.lives, st.liveSessions, st.closing);
    }
  }

  lemma ClaimMembers(st: State, step: ClaimStep, c: ConnectionId, r: RuntimeId)
    requires Linked(st) && ClaimEnabled(st, step)
    ensures IsMember(ApplyClaim(st, step), c, r) <==> AttachesTo(st, Claim(step), c, r) || IsMember(st, c, r)
  {
    match step
    case AcquireOnce(k, o) => AcquireKeepsLives(st, k, o);
    case OpeningAwaited(k) => ResumeKeepsLives(st, k);
    case AttachNow(k) =>
      assert PhaseLinked(st.commands[k], st.lives, st.openings);
      assert Attaches(st, Claim(step), c, st.commands[k].id, r) <==>
             st.commands[k].connection == c && st.commands[k].phase == Attach(r) && IsUp(st.connections[c]);
    case _ =>
  }

  lemma AcquireKeepsLives(st: State, k: CommandId, o: OpeningId)
    requires k in st.commands && forall id :: id in st.liveSessions ==> st.liveSessions[id] in st.lives
    ensures AcquireIteration(st, k, o).lives == st.lives
  {
  }

  lemma ResumeKeepsLives(st: State, k: CommandId)
    requires k in st.commands && st.commands[k].phase.AwaitOpening? && st.commands[k].phase.opening in st.openings
    ensures ResumeAfterOpening(st, k).lives == st.lives
  {
  }

  lemma PeerMembers(st: State, step: PeerStep, c: ConnectionId, r: RuntimeId)
    requires Linked(st) && PeerEnabled(st, step) && GoneListNothing(st.connections)
    ensures IsMember(ApplyPeer(st, step), c, r) <==> IsMember(st, c, r) && !LeavesRuntime(st, Peer(step), c, r)
  {
  }

  lemma UseMembers(st: State, step: UseStep, c: ConnectionId, r: RuntimeId)
    requires Linked(st) && UseEnabled(st, step)
    ensures IsMember(ApplyUse(st, step), c, r) <==> IsMember(st, c, r) && !LeavesRuntime(st, Use(step), c, r)
  {
    if step.DetachNow? {
      DetachMembers(st, step.c, step.id, c, r);
    }
  }

  lemma DetachMembers(st: State, d: ConnectionId, id: SessionId, c: ConnectionId, r: RuntimeId)
    requires SessionsLinked(st.liveSessions, st.lives) && d in st.connections
    ensures IsMember(DetachConnection(st, d, id), c, r) <==>
            IsMember(st, c, r) && !LeavesRuntime(st, Use(DetachNow(d, id)), c, r)
  {
  }

  lemma CloseMembers(st: State, step: CloseStep, c: ConnectionId, r: RuntimeId)
    requires Linked(st) && CloseEnabled(st, step)
    ensures IsMember(ApplyClose(st, step), c, r) <==> IsMember(st, c, r)
  {
  }

  /** After a stretch a session's set holds exactly the connections that just attached to it, and those
      that were in it and did not leave. */
  lemma StepMembers(st: State, step: Step, c: ConnectionId, r: RuntimeId)
    requires Inv(st) && Enabled(st, step) && GoneListNothing(st.connections)
    ensures IsMember(Apply(st, step), c, r) <==>
            AttachesTo(st, step, c, r) || (IsMember(st, c, r) && !LeavesRuntime(st, step, c, r))
  {
    match step
    case Peer(s) => PeerMembers(st, s, c, r);
    case Claim(s) => ClaimMembers(st, s, c, r);
    case Open(s) => OpenMembers(st, s, c, r);
    case Use(s) => UseMembers(st, s, c, r);
    case Close(s) => CloseMembers(st, s, c, r);
  }

  ghost predicate MemberSince(states: seq<State>, steps: seq<Step>, i: nat, c: ConnectionId, r: RuntimeId, j: nat)
    requires |states| == |steps| + 1
  {
    && j < i < |states| && AttachesTo(states[j], steps[j], c, r)
    && forall k :: j < k < i ==> !LeavesRuntime(states[k], steps[k], c, r)
  }

  lemma MemberNext(states: seq<State>, steps: seq<Step>, n: nat, i: nat, c: ConnectionId, r: RuntimeId)
    requires |states| == |steps| + 1 && i == n + 1 <= |steps|
    ensures (exists j :: MemberSince(states, steps, i, c, r, j)) <==>
            || AttachesTo(states[n], steps[n], c, r)
            || ((exists j :: MemberSince(states, steps, n, c, r, j)) && !LeavesRuntime(states[n], steps[n], c, r))
  {
    if AttachesTo(states[n], steps[n], c, r) {
      assert MemberSince(states, steps, i, c, r, n);
    }
    if j :| MemberSince(states, steps, n, c, r, j) && !LeavesRuntime(states[n], steps[n], c, r) {
      assert MemberSince(states, steps, i, c, r, j);
    }
    if j: nat :| MemberSince(states, steps, i, c, r, j) && j < n {
      assert MemberSince(states, steps, n, c, r, j);
    }
  }

  /** A session's set holds exactly the connections that attached to it and have not left it since. */
  lemma {:induction false} MembersIff(states: seq<State>, steps: seq<Step>, i: nat, c: ConnectionId, r: RuntimeId)
    requires IsRun(states, steps) && i < |states|
    ensures IsMember(states[i], c, r) <==> exists j :: MemberSince(states, steps, i, c, r, j)
  {
    if i > 0 {
      var n := i - 1;
      MembersIff(states, steps, n, c, r);
      RunKeepsInv(states, steps, n);
      ListsIff(states, steps, n, c, "");
      assert StepAt(states, steps, n);
      StepMembers(states[n], steps[n], c, r);
      MemberNext(states, steps, n, i, c, r);
    }
  }

  // ---- Who may ask ----

  predicate IsAt(st: State, c: ConnectionId, stage: Stage) {
    c in st.connections && st.connections[c].stage == stage
  }

  /** The stretch that brings a connection to this stage. */
  predicate Enters(step: Step, c: ConnectionId, stage: Stage) {
    (stage == Handshaking && step == Peer(Hello(c))) || (stage == Ready && step == Peer(HandshakeDone(c)))
  }

  /** The connection leaves its stage: its handshake is completed, its peer breaks the protocol, it is
      disconnected, or the server closes its connections. */
  predicate LeavesStage(step: Step, c: ConnectionId, stage: Stage) {
    || (stage == Handshaking && step == Peer(HandshakeDone(c)))
    || step == Peer(FailProtocol(c)) || step == Peer(Disconnect(c)) || step == Close(CloseStep.CloseConnections)
  }

  lemma PeerStage(st: State, step: PeerStep, c: ConnectionId, stage: Stage)
    requires Staged(st.connections, st.registered) && PeerEnabled(st, step) && (stage == Handshaking || stage == Ready)
    ensures IsAt(ApplyPeer(st, step), c, stage) <==>
            Enters(Peer(step), c, stage) || (IsAt(st, c, stage) && !LeavesStage(Peer(step), c, stage))
  {
    match step
    case Accept(_) =>
    case Hello(_) =>
    case HandshakeDone(_) =>
    case FailProtocol(_) =>
    case TransportCloses(_) =>
    case Disconnect(_) =>
  }

  lemma CloseStage(st: State, step: CloseStep, c: ConnectionId, stage: Stage)
    requires Linked(st) && Staged(st.connections, st.registered) && CloseEnabled(st, step)
    requires stage == Handshaking || stage == Ready
    ensures IsAt(ApplyClose(st, step), c, stage) <==> IsAt(st, c, stage) && !LeavesStage(Close(step), c, stage)
  {
  }

  lemma StepStage(st: State, step: Step, c: ConnectionId, stage: Stage)
    requires Inv(st) && Enabled(st, step) && (stage == Handshaking || stage == Ready)
    ensures IsAt(Apply(st, step), c, stage) <==>
            Enters(step, c, stage) || (IsAt(st, c, stage) && !LeavesStage(step, c, stage))
  {
    match step
    case Peer(s) => PeerStage(st, s, c, stage);
    case Claim(s) => ClaimStages(st, s, c, stage);
    case Open(s) => OpenConnections(st, s);
    case Use(s) => UseStages(st, s, c, stage);
    case Close(s) => CloseStage(st, s, c, stage);
  }

  lemma ClaimStages(st: State, step: ClaimStep, c: ConnectionId, stage: Stage)
    requires Linked(st) && ClaimEnabled(st, step)
    ensures IsAt(ApplyClaim(st, step), c, stage) <==> IsAt(st, c, stage)
  {
    ClaimConnections(st, step);
  }

  lemma UseStages(st: State, step: UseStep, c: ConnectionId, stage: Stage)
    requires Linked(st) && UseEnabled(st, step)
    ensures IsAt(ApplyUse(st, step), c, stage) <==> IsAt(st, c, stage)
  {
    UseConnections(st, step);
  }

  ghost predicate AtSince(steps: seq<Step>, i: nat, c: ConnectionId, stage: Stage, j: nat) {
    && j < i <= |steps| && Enters(steps[j], c, stage)
    && forall k :: j < k < i ==> !LeavesStage(steps[k], c, stage)
  }

  /** A connection is in its handshake exactly if its hello was accepted, and ready exactly if its handshake
      was completed, and nothing has ended that since. */
  lemma {:induction false} StageIff(states: seq<State>, steps: seq<Step>, i: nat, c: ConnectionId, stage: Stage)
    requires IsRun(states, steps) && i < |states| && (stage == Handshaking || stage == Ready)
    ensures IsAt(states[i], c, stage) <==> exists j :: AtSince(steps, i, c, stage, j)
  {
    if i > 0 {
      var n := i - 1;
      StageIff(states, steps, n, c, stage);
      RunKeepsInv(states, steps, n);
      assert StepAt(states, steps, n);
      StepStage(states[n], steps[n], c, stage);
      StageNext(steps, n, i, c, stage);
    }
  }

  lemma StageNext(steps: seq<Step>, n: nat, i: nat, c: ConnectionId, stage: Stage)
    requires i == n + 1 <= |steps|
    ensures (exists j :: AtSince(steps, i, c, stage, j)) <==>
            || Enters(steps[n], c, stage)
            || ((exists j :: AtSince(steps, n, c, stage, j)) && !LeavesStage(steps[n], c, stage))
  {
    if Enters(steps[n], c, stage) {
      assert AtSince(steps, i, c, stage, n);
    }
    if j :| AtSince(steps, n, c, stage, j) && !LeavesStage(steps[n], c, stage) {
      assert AtSince(steps, i, c, stage, j);
    }
    if j: nat :| AtSince(steps, i, c, stage, j) && j < n {
      assert AtSince(steps, n, c, stage, j);
    }
  }

  /** What a client asks for: to create or attach to a session, to leave one, or to act on one. */
  predicate IsRequestOf(step: Step, c: ConnectionId) {
    || (step.Claim? && step.claim.StartAcquire? && step.claim.c == c)
    || (step.Use? && step.use.DetachNow? && step.use.c == c)
    || (step.Use? && step.use.StartOperation? && step.use.c == c)
  }

  /** Requests are executed only for a connection that is ready: its handshake was completed, and nothing has
      ended that. */
  lemma OnlyReadyMayAsk(states: seq<State>, steps: seq<Step>, i: nat, c: ConnectionId)
    requires IsRun(states, steps) && i < |steps| && IsRequestOf(steps[i], c)
    ensures exists j :: AtSince(steps, i, c, Ready, j)
  {
    assert StepAt(states, steps, i);
    StageIff(states, steps, i, c, Ready);
  }
}
