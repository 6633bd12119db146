/** The live-session manager and the server's connection records, as a transition system. Async
    code is cut at its awaits: each step is one uninterrupted stretch, and any pending stretch may
    run next. */
module SessionState {
  import opened Wrappers

  type SessionId = string
  type ConnectionId = nat
  type RuntimeId = nat
  type OpeningId = nat
  type CommandId = nat

  datatype Stage = AwaitingHello | Handshaking | Ready | Closing | Closed

  function Rank(stage: Stage): nat {
    match stage
    case AwaitingHello => 0
    case Handshaking => 1
    case Ready => 2
    case Closing => 3
    case Closed => 4
  }

  datatype Connection = Connection(
    stage: Stage, disconnected: bool, handshakeComplete: bool, transportClosed: bool,
    sessionIds: set<SessionId>)

  /** The `disposing` promise of a live session: absent, pending or settled. */
  datatype Disposal = NotDisposing | Disposing | Disposed

  /** A live-session record; it is named by the runtime it holds. */
  datatype Live = Live(
    id: SessionId, connections: set<ConnectionId>, operationCount: int,
    ready: bool, terminal: bool, disposing: Disposal)

  /** A runtime the service handed over. `gone` once its dispose has settled. */
  datatype Runtime = Runtime(id: SessionId, opener: OpeningId, disposeCalls: nat, gone: bool)

  /** Where a call of `create` is suspended, or how it settled. */
  datatype OpeningPhase =
    | Acquiring
    | Checking(runtime: RuntimeId)
    | Discarding(runtime: RuntimeId)
    | Opened(runtime: RuntimeId)
    | Failed

  datatype Opening = Opening(id: SessionId, phase: OpeningPhase)

  /** Where a client command is suspended. */
  datatype CommandPhase =
    | Acquire
    | AwaitDisposal(runtime: RuntimeId)
    | AwaitOpening(opening: OpeningId, owner: bool)
    | Attach(runtime: RuntimeId)
    | Operate(runtime: RuntimeId)
    | Done

  datatype Command = Command(connection: ConnectionId, id: SessionId, phase: CommandPhase)

  datatype State = State(
    closing: bool,
    connections: map<ConnectionId, Connection>,
    registered: set<ConnectionId>,
    lives: map<RuntimeId, Live>,
    liveSessions: map<SessionId, RuntimeId>,
    openings: map<OpeningId, Opening>,
    openingSessions: map<SessionId, OpeningId>,
    runtimes: map<RuntimeId, Runtime>,
    commands: map<CommandId, Command>)

  const Initial := State(false, map[], {}, map[], map[], map[], map[], map[], map[])

  /** The server's connection records. */
  datatype PeerStep =
    | Accept(c: ConnectionId)
    | Hello(c: ConnectionId)
    | HandshakeDone(c: ConnectionId)
    | FailProtocol(c: ConnectionId)
    | TransportCloses(c: ConnectionId)
    | Disconnect(c: ConnectionId)

  /** The create and attach commands. */
  datatype ClaimStep =
    | StartAcquire(k: CommandId, c: ConnectionId, id: SessionId)
    | AcquireOnce(k: CommandId, o: OpeningId)
    | DisposalAwaited(k: CommandId, ok: bool)
    | OpeningAwaited(k: CommandId)
    | AttachNow(k: CommandId)

  /** Opening a runtime. */
  datatype OpenStep =
    | RuntimeAcquired(o: OpeningId, r: RuntimeId)
    | AcquireFails(o: OpeningId)
    | CheckFails(o: OpeningId)
    | SubscribeFails(o: OpeningId, sawError: bool)
    | CheckSucceeds(o: OpeningId, sawError: bool)
    | Discarded(o: OpeningId)

  /** Using and dropping a live session. */
  datatype UseStep =
    | DetachNow(c: ConnectionId, id: SessionId)
    | StartOperation(k: CommandId, c: ConnectionId, id: SessionId)
    | EndOperation(k: CommandId)
    | RuntimeError(r: RuntimeId)
    | MaybeDispose(r: RuntimeId, idle: bool)
    | DisposeSettles(r: RuntimeId)

  datatype CloseStep =
    | BeginClose
    | CloseConnections
    | SweepSessions
    | SweptSettles(r: RuntimeId)

  datatype Step =
    | Peer(peer: PeerStep)
    | Claim(claim: ClaimStep)
    | Open(open: OpenStep)
    | Use(use: UseStep)
    | Close(close: CloseStep)

  // ---- connection records ----

  predicate IsTerminal(c: Connection) {
    c.disconnected || c.stage == Closing || c.stage == Closed
  }

  function SetStage(st: State, c: ConnectionId, stage: Stage): State
    requires c in st.connections
  {
    st.(connections := st.connections[c := st.connections[c].(stage := stage)])
  }

  /** Whether a request on this connection is executed: a request that arrives during the
      handshake is held until it settles and then tested the same way. */
  predicate MayRequest(st: State, c: ConnectionId) {
    c in st.connections && st.connections[c].stage == Ready && !st.connections[c].disconnected
  }

  function LivesWithout(st: State, c: ConnectionId, ids: set<SessionId>): map<RuntimeId, Live> {
    map r | r in st.lives ::
      if st.lives[r].id in ids && st.lives[r].id in st.liveSessions && st.liveSessions[st.lives[r].id] == r
      then st.lives[r].(connections := st.lives[r].connections - {c})
      else st.lives[r]
  }

  /** Drop a connection and take it out of every live session it is attached to. */
  function DisconnectConnection(st: State, c: ConnectionId): State
    requires c in st.connections
  {
    var conn := st.connections[c];
    if conn.disconnected then st
    else
      st.(connections := st.connections[c := conn.(disconnected := true, stage := Closed, sessionIds := {})],
          registered := st.registered - {c},
          lives := LivesWithout(st, c, conn.sessionIds))
  }

  // ---- acquire ----

  function SetPhase(st: State, k: CommandId, phase: CommandPhase): State
    requires k in st.commands
  {
    st.(commands := st.commands[k := st.commands[k].(phase := phase)])
  }

  /** Where an iteration of the retry loop leaves its command; `o` names the opening it may start. */
  function AcquirePhase(st: State, id: SessionId, o: OpeningId): CommandPhase
    requires forall s :: s in st.liveSessions ==> st.liveSessions[s] in st.lives
  {
    if id in st.liveSessions then
      var r := st.liveSessions[id];
      if st.lives[r].terminal then Done
      else if st.lives[r].disposing != NotDisposing then AwaitDisposal(r)
      else Attach(r)
    else if id in st.openingSessions then AwaitOpening(st.openingSessions[id], false)
    else AwaitOpening(o, true)
  }

  /** One iteration of the retry loop of `acquire`. */
  function AcquireIteration(st: State, k: CommandId, o: OpeningId): State
    requires k in st.commands
    requires forall id :: id in st.liveSessions ==> st.liveSessions[id] in st.lives
  {
    var id := st.commands[k].id;
    Claimed(st, k, AcquirePhase(st, id, o), id !in st.liveSessions && id !in st.openingSessions, o)
  }

  /** The command goes on in this phase, and starts an opening of its session if `starts`. */
  function Claimed(st: State, k: CommandId, phase: CommandPhase, starts: bool, o: OpeningId): State
    requires k in st.commands
  {
    var id, next := st.commands[k].id, SetPhase(st, k, phase);
    if !starts then next
    else
      next.(openings := st.openings[o := Opening(id, Acquiring)],
            openingSessions := st.openingSessions[id := o])
  }

  /** The awaited `create` settled; its starter clears the entry if it is still its own. */
  function ResumeAfterOpening(st: State, k: CommandId): State
    requires k in st.commands && st.commands[k].phase.AwaitOpening?
    requires st.commands[k].phase.opening in st.openings
  {
    var id := st.commands[k].id;
    var o := st.commands[k].phase.opening;
    var phase := if st.openings[o].phase.Opened? then Attach(st.openings[o].phase.runtime) else Done;
    var mine := st.commands[k].phase.owner && id in st.openingSessions && st.openingSessions[id] == o;
    SetPhase(st, k, phase).(openingSessions := if mine then st.openingSessions - {id} else st.openingSessions)
  }

  function AttachConnection(st: State, k: CommandId): State
    requires k in st.commands && st.commands[k].phase.Attach?
    requires st.commands[k].phase.runtime in st.lives && st.commands[k].connection in st.connections
  {
    var c := st.commands[k].connection;
    var r := st.commands[k].phase.runtime;
    var conn := st.connections[c];
    if conn.disconnected || conn.stage != Ready || conn.transportClosed then SetPhase(st, k, Done)
    else
      SetPhase(st, k, Done).(
        connections := st.connections[c := conn.(sessionIds := conn.sessionIds + {st.lives[r].id})],
        lives := st.lives[r := st.lives[r].(connections := st.lives[r].connections + {c})])
  }

  // ---- create ----

  function SetOpening(st: State, o: OpeningId, phase: OpeningPhase): State
    requires o in st.openings
  {
    st.(openings := st.openings[o := st.openings[o].(phase := phase)])
  }

  function CallDispose(st: State, r: RuntimeId): State
    requires r in st.runtimes
  {
    st.(runtimes := st.runtimes[r := st.runtimes[r].(disposeCalls := st.runtimes[r].disposeCalls + 1)])
  }

  function DisposeDone(st: State, r: RuntimeId): State
    requires r in st.runtimes
  {
    st.(runtimes := st.runtimes[r := st.runtimes[r].(gone := true)])
  }

  function AcceptRuntime(st: State, o: OpeningId, r: RuntimeId): State
    requires o in st.openings
  {
    var next := st.(runtimes := st.runtimes[r := Runtime(st.openings[o].id, o, 0, false)]);
    if st.closing then SetOpening(CallDispose(next, r), o, Discarding(r))
    else SetOpening(next, o, Checking(r))
  }

  function NewLive(id: SessionId, ready: bool, terminal: bool): Live {
    Live(id, {}, 0, ready, terminal, NotDisposing)
  }

  /** The runtime is refused: its dispose starts and the opening waits for it. */
  function DiscardRuntime(st: State, o: OpeningId): State
    requires o in st.openings && st.openings[o].phase.Checking?
    requires st.openings[o].phase.runtime in st.runtimes
  {
    var r := st.openings[o].phase.runtime;
    SetOpening(CallDispose(st, r), o, Discarding(r))
  }

  function PublishLive(st: State, o: OpeningId, sawError: bool): State
    requires o in st.openings && st.openings[o].phase.Checking?
  {
    var r := st.openings[o].phase.runtime;
    var id := st.openings[o].id;
    SetOpening(st, o, Opened(r)).(
      lives := st.lives[r := NewLive(id, true, sawError)],
      liveSessions := st.liveSessions[id := r])
  }

  // ---- detach, operations, disposal ----

  function DetachConnection(st: State, c: ConnectionId, id: SessionId): State
    requires c in st.connections
    requires forall s :: s in st.liveSessions ==> st.liveSessions[s] in st.lives
  {
    var conn := st.connections[c];
    if id !in conn.sessionIds then st
    else
      st.(connections := st.connections[c := conn.(sessionIds := conn.sessionIds - {id})],
          lives := SessionLeft(st.lives, st.liveSessions, c, id))
  }

  /** The records once the connection has left this session. */
  function SessionLeft(lives: map<RuntimeId, Live>, liveSessions: map<SessionId, RuntimeId>, c: ConnectionId, id: SessionId)
    : map<RuntimeId, Live>
    requires id in liveSessions ==> liveSessions[id] in lives
  {
    if id in liveSessions then
      var r := liveSessions[id];
      lives[r := lives[r].(connections := lives[r].connections - {c})]
    else lives
  }

  /** The session a request may act on, or none when `requireAttached` throws. */
  function RequireAttached(st: State, c: ConnectionId, id: SessionId): Option<RuntimeId>
    requires c in st.connections
    requires forall s :: s in st.liveSessions ==> st.liveSessions[s] in st.lives
  {
    if id !in st.connections[c].sessionIds || id !in st.liveSessions then None
    else
      var r := st.liveSessions[id];
      if st.lives[r].terminal || st.lives[r].disposing != NotDisposing then None else Some(r)
  }

  function AddOperations(st: State, r: RuntimeId, n: int): State
    requires r in st.lives
  {
    st.(lives := st.lives[r := st.lives[r].(operationCount := st.lives[r].operationCount + n)])
  }

  predicate MustKeep(st: State, r: RuntimeId, idle: bool)
    requires r in st.lives
  {
    var live := st.lives[r];
    || st.closing
    || !live.ready
    || live.disposing != NotDisposing
    || live.connections != {}
    || live.operationCount > 0
    || (!live.terminal && !idle)
  }

  function DisposeIfUnused(st: State, r: RuntimeId, idle: bool): State
    requires r in st.lives && r in st.runtimes
  {
    if MustKeep(st, r, idle) then st
    else CallDispose(st, r).(lives := st.lives[r := st.lives[r].(disposing := Disposing)])
  }

  function SettleDisposal(st: State, r: RuntimeId): State
    requires r in st.lives && r in st.runtimes
  {
    var id := st.lives[r].id;
    DisposeDone(st, r).(
      lives := st.lives[r := st.lives[r].(disposing := Disposed)],
      liveSessions := if id in st.liveSessions && st.liveSessions[id] == r then st.liveSessions - {id}
                      else st.liveSessions)
  }

  // ---- shutdown ----

  /** The registered live sessions whose disposal has not started. */
  function Sweepable(st: State): set<RuntimeId>
    requires forall s :: s in st.liveSessions ==> st.liveSessions[s] in st.lives
  {
    set s | s in st.liveSessions && st.lives[st.liveSessions[s]].disposing == NotDisposing :: st.liveSessions[s]
  }

  function Sweep(st: State): State
    requires forall s :: s in st.liveSessions ==> st.liveSessions[s] in st.lives
  {
    var swept := Sweepable(st);
    st.(liveSessions := map[],
        runtimes := map r | r in st.runtimes ::
          if r in swept then st.runtimes[r].(disposeCalls := st.runtimes[r].disposeCalls + 1)
          else st.runtimes[r])
  }

  // ---- the transition relation ----

  // References between the tables resolve.

  ghost predicate SessionsLinked(liveSessions: map<SessionId, RuntimeId>, lives: map<RuntimeId, Live>) {
    forall s :: s in liveSessions ==> liveSessions[s] in lives && lives[liveSessions[s]].id == s
  }

  ghost predicate OpeningsLinked(openingSessions: map<SessionId, OpeningId>, openings: map<OpeningId, Opening>) {
    forall s :: s in openingSessions ==> openingSessions[s] in openings && openings[openingSessions[s]].id == s
  }

  ghost predicate LivesLinked(lives: map<RuntimeId, Live>, runtimes: map<RuntimeId, Runtime>) {
    forall r :: r in lives ==> r in runtimes && runtimes[r].id == lives[r].id
  }

  ghost predicate RuntimesLinked(runtimes: map<RuntimeId, Runtime>, openings: map<OpeningId, Opening>) {
    forall r :: r in runtimes ==> runtimes[r].opener in openings && openings[runtimes[r].opener].id == runtimes[r].id
  }

  /** The runtime an opening is about, if it has one yet. */
  function RuntimeOf(phase: OpeningPhase): Option<RuntimeId> {
    match phase
    case Acquiring => None
    case Checking(r) => Some(r)
    case Discarding(r) => Some(r)
    case Opened(r) => Some(r)
    case Failed => None
  }

  ghost predicate PhasesLinked(openings: map<OpeningId, Opening>, runtimes: map<RuntimeId, Runtime>) {
    forall o :: o in openings && RuntimeOf(openings[o].phase).Some? ==>
      var r := RuntimeOf(openings[o].phase).value;
      r in runtimes && runtimes[r].opener == o
  }

  ghost predicate OpenedLive(openings: map<OpeningId, Opening>, lives: map<RuntimeId, Live>) {
    forall o :: o in openings && openings[o].phase.Opened? ==>
      openings[o].phase.runtime in lives && lives[openings[o].phase.runtime].ready
  }

  predicate PhaseLinked(command: Command, lives: map<RuntimeId, Live>, openings: map<OpeningId, Opening>) {
    match command.phase
    case Acquire => true
    case Done => true
    case AwaitDisposal(r) => r in lives
    case AwaitOpening(o, _) => o in openings && openings[o].id == command.id
    case Attach(r) => r in lives && lives[r].ready && lives[r].id == command.id
    case Operate(r) => r in lives && lives[r].ready && lives[r].id == command.id
  }

  ghost predicate CommandsLinked(
      commands: map<CommandId, Command>, lives: map<RuntimeId, Live>, openings: map<OpeningId, Opening>) {
    forall k :: k in commands ==> PhaseLinked(commands[k], lives, openings)
  }

  ghost predicate CommandsOwned(commands: map<CommandId, Command>, connections: map<ConnectionId, Connection>) {
    forall k :: k in commands ==> commands[k].connection in connections
  }

  ghost predicate Linked(st: State) {
    && SessionsLinked(st.liveSessions, st.lives)
    && OpeningsLinked(st.openingSessions, st.openings)
    && LivesLinked(st.lives, st.runtimes)
    && RuntimesLinked(st.runtimes, st.openings)
    && PhasesLinked(st.openings, st.runtimes)
    && OpenedLive(st.openings, st.lives)
    && CommandsLinked(st.commands, st.lives, st.openings)
    && CommandsOwned(st.commands, st.connections)
  }

  // When a stretch can run, and what it does.

  predicate PeerEnabled(st: State, step: PeerStep) {
    match step
    case Accept(c) => c !in st.connections && !st.closing
    case Hello(c) => c in st.connections && !IsTerminal(st.connections[c]) && st.connections[c].stage == AwaitingHello
    case HandshakeDone(c) =>
      c in st.connections && !st.connections[c].disconnected && st.connections[c].stage == Handshaking
    case FailProtocol(c) => c in st.connections && !IsTerminal(st.connections[c])
    case TransportCloses(c) => c in st.connections
    case Disconnect(c) => c in st.connections
  }

  function ApplyPeer(st: State, step: PeerStep): State
    requires PeerEnabled(st, step)
  {
    match step
    case Accept(c) =>
      st.(connections := st.connections[c := Connection(AwaitingHello, false, false, false, {})],
          registered := st.registered + {c})
    case Hello(c) => SetStage(st, c, Handshaking)
    case HandshakeDone(c) =>
      st.(connections := st.connections[c := st.connections[c].(stage := Ready, handshakeComplete := true)])
    case FailProtocol(c) => SetStage(st, c, Closing)
    case TransportCloses(c) => st.(connections := st.connections[c := st.connections[c].(transportClosed := true)])
    case Disconnect(c) => DisconnectConnection(st, c)
  }

  predicate ClaimEnabled(st: State, step: ClaimStep) {
    match step
    case StartAcquire(k, c, _) => k !in st.commands && MayRequest(st, c)
    case AcquireOnce(k, o) => k in st.commands && st.commands[k].phase.Acquire? && o !in st.openings
    case DisposalAwaited(k, _) =>
      && k in st.commands && st.commands[k].phase.AwaitDisposal?
      && st.commands[k].phase.runtime in st.lives
      && st.lives[st.commands[k].phase.runtime].disposing == Disposed
    case OpeningAwaited(k) =>
      && k in st.commands && st.commands[k].phase.AwaitOpening?
      && st.commands[k].phase.opening in st.openings
      && (st.openings[st.commands[k].phase.opening].phase.Opened?
          || st.openings[st.commands[k].phase.opening].phase.Failed?)
    case AttachNow(k) => k in st.commands && st.commands[k].phase.Attach?
  }

  ghost function ApplyClaim(st: State, step: ClaimStep): State
    requires Linked(st) && ClaimEnabled(st, step)
  {
    match step
    case StartAcquire(k, c, id) => st.(commands := st.commands[k := Command(c, id, Acquire)])
    case AcquireOnce(k, o) => AcquireIteration(st, k, o)
    case DisposalAwaited(k, ok) => SetPhase(st, k, if ok then Acquire else Done)
    case OpeningAwaited(k) => ResumeAfterOpening(st, k)
    case AttachNow(k) => AttachConnection(st, k)
  }

  predicate OpenEnabled(st: State, step: OpenStep) {
    step.o in st.openings &&
    match step
    case RuntimeAcquired(o, r) => st.openings[o].phase.Acquiring? && r !in st.runtimes
    case AcquireFails(o) => st.openings[o].phase.Acquiring?
    case CheckFails(o) => st.openings[o].phase.Checking?
    case SubscribeFails(o, _) => st.openings[o].phase.Checking?
    case CheckSucceeds(o, _) => st.openings[o].phase.Checking?
    case Discarded(o) => st.openings[o].phase.Discarding?
  }

  ghost function ApplyOpen(st: State, step: OpenStep): State
    requires Linked(st) && OpenEnabled(st, step)
  {
    match step
    case RuntimeAcquired(o, r) => AcceptRuntime(st, o, r)
    case AcquireFails(o) => SetOpening(st, o, Failed)
    case CheckFails(o) => DiscardRuntime(st, o)
    case SubscribeFails(o, sawError) =>
      DiscardRuntime(st, o).(
        lives := st.lives[st.openings[o].phase.runtime := NewLive(st.openings[o].id, false, sawError)])
    case CheckSucceeds(o, sawError) => PublishLive(st, o, sawError)
    case Discarded(o) => SetOpening(DisposeDone(st, st.openings[o].phase.runtime), o, Failed)
  }

  ghost predicate UseEnabled(st: State, step: UseStep)
    requires Linked(st)
  {
    match step
    case DetachNow(c, _) => MayRequest(st, c)
    case StartOperation(k, c, id) => k !in st.commands && MayRequest(st, c) && RequireAttached(st, c, id).Some?
    case EndOperation(k) => k in st.commands && st.commands[k].phase.Operate?
    case RuntimeError(r) => r in st.lives
    case MaybeDispose(r, _) => r in st.lives
    case DisposeSettles(r) => r in st.lives && st.lives[r].disposing == Disposing
  }

  ghost function ApplyUse(st: State, step: UseStep): State
    requires Linked(st) && UseEnabled(st, step)
  {
    match step
    case DetachNow(c, id) => DetachConnection(st, c, id)
    case StartOperation(k, c, id) =>
      var r := RequireAttached(st, c, id).value;
      AddOperations(st, r, 1).(commands := st.commands[k := Command(c, id, Operate(r))])
    case EndOperation(k) => SetPhase(AddOperations(st, st.commands[k].phase.runtime, -1), k, Done)
    case RuntimeError(r) => st.(lives := st.lives[r := st.lives[r].(terminal := true)])
    case MaybeDispose(r, idle) => DisposeIfUnused(st, r, idle)
    case DisposeSettles(r) => SettleDisposal(st, r)
  }

  ghost predicate CloseEnabled(st: State, step: CloseStep)
    requires Linked(st)
  {
    match step
    case BeginClose => true
    case CloseConnections => st.closing
    case SweepSessions => st.closing
    case SweptSettles(r) =>
      && st.closing && r in st.lives && st.lives[r].ready
      && st.lives[r].disposing == NotDisposing && st.runtimes[r].disposeCalls > 0
  }

  ghost function ApplyClose(st: State, step: CloseStep): State
    requires Linked(st) && CloseEnabled(st, step)
  {
    match step
    case BeginClose => st.(closing := true)
    case CloseConnections =>
      st.(connections := map c | c in st.connections ::
            if c in st.registered then st.connections[c].(stage := Closing) else st.connections[c])
    case SweepSessions => Sweep(st)
    case SweptSettles(r) => DisposeDone(st, r)
  }

  ghost predicate Enabled(st: State, step: Step)
    requires Linked(st)
  {
    match step
    case Peer(s) => PeerEnabled(st, s)
    case Claim(s) => ClaimEnabled(st, s)
    case Open(s) => OpenEnabled(st, s)
    case Use(s) => UseEnabled(st, s)
    case Close(s) => CloseEnabled(st, s)
  }

  ghost function Apply(st: State, step: Step): State
    requires Linked(st) && Enabled(st, step)
  {
    match step
    case Peer(s) => ApplyPeer(st, s)
    case Claim(s) => ApplyClaim(st, s)
    case Open(s) => ApplyOpen(st, s)
    case Use(s) => ApplyUse(st, s)
    case Close(s) => ApplyClose(st, s)
  }
}
