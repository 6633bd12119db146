/** What every stretch of the session manager keeps. */
module SessionInvariant {
  import opened Wrappers
  import opened SessionState

  predicate Holds(liveSessions: map<SessionId, RuntimeId>, id: SessionId, r: RuntimeId) {
    id in liveSessions && liveSessions[id] == r
  }

  predicate Unsettled(phase: OpeningPhase) {
    phase.Acquiring? || phase.Checking? || phase.Discarding?
  }

  /** While an opening has not settled, its id stays in `openingSessions`. */
  ghost predicate Reserved(openings: map<OpeningId, Opening>, openingSessions: map<SessionId, OpeningId>) {
    forall o :: o in openings && Unsettled(openings[o].phase) ==>
      openings[o].id in openingSessions && openingSessions[openings[o].id] == o
  }

  /** An id whose opening has not settled has no registered live session. */
  ghost predicate Exclusive(openings: map<OpeningId, Opening>, liveSessions: map<SessionId, RuntimeId>) {
    forall o :: o in openings && Unsettled(openings[o].phase) ==> openings[o].id !in liveSessions
  }

  ghost predicate Published(liveSessions: map<SessionId, RuntimeId>, lives: map<RuntimeId, Live>) {
    forall s :: s in liveSessions ==> liveSessions[s] in lives && lives[liveSessions[s]].ready
  }

  /** A published runtime: how often its dispose was called, and whether it is still listed. */
  predicate LiveAccount(runtime: Runtime, live: Live, listed: bool, closing: bool) {
    && live.ready
    && match live.disposing
       case NotDisposing =>
         if listed then runtime.disposeCalls == 0 && !runtime.gone else closing && runtime.disposeCalls == 1
       case Disposing => runtime.disposeCalls == 1 && !runtime.gone && (!closing ==> listed)
       case Disposed => runtime.disposeCalls == 1 && runtime.gone && !listed
  }

  /** A runtime still in the hands of `create`, or refused by it. */
  predicate Unpublished(lives: map<RuntimeId, Live>, r: RuntimeId, runtime: Runtime, disposeCalls: nat, gone: bool) {
    && runtime.disposeCalls == disposeCalls && runtime.gone == gone
    && (r in lives ==> disposeCalls == 1 && !lives[r].ready && lives[r].disposing == NotDisposing)
  }

  /** The account of one runtime, by what became of the opening that acquired it. */
  predicate Account(r: RuntimeId, runtime: Runtime, phase: OpeningPhase, lives: map<RuntimeId, Live>,
                    liveSessions: map<SessionId, RuntimeId>, closing: bool) {
    match phase
    case Acquiring => false
    case Checking(q) => q == r && Unpublished(lives, r, runtime, 0, false)
    case Discarding(q) => q == r && Unpublished(lives, r, runtime, 1, false)
    case Failed => Unpublished(lives, r, runtime, 1, true)
    case Opened(q) =>
      q == r && r in lives && LiveAccount(runtime, lives[r], Holds(liveSessions, lives[r].id, r), closing)
  }

  ghost predicate Accounted(
      runtimes: map<RuntimeId, Runtime>, openings: map<OpeningId, Opening>, lives: map<RuntimeId, Live>,
      liveSessions: map<SessionId, RuntimeId>, closing: bool) {
    forall r :: r in runtimes ==>
      && runtimes[r].opener in openings
      && Account(r, runtimes[r], openings[runtimes[r].opener].phase, lives, liveSessions, closing)
  }

  /** A connection in a registered live session's set lists that session, completed its handshake
      and is not disconnected. */
  ghost predicate Attached(
      liveSessions: map<SessionId, RuntimeId>, lives: map<RuntimeId, Live>,
      connections: map<ConnectionId, Connection>) {
    forall s, c :: s in liveSessions && liveSessions[s] in lives && c in lives[liveSessions[s]].connections ==>
      && c in connections && s in connections[c].sessionIds
      && !connections[c].disconnected && connections[c].handshakeComplete
  }

  ghost predicate Staged(connections: map<ConnectionId, Connection>, registered: set<ConnectionId>) {
    forall c :: c in connections ==>
      var conn := connections[c];
      && (conn.disconnected <==> conn.stage == Closed)
      && (conn.disconnected <==> c !in registered)
      && (conn.stage == Ready ==> conn.handshakeComplete)
      && (Rank(conn.stage) < Rank(Ready) ==> !conn.handshakeComplete)
  }

  /** No command runs for a connection that has not completed its handshake. */
  ghost predicate Shaken(commands: map<CommandId, Command>, connections: map<ConnectionId, Connection>) {
    forall k :: k in commands ==>
      commands[k].connection in connections && connections[commands[k].connection].handshakeComplete
  }

  ghost function Operating(commands: map<CommandId, Command>, r: RuntimeId): set<CommandId> {
    set k | k in commands && commands[k].phase == Operate(r)
  }

  /** The operation count is the number of operations in flight, and none is in flight once
      disposal has started. */
  ghost predicate Counted(lives: map<RuntimeId, Live>, commands: map<CommandId, Command>) {
    forall r :: r in lives ==>
      && lives[r].operationCount == |Operating(commands, r)|
      && (lives[r].disposing != NotDisposing ==> lives[r].operationCount == 0)
  }

  ghost predicate Inv(st: State) {
    && Linked(st)
    && Reserved(st.openings, st.openingSessions)
    && Exclusive(st.openings, st.liveSessions)
    && Published(st.liveSessions, st.lives)
    && Accounted(st.runtimes, st.openings, st.lives, st.liveSessions, st.closing)
    && Attached(st.liveSessions, st.lives, st.connections)
    && Staged(st.connections, st.registered)
    && Shaken(st.commands, st.connections)
    && Counted(st.lives, st.commands)
  }

  lemma InitialInv()
    ensures Inv(Initial)
  {
  }

  // ---- Changes of one record that leave parts of the invariant alone ----

  /** The same session and readiness. */
  predicate SameShape(live: Live, live': Live) {
    live'.id == live.id && live'.ready == live.ready
  }

  lemma LiveKeepsLinks(st: State, r: RuntimeId, live: Live)
    requires Linked(st) && Published(st.liveSessions, st.lives)
    requires r in st.lives && SameShape(st.lives[r], live)
    ensures Linked(st.(lives := st.lives[r := live])) && Published(st.liveSessions, st.lives[r := live])
  {
    LiveKeepsCommands(st.commands, st.lives, st.openings, r, live);
    LiveKeepsTables(st.liveSessions, st.lives, st.runtimes, st.openings, r, live);
  }

  lemma LiveKeepsCommands(commands: map<CommandId, Command>, lives: map<RuntimeId, Live>,
                          openings: map<OpeningId, Opening>, r: RuntimeId, live: Live)
    requires CommandsLinked(commands, lives, openings) && (r in lives ==> SameShape(lives[r], live))
    ensures CommandsLinked(commands, lives[r := live], openings)
  {
    forall k | k in commands
      ensures PhaseLinked(commands[k], lives[r := live], openings)
    {
      assert PhaseLinked(commands[k], lives, openings);
    }
  }

  lemma LiveKeepsTables(liveSessions: map<SessionId, RuntimeId>, lives: map<RuntimeId, Live>,
                        runtimes: map<RuntimeId, Runtime>, openings: map<OpeningId, Opening>, r: RuntimeId, live: Live)
    requires SessionsLinked(liveSessions, lives) && Published(liveSessions, lives)
    requires LivesLinked(lives, runtimes) && OpenedLive(openings, lives)
    requires if r in lives then SameShape(lives[r], live) else r in runtimes && live.id == runtimes[r].id
    ensures SessionsLinked(liveSessions, lives[r := live]) && Published(liveSessions, lives[r := live])
    ensures LivesLinked(lives[r := live], runtimes) && OpenedLive(openings, lives[r := live])
  {
  }

  lemma LiveKeepsAccounts(
      runtimes: map<RuntimeId, Runtime>, openings: map<OpeningId, Opening>, lives: map<RuntimeId, Live>,
      liveSessions: map<SessionId, RuntimeId>, closing: bool, r: RuntimeId, live: Live)
    requires Accounted(runtimes, openings, lives, liveSessions, closing)
    requires r in lives && SameShape(lives[r], live) && live.disposing == lives[r].disposing
    ensures Accounted(runtimes, openings, lives[r := live], liveSessions, closing)
  {
  }

  /** Fewer connections in a set need no more of the connection records. */
  lemma LiveKeepsAttached(
      liveSessions: map<SessionId, RuntimeId>, lives: map<RuntimeId, Live>,
      connections: map<ConnectionId, Connection>, r: RuntimeId, live: Live)
    requires Attached(liveSessions, lives, connections)
    requires r in lives && live.connections <= lives[r].connections
    ensures Attached(liveSessions, lives[r := live], connections)
  {
  }

  lemma LiveKeepsCounts(lives: map<RuntimeId, Live>, commands: map<CommandId, Command>, r: RuntimeId, live: Live)
    requires Counted(lives, commands) && r in lives
    requires live.operationCount == lives[r].operationCount
    requires live.disposing != NotDisposing ==> live.operationCount == 0
    ensures Counted(lives[r := live], commands)
  {
  }

  lemma CommandKeepsCounts(lives: map<RuntimeId, Live>, commands: map<CommandId, Command>, k: CommandId, command: Command)
    requires Counted(lives, commands) && !command.phase.Operate?
    requires k in commands ==> !commands[k].phase.Operate?
    ensures Counted(lives, commands[k := command])
  {
    forall r | r in lives
      ensures Operating(commands[k := command], r) == Operating(commands, r)
    {
    }
  }

  lemma CommandKeepsLinks(st: State, k: CommandId, command: Command)
    requires Linked(st) && PhaseLinked(command, st.lives, st.openings) && command.connection in st.connections
    ensures Linked(st.(commands := st.commands[k := command]))
  {
  }

  lemma CommandKeepsShaken(
      commands: map<CommandId, Command>, connections: map<ConnectionId, Connection>, k: CommandId, command: Command)
    requires Shaken(commands, connections)
    requires command.connection in connections && connections[command.connection].handshakeComplete
    ensures Shaken(commands[k := command], connections)
  {
  }

  lemma RuntimeKeepsLinks(st: State, r: RuntimeId, runtime: Runtime)
    requires Linked(st) && r in st.runtimes
    requires runtime.id == st.runtimes[r].id && runtime.opener == st.runtimes[r].opener
    ensures Linked(st.(runtimes := st.runtimes[r := runtime]))
  {
  }

  /** Delisting a session needs nothing more of the other tables. */
  lemma DelistKeepsRest(st: State, id: SessionId)
    requires Linked(st) && Published(st.liveSessions, st.lives) && Exclusive(st.openings, st.liveSessions)
    requires Attached(st.liveSessions, st.lives, st.connections)
    ensures Linked(st.(liveSessions := st.liveSessions - {id})) && Published(st.liveSessions - {id}, st.lives)
    ensures Exclusive(st.openings, st.liveSessions - {id})
    ensures Attached(st.liveSessions - {id}, st.lives, st.connections)
  {
  }

  /** The accounts of all runtimes but `r` carry over when nothing they mention changes. */
  lemma OtherAccounts(st: State, next: State, r: RuntimeId)
    requires Accounted(st.runtimes, st.openings, st.lives, st.liveSessions, st.closing)
    requires st.closing ==> next.closing
    requires st.openings.Keys <= next.openings.Keys
    requires forall q :: q in next.runtimes && q != r ==>
               && q in st.runtimes && next.runtimes[q] == st.runtimes[q]
               && next.openings[st.runtimes[q].opener].phase == st.openings[st.runtimes[q].opener].phase
    requires forall q :: q != r ==> (q in st.lives <==> q in next.lives)
    requires forall q :: q != r && q in st.lives ==>
               && next.lives[q] == st.lives[q]
               && Holds(next.liveSessions, st.lives[q].id, q) == Holds(st.liveSessions, st.lives[q].id, q)
    requires r in next.runtimes ==>
               && next.runtimes[r].opener in next.openings
               && Account(r, next.runtimes[r], next.openings[next.runtimes[r].opener].phase, next.lives,
                          next.liveSessions, next.closing)
    ensures Accounted(next.runtimes, next.openings, next.lives, next.liveSessions, next.closing)
  {
  }

  // ---- Connection records ----

  /** The same sessions, as connected as before, and no less of a handshake. */
  predicate SameStanding(conn: Connection, conn': Connection) {
    && conn'.sessionIds == conn.sessionIds && conn'.disconnected == conn.disconnected
    && (conn.handshakeComplete ==> conn'.handshakeComplete)
  }

  predicate SameStandings(connections: map<ConnectionId, Connection>, connections': map<ConnectionId, Connection>) {
    forall c :: c in connections ==> c in connections' && SameStanding(connections[c], connections'[c])
  }

  lemma ConnectionsKeepAttached(liveSessions: map<SessionId, RuntimeId>, lives: map<RuntimeId, Live>,
                                connections: map<ConnectionId, Connection>, connections': map<ConnectionId, Connection>)
    requires Attached(liveSessions, lives, connections) && SameStandings(connections, connections')
    ensures Attached(liveSessions, lives, connections')
  {
  }

  lemma ConnectionsKeepCommands(commands: map<CommandId, Command>,
                                connections: map<ConnectionId, Connection>, connections': map<ConnectionId, Connection>)
    requires Shaken(commands, connections) && CommandsOwned(commands, connections)
    requires SameStandings(connections, connections')
    ensures Shaken(commands, connections') && CommandsOwned(commands, connections')
  {
  }

  lemma ConnectionKeepsStages(connections: map<ConnectionId, Connection>, registered: set<ConnectionId>,
                              c: ConnectionId, conn: Connection)
    requires Staged(connections, registered) && c in connections && conn.disconnected == connections[c].disconnected
    requires Rank(connections[c].stage) <= Rank(conn.stage) && (conn.stage == Closed <==> connections[c].stage == Closed)
    requires conn.handshakeComplete <==> connections[c].handshakeComplete || conn.stage == Ready
    ensures Staged(connections[c := conn], registered)
  {
  }

  lemma ConnectionChangeKeepsInv(st: State, c: ConnectionId, conn: Connection)
    requires Inv(st) && c in st.connections && SameStanding(st.connections[c], conn)
    requires Rank(st.connections[c].stage) <= Rank(conn.stage) && (conn.stage == Closed <==> st.connections[c].stage == Closed)
    requires conn.handshakeComplete <==> st.connections[c].handshakeComplete || conn.stage == Ready
    ensures Inv(st.(connections := st.connections[c := conn]))
  {
    ConnectionsKeepAttached(st.liveSessions, st.lives, st.connections, st.connections[c := conn]);
    ConnectionsKeepCommands(st.commands, st.connections, st.connections[c := conn]);
    ConnectionKeepsStages(st.connections, st.registered, c, conn);
  }

  lemma AcceptKeepsInv(st: State, c: ConnectionId)
    requires Inv(st) && c !in st.connections
    ensures Inv(st.(connections := st.connections[c := Connection(AwaitingHello, false, false, false, {})],
                    registered := st.registered + {c}))
  {
    var conn := Connection(AwaitingHello, false, false, false, {});
    ConnectionsKeepAttached(st.liveSessions, st.lives, st.connections, st.connections[c := conn]);
    ConnectionsKeepCommands(st.commands, st.connections, st.connections[c := conn]);
    NewConnectionKeepsStages(st.connections, st.registered, c);
  }

  lemma NewConnectionKeepsStages(connections: map<ConnectionId, Connection>, registered: set<ConnectionId>, c: ConnectionId)
    requires Staged(connections, registered) && c !in connections
    ensures Staged(connections[c := Connection(AwaitingHello, false, false, false, {})], registered + {c})
  {
  }

  /** Disconnecting changes only the sets of connections. */
  lemma DisconnectKeepsLives(st: State, c: ConnectionId, ids: set<SessionId>)
    requires Linked(st) && Published(st.liveSessions, st.lives)
    ensures Linked(st.(lives := LivesWithout(st, c, ids))) && Published(st.liveSessions, LivesWithout(st, c, ids))
  {
    var lives' := LivesWithout(st, c, ids);
    FewerConnectionsKeepCommands(st.commands, st.lives, lives', st.openings);
    FewerConnectionsKeepTables(st.liveSessions, st.lives, lives', st.runtimes, st.openings);
  }

  /** The same records up to their sets of connections. */
  ghost predicate SameShapes(lives: map<RuntimeId, Live>, lives': map<RuntimeId, Live>) {
    lives'.Keys == lives.Keys && forall r :: r in lives ==> SameShape(lives[r], lives'[r])
  }

  lemma FewerConnectionsKeepCommands(commands: map<CommandId, Command>, lives: map<RuntimeId, Live>,
                                     lives': map<RuntimeId, Live>, openings: map<OpeningId, Opening>)
    requires CommandsLinked(commands, lives, openings) && SameShapes(lives, lives')
    ensures CommandsLinked(commands, lives', openings)
  {
    forall k | k in commands
      ensures PhaseLinked(commands[k], lives', openings)
    {
      assert PhaseLinked(commands[k], lives, openings);
    }
  }

  lemma FewerConnectionsKeepTables(liveSessions: map<SessionId, RuntimeId>, lives: map<RuntimeId, Live>,
                                   lives': map<RuntimeId, Live>, runtimes: map<RuntimeId, Runtime>,
                                   openings: map<OpeningId, Opening>)
    requires SessionsLinked(liveSessions, lives) && Published(liveSessions, lives)
    requires LivesLinked(lives, runtimes) && OpenedLive(openings, lives) && SameShapes(lives, lives')
    ensures SessionsLinked(liveSessions, lives') && Published(liveSessions, lives')
    ensures LivesLinked(lives', runtimes) && OpenedLive(openings, lives')
  {
  }

  lemma DisconnectKeepsAccounts(st: State, c: ConnectionId, ids: set<SessionId>)
    requires Accounted(st.runtimes, st.openings, st.lives, st.liveSessions, st.closing)
    ensures Accounted(st.runtimes, st.openings, LivesWithout(st, c, ids), st.liveSessions, st.closing)
  {
  }

  /** After the disconnect no registered live session lists the connection. */
  lemma DisconnectKeepsAttached(st: State, c: ConnectionId)
    requires Attached(st.liveSessions, st.lives, st.connections) && SessionsLinked(st.liveSessions, st.lives)
    requires c in st.connections
    ensures var next := DisconnectConnection(st, c);
            !st.connections[c].disconnected ==> Attached(next.liveSessions, next.lives, next.connections)
  {
  }

  lemma DisconnectKeepsCounts(st: State, c: ConnectionId, ids: set<SessionId>)
    requires Counted(st.lives, st.commands)
    ensures Counted(LivesWithout(st, c, ids), st.commands)
  {
  }

  lemma DisconnectKeepsInv(st: State, c: ConnectionId)
    requires Inv(st) && c in st.connections
    ensures Inv(DisconnectConnection(st, c))
  {
    var ids := st.connections[c].sessionIds;
    DisconnectKeepsLives(st, c, ids);
    DisconnectKeepsAccounts(st, c, ids);
    DisconnectKeepsAttached(st, c);
    DisconnectKeepsCounts(st, c, ids);
  }

  lemma PeerKeepsInv(st: State, step: PeerStep)
    requires Inv(st) && PeerEnabled(st, step)
    ensures Inv(ApplyPeer(st, step))
  {
    match step
    case Accept(c) => AcceptKeepsInv(st, c);
    case Hello(c) => ConnectionChangeKeepsInv(st, c, st.connections[c].(stage := Handshaking));
    case HandshakeDone(c) =>
      ConnectionChangeKeepsInv(st, c, st.connections[c].(stage := Ready, handshakeComplete := true));
    case FailProtocol(c) => ConnectionChangeKeepsInv(st, c, st.connections[c].(stage := Closing));
    case TransportCloses(c) => ConnectionChangeKeepsInv(st, c, st.connections[c].(transportClosed := true));
    case Disconnect(c) => DisconnectKeepsInv(st, c);
  }

  // ---- Create and attach commands ----

  lemma PhaseKeepsInv(st: State, k: CommandId, phase: CommandPhase)
    requires Inv(st) && k in st.commands && !st.commands[k].phase.Operate? && !phase.Operate?
    requires PhaseLinked(st.commands[k].(phase := phase), st.lives, st.openings)
    ensures Inv(SetPhase(st, k, phase))
  {
    var command := st.commands[k].(phase := phase);
    CommandKeepsLinks(st, k, command);
    CommandKeepsShaken(st.commands, st.connections, k, command);
    CommandKeepsCounts(st.lives, st.commands, k, command);
  }

  lemma NewCommandKeepsInv(st: State, k: CommandId, c: ConnectionId, id: SessionId)
    requires Inv(st) && k !in st.commands && MayRequest(st, c)
    ensures Inv(st.(commands := st.commands[k := Command(c, id, Acquire)]))
  {
    CommandKeepsLinks(st, k, Command(c, id, Acquire));
    CommandKeepsShaken(st.commands, st.connections, k, Command(c, id, Acquire));
    CommandKeepsCounts(st.lives, st.commands, k, Command(c, id, Acquire));
  }

  function WithOpening(st: State, o: OpeningId, id: SessionId): State {
    st.(openings := st.openings[o := Opening(id, Acquiring)], openingSessions := st.openingSessions[id := o])
  }

  /** A new opening, or a new phase of one, keeps the references of the commands. */
  lemma OpeningKeepsCommands(commands: map<CommandId, Command>, lives: map<RuntimeId, Live>,
                             openings: map<OpeningId, Opening>, o: OpeningId, opening: Opening)
    requires CommandsLinked(commands, lives, openings) && (o in openings ==> opening.id == openings[o].id)
    ensures CommandsLinked(commands, lives, openings[o := opening])
  {
    forall k | k in commands
      ensures PhaseLinked(commands[k], lives, openings[o := opening])
    {
      assert PhaseLinked(commands[k], lives, openings);
    }
  }

  /** And those between runtimes and openings, if the phase's runtime is the opening's. */
  lemma OpeningKeepsRuntimes(runtimes: map<RuntimeId, Runtime>, openings: map<OpeningId, Opening>,
                             o: OpeningId, opening: Opening)
    requires RuntimesLinked(runtimes, openings) && PhasesLinked(openings, runtimes)
    requires o in openings ==> opening.id == openings[o].id
    requires RuntimeOf(opening.phase).Some? ==>
               RuntimeOf(opening.phase).value in runtimes && runtimes[RuntimeOf(opening.phase).value].opener == o
    ensures RuntimesLinked(runtimes, openings[o := opening]) && PhasesLinked(openings[o := opening], runtimes)
  {
  }

  lemma OpeningKeepsReferences(openingSessions: map<SessionId, OpeningId>, lives: map<RuntimeId, Live>,
                               openings: map<OpeningId, Opening>, o: OpeningId, opening: Opening)
    requires OpeningsLinked(openingSessions, openings) && OpenedLive(openings, lives)
    requires o in openings ==> opening.id == openings[o].id
    requires opening.phase.Opened? ==> opening.phase.runtime in lives && lives[opening.phase.runtime].ready
    ensures OpeningsLinked(openingSessions, openings[o := opening]) && OpenedLive(openings[o := opening], lives)
  {
  }

  lemma NewOpeningKeepsLinks(st: State, o: OpeningId, id: SessionId)
    requires Linked(st) && o !in st.openings
    ensures Linked(WithOpening(st, o, id))
  {
    var opening := Opening(id, Acquiring);
    OpeningKeepsCommands(st.commands, st.lives, st.openings, o, opening);
    OpeningKeepsRuntimes(st.runtimes, st.openings, o, opening);
    OpeningKeepsReferences(st.openingSessions, st.lives, st.openings, o, opening);
    NewReservation(st.openingSessions, st.openings[o := opening], o, id);
  }

  lemma NewReservation(openingSessions: map<SessionId, OpeningId>, openings: map<OpeningId, Opening>,
                       o: OpeningId, id: SessionId)
    requires OpeningsLinked(openingSessions, openings) && o in openings && openings[o].id == id
    ensures OpeningsLinked(openingSessions[id := o], openings)
  {
  }

  lemma NewOpeningKeepsAccounts(st: State, o: OpeningId, id: SessionId)
    requires Accounted(st.runtimes, st.openings, st.lives, st.liveSessions, st.closing) && o !in st.openings
    ensures Accounted(st.runtimes, WithOpening(st, o, id).openings, st.lives, st.liveSessions, st.closing)
  {
  }

  /** A new opening is started only for an id that is neither live nor opening. */
  lemma NewOpeningKeepsReserves(st: State, o: OpeningId, id: SessionId)
    requires Reserved(st.openings, st.openingSessions) && Exclusive(st.openings, st.liveSessions)
    requires o !in st.openings && id !in st.liveSessions && id !in st.openingSessions
    ensures Reserved(WithOpening(st, o, id).openings, WithOpening(st, o, id).openingSessions)
    ensures Exclusive(WithOpening(st, o, id).openings, st.liveSessions)
  {
  }

  lemma NewOpeningKeepsInv(st: State, o: OpeningId, id: SessionId)
    requires Inv(st) && o !in st.openings && id !in st.liveSessions && id !in st.openingSessions
    ensures Inv(WithOpening(st, o, id))
  {
    NewOpeningKeepsLinks(st, o, id);
    NewOpeningKeepsAccounts(st, o, id);
    NewOpeningKeepsReserves(st, o, id);
  }

  lemma ForgetOpeningKeepsInv(st: State, id: SessionId)
    requires Inv(st) && id in st.openingSessions && !Unsettled(st.openings[st.openingSessions[id]].phase)
    ensures Inv(st.(openingSessions := st.openingSessions - {id}))
  {
  }

  lemma AttachKeepsAttached(
      liveSessions: map<SessionId, RuntimeId>, lives: map<RuntimeId, Live>,
      connections: map<ConnectionId, Connection>, c: ConnectionId, r: RuntimeId)
    requires Attached(liveSessions, lives, connections) && SessionsLinked(liveSessions, lives)
    requires r in lives && c in connections && !connections[c].disconnected && connections[c].handshakeComplete
    ensures var conn, live := connections[c], lives[r];
            Attached(liveSessions, lives[r := live.(connections := live.connections + {c})],
                     connections[c := conn.(sessionIds := conn.sessionIds + {live.id})])
  {
  }

  lemma SessionIdsKeepStages(st: State, c: ConnectionId, ids: set<SessionId>)
    requires Staged(st.connections, st.registered) && Shaken(st.commands, st.connections) && c in st.connections
    ensures var connections' := st.connections[c := st.connections[c].(sessionIds := ids)];
            Staged(connections', st.registered) && Shaken(st.commands, connections')
  {
  }

  lemma AttachKeepsInv(st: State, k: CommandId)
    requires Inv(st) && k in st.commands && st.commands[k].phase.Attach?
    ensures Inv(AttachConnection(st, k))
  {
    PhaseKeepsInv(st, k, Done);
    var done := SetPhase(st, k, Done);
    var c, r := st.commands[k].connection, st.commands[k].phase.runtime;
    var conn, live := st.connections[c], st.lives[r].(connections := st.lives[r].connections + {c});
    if !(conn.disconnected || conn.stage != Ready || conn.transportClosed) {
      SessionIdsKeepStages(done, c, conn.sessionIds + {live.id});
      LiveKeepsLinks(done, r, live);
      LiveKeepsAccounts(st.runtimes, st.openings, st.lives, st.liveSessions, st.closing, r, live);
      LiveKeepsCounts(st.lives, done.commands, r, live);
      AttachKeepsAttached(st.liveSessions, st.lives, st.connections, c, r);
    }
  }

  predicate Reserves(st: State, id: SessionId, o: OpeningId) {
    id in st.openingSessions && st.openingSessions[id] == o
  }

  lemma AcquireKeepsInv(st: State, k: CommandId, o: OpeningId)
    requires Inv(st) && k in st.commands && st.commands[k].phase.Acquire? && o !in st.openings
    ensures Inv(AcquireIteration(st, k, o))
  {
    var id := st.commands[k].id;
    if id in st.liveSessions {
      var r := st.liveSessions[id];
      PhaseKeepsInv(st, k, if st.lives[r].terminal then Done
                           else if st.lives[r].disposing != NotDisposing then AwaitDisposal(r)
                           else Attach(r));
    } else if id in st.openingSessions {
      PhaseKeepsInv(st, k, AwaitOpening(st.openingSessions[id], false));
    } else {
      NewOpeningKeepsInv(st, o, id);
      PhaseKeepsInv(WithOpening(st, o, id), k, AwaitOpening(o, true));
    }
  }

  lemma ResumeKeepsInv(st: State, k: CommandId)
    requires Inv(st) && ClaimEnabled(st, OpeningAwaited(k))
    ensures Inv(ResumeAfterOpening(st, k))
  {
    var id, o := st.commands[k].id, st.commands[k].phase.opening;
    var phase := if st.openings[o].phase.Opened? then Attach(st.openings[o].phase.runtime) else Done;
    PhaseKeepsInv(st, k, phase);
    if st.commands[k].phase.owner && Reserves(st, id, o) {
      ForgetOpeningKeepsInv(SetPhase(st, k, phase), id);
    }
  }

  lemma ClaimKeepsInv(st: State, step: ClaimStep)
    requires Inv(st) && ClaimEnabled(st, step)
    ensures Inv(ApplyClaim(st, step))
  {
    match step
    case StartAcquire(k, c, id) => NewCommandKeepsInv(st, k, c, id);
    case AcquireOnce(k, o) => AcquireKeepsInv(st, k, o);
    case DisposalAwaited(k, ok) => PhaseKeepsInv(st, k, if ok then Acquire else Done);
    case OpeningAwaited(k) => ResumeKeepsInv(st, k);
    case AttachNow(k) => AttachKeepsInv(st, k);
  }

  // ---- Opening a runtime ----

  /** An opening that stays unsettled, or settles without publishing, keeps the tables linked. */
  lemma SetOpeningKeepsLinks(st: State, o: OpeningId, phase: OpeningPhase)
    requires Linked(st) && o in st.openings && !phase.Opened?
    requires RuntimeOf(phase).Some? ==>
               RuntimeOf(phase).value in st.runtimes && st.runtimes[RuntimeOf(phase).value].opener == o
    ensures Linked(SetOpening(st, o, phase))
  {
    var opening := st.openings[o].(phase := phase);
    OpeningKeepsCommands(st.commands, st.lives, st.openings, o, opening);
    OpeningKeepsRuntimes(st.runtimes, st.openings, o, opening);
    OpeningKeepsReferences(st.openingSessions, st.lives, st.openings, o, opening);
  }

  lemma SetOpeningKeepsReserves(st: State, o: OpeningId, phase: OpeningPhase)
    requires Reserved(st.openings, st.openingSessions) && Exclusive(st.openings, st.liveSessions)
    requires o in st.openings && (Unsettled(phase) ==> Unsettled(st.openings[o].phase))
    ensures var next := SetOpening(st, o, phase);
            Reserved(next.openings, next.openingSessions) && Exclusive(next.openings, next.liveSessions)
  {
  }

  lemma NewRuntimeKeepsLinks(st: State, r: RuntimeId, runtime: Runtime)
    requires Linked(st) && r !in st.runtimes && runtime.opener in st.openings
    requires runtime.id == st.openings[runtime.opener].id
    ensures Linked(st.(runtimes := st.runtimes[r := runtime]))
  {
  }

  lemma AcceptRuntimeKeepsLinks(st: State, o: OpeningId, r: RuntimeId)
    requires Linked(st) && OpenEnabled(st, RuntimeAcquired(o, r))
    ensures Linked(AcceptRuntime(st, o, r))
  {
    var runtime := Runtime(st.openings[o].id, o, if st.closing then 1 else 0, false);
    NewRuntimeKeepsLinks(st, r, runtime);
    SetOpeningKeepsLinks(st.(runtimes := st.runtimes[r := runtime]), o, if st.closing then Discarding(r) else Checking(r));
  }

  lemma AcceptRuntimeKeepsAccounts(st: State, o: OpeningId, r: RuntimeId)
    requires Linked(st) && OpenEnabled(st, RuntimeAcquired(o, r))
    requires Accounted(st.runtimes, st.openings, st.lives, st.liveSessions, st.closing)
    ensures var next := AcceptRuntime(st, o, r);
            Accounted(next.runtimes, next.openings, next.lives, next.liveSessions, next.closing)
  {
    OtherAccounts(st, AcceptRuntime(st, o, r), r);
  }

  lemma RuntimeAcquiredKeepsInv(st: State, o: OpeningId, r: RuntimeId)
    requires Inv(st) && OpenEnabled(st, RuntimeAcquired(o, r))
    ensures Inv(AcceptRuntime(st, o, r))
  {
    AcceptRuntimeKeepsLinks(st, o, r);
    AcceptRuntimeKeepsAccounts(st, o, r);
    SetOpeningKeepsReserves(st, o, if st.closing then Discarding(r) else Checking(r));
  }

  lemma AcquireFailsKeepsAccounts(st: State, o: OpeningId)
    requires Accounted(st.runtimes, st.openings, st.lives, st.liveSessions, st.closing)
    requires OpenEnabled(st, AcquireFails(o))
    ensures Accounted(st.runtimes, SetOpening(st, o, Failed).openings, st.lives, st.liveSessions, st.closing)
  {
  }

  lemma AcquireFailsKeepsInv(st: State, o: OpeningId)
    requires Inv(st) && OpenEnabled(st, AcquireFails(o))
    ensures Inv(SetOpening(st, o, Failed))
  {
    SetOpeningKeepsLinks(st, o, Failed);
    SetOpeningKeepsReserves(st, o, Failed);
    AcquireFailsKeepsAccounts(st, o);
  }

  lemma DiscardKeepsLinks(st: State, o: OpeningId)
    requires Linked(st) && OpenEnabled(st, CheckFails(o))
    ensures Linked(DiscardRuntime(st, o))
  {
    var r := st.openings[o].phase.runtime;
    RuntimeKeepsLinks(st, r, CallDispose(st, r).runtimes[r]);
    SetOpeningKeepsLinks(CallDispose(st, r), o, Discarding(r));
  }

  lemma DiscardKeepsAccounts(st: State, o: OpeningId)
    requires Linked(st) && OpenEnabled(st, CheckFails(o))
    requires Accounted(st.runtimes, st.openings, st.lives, st.liveSessions, st.closing)
    ensures st.openings[o].phase.runtime !in st.lives
    ensures var next := DiscardRuntime(st, o);
            Accounted(next.runtimes, next.openings, next.lives, next.liveSessions, next.closing)
  {
    var r := st.openings[o].phase.runtime;
    assert st.runtimes[r].opener == o;
    OtherAccounts(st, DiscardRuntime(st, o), r);
  }

  lemma CheckFailsKeepsInv(st: State, o: OpeningId)
    requires Inv(st) && OpenEnabled(st, CheckFails(o))
    ensures Inv(DiscardRuntime(st, o))
    ensures st.openings[o].phase.runtime !in st.lives
  {
    DiscardKeepsLinks(st, o);
    DiscardKeepsAccounts(st, o);
    SetOpeningKeepsReserves(st, o, Discarding(st.openings[o].phase.runtime));
  }

  function WithLive(st: State, r: RuntimeId, live: Live): State {
    st.(lives := st.lives[r := live])
  }

  lemma NewLiveKeepsLinks(st: State, r: RuntimeId, live: Live)
    requires Linked(st) && Published(st.liveSessions, st.lives)
    requires r in st.runtimes && r !in st.lives && live.id == st.runtimes[r].id
    ensures Linked(WithLive(st, r, live)) && Published(st.liveSessions, WithLive(st, r, live).lives)
  {
    LiveKeepsCommands(st.commands, st.lives, st.openings, r, live);
    LiveKeepsTables(st.liveSessions, st.lives, st.runtimes, st.openings, r, live);
  }

  lemma NewLiveKeepsCounts(st: State, r: RuntimeId, live: Live)
    requires Counted(st.lives, st.commands) && CommandsLinked(st.commands, st.lives, st.openings)
    requires r !in st.lives && live.operationCount == 0
    ensures Counted(st.lives[r := live], st.commands)
  {
    forall k | k in st.commands
      ensures st.commands[k].phase != Operate(r)
    {
      assert PhaseLinked(st.commands[k], st.lives, st.openings);
    }
    assert Operating(st.commands, r) == {};
  }

  /** A record that is not listed in `liveSessions` concerns no connection. */
  lemma NewLiveKeepsAttached(st: State, r: RuntimeId, live: Live)
    requires Attached(st.liveSessions, st.lives, st.connections) && SessionsLinked(st.liveSessions, st.lives)
    requires r !in st.lives
    ensures Attached(st.liveSessions, st.lives[r := live], st.connections)
  {
  }

  /** A subscription that failed leaves a record that never becomes ready. */
  lemma UnreadyKeepsAccounts(st: State, r: RuntimeId, live: Live)
    requires Accounted(st.runtimes, st.openings, st.lives, st.liveSessions, st.closing)
    requires r in st.runtimes && r !in st.lives && st.runtimes[r].disposeCalls == 1
    requires !live.ready && live.disposing == NotDisposing
    ensures Accounted(st.runtimes, st.openings, st.lives[r := live], st.liveSessions, st.closing)
  {
  }

  lemma SubscribeFailsKeepsInv(st: State, o: OpeningId, sawError: bool)
    requires Inv(st) && OpenEnabled(st, SubscribeFails(o, sawError))
    ensures Inv(WithLive(DiscardRuntime(st, o), st.openings[o].phase.runtime,
                         NewLive(st.openings[o].id, false, sawError)))
  {
    CheckFailsKeepsInv(st, o);
    var r, live := st.openings[o].phase.runtime, NewLive(st.openings[o].id, false, sawError);
    var discarded := DiscardRuntime(st, o);
    NewLiveKeepsLinks(discarded, r, live);
    NewLiveKeepsCounts(discarded, r, live);
    NewLiveKeepsAttached(discarded, r, live);
    assert Account(r, discarded.runtimes[r], discarded.openings[o].phase, discarded.lives, discarded.liveSessions,
                   discarded.closing);
    UnreadyKeepsAccounts(discarded, r, live);
  }

  lemma PublishKeepsLinks(st: State, o: OpeningId, sawError: bool)
    requires Linked(st) && Published(st.liveSessions, st.lives) && OpenEnabled(st, CheckSucceeds(o, sawError))
    requires st.openings[o].phase.runtime !in st.lives
    ensures var next := PublishLive(st, o, sawError);
            Linked(next) && Published(next.liveSessions, next.lives)
  {
    var r, live := st.openings[o].phase.runtime, NewLive(st.openings[o].id, true, sawError);
    NewLiveKeepsLinks(st, r, live);
    var lives, opening := st.lives[r := live], st.openings[o].(phase := Opened(r));
    OpeningKeepsCommands(st.commands, lives, st.openings, o, opening);
    OpeningKeepsRuntimes(st.runtimes, st.openings, o, opening);
    OpeningKeepsReferences(st.openingSessions, lives, st.openings, o, opening);
    ListingKeepsSessions(st.liveSessions, lives, st.openings[o].id, r);
  }

  lemma ListingKeepsSessions(liveSessions: map<SessionId, RuntimeId>, lives: map<RuntimeId, Live>, id: SessionId, r: RuntimeId)
    requires SessionsLinked(liveSessions, lives) && Published(liveSessions, lives)
    requires r in lives && lives[r].id == id && lives[r].ready
    ensures SessionsLinked(liveSessions[id := r], lives) && Published(liveSessions[id := r], lives)
  {
  }

  /** Publication is safe because the id was reserved and not listed. */
  lemma PublishKeepsReserves(st: State, o: OpeningId, sawError: bool)
    requires Reserved(st.openings, st.openingSessions) && Exclusive(st.openings, st.liveSessions)
    requires OpenEnabled(st, CheckSucceeds(o, sawError))
    ensures var next := PublishLive(st, o, sawError);
            Reserved(next.openings, next.openingSessions) && Exclusive(next.openings, next.liveSessions)
  {
  }

  lemma PublishKeepsAccounts(st: State, o: OpeningId, sawError: bool)
    requires PhasesLinked(st.openings, st.runtimes) && Exclusive(st.openings, st.liveSessions)
    requires OpenEnabled(st, CheckSucceeds(o, sawError))
    requires Accounted(st.runtimes, st.openings, st.lives, st.liveSessions, st.closing)
    ensures st.openings[o].phase.runtime !in st.lives
    ensures var next := PublishLive(st, o, sawError);
            Accounted(next.runtimes, next.openings, next.lives, next.liveSessions, next.closing)
  {
    var r := st.openings[o].phase.runtime;
    assert st.runtimes[r].opener == o;
    OtherAccounts(st, PublishLive(st, o, sawError), r);
  }

  lemma PublishKeepsAttached(st: State, o: OpeningId, sawError: bool)
    requires Attached(st.liveSessions, st.lives, st.connections) && SessionsLinked(st.liveSessions, st.lives)
    requires OpenEnabled(st, CheckSucceeds(o, sawError)) && st.openings[o].phase.runtime !in st.lives
    ensures var next := PublishLive(st, o, sawError);
            Attached(next.liveSessions, next.lives, next.connections)
  {
  }

  lemma CheckSucceedsKeepsInv(st: State, o: OpeningId, sawError: bool)
    requires Inv(st) && OpenEnabled(st, CheckSucceeds(o, sawError))
    ensures Inv(PublishLive(st, o, sawError))
  {
    PublishKeepsAccounts(st, o, sawError);
    PublishKeepsLinks(st, o, sawError);
    PublishKeepsReserves(st, o, sawError);
    PublishKeepsAttached(st, o, sawError);
    NewLiveKeepsCounts(st, st.openings[o].phase.runtime, NewLive(st.openings[o].id, true, sawError));
  }

  lemma DiscardedKeepsAccounts(st: State, o: OpeningId)
    requires Linked(st) && OpenEnabled(st, Discarded(o))
    requires Accounted(st.runtimes, st.openings, st.lives, st.liveSessions, st.closing)
    ensures var next := SetOpening(DisposeDone(st, st.openings[o].phase.runtime), o, Failed);
            Accounted(next.runtimes, next.openings, next.lives, next.liveSessions, next.closing)
  {
    var r := st.openings[o].phase.runtime;
    assert st.runtimes[r].opener == o;
    OtherAccounts(st, SetOpening(DisposeDone(st, r), o, Failed), r);
  }

  lemma DiscardedKeepsInv(st: State, o: OpeningId)
    requires Inv(st) && OpenEnabled(st, Discarded(o))
    ensures Inv(SetOpening(DisposeDone(st, st.openings[o].phase.runtime), o, Failed))
  {
    var r := st.openings[o].phase.runtime;
    RuntimeKeepsLinks(st, r, st.runtimes[r].(gone := true));
    SetOpeningKeepsLinks(DisposeDone(st, r), o, Failed);
    SetOpeningKeepsReserves(st, o, Failed);
    DiscardedKeepsAccounts(st, o);
  }

  lemma OpenKeepsInv(st: State, step: OpenStep)
    requires Inv(st) && OpenEnabled(st, step)
    ensures Inv(ApplyOpen(st, step))
  {
    match step
    case RuntimeAcquired(o, r) => RuntimeAcquiredKeepsInv(st, o, r);
    case AcquireFails(o) => AcquireFailsKeepsInv(st, o);
    case CheckFails(o) => CheckFailsKeepsInv(st, o);
    case SubscribeFails(o, sawError) => SubscribeFailsKeepsInv(st, o, sawError);
    case CheckSucceeds(o, sawError) => CheckSucceedsKeepsInv(st, o, sawError);
    case Discarded(o) => DiscardedKeepsInv(st, o);
  }

  // ---- Using and dropping a live session ----

  lemma DetachKeepsAttached(
      liveSessions: map<SessionId, RuntimeId>, lives: map<RuntimeId, Live>,
      connections: map<ConnectionId, Connection>, c: ConnectionId, id: SessionId)
    requires Attached(liveSessions, lives, connections) && SessionsLinked(liveSessions, lives)
    requires c in connections
    ensures var conn := connections[c].(sessionIds := connections[c].sessionIds - {id});
            if id in liveSessions then
              var r := liveSessions[id];
              Attached(liveSessions, lives[r := lives[r].(connections := lives[r].connections - {c})],
                       connections[c := conn])
            else Attached(liveSessions, lives, connections[c := conn])
  {
  }

  lemma DetachKeepsInv(st: State, c: ConnectionId, id: SessionId)
    requires Inv(st) && c in st.connections
    ensures Inv(DetachConnection(st, c, id))
  {
    var conn := st.connections[c];
    if id in conn.sessionIds {
      SessionIdsKeepStages(st, c, conn.sessionIds - {id});
      DetachKeepsAttached(st.liveSessions, st.lives, st.connections, c, id);
      if id in st.liveSessions {
        var r := st.liveSessions[id];
        var live := st.lives[r].(connections := st.lives[r].connections - {c});
        LiveKeepsLinks(st, r, live);
        LiveKeepsAccounts(st.runtimes, st.openings, st.lives, st.liveSessions, st.closing, r, live);
        LiveKeepsCounts(st.lives, st.commands, r, live);
      }
    }
  }

  lemma StartKeepsOperating(commands: map<CommandId, Command>, k: CommandId, command: Command, r: RuntimeId, q: RuntimeId)
    requires k !in commands && command.phase == Operate(r)
    ensures |Operating(commands[k := command], q)| == |Operating(commands, q)| + if q == r then 1 else 0
  {
    assert Operating(commands[k := command], q) == Operating(commands, q) + if q == r then {k} else {};
  }

  function WithOperation(st: State, k: CommandId, command: Command, r: RuntimeId, n: int): State
    requires r in st.lives
  {
    AddOperations(st, r, n).(commands := st.commands[k := command])
  }

  /** Counting an operation in or out concerns only the command table and the count. */
  lemma OperationKeepsRest(st: State, k: CommandId, command: Command, r: RuntimeId, n: int)
    requires Linked(st) && Published(st.liveSessions, st.lives) && Shaken(st.commands, st.connections)
    requires r in st.lives && PhaseLinked(command, st.lives, st.openings)
    requires command.connection in st.connections && st.connections[command.connection].handshakeComplete
    ensures var next := WithOperation(st, k, command, r, n);
            Linked(next) && Published(next.liveSessions, next.lives) && Shaken(next.commands, next.connections)
  {
    CommandKeepsLinks(st, k, command);
    CommandKeepsShaken(st.commands, st.connections, k, command);
    LiveKeepsLinks(st.(commands := st.commands[k := command]), r, AddOperations(st, r, n).lives[r]);
  }

  lemma OperationKeepsAccounts(st: State, k: CommandId, command: Command, r: RuntimeId, n: int)
    requires Accounted(st.runtimes, st.openings, st.lives, st.liveSessions, st.closing)
    requires Attached(st.liveSessions, st.lives, st.connections) && r in st.lives
    ensures var next := WithOperation(st, k, command, r, n);
            && Accounted(next.runtimes, next.openings, next.lives, next.liveSessions, next.closing)
            && Attached(next.liveSessions, next.lives, next.connections)
  {
    var live := AddOperations(st, r, n).lives[r];
    LiveKeepsAccounts(st.runtimes, st.openings, st.lives, st.liveSessions, st.closing, r, live);
    LiveKeepsAttached(st.liveSessions, st.lives, st.connections, r, live);
  }

  lemma StartKeepsCounts(st: State, r: RuntimeId, k: CommandId, command: Command)
    requires Counted(st.lives, st.commands) && r in st.lives && st.lives[r].disposing == NotDisposing
    requires k !in st.commands && command.phase == Operate(r)
    ensures var next := WithOperation(st, k, command, r, 1);
            Counted(next.lives, next.commands)
  {
    forall q | q in st.lives {
      StartKeepsOperating(st.commands, k, command, r, q);
    }
  }

  /** An operation starts only on a session whose disposal has not started. */
  lemma StartOperationKeepsInv(st: State, k: CommandId, c: ConnectionId, id: SessionId, r: RuntimeId)
    requires Inv(st) && k !in st.commands && MayRequest(st, c)
    requires r in st.lives && st.lives[r].ready && st.lives[r].id == id && st.lives[r].disposing == NotDisposing
    ensures Inv(WithOperation(st, k, Command(c, id, Operate(r)), r, 1))
  {
    var command := Command(c, id, Operate(r));
    OperationKeepsRest(st, k, command, r, 1);
    OperationKeepsAccounts(st, k, command, r, 1);
    StartKeepsCounts(st, r, k, command);
  }

  lemma EndKeepsOperating(commands: map<CommandId, Command>, k: CommandId, q: RuntimeId)
    requires k in commands && commands[k].phase.Operate?
    ensures |Operating(commands[k := commands[k].(phase := Done)], q)| ==
            |Operating(commands, q)| - if commands[k].phase == Operate(q) then 1 else 0
  {
    var after := Operating(commands[k := commands[k].(phase := Done)], q);
    assert after == Operating(commands, q) - {k};
    assert commands[k].phase == Operate(q) ==> k in Operating(commands, q);
  }

  lemma EndKeepsCounts(st: State, k: CommandId)
    requires Counted(st.lives, st.commands) && k in st.commands && st.commands[k].phase.Operate?
    requires st.commands[k].phase.runtime in st.lives
    ensures var next := WithOperation(st, k, st.commands[k].(phase := Done), st.commands[k].phase.runtime, -1);
            Counted(next.lives, next.commands)
  {
    forall q | q in st.lives {
      EndKeepsOperating(st.commands, k, q);
    }
    assert k in Operating(st.commands, st.commands[k].phase.runtime);
  }

  lemma EndOperationKeepsInv(st: State, k: CommandId)
    requires Inv(st) && UseEnabled(st, EndOperation(k))
    ensures Inv(WithOperation(st, k, st.commands[k].(phase := Done), st.commands[k].phase.runtime, -1))
  {
    var command, r := st.commands[k].(phase := Done), st.commands[k].phase.runtime;
    OperationKeepsRest(st, k, command, r, -1);
    OperationKeepsAccounts(st, k, command, r, -1);
    EndKeepsCounts(st, k);
  }

  lemma RuntimeErrorKeepsInv(st: State, r: RuntimeId)
    requires Inv(st) && r in st.lives
    ensures Inv(WithLive(st, r, st.lives[r].(terminal := true)))
  {
    var live := st.lives[r].(terminal := true);
    LiveKeepsLinks(st, r, live);
    LiveKeepsAccounts(st.runtimes, st.openings, st.lives, st.liveSessions, st.closing, r, live);
    LiveKeepsAttached(st.liveSessions, st.lives, st.connections, r, live);
    LiveKeepsCounts(st.lives, st.commands, r, live);
  }

  /** A session whose disposal may start is ready, so its opening published it. */
  lemma ReadyIsOpened(st: State, r: RuntimeId)
    requires LivesLinked(st.lives, st.runtimes)
    requires Accounted(st.runtimes, st.openings, st.lives, st.liveSessions, st.closing)
    requires r in st.lives && (st.lives[r].ready || st.lives[r].disposing != NotDisposing)
    ensures st.openings[st.runtimes[r].opener].phase == Opened(r)
    ensures LiveAccount(st.runtimes[r], st.lives[r], Holds(st.liveSessions, st.lives[r].id, r), st.closing)
  {
  }

  lemma DisposeKeepsAccounts(st: State, r: RuntimeId, idle: bool)
    requires LivesLinked(st.lives, st.runtimes) && r in st.lives
    requires Accounted(st.runtimes, st.openings, st.lives, st.liveSessions, st.closing)
    ensures var next := DisposeIfUnused(st, r, idle);
            Accounted(next.runtimes, next.openings, next.lives, next.liveSessions, next.closing)
  {
    if !MustKeep(st, r, idle) {
      ReadyIsOpened(st, r);
      OtherAccounts(st, DisposeIfUnused(st, r, idle), r);
    }
  }

  lemma MaybeDisposeKeepsInv(st: State, r: RuntimeId, idle: bool)
    requires Inv(st) && r in st.lives
    ensures Inv(DisposeIfUnused(st, r, idle))
  {
    DisposeKeepsAccounts(st, r, idle);
    if !MustKeep(st, r, idle) {
      var live := st.lives[r].(disposing := Disposing);
      RuntimeKeepsLinks(st, r, CallDispose(st, r).runtimes[r]);
      LiveKeepsLinks(CallDispose(st, r), r, live);
      LiveKeepsAttached(st.liveSessions, st.lives, st.connections, r, live);
      assert st.lives[r].operationCount == |Operating(st.commands, r)|;
      LiveKeepsCounts(st.lives, st.commands, r, live);
    }
  }

  lemma SettleKeepsAccounts(st: State, r: RuntimeId)
    requires LivesLinked(st.lives, st.runtimes) && r in st.lives && st.lives[r].disposing == Disposing
    requires Accounted(st.runtimes, st.openings, st.lives, st.liveSessions, st.closing)
    ensures var next := SettleDisposal(st, r);
            Accounted(next.runtimes, next.openings, next.lives, next.liveSessions, next.closing)
  {
    ReadyIsOpened(st, r);
    OtherAccounts(st, SettleDisposal(st, r), r);
  }

  lemma DisposeSettlesKeepsInv(st: State, r: RuntimeId)
    requires Inv(st) && r in st.lives && st.lives[r].disposing == Disposing
    ensures Inv(SettleDisposal(st, r))
  {
    SettleKeepsAccounts(st, r);
    var live := st.lives[r].(disposing := Disposed);
    var settled := DisposeDone(st, r).(lives := st.lives[r := live]);
    RuntimeKeepsLinks(st, r, st.runtimes[r].(gone := true));
    LiveKeepsLinks(DisposeDone(st, r), r, live);
    LiveKeepsAttached(st.liveSessions, st.lives, st.connections, r, live);
    LiveKeepsCounts(st.lives, st.commands, r, live);
    DelistKeepsRest(settled, live.id);
  }

  lemma UseKeepsInv(st: State, step: UseStep)
    requires Inv(st) && UseEnabled(st, step)
    ensures Inv(ApplyUse(st, step))
  {
    match step
    case DetachNow(c, id) => DetachKeepsInv(st, c, id);
    case StartOperation(k, c, id) => StartOperationKeepsInv(st, k, c, id, RequireAttached(st, c, id).value);
    case EndOperation(k) => EndOperationKeepsInv(st, k);
    case RuntimeError(r) => RuntimeErrorKeepsInv(st, r);
    case MaybeDispose(r, idle) => MaybeDisposeKeepsInv(st, r, idle);
    case DisposeSettles(r) => DisposeSettlesKeepsInv(st, r);
  }

  // ---- Shutdown ----

  lemma CloseConnectionsKeepsInv(st: State)
    requires Inv(st) && st.closing
    ensures Inv(ApplyClose(st, CloseConnections))
  {
    var connections := ApplyClose(st, CloseConnections).connections;
    ConnectionsKeepAttached(st.liveSessions, st.lives, st.connections, connections);
    ConnectionsKeepCommands(st.commands, st.connections, connections);
  }

  lemma SweepKeepsAccounts(st: State)
    requires Linked(st) && Published(st.liveSessions, st.lives) && st.closing
    requires Accounted(st.runtimes, st.openings, st.lives, st.liveSessions, st.closing)
    ensures Accounted(Sweep(st).runtimes, st.openings, st.lives, map[], st.closing)
  {
    var next := Sweep(st);
    forall r | r in st.runtimes
      ensures Account(r, next.runtimes[r], st.openings[st.runtimes[r].opener].phase, st.lives, map[], st.closing)
    {
      assert Account(r, st.runtimes[r], st.openings[st.runtimes[r].opener].phase, st.lives, st.liveSessions, st.closing);
      assert r in Sweepable(st) <==>
        r in st.lives && Holds(st.liveSessions, st.lives[r].id, r) && st.lives[r].disposing == NotDisposing;
    }
  }

  lemma SweepKeepsLinks(st: State)
    requires Linked(st)
    ensures Linked(Sweep(st))
  {
  }

  lemma SweepKeepsInv(st: State)
    requires Inv(st) && st.closing
    ensures Inv(Sweep(st))
  {
    SweepKeepsAccounts(st);
    SweepKeepsLinks(st);
  }

  lemma SweptSettlesKeepsInv(st: State, r: RuntimeId)
    requires Inv(st) && CloseEnabled(st, SweptSettles(r))
    ensures Inv(DisposeDone(st, r))
  {
    RuntimeKeepsLinks(st, r, st.runtimes[r].(gone := true));
    ReadyIsOpened(st, r);
    OtherAccounts(st, DisposeDone(st, r), r);
  }

  lemma CloseKeepsInv(st: State, step: CloseStep)
    requires Inv(st) && CloseEnabled(st, step)
    ensures Inv(ApplyClose(st, step))
  {
    match step
    case BeginClose =>
    case CloseConnections => CloseConnectionsKeepsInv(st);
    case SweepSessions => SweepKeepsInv(st);
    case SweptSettles(r) => SweptSettlesKeepsInv(st, r);
  }

  /** Every stretch keeps the invariant. */
  lemma StepKeepsInv(st: State, step: Step)
    requires Inv(st) && Enabled(st, step)
    ensures Inv(Apply(st, step))
  {
    match step
    case Peer(s) => PeerKeepsInv(st, s);
    case Claim(s) => ClaimKeepsInv(st, s);
    case Open(s) => OpenKeepsInv(st, s);
    case Use(s) => UseKeepsInv(st, s);
    case Close(s) => CloseKeepsInv(st, s);
  }
}
