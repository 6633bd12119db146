/** The manager's tables as its methods change them. Each method is one uninterrupted stretch of the
    program and takes exactly the step of the transition system it is named after. */
module SessionManager {
  import opened Wrappers
  import opened SessionState

  /** The disconnected connection is out of the sets of the sessions handled so far. */
  lemma LeaveOneMore(st: State, c: ConnectionId, left: set<SessionId>, id: SessionId)
    requires SessionsLinked(st.liveSessions, st.lives)
    ensures var before, after := LivesWithout(st, c, left), LivesWithout(st, c, left + {id});
            if id in st.liveSessions && id !in left then
              var r := st.liveSessions[id];
              r in before && after == before[r := before[r].(connections := before[r].connections - {c})]
            else after == before
  {
  }

  /** The runtimes once dispose has been called on the swept ones among these sessions. */
  function SweptRuntimes(st: State, ids: set<SessionId>): map<RuntimeId, Runtime>
    requires SessionsLinked(st.liveSessions, st.lives)
  {
    map r | r in st.runtimes ::
      if r in st.lives && st.lives[r].id in ids && st.lives[r].disposing == NotDisposing &&
         st.lives[r].id in st.liveSessions && st.liveSessions[st.lives[r].id] == r
      then st.runtimes[r].(disposeCalls := st.runtimes[r].disposeCalls + 1)
      else st.runtimes[r]
  }

  lemma SweepOneMore(st: State, ids: set<SessionId>, id: SessionId)
    requires SessionsLinked(st.liveSessions, st.lives) && LivesLinked(st.lives, st.runtimes)
    requires id in st.liveSessions && id !in ids
    ensures var r := st.liveSessions[id];
            var before, after := SweptRuntimes(st, ids), SweptRuntimes(st, ids + {id});
            && r in before
            && after == if st.lives[r].disposing != NotDisposing then before
                        else before[r := before[r].(disposeCalls := before[r].disposeCalls + 1)]
  {
  }

  lemma SweptAll(st: State)
    requires SessionsLinked(st.liveSessions, st.lives)
    ensures SweptRuntimes(st, {}) == st.runtimes
    ensures SweptRuntimes(st, st.liveSessions.Keys) == Sweep(st).runtimes
  {
    var swept := Sweepable(st);
    forall r | r in st.runtimes
      ensures r in swept <==>
              r in st.lives && st.lives[r].disposing == NotDisposing &&
              st.lives[r].id in st.liveSessions && st.liveSessions[st.lives[r].id] == r
    {
    }
  }

  /** What a command that asks for a session does next: it fails when the session is terminating, attaches to
      it when it is live, waits for its disposal to end or for its opening, or else opens it under this
      name. */
  predicate GoesOn(command: Command, o: OpeningId, lives: map<RuntimeId, Live>, liveSessions: map<SessionId, RuntimeId>,
                   openingSessions: map<SessionId, OpeningId>) {
    var live := if command.id in liveSessions then Some(liveSessions[command.id]) else None;
    && (live.Some? ==> live.value in lives)
    && (command.phase == Done <==> live.Some? && lives[live.value].terminal)
    && (command.phase.Attach? <==> live.Some? && !lives[live.value].terminal && lives[live.value].disposing == NotDisposing)
    && (command.phase.AwaitDisposal? <==>
          live.Some? && !lives[live.value].terminal && lives[live.value].disposing != NotDisposing)
    && (command.phase.Attach? || command.phase.AwaitDisposal? ==> live == Some(command.phase.runtime))
    && (command.phase == AwaitOpening(o, true) <==> live.None? && command.id !in openingSessions)
    && (live.None? && command.id in openingSessions <==>
        command.phase.AwaitOpening? && !command.phase.owner && command.id in openingSessions &&
        command.phase.opening == openingSessions[command.id])
  }

  /** At most this connection's list changes, in this session's id, and this runtime's set, in this
      connection. */
  predicate OnlyChanges(st: State, next: State, c: ConnectionId, id: SessionId, r: RuntimeId) {
    && next.connections.Keys == st.connections.Keys && next.lives.Keys == st.lives.Keys
    && (forall d :: d in st.connections && d != c ==> next.connections[d] == st.connections[d])
    && (c in st.connections ==>
          next.connections[c] == st.connections[c].(sessionIds := next.connections[c].sessionIds) &&
          next.connections[c].sessionIds - {id} == st.connections[c].sessionIds - {id})
    && (forall q :: q in st.lives && q != r ==> next.lives[q] == st.lives[q])
    && (r in st.lives ==>
          next.lives[r] == st.lives[r].(connections := next.lives[r].connections) &&
          next.lives[r].connections - {c} == st.lives[r].connections - {c})
  }

  class LiveSessionManager {
    var closing: bool
    var connections: map<ConnectionId, Connection>
    var registered: set<ConnectionId>
    var lives: map<RuntimeId, Live>
    var liveSessions: map<SessionId, RuntimeId>
    var openings: map<OpeningId, Opening>
    var openingSessions: map<SessionId, OpeningId>
    var runtimes: map<RuntimeId, Runtime>
    var commands: map<CommandId, Command>

    ghost function View(): State
      reads this
    {
      State(closing, connections, registered, lives, liveSessions, openings, openingSessions, runtimes, commands)
    }

    constructor ()
      ensures View() == Initial
    {
      closing, connections, registered := false, map[], {};
      lives, liveSessions, openings, openingSessions := map[], map[], map[], map[];
      runtimes, commands := map[], map[];
    }

    method SetCommandPhase(k: CommandId, phase: CommandPhase)
      requires k in commands
      modifies this`commands
      ensures View() == SetPhase(old(View()), k, phase)
    {
      commands := commands[k := commands[k].(phase := phase)];
    }

    /** One iteration of the retry loop of `acquire`. */
    method AcquireOnce(k: CommandId, o: OpeningId)
      requires Linked(View()) && ClaimEnabled(View(), SessionState.AcquireOnce(k, o))
      modifies this
      ensures View() == Apply(old(View()), Claim(SessionState.AcquireOnce(k, o)))
      ensures GoesOn(commands[k], o, lives, liveSessions, old(openingSessions))
      ensures commands[k].phase == AwaitOpening(o, true) ==>
                openings == old(openings)[o := Opening(commands[k].id, Acquiring)] &&
                openingSessions == old(openingSessions)[commands[k].id := o]
    {
      var id := commands[k].id;
      if id in liveSessions {
        var r := liveSessions[id];
        var existing := lives[r];
        if existing.terminal {
          SetCommandPhase(k, Done);
        } else if existing.disposing != NotDisposing {
          SetCommandPhase(k, AwaitDisposal(r));
        } else {
          SetCommandPhase(k, Attach(r));
        }
        return;
      }
      if id in openingSessions {
        SetCommandPhase(k, AwaitOpening(openingSessions[id], false));
        return;
      }
      openings := openings[o := Opening(id, Acquiring)];
      openingSessions := openingSessions[id := o];
      SetCommandPhase(k, AwaitOpening(o, true));
    }

    /** The awaited `create` has settled. */
    method OpeningAwaited(k: CommandId)
      requires Linked(View()) && ClaimEnabled(View(), SessionState.OpeningAwaited(k))
      modifies this
      ensures View() == Apply(old(View()), Claim(SessionState.OpeningAwaited(k)))
      ensures var o := old(commands[k].phase.opening);
              && (forall r :: commands[k].phase == Attach(r) <==> openings[o].phase == Opened(r))
              && (commands[k].phase == Done <==> openings[o].phase.Failed?)
              && (old(commands[k].phase.owner) ==> commands[k].id !in openingSessions || openingSessions[commands[k].id] != o)
    {
      var id, o, owner := commands[k].id, commands[k].phase.opening, commands[k].phase.owner;
      if owner && id in openingSessions && openingSessions[id] == o {
        openingSessions := openingSessions - {id};
      }
      if openings[o].phase.Opened? {
        SetCommandPhase(k, Attach(openings[o].phase.runtime));
      } else {
        SetCommandPhase(k, Done);
      }
    }

    /** `attach`, up to the disposal it leaves to its caller when the connection is gone. */
    method AttachNow(k: CommandId)
      requires Linked(View()) && ClaimEnabled(View(), SessionState.AttachNow(k))
      modifies this
      ensures View() == Apply(old(View()), Claim(SessionState.AttachNow(k)))
      ensures var c, r := old(commands[k].connection), old(commands[k].phase.runtime);
              if old(connections[c].disconnected || connections[c].stage != Ready || connections[c].transportClosed)
              then connections == old(connections) && lives == old(lives)
              else c in lives[r].connections && lives[r].id in connections[c].sessionIds
      ensures OnlyChanges(old(View()), View(), old(commands[k].connection), old(commands[k].id), old(commands[k].phase.runtime))
    {
      var c, r := commands[k].connection, commands[k].phase.runtime;
      var connection := connections[c];
      SetCommandPhase(k, Done);
      if connection.disconnected || connection.stage != Ready || connection.transportClosed {
        return;
      }
      connections := connections[c := connection.(sessionIds := connection.sessionIds + {lives[r].id})];
      lives := lives[r := lives[r].(connections := lives[r].connections + {c})];
    }

    /** `create` once the service has handed over a runtime. */
    method RuntimeAcquired(o: OpeningId, r: RuntimeId)
      requires Linked(View()) && OpenEnabled(View(), SessionState.RuntimeAcquired(o, r))
      modifies this
      ensures View() == Apply(old(View()), Open(SessionState.RuntimeAcquired(o, r)))
      ensures r in runtimes && runtimes[r].opener == o && runtimes[r].id == openings[o].id && !runtimes[r].gone
      ensures openings[o].phase == if closing then Discarding(r) else Checking(r)
      ensures runtimes[r].disposeCalls == if closing then 1 else 0
    {
      runtimes := runtimes[r := Runtime(openings[o].id, o, 0, false)];
      if closing {
        CallRuntimeDispose(r);
        openings := openings[o := openings[o].(phase := Discarding(r))];
        return;
      }
      openings := openings[o := openings[o].(phase := Checking(r))];
    }

    method CallRuntimeDispose(r: RuntimeId)
      requires r in runtimes
      modifies this`runtimes
      ensures View() == CallDispose(old(View()), r)
    {
      runtimes := runtimes[r := runtimes[r].(disposeCalls := runtimes[r].disposeCalls + 1)];
    }

    /** `create` once the snapshot of the new runtime has been checked. */
    method CheckSucceeds(o: OpeningId, sawError: bool)
      requires Linked(View()) && OpenEnabled(View(), SessionState.CheckSucceeds(o, sawError))
      modifies this
      ensures View() == Apply(old(View()), Open(SessionState.CheckSucceeds(o, sawError)))
      ensures var id, r := openings[o].id, old(openings[o].phase.runtime);
              && openings[o].phase == Opened(r) && id in liveSessions && liveSessions[id] == r
              && r in lives && lives[r].id == id && lives[r].ready && (lives[r].terminal <==> sawError)
              && lives[r].connections == {} && lives[r].operationCount == 0 && lives[r].disposing == NotDisposing
    {
      var r, id := openings[o].phase.runtime, openings[o].id;
      lives := lives[r := NewLive(id, false, sawError)];
      liveSessions := liveSessions[id := r];
      lives := lives[r := lives[r].(ready := true)];
      assert lives == old(lives)[r := NewLive(id, true, sawError)];
      openings := openings[o := openings[o].(phase := Opened(r))];
    }

    /** `create` when the snapshot was refused or could not be taken. */
    method CheckFails(o: OpeningId)
      requires Linked(View()) && OpenEnabled(View(), SessionState.CheckFails(o))
      modifies this
      ensures View() == Apply(old(View()), Open(SessionState.CheckFails(o)))
      ensures var r := old(openings[o].phase.runtime);
              && openings[o].phase == Discarding(r) && runtimes[r].disposeCalls == old(runtimes[r].disposeCalls) + 1
    {
      var r := openings[o].phase.runtime;
      CallRuntimeDispose(r);
      openings := openings[o := openings[o].(phase := Discarding(r))];
    }

    method DetachNow(c: ConnectionId, id: SessionId)
      requires Linked(View()) && UseEnabled(View(), SessionState.DetachNow(c, id))
      modifies this
      ensures View() == Apply(old(View()), Use(SessionState.DetachNow(c, id)))
      ensures id !in connections[c].sessionIds
      ensures old(id in connections[c].sessionIds) && id in liveSessions ==> c !in lives[liveSessions[id]].connections
      ensures id in liveSessions ==> OnlyChanges(old(View()), View(), c, id, liveSessions[id])
      ensures id !in liveSessions ==> lives == old(lives)
    {
      var connection := connections[c];
      if id in connection.sessionIds {
        connections := connections[c := connection.(sessionIds := connection.sessionIds - {id})];
        if id in liveSessions {
          var r := liveSessions[id];
          lives := lives[r := lives[r].(connections := lives[r].connections - {c})];
        }
      }
    }

    /** `requireAttached`: the live session, or none when it throws. */
    method FindAttached(c: ConnectionId, id: SessionId) returns (live: Option<RuntimeId>)
      requires Linked(View()) && c in connections
      ensures live == RequireAttached(View(), c, id)
      ensures forall r :: live == Some(r) <==>
                && id in connections[c].sessionIds && id in liveSessions && liveSessions[id] == r
                && !lives[r].terminal && lives[r].disposing == NotDisposing
    {
      if id !in connections[c].sessionIds {
        return None;
      }
      if id !in liveSessions || lives[liveSessions[id]].terminal || lives[liveSessions[id]].disposing != NotDisposing {
        return None;
      }
      return Some(liveSessions[id]);
    }

    /** A command that needs the session: the error, or the operation it starts. */
    method StartOperation(k: CommandId, c: ConnectionId, id: SessionId) returns (started: bool)
      requires Linked(View()) && k !in commands && MayRequest(View(), c)
      modifies this
      ensures started <==> old(UseEnabled(View(), SessionState.StartOperation(k, c, id)))
      ensures started <==>
              old(&& id in connections[c].sessionIds && id in liveSessions
                  && !lives[liveSessions[id]].terminal && lives[liveSessions[id]].disposing == NotDisposing)
      ensures started ==>
                var r := old(liveSessions[id]);
                && k in commands && commands[k] == Command(c, id, Operate(r))
                && r in lives && lives[r].operationCount == old(lives)[r].operationCount + 1
      ensures View() == if started then Apply(old(View()), Use(SessionState.StartOperation(k, c, id))) else old(View())
    {
      var live := FindAttached(c, id);
      if live.None? {
        return false;
      }
      var r := live.value;
      lives := lives[r := lives[r].(operationCount := lives[r].operationCount + 1)];
      commands := commands[k := Command(c, id, Operate(r))];
      started := true;
    }

    method EndOperation(k: CommandId)
      requires Linked(View()) && UseEnabled(View(), SessionState.EndOperation(k))
      modifies this
      ensures View() == Apply(old(View()), Use(SessionState.EndOperation(k)))
    {
      var r := commands[k].phase.runtime;
      lives := lives[r := lives[r].(operationCount := lives[r].operationCount - 1)];
      SetCommandPhase(k, Done);
    }

    /** `maybeDispose`, up to its first await. */
    method MaybeDispose(r: RuntimeId, idle: bool)
      requires Linked(View()) && r in lives
      modifies this
      ensures View() == Apply(old(View()), Use(SessionState.MaybeDispose(r, idle)))
      ensures runtimes[r].disposeCalls == old(runtimes[r].disposeCalls) + 1 <==>
                && !closing && lives[r].ready && old(lives[r].disposing) == NotDisposing
                && lives[r].connections == {} && lives[r].operationCount <= 0 && (lives[r].terminal || idle)
      ensures if runtimes == old(runtimes) then lives == old(lives) else lives[r].disposing == Disposing
    {
      var live := lives[r];
      if closing || !live.ready || live.disposing != NotDisposing || live.connections != {} ||
         live.operationCount > 0 || (!live.terminal && !idle) {
        return;
      }
      CallRuntimeDispose(r);
      lives := lives[r := live.(disposing := Disposing)];
    }

    /** The disposal's end: the session is unlisted if it is still the one listed. */
    method DisposeSettles(r: RuntimeId)
      requires Linked(View()) && UseEnabled(View(), SessionState.DisposeSettles(r))
      modifies this
      ensures View() == Apply(old(View()), Use(SessionState.DisposeSettles(r)))
      ensures forall id :: id in liveSessions <==> id in old(liveSessions) && old(liveSessions)[id] != r
      ensures forall id :: id in liveSessions ==> liveSessions[id] == old(liveSessions)[id]
      ensures lives[r].disposing == Disposed && runtimes[r].gone
    {
      var id := lives[r].id;
      runtimes := runtimes[r := runtimes[r].(gone := true)];
      lives := lives[r := lives[r].(disposing := Disposed)];
      if id in liveSessions && liveSessions[id] == r {
        liveSessions := liveSessions - {id};
      }
    }

    /** Drop a connection and take it out of each of its sessions. */
    method Disconnect(c: ConnectionId)
      requires Linked(View()) && c in connections
      modifies this
      ensures View() == Apply(old(View()), Peer(SessionState.Disconnect(c)))
      ensures old(connections[c].disconnected) || (connections[c].disconnected && c !in registered)
      ensures !old(connections[c].disconnected) ==>
                && connections[c].sessionIds == {} && lives.Keys == old(lives.Keys)
                && forall r, d :: r in lives ==>
                     (d in lives[r].connections <==>
                        && d in old(lives)[r].connections
                        && !(d == c && lives[r].id in old(connections)[c].sessionIds &&
                             lives[r].id in liveSessions && liveSessions[lives[r].id] == r))
    {
      var connection := connections[c];
      if connection.disconnected {
        return;
      }
      connections := connections[c := connection.(disconnected := true, stage := Closed, sessionIds := {})];
      registered := registered - {c};
      LeaveSessions(c, connection.sessionIds);
    }

    method LeaveSessions(c: ConnectionId, sessionIds: set<SessionId>)
      requires SessionsLinked(liveSessions, lives)
      modifies this`lives
      ensures lives == LivesWithout(old(View()), c, sessionIds)
    {
      ghost var st := View();
      ghost var left: set<SessionId> := {};
      var ids := sessionIds;
      assert LivesWithout(st, c, {}) == st.lives;
      while ids != {}
        invariant left + ids == sessionIds && left !! ids
        invariant lives == LivesWithout(st, c, left)
      {
        var id :| id in ids;
        LeaveOneMore(st, c, left, id);
        if id in liveSessions {
          var r := liveSessions[id];
          lives := lives[r := lives[r].(connections := lives[r].connections - {c})];
        }
        left, ids := left + {id}, ids - {id};
      }
      assert left == sessionIds;
    }

    /** `close`, once the openings it found have settled: unlist everything and dispose of every
        session whose disposal has not started. */
    method SweepSessions()
      requires Linked(View()) && closing
      modifies this
      ensures View() == Apply(old(View()), Close(SessionState.SweepSessions))
    {
      ghost var st := View();
      var sessions := liveSessions;
      liveSessions := map[];
      SweptAll(st);
      DisposeAll(st, sessions);
    }

    method DisposeAll(ghost st: State, sessions: map<SessionId, RuntimeId>)
      requires SessionsLinked(sessions, lives) && LivesLinked(lives, runtimes)
      requires sessions == st.liveSessions && lives == st.lives && runtimes == st.runtimes
      modifies this`runtimes
      ensures runtimes == SweptRuntimes(st, sessions.Keys)
    {
      var ids := sessions.Keys;
      ghost var swept: set<SessionId> := {};
      assert SweptRuntimes(st, {}) == st.runtimes;
      while ids != {}
        invariant swept + ids == sessions.Keys && swept !! ids
        invariant runtimes == SweptRuntimes(st, swept)
      {
        var id :| id in ids;
        SweepOneMore(st, swept, id);
        var r := sessions[id];
        if lives[r].disposing == NotDisposing {
          runtimes := runtimes[r := runtimes[r].(disposeCalls := runtimes[r].disposeCalls + 1)];
        }
        swept, ids := swept + {id}, ids - {id};
      }
      assert swept == sessions.Keys;
    }
  }
}
