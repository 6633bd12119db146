/** No session id stays reserved for good: the command that started an opening waits for it and takes
    the entry out of `openingSessions` when it has settled. */
module SessionReservations {
  import opened SessionState
  import opened SessionInvariant
  import opened SessionSafety

  /** The command waits for the opening it started for this id. */
  predicate Owns(commands: map<CommandId, Command>, k: CommandId, id: SessionId, o: OpeningId) {
    k in commands && commands[k].id == id && commands[k].phase == AwaitOpening(o, true)
  }

  ghost predicate Owned(commands: map<CommandId, Command>, openingSessions: map<SessionId, OpeningId>) {
    forall s :: s in openingSessions ==> exists k :: Owns(commands, k, s, openingSessions[s])
  }

  /** A command that owns no opening may change its phase. */
  lemma PhaseKeepsOwned(commands: map<CommandId, Command>, openingSessions: map<SessionId, OpeningId>,
                        k: CommandId, command: Command)
    requires Owned(commands, openingSessions)
    requires k in commands ==> !(commands[k].phase.AwaitOpening? && commands[k].phase.owner)
    ensures Owned(commands[k := command], openingSessions)
  {
    var next := commands[k := command];
    forall s | s in openingSessions
      ensures exists j :: Owns(next, j, s, openingSessions[s])
    {
      var j :| Owns(commands, j, s, openingSessions[s]);
      assert Owns(next, j, s, openingSessions[s]);
    }
  }

  lemma ResumeClaims(st: State, k: CommandId)
    requires k in st.commands && st.commands[k].phase.AwaitOpening? && st.commands[k].phase.opening in st.openings
    ensures var next := ResumeAfterOpening(st, k);
            var command := st.commands[k];
            && next.commands == st.commands[k := next.commands[k]]
            && next.openingSessions ==
               if Owns(st.commands, k, command.id, command.phase.opening) &&
                  Reserves(st, command.id, command.phase.opening)
               then st.openingSessions - {command.id} else st.openingSessions
  {
  }

  /** The owner of an entry takes it out when it goes on; the other entries have other owners. */
  lemma ResumeKeepsOwned(st: State, k: CommandId)
    requires Owned(st.commands, st.openingSessions)
    requires k in st.commands && st.commands[k].phase.AwaitOpening? && st.commands[k].phase.opening in st.openings
    ensures var next := ResumeAfterOpening(st, k);
            Owned(next.commands, next.openingSessions)
  {
    ResumeClaims(st, k);
    var commands, entries := ResumeAfterOpening(st, k).commands, ResumeAfterOpening(st, k).openingSessions;
    forall s | s in entries
      ensures exists j :: Owns(commands, j, s, entries[s])
    {
      var j :| Owns(st.commands, j, s, st.openingSessions[s]);
      assert j != k;
      assert Owns(commands, j, s, entries[s]);
    }
  }

  lemma AcquireKeepsOwned(st: State, k: CommandId, o: OpeningId)
    requires Owned(st.commands, st.openingSessions) && k in st.commands && st.commands[k].phase.Acquire?
    requires forall id :: id in st.liveSessions ==> st.liveSessions[id] in st.lives
    ensures var next := AcquireIteration(st, k, o);
            Owned(next.commands, next.openingSessions)
  {
    var id := st.commands[k].id;
    var command := st.commands[k].(phase := AcquirePhase(st, id, o));
    PhaseKeepsOwned(st.commands, st.openingSessions, k, command);
    var starts := id !in st.liveSessions && id !in st.openingSessions;
    WhatIsClaimed(st, k, command.phase, starts, o);
    if starts {
      OwnReservation(st.commands[k := command], st.openingSessions, k, id, o);
    }
  }

  lemma WhatIsClaimed(st: State, k: CommandId, phase: CommandPhase, starts: bool, o: OpeningId)
    requires k in st.commands
    ensures var next := Claimed(st, k, phase, starts, o);
            && next.commands == st.commands[k := st.commands[k].(phase := phase)]
            && next.openingSessions ==
               (if starts then st.openingSessions[st.commands[k].id := o] else st.openingSessions)
  {
  }

  lemma OwnReservation(commands: map<CommandId, Command>, openingSessions: map<SessionId, OpeningId>,
                       k: CommandId, id: SessionId, o: OpeningId)
    requires Owned(commands, openingSessions) && Owns(commands, k, id, o)
    ensures Owned(commands, openingSessions[id := o])
  {
    var entries := openingSessions[id := o];
    forall s | s in entries
      ensures exists j :: Owns(commands, j, s, entries[s])
    {
      if s == id {
        assert Owns(commands, k, s, entries[s]);
      } else {
        var j :| Owns(commands, j, s, openingSessions[s]);
        assert Owns(commands, j, s, entries[s]);
      }
    }
  }

  lemma ClaimKeepsOwned(st: State, step: ClaimStep)
    requires Linked(st) && Owned(st.commands, st.openingSessions) && ClaimEnabled(st, step)
    ensures var next := ApplyClaim(st, step);
            Owned(next.commands, next.openingSessions)
  {
    match step
    case StartAcquire(k, c, id) => PhaseKeepsOwned(st.commands, st.openingSessions, k, Command(c, id, Acquire));
    case AcquireOnce(k, o) => AcquireKeepsOwned(st, k, o);
    case DisposalAwaited(k, ok) =>
      PhaseKeepsOwned(st.commands, st.openingSessions, k, st.commands[k].(phase := if ok then Acquire else Done));
    case OpeningAwaited(k) => ResumeKeepsOwned(st, k);
    case AttachNow(k) => PhaseKeepsOwned(st.commands, st.openingSessions, k, st.commands[k].(phase := Done));
  }

  lemma UseKeepsOwned(st: State, step: UseStep)
    requires Linked(st) && Owned(st.commands, st.openingSessions) && UseEnabled(st, step)
    ensures var next := ApplyUse(st, step);
            Owned(next.commands, next.openingSessions)
  {
    match step
    case StartOperation(k, c, id) =>
      var r := RequireAttached(st, c, id).value;
      PhaseKeepsOwned(st.commands, st.openingSessions, k, Command(c, id, Operate(r)));
    case EndOperation(k) => PhaseKeepsOwned(st.commands, st.openingSessions, k, st.commands[k].(phase := Done));
    case DetachNow(_, _) =>
    case RuntimeError(_) =>
    case MaybeDispose(_, _) =>
    case DisposeSettles(_) =>
  }

  /** The same commands and reservations. */
  predicate SameClaims(st: State, next: State) {
    next.commands == st.commands && next.openingSessions == st.openingSessions
  }

  lemma PeerKeepsClaims(st: State, step: PeerStep)
    requires PeerEnabled(st, step)
    ensures SameClaims(st, ApplyPeer(st, step))
  {
  }

  lemma OpenKeepsClaims(st: State, step: OpenStep)
    requires Linked(st) && OpenEnabled(st, step)
    ensures SameClaims(st, ApplyOpen(st, step))
  {
  }

  lemma StepKeepsOwned(st: State, step: Step)
    requires Linked(st) && Owned(st.commands, st.openingSessions) && Enabled(st, step)
    ensures Owned(Apply(st, step).commands, Apply(st, step).openingSessions)
  {
    match step
    case Claim(s) => ClaimKeepsOwned(st, s);
    case Use(s) => UseKeepsOwned(st, s);
    case Peer(s) => PeerKeepsClaims(st, s);
    case Open(s) => OpenKeepsClaims(st, s);
    case Close(_) =>
  }

  lemma {:induction false} RunKeepsOwned(states: seq<State>, steps: seq<Step>, i: nat)
    requires IsRun(states, steps) && i < |states|
    ensures Owned(states[i].commands, states[i].openingSessions)
  {
    if i > 0 {
      RunKeepsOwned(states, steps, i - 1);
      RunKeepsInv(states, steps, i - 1);
      assert StepAt(states, steps, i - 1);
      StepKeepsOwned(states[i - 1], steps[i - 1]);
    }
  }

  /** An id is reserved only while its opening has not settled, or while the command that started
      it has yet to take notice; that command then frees the id. */
  lemma ReservedIsReleased(states: seq<State>, steps: seq<Step>, i: nat, id: SessionId)
    requires IsRun(states, steps) && i < |states| && id in states[i].openingSessions
    ensures var st := states[i];
            var o := st.openingSessions[id];
            && o in st.openings
            && exists k :: Owns(st.commands, k, id, o) &&
                 (!Unsettled(st.openings[o].phase) ==>
                    && ClaimEnabled(st, OpeningAwaited(k))
                    && id !in ResumeAfterOpening(st, k).openingSessions)
  {
    RunKeepsInv(states, steps, i);
    RunKeepsOwned(states, steps, i);
    var st := states[i];
    var k :| Owns(st.commands, k, id, st.openingSessions[id]);
    assert PhaseLinked(st.commands[k], st.lives, st.openings);
  }
}
