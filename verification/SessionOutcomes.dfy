/** What becomes of commands and runtimes over a run of the session manager. */
module SessionOutcomes {
  import opened SessionState
  import opened SessionInvariant
  import opened SessionSafety

  // ---- Errors are final ----

  predicate IsTerminalLive(st: State, r: RuntimeId) {
    r in st.lives && st.lives[r].terminal
  }

  lemma OpenKeepsTerminal(st: State, step: OpenStep, r: RuntimeId)
    requires Inv(st) && OpenEnabled(st, step) && IsTerminalLive(st, r)
    ensures IsTerminalLive(ApplyOpen(st, step), r)
  {
    if step.SubscribeFails? || step.CheckSucceeds? {
      var q := st.openings[step.o].phase.runtime;
      assert Account(q, st.runtimes[q], st.openings[st.runtimes[q].opener].phase, st.lives, st.liveSessions, st.closing);
    }
  }

  lemma UseKeepsTerminal(st: State, step: UseStep, r: RuntimeId)
    requires Linked(st) && UseEnabled(st, step) && IsTerminalLive(st, r)
    ensures IsTerminalLive(ApplyUse(st, step), r)
  {
  }

  lemma PeerKeepsTerminal(st: State, step: PeerStep, r: RuntimeId)
    requires PeerEnabled(st, step) && IsTerminalLive(st, r)
    ensures IsTerminalLive(ApplyPeer(st, step), r)
  {
  }

  lemma ClaimKeepsTerminal(st: State, step: ClaimStep, r: RuntimeId)
    requires Linked(st) && ClaimEnabled(st, step) && IsTerminalLive(st, r)
    ensures IsTerminalLive(ApplyClaim(st, step), r)
  {
  }

  lemma CloseKeepsTerminal(st: State, step: CloseStep, r: RuntimeId)
    requires Linked(st) && CloseEnabled(st, step) && IsTerminalLive(st, r)
    ensures IsTerminalLive(ApplyClose(st, step), r)
  {
  }

  lemma StepKeepsTerminal(st: State, step: Step, r: RuntimeId)
    requires Inv(st) && Enabled(st, step) && IsTerminalLive(st, r)
    ensures IsTerminalLive(Apply(st, step), r)
  {
    match step
    case Peer(s) => PeerKeepsTerminal(st, s, r);
    case Claim(s) => ClaimKeepsTerminal(st, s, r);
    case Open(s) => OpenKeepsTerminal(st, s, r);
    case Use(s) => UseKeepsTerminal(st, s, r);
    case Close(s) => CloseKeepsTerminal(st, s, r);
  }

  lemma NextKeepsTerminal(states: seq<State>, steps: seq<Step>, i: nat, r: RuntimeId)
    requires IsRun(states, steps) && i < |steps| && IsTerminalLive(states[i], r)
    ensures IsTerminalLive(states[i + 1], r)
  {
    RunKeepsInv(states, steps, i);
    assert StepAt(states, steps, i);
    StepKeepsTerminal(states[i], steps[i], r);
  }

  lemma {:induction false} TerminalStays(states: seq<State>, steps: seq<Step>, i: nat, j: nat, r: RuntimeId)
    requires IsRun(states, steps) && i <= j < |states| && IsTerminalLive(states[i], r)
    ensures IsTerminalLive(states[j], r)
    decreases j
  {
    if i < j {
      TerminalStays(states, steps, i, j - 1, r);
      NextKeepsTerminal(states, steps, j - 1, r);
    }
  }

  /** Once a runtime has reported an error no operation starts on it, and nobody who asks for its session
      is sent to attach to it. */
  lemma NothingStartsAfterError(states: seq<State>, steps: seq<Step>, i: nat, j: nat, r: RuntimeId)
    requires IsRun(states, steps) && i < j < |steps| && steps[i] == Use(RuntimeError(r))
    ensures steps[j].Use? && steps[j].use.StartOperation? && steps[j].use.id in states[j].liveSessions ==>
              states[j].liveSessions[steps[j].use.id] != r
    ensures steps[j].Claim? && steps[j].claim.AcquireOnce? && steps[j].claim.k in states[j + 1].commands ==>
              states[j + 1].commands[steps[j].claim.k].phase != Attach(r)
  {
    assert StepAt(states, steps, i);
    TerminalStays(states, steps, i + 1, j, r);
    assert StepAt(states, steps, j);
    if steps[j].Claim? && steps[j].claim.AcquireOnce? {
      AcquireMeets(states[j], steps[j].claim.k, steps[j].claim.o);
    }
  }

  lemma AcquireMeets(st: State, k: CommandId, o: OpeningId)
    requires Linked(st) && k in st.commands
    ensures var next := AcquireIteration(st, k, o);
            && k in next.commands
            && (next.commands[k].phase.Attach? ==> !IsTerminalLive(st, next.commands[k].phase.runtime))
  {
  }

  // ---- How a command ends ----

  /** The command ends with this stretch: its session is terminating, the disposal it waited for failed,
      its opening failed, it has come to attach, or its operation is over. */
  predicate Ends(st: State, step: Step, k: CommandId)
    requires k in st.commands
  {
    var id := st.commands[k].id;
    match step
    case Claim(AcquireOnce(c, _)) =>
      c == k && id in st.liveSessions && IsTerminalLive(st, st.liveSessions[id])
    case Claim(DisposalAwaited(c, ok)) => c == k && !ok
    case Claim(OpeningAwaited(c)) =>
      && c == k && st.commands[k].phase.AwaitOpening? && st.commands[k].phase.opening in st.openings
      && st.openings[st.commands[k].phase.opening].phase.Failed?
    case Claim(AttachNow(c)) => c == k
    case Use(EndOperation(c)) => c == k
    case _ => false
  }

  lemma AcquireEndsIff(st: State, k: CommandId, o: OpeningId)
    requires Linked(st) && k in st.commands
    ensures var next := AcquireIteration(st, k, o);
            && next.commands.Keys == st.commands.Keys
            && (forall m :: m in st.commands && m != k ==> next.commands[m] == st.commands[m])
            && (next.commands[k].phase == Done <==> Ends(st, Claim(AcquireOnce(k, o)), k))
  {
    AcquireMoves(st, k, o);
    PhaseIsDone(st, st.commands[k].id, o);
  }

  lemma AcquireMoves(st: State, k: CommandId, o: OpeningId)
    requires Linked(st) && k in st.commands
    ensures AcquireIteration(st, k, o).commands ==
            st.commands[k := st.commands[k].(phase := AcquirePhase(st, st.commands[k].id, o))]
  {
  }

  lemma PhaseIsDone(st: State, id: SessionId, o: OpeningId)
    requires Linked(st)
    ensures AcquirePhase(st, id, o) == Done <==> id in st.liveSessions && IsTerminalLive(st, st.liveSessions[id])
  {
  }

  lemma ClaimEndsIff(st: State, step: ClaimStep, k: CommandId)
    requires Linked(st) && ClaimEnabled(st, step) && k in st.commands && st.commands[k].phase != Done
    ensures k in ApplyClaim(st, step).commands
    ensures ApplyClaim(st, step).commands[k].phase == Done <==> Ends(st, Claim(step), k)
  {
    match step
    case StartAcquire(_, _, _) =>
    case AcquireOnce(m, o) => AcquireEndsIff(st, m, o);
    case DisposalAwaited(m, _) =>
    case OpeningAwaited(m) => ResumesAs(st, m);
    case AttachNow(m) => AttachEnds(st, m);
  }

  lemma AttachEnds(st: State, k: CommandId)
    requires Linked(st) && ClaimEnabled(st, AttachNow(k))
    ensures ApplyClaim(st, AttachNow(k)).commands == st.commands[k := st.commands[k].(phase := Done)]
  {
    assert PhaseLinked(st.commands[k], st.lives, st.openings);
  }

  lemma UseEndsIff(st: State, step: UseStep, k: CommandId)
    requires Linked(st) && UseEnabled(st, step) && k in st.commands && st.commands[k].phase != Done
    ensures k in ApplyUse(st, step).commands
    ensures ApplyUse(st, step).commands[k].phase == Done <==> Ends(st, Use(step), k)
  {
    match step
    case DetachNow(c, id) => DetachKeepsCommands(st, c, id);
    case StartOperation(_, _, _) =>
    case EndOperation(_) =>
    case RuntimeError(_) =>
    case MaybeDispose(_, _) =>
    case DisposeSettles(_) =>
  }

  lemma DetachKeepsCommands(st: State, c: ConnectionId, id: SessionId)
    requires c in st.connections && forall s :: s in st.liveSessions ==> st.liveSessions[s] in st.lives
    ensures DetachConnection(st, c, id).commands == st.commands
  {
  }

  lemma PeerKeepsTables(st: State, step: PeerStep)
    requires PeerEnabled(st, step)
    ensures ApplyPeer(st, step).commands == st.commands && ApplyPeer(st, step).openings == st.openings
    ensures ApplyPeer(st, step).closing == st.closing
  {
  }

  lemma OpenKeepsCommands(st: State, step: OpenStep)
    requires Linked(st) && OpenEnabled(st, step)
    ensures ApplyOpen(st, step).commands == st.commands && ApplyOpen(st, step).closing == st.closing
  {
  }

  lemma CloseKeepsTables(st: State, step: CloseStep)
    requires Linked(st) && CloseEnabled(st, step)
    ensures ApplyClose(st, step).commands == st.commands && ApplyClose(st, step).openings == st.openings
  {
  }

  /** A command ends for exactly these reasons; in particular whoever waits for an opening that succeeds
      goes on. */
  lemma CommandEndsIff(states: seq<State>, steps: seq<Step>, i: nat, k: CommandId)
    requires IsRun(states, steps) && i < |steps| && k in states[i].commands && states[i].commands[k].phase != Done
    ensures k in states[i + 1].commands
    ensures states[i + 1].commands[k].phase == Done <==> Ends(states[i], steps[i], k)
  {
    assert StepAt(states, steps, i);
    match steps[i]
    case Peer(s) => PeerKeepsTables(states[i], s);
    case Claim(s) => ClaimEndsIff(states[i], s, k);
    case Open(s) => OpenKeepsCommands(states[i], s);
    case Use(s) => UseEndsIff(states[i], s, k);
    case Close(s) => CloseKeepsTables(states[i], s);
  }

  // ---- Sharing an opening ----

  predicate HasSettled(st: State, o: OpeningId) {
    o in st.openings && (st.openings[o].phase.Opened? || st.openings[o].phase.Failed?)
  }

  lemma StepKeepsSettled(st: State, step: Step, o: OpeningId)
    requires Linked(st) && Enabled(st, step) && HasSettled(st, o)
    ensures o in Apply(st, step).openings && Apply(st, step).openings[o] == st.openings[o]
  {
    match step
    case Peer(s) => PeerKeepsTables(st, s);
    case Claim(s) => ClaimKeepsSettled(st, s, o);
    case Open(s) => OpenKeepsSettled(st, s, o);
    case Use(s) => UseKeepsOpenings(st, s);
    case Close(s) => CloseKeepsTables(st, s);
  }

  lemma OpenKeepsSettled(st: State, step: OpenStep, o: OpeningId)
    requires Linked(st) && OpenEnabled(st, step) && HasSettled(st, o)
    ensures o in ApplyOpen(st, step).openings && ApplyOpen(st, step).openings[o] == st.openings[o]
  {
  }

  lemma UseKeepsOpenings(st: State, step: UseStep)
    requires Linked(st) && UseEnabled(st, step)
    ensures ApplyUse(st, step).openings == st.openings
  {
  }

  lemma ClaimKeepsSettled(st: State, step: ClaimStep, o: OpeningId)
    requires Linked(st) && ClaimEnabled(st, step) && HasSettled(st, o)
    ensures o in ApplyClaim(st, step).openings && ApplyClaim(st, step).openings[o] == st.openings[o]
  {
    match step
    case StartAcquire(_, _, _) =>
    case AcquireOnce(k, p) => AcquireKeepsOpenings(st, k, p);
    case DisposalAwaited(k, ok) =>
    case OpeningAwaited(k) => ResumesAs(st, k);
    case AttachNow(k) =>
  }

  lemma AcquireKeepsOpenings(st: State, k: CommandId, o: OpeningId)
    requires Linked(st) && k in st.commands
    ensures forall p :: p in st.openings && p != o ==>
              p in AcquireIteration(st, k, o).openings && AcquireIteration(st, k, o).openings[p] == st.openings[p]
  {
  }

  lemma {:induction false} SettledStays(states: seq<State>, steps: seq<Step>, i: nat, j: nat, o: OpeningId)
    requires IsRun(states, steps) && i <= j < |states| && HasSettled(states[i], o)
    ensures o in states[j].openings && states[j].openings[o] == states[i].openings[o]
    decreases j
  {
    if i < j {
      SettledStays(states, steps, i, j - 1, o);
      assert StepAt(states, steps, j - 1);
      StepKeepsSettled(states[j - 1], steps[j - 1], o);
    }
  }

  lemma ResumesAs(st: State, k: CommandId)
    requires Linked(st) && ClaimEnabled(st, OpeningAwaited(k))
    ensures var o, next := st.commands[k].phase.opening, ResumeAfterOpening(st, k);
            && k in next.commands
            && next.commands[k] == st.commands[k].(
                 phase := if st.openings[o].phase.Opened? then Attach(st.openings[o].phase.runtime) else Done)
            && next.commands == st.commands[k := next.commands[k]] && next.openings == st.openings
  {
  }

  /** All commands that waited for one opening go on in the same way: to attach to its one runtime, or to
      fail. */
  lemma JoinersShare(states: seq<State>, steps: seq<Step>, i: nat, j: nat, k: CommandId, m: CommandId)
    requires IsRun(states, steps) && i <= j < |steps|
    requires steps[i] == Claim(OpeningAwaited(k)) && steps[j] == Claim(OpeningAwaited(m))
    requires k in states[i].commands && states[i].commands[k].phase.AwaitOpening?
    requires m in states[j].commands && states[j].commands[m].phase.AwaitOpening?
    requires states[i].commands[k].phase.opening == states[j].commands[m].phase.opening
    ensures k in states[i + 1].commands && m in states[j + 1].commands
    ensures states[i + 1].commands[k].phase == states[j + 1].commands[m].phase
    ensures states[i + 1].commands[k].phase.Attach? <==>
            states[i].commands[k].phase.opening in states[i].openings &&
            states[i].openings[states[i].commands[k].phase.opening].phase.Opened?
  {
    assert StepAt(states, steps, i) && StepAt(states, steps, j);
    SettledStays(states, steps, i, j, states[i].commands[k].phase.opening);
    ResumesAs(states[i], k);
    ResumesAs(states[j], m);
  }

  // ---- Beginnings ----

  /** A create or attach command begins by looking for its session. */
  lemma CommandBegins(states: seq<State>, steps: seq<Step>, i: nat, k: CommandId, c: ConnectionId, id: SessionId)
    requires IsRun(states, steps) && i < |steps| && steps[i] == Claim(StartAcquire(k, c, id))
    ensures k !in states[i].commands && k in states[i + 1].commands && states[i + 1].commands[k] == Command(c, id, Acquire)
  {
    assert StepAt(states, steps, i);
  }

  lemma StepCloses(st: State, step: Step)
    requires Linked(st) && Enabled(st, step)
    ensures Apply(st, step).closing <==> st.closing || step == Close(BeginClose)
  {
    match step
    case Peer(s) => PeerKeepsTables(st, s);
    case Claim(s) => ClaimKeepsClosing(st, s);
    case Open(s) => OpenKeepsCommands(st, s);
    case Use(s) => UseKeepsClosing(st, s);
    case Close(s) =>
  }

  lemma ClaimKeepsClosing(st: State, step: ClaimStep)
    requires Linked(st) && ClaimEnabled(st, step)
    ensures ApplyClaim(st, step).closing == st.closing
  {
    match step
    case StartAcquire(_, _, _) =>
    case AcquireOnce(_, _) =>
    case DisposalAwaited(_, _) =>
    case OpeningAwaited(_) =>
    case AttachNow(_) =>
  }

  lemma UseKeepsClosing(st: State, step: UseStep)
    requires Linked(st) && UseEnabled(st, step)
    ensures ApplyUse(st, step).closing == st.closing
  {
  }

  /** The server is closing exactly from when its close began. */
  lemma {:induction false} ClosingIff(states: seq<State>, steps: seq<Step>, i: nat)
    requires IsRun(states, steps) && i < |states|
    ensures states[i].closing <==> exists j :: 0 <= j < i && steps[j] == Close(BeginClose)
  {
    if i > 0 {
      ClosingIff(states, steps, i - 1);
      assert StepAt(states, steps, i - 1);
      StepCloses(states[i - 1], steps[i - 1]);
    }
  }
}
