/** Publication of one provider's refreshed models: a store entry and the list in memory, kept in
    step while refreshes supersede one another. Each step is one stretch between awaits. */
module Catalog {
  import opened Wrappers

  type Generation = nat
  type JobId = nat
  type Models = seq<Model>

  datatype Model = Model(id: string, revision: nat)

  /** What a publication does to the store before it updates memory. */
  datatype Persist = Keep | Delete | Write(entry: Models)

  /** `Waiting` for the previous publication; `Mutating` the store; `Stored` once the store has
      answered; `Settled` with whether the update ran. */
  datatype Phase = Waiting | Mutating | Stored | Settled(published: bool)

  /** A publication. `previous` is the chain entry it was queued behind, if there was one. */
  datatype Job = Job(
    generation: Generation, persist: Persist, update: Option<Models>, previous: Option<JobId>, phase: Phase)

  /** An update of the list in memory, as it happened. */
  datatype Update = Update(job: JobId, generation: Generation)

  datatype State = State(
    generation: Generation, controller: Option<Generation>, aborted: set<Generation>,
    jobs: seq<Job>, tail: Option<JobId>,
    store: Option<Models>, memory: Models, updates: seq<Update>)

  datatype Step =
    | Supersede
    | BeginRefresh
    | AbortRefresh(g: Generation)
    | RefreshSettles(g: Generation)
    | Publish(g: Generation, persist: Persist, update: Option<Models>)
    | Start(j: JobId)
    | StoreAnswers(j: JobId)
    | StoreRejects(j: JobId, applied: bool)
    | Resume(j: JobId)
    | ForgetTail

  function Initial(store: Option<Models>): State {
    State(0, None, {}, [], None, store, [], [])
  }

  /** A refresh of this generation may still change anything. */
  predicate Current(st: State, g: Generation) {
    g == st.generation && g !in st.aborted
  }

  function SupersedeRefresh(st: State): State {
    st.(generation := st.generation + 1, controller := None,
        aborted := if st.controller.Some? then st.aborted + {st.controller.value} else st.aborted)
  }

  function SetPhase(st: State, j: JobId, phase: Phase): State
    requires j < |st.jobs|
  {
    st.(jobs := st.jobs[j := st.jobs[j].(phase := phase)])
  }

  /** The store after a publication's mutation. */
  function StoreAfter(store: Option<Models>, persist: Persist): Option<Models> {
    match persist
    case Keep => store
    case Delete => None
    case Write(entry) => Some(entry)
  }

  /** The last check of a publication, and its update of memory. */
  function Finish(st: State, j: JobId): State
    requires j < |st.jobs|
  {
    var job := st.jobs[j];
    if !Current(st, job.generation) then SetPhase(st, j, Settled(false))
    else
      SetPhase(st, j, Settled(true)).(
        memory := if job.update.Some? then job.update.value else st.memory,
        updates := if job.update.Some? then st.updates + [Update(j, job.generation)] else st.updates)
  }

  predicate MayStart(st: State, j: JobId) {
    && j < |st.jobs| && st.jobs[j].phase.Waiting?
    && (st.jobs[j].previous.None?
        || (st.jobs[j].previous.value < |st.jobs| && st.jobs[st.jobs[j].previous.value].phase.Settled?))
  }

  predicate Enabled(st: State, step: Step) {
    match step
    case Supersede => true
    case BeginRefresh => true
    case AbortRefresh(g) => g <= st.generation
    case RefreshSettles(g) => true
    case Publish(g, _, _) => g <= st.generation
    case Start(j) => MayStart(st, j)
    case StoreAnswers(j) => j < |st.jobs| && st.jobs[j].phase.Mutating?
    case StoreRejects(j, _) => j < |st.jobs| && st.jobs[j].phase.Mutating?
    case Resume(j) => j < |st.jobs| && st.jobs[j].phase.Stored?
    case ForgetTail => st.tail.Some? && st.tail.value < |st.jobs| && st.jobs[st.tail.value].phase.Settled?
  }

  function Apply(st: State, step: Step): State
    requires Enabled(st, step)
  {
    match step
    case Supersede => SupersedeRefresh(st)
    case BeginRefresh =>
      var next := SupersedeRefresh(st);
      next.(controller := Some(next.generation))
    case AbortRefresh(g) => st.(aborted := st.aborted + {g})
    case RefreshSettles(g) => if st.controller == Some(g) then st.(controller := None) else st
    case Publish(g, persist, update) =>
      st.(jobs := st.jobs + [Job(g, persist, update, st.tail, Waiting)], tail := Some(|st.jobs|))
    case Start(j) =>
      if !Current(st, st.jobs[j].generation) then SetPhase(st, j, Settled(false))
      else if st.jobs[j].persist.Keep? then Finish(st, j)
      else SetPhase(st, j, Mutating)
    case StoreAnswers(j) => SetPhase(st, j, Stored).(store := StoreAfter(st.store, st.jobs[j].persist))
    case StoreRejects(j, applied) =>
      SetPhase(st, j, Settled(false)).(
        store := if applied then StoreAfter(st.store, st.jobs[j].persist) else st.store)
    case Resume(j) => Finish(st, j)
    case ForgetTail => st.(tail := None)
  }

  ghost predicate StepAt(states: seq<State>, steps: seq<Step>, i: nat) {
    i < |steps| && |states| == |steps| + 1 && Follows(states[i], steps[i], states[i + 1])
  }

  ghost predicate IsRun(states: seq<State>, steps: seq<Step>) {
    && |states| == |steps| + 1
    && states[0] == Initial(states[0].store)
    && forall i :: 0 <= i < |steps| ==> StepAt(states, steps, i)
  }

  ghost predicate Follows(st: State, step: Step, next: State) {
    Enabled(st, step) && next == Apply(st, step)
  }

  // ---- Every run ----

  ghost predicate AllSettled(jobs: seq<Job>, n: nat)
    requires n <= |jobs|
  {
    forall k :: 0 <= k < n ==> jobs[k].phase.Settled?
  }

  /** The chain is kept in publication order even though its entry is dropped when it settles: with
      no entry every publication has settled, and a publication that has started has only settled
      ones before it. */
  ghost predicate Chained(jobs: seq<Job>, tail: Option<JobId>) {
    && (tail.Some? ==> tail.value + 1 == |jobs|)
    && (tail.None? ==> AllSettled(jobs, |jobs|))
    && (forall j :: 0 <= j < |jobs| && jobs[j].previous.None? ==> AllSettled(jobs, j))
    && (forall j :: 0 <= j < |jobs| && jobs[j].previous.Some? ==> jobs[j].previous.value + 1 == j)
    && (forall j :: 0 <= j < |jobs| && !jobs[j].phase.Waiting? ==> AllSettled(jobs, j))
  }

  ghost predicate Inv(st: State) {
    && Chained(st.jobs, st.tail)
    && (forall j :: 0 <= j < |st.jobs| && st.jobs[j].phase.Stored? ==>
          !st.jobs[j].persist.Keep? && st.store == StoreAfter(st.store, st.jobs[j].persist))
    && (forall j :: 0 <= j < |st.jobs| && st.jobs[j].phase.Mutating? ==> !st.jobs[j].persist.Keep?)
    && (forall j :: 0 <= j < |st.jobs| ==> st.jobs[j].generation <= st.generation)
    && (st.controller.Some? ==> st.controller.value <= st.generation)
    && (forall g: nat :: g in st.aborted ==> g <= st.generation)
    && (forall i :: 0 <= i < |st.updates| ==> st.updates[i].generation <= st.generation)
    && (forall i, k :: 0 <= i < k < |st.updates| ==> st.updates[i].generation <= st.updates[k].generation)
    && (forall i :: 0 <= i < |st.updates| ==>
          st.updates[i].job < |st.jobs| && st.jobs[st.updates[i].job].phase.Settled?)
    && (forall i, k :: 0 <= i < k < |st.updates| ==> st.updates[i].job < st.updates[k].job)
  }

  /** Moving one publication on keeps the chain. */
  lemma PhaseKeepsChain(jobs: seq<Job>, tail: Option<JobId>, j: JobId, phase: Phase)
    requires Chained(jobs, tail) && j < |jobs| && !phase.Waiting? && !jobs[j].phase.Settled?
    requires jobs[j].phase.Waiting? ==> AllSettled(jobs, j)
    ensures Chained(jobs[j := jobs[j].(phase := phase)], tail)
  {
    forall k | 0 <= k < |jobs| && AllSettled(jobs, k)
      ensures AllSettled(jobs[j := jobs[j].(phase := phase)], k)
    {
      assert j >= k;
    }
  }

  lemma StartedAfterAll(st: State, j: JobId)
    requires Chained(st.jobs, st.tail) && MayStart(st, j)
    ensures AllSettled(st.jobs, j)
  {
    if st.jobs[j].previous.Some? {
      assert AllSettled(st.jobs, j - 1);
    }
  }

  lemma PublishKeepsChain(jobs: seq<Job>, tail: Option<JobId>, job: Job)
    requires Chained(jobs, tail) && job.previous == tail && job.phase.Waiting?
    ensures Chained(jobs + [job], Some(|jobs|))
  {
    forall k | 0 <= k <= |jobs| && AllSettled(jobs, k)
      ensures AllSettled(jobs + [job], k)
    {
    }
  }

  /** While one publication is about to move, no other is under way and no later one has updated. */
  lemma OnlyActive(st: State, j: JobId)
    requires Inv(st) && j < |st.jobs| && AllSettled(st.jobs, j) && !st.jobs[j].phase.Settled?
    ensures forall k :: 0 <= k < |st.jobs| && k != j ==> st.jobs[k].phase.Settled? || st.jobs[k].phase.Waiting?
    ensures forall i :: 0 <= i < |st.updates| ==> st.updates[i].job < j
  {
    forall k | j < k < |st.jobs|
      ensures st.jobs[k].phase.Waiting?
    {
      assert !AllSettled(st.jobs, k);
    }
  }

  /** A publication that has not settled moves on without updating memory. */
  lemma MoveKeepsInv(st: State, j: JobId, phase: Phase, store: Option<Models>)
    requires Inv(st) && j < |st.jobs| && AllSettled(st.jobs, j) && !st.jobs[j].phase.Settled? && !phase.Waiting?
    requires phase.Mutating? || phase.Stored? ==> !st.jobs[j].persist.Keep?
    requires phase.Stored? ==> store == StoreAfter(store, st.jobs[j].persist)
    ensures Inv(SetPhase(st, j, phase).(store := store))
  {
    PhaseKeepsChain(st.jobs, st.tail, j, phase);
    OnlyActive(st, j);
  }

  /** The last check of a publication keeps the invariant, whether it updates memory or not. */
  lemma FinishKeepsInv(st: State, j: JobId)
    requires Inv(st) && j < |st.jobs| && AllSettled(st.jobs, j) && !st.jobs[j].phase.Settled?
    ensures Inv(Finish(st, j))
  {
    OnlyActive(st, j);
    MoveKeepsInv(st, j, Finish(st, j).jobs[j].phase, st.store);
  }

  lemma PublishKeepsInv(st: State, job: Job)
    requires Inv(st) && job.previous == st.tail && job.phase.Waiting? && job.generation <= st.generation
    ensures Inv(st.(jobs := st.jobs + [job], tail := Some(|st.jobs|)))
  {
    PublishKeepsChain(st.jobs, st.tail, job);
  }

  lemma StepKeepsInv(st: State, step: Step)
    requires Inv(st) && Enabled(st, step)
    ensures Inv(Apply(st, step))
  {
    match step
    case Publish(g, persist, update) => PublishKeepsInv(st, Job(g, persist, update, st.tail, Waiting));
    case Start(j) =>
      StartedAfterAll(st, j);
      if Current(st, st.jobs[j].generation) && st.jobs[j].persist.Keep? {
        FinishKeepsInv(st, j);
      } else {
        MoveKeepsInv(st, j, Apply(st, step).jobs[j].phase, st.store);
      }
    case StoreAnswers(j) => MoveKeepsInv(st, j, Stored, StoreAfter(st.store, st.jobs[j].persist));
    case StoreRejects(j, _) => MoveKeepsInv(st, j, Settled(false), Apply(st, step).store);
    case Resume(j) => FinishKeepsInv(st, j);
    case ForgetTail => assert AllSettled(st.jobs, st.tail.value);
    case _ =>
  }

  lemma {:induction false} RunKeepsInv(states: seq<State>, steps: seq<Step>, i: nat)
    requires IsRun(states, steps) && i < |states|
    ensures Inv(states[i])
  {
    if i > 0 {
      RunKeepsInv(states, steps, i - 1);
      assert StepAt(states, steps, i - 1);
      StepKeepsInv(states[i - 1], steps[i - 1]);
    }
  }

  predicate UnderWay(job: Job) {
    job.phase.Mutating? || job.phase.Stored?
  }

  /** Store mutations never overlap, and they happen in publication order: while one is under way
      every earlier publication has settled and no later one has started. */
  lemma MutationsNeverOverlap(states: seq<State>, steps: seq<Step>, i: nat, j: JobId, k: JobId)
    requires IsRun(states, steps) && i < |states| && j < |states[i].jobs| && k < |states[i].jobs|
    requires UnderWay(states[i].jobs[j]) && k != j
    ensures if k < j then states[i].jobs[k].phase.Settled? else states[i].jobs[k].phase.Waiting?
  {
    RunKeepsInv(states, steps, i);
    assert AllSettled(states[i].jobs, j);
    OnlyActive(states[i], j);
    if k > j {
      assert !AllSettled(states[i].jobs, k);
    }
  }

  /** Updates of memory happen in publication order and in non-decreasing generation order. */
  lemma UpdatesInOrder(states: seq<State>, steps: seq<Step>, i: nat, a: nat, b: nat)
    requires IsRun(states, steps) && i < |states| && a < b < |states[i].updates|
    ensures states[i].updates[a].generation <= states[i].updates[b].generation
    ensures states[i].updates[a].job < states[i].updates[b].job
  {
    RunKeepsInv(states, steps, i);
  }

  /** The instant memory changes: the refresh is the current one and is not aborted, the change is
      its publication's, and a persisting publication finds exactly its own entry in the store. */
  lemma UpdateIsCurrentAndStored(states: seq<State>, steps: seq<Step>, i: nat)
    requires IsRun(states, steps) && i < |steps| && states[i + 1].updates != states[i].updates
    ensures var st, next := states[i], states[i + 1];
            exists j :: 0 <= j < |st.jobs| &&
              var job := st.jobs[j];
              && next.updates == st.updates + [Update(j, job.generation)]
              && Current(st, job.generation)
              && job.update == Some(next.memory)
              && (job.persist.Write? ==> st.store == Some(job.persist.entry))
              && (job.persist.Delete? ==> st.store == None)
              && next.store == st.store
  {
    RunKeepsInv(states, steps, i);
    var st, step := states[i], steps[i];
    assert StepAt(states, steps, i);
    match step
    case Start(j) =>
      assert st.jobs[j].persist.Keep? && Current(st, st.jobs[j].generation);
      assert states[i + 1].updates == st.updates + [Update(j, st.jobs[j].generation)];
    case Resume(j) =>
      assert st.store == StoreAfter(st.store, st.jobs[j].persist);
      assert states[i + 1].updates == st.updates + [Update(j, st.jobs[j].generation)];
  }

  /** Memory changes only through a recorded update. */
  lemma MemoryChangesOnlyByUpdate(states: seq<State>, steps: seq<Step>, i: nat)
    requires IsRun(states, steps) && i < |steps| && states[i + 1].memory != states[i].memory
    ensures states[i + 1].updates != states[i].updates
  {
    assert StepAt(states, steps, i);
  }

  /** One stretch never lowers the generation and never revives an aborted refresh. */
  lemma {:induction false} Superseded(states: seq<State>, steps: seq<Step>, i: nat, j: nat, g: Generation)
    requires IsRun(states, steps) && i <= j < |states|
    requires g <= states[i].generation && !Current(states[i], g)
    ensures g <= states[j].generation && !Current(states[j], g)
    decreases j
  {
    if i < j {
      Superseded(states, steps, i, j - 1, g);
      assert StepAt(states, steps, j - 1);
    }
  }

  /** Once a refresh is superseded or aborted, nothing it publishes ever reaches memory. */
  lemma NoUpdateOnceSuperseded(states: seq<State>, steps: seq<Step>, i: nat, j: nat, g: Generation)
    requires IsRun(states, steps) && i <= j < |steps|
    requires g <= states[i].generation && !Current(states[i], g)
    requires states[j + 1].updates != states[j].updates
    ensures |states[j + 1].updates| > 0 && states[j + 1].updates[|states[j + 1].updates| - 1].generation != g
  {
    Superseded(states, steps, i, j, g);
    UpdateIsCurrentAndStored(states, steps, j);
  }

  // ---- Which refresh is current ----

  predicate Supersedes(step: Step) {
    step.Supersede? || step.BeginRefresh?
  }

  function Supersessions(steps: seq<Step>): nat {
    if steps == [] then 0
    else Supersessions(steps[..|steps| - 1]) + if Supersedes(steps[|steps| - 1]) then 1 else 0
  }

  /** The refresh begun at `j` has not settled and nothing has superseded it. */
  ghost predicate RunningSince(states: seq<State>, steps: seq<Step>, i: nat, g: Generation, j: nat) {
    && |states| == |steps| + 1 && j < i <= |steps| && steps[j].BeginRefresh? && states[j + 1].generation == g
    && forall k :: j < k < i ==> !Supersedes(steps[k]) && steps[k] != RefreshSettles(g)
  }

  lemma StepController(st: State, step: Step, g: Generation)
    requires Enabled(st, step)
    ensures Apply(st, step).generation == st.generation + if Supersedes(step) then 1 else 0
    ensures Apply(st, step).controller == Some(g) <==>
            || (step.BeginRefresh? && g == Apply(st, step).generation)
            || (st.controller == Some(g) && !Supersedes(step) && step != RefreshSettles(g))
    ensures g in Apply(st, step).aborted <==>
            g in st.aborted || step == AbortRefresh(g) || (Supersedes(step) && st.controller == Some(g))
  {
  }

  /** The generation counts what superseded a refresh; the one that can be aborted is the one last begun,
      until it settles or is superseded. */
  lemma {:induction false} ControllerIff(states: seq<State>, steps: seq<Step>, i: nat, g: Generation)
    requires IsRun(states, steps) && i < |states|
    ensures states[i].generation == Supersessions(steps[..i])
    ensures states[i].controller == Some(g) <==> exists j :: RunningSince(states, steps, i, g, j)
  {
    if i > 0 {
      var n := i - 1;
      ControllerIff(states, steps, n, g);
      assert StepAt(states, steps, n);
      assert steps[..i][..n] == steps[..n];
      StepController(states[n], steps[n], g);
      RunningNext(states, steps, n, i, g);
    }
  }

  lemma RunningNext(states: seq<State>, steps: seq<Step>, n: nat, i: nat, g: Generation)
    requires |states| == |steps| + 1 && i == n + 1 <= |steps|
    ensures (exists j :: RunningSince(states, steps, i, g, j)) <==>
            || (steps[n].BeginRefresh? && states[i].generation == g)
            || ((exists j :: RunningSince(states, steps, n, g, j)) && !Supersedes(steps[n]) && steps[n] != RefreshSettles(g))
  {
    if steps[n].BeginRefresh? && states[i].generation == g {
      assert RunningSince(states, steps, i, g, n);
    }
    if j :| RunningSince(states, steps, n, g, j) && !Supersedes(steps[n]) && steps[n] != RefreshSettles(g) {
      assert RunningSince(states, steps, i, g, j);
    }
    if j: nat :| RunningSince(states, steps, i, g, j) && j < n {
      assert RunningSince(states, steps, n, g, j);
    }
  }

  /** A refresh is aborted exactly if its signal was, or it was superseded while it ran. */
  lemma {:induction false} AbortedIff(states: seq<State>, steps: seq<Step>, i: nat, g: Generation)
    requires IsRun(states, steps) && i < |states|
    ensures g in states[i].aborted <==>
            exists k :: 0 <= k < i && (steps[k] == AbortRefresh(g) ||
                                       (Supersedes(steps[k]) && exists j :: RunningSince(states, steps, k, g, j)))
  {
    if i > 0 {
      var n := i - 1;
      AbortedIff(states, steps, n, g);
      ControllerIff(states, steps, n, g);
      assert StepAt(states, steps, n);
      StepController(states[n], steps[n], g);
    }
  }

  /** The store is written exactly by the publications whose mutation it carries out. */
  lemma StoreIsWritten(states: seq<State>, steps: seq<Step>, i: nat)
    requires IsRun(states, steps) && i < |steps|
    ensures match steps[i]
            case StoreAnswers(j) =>
              j < |states[i].jobs| && states[i + 1].store == StoreAfter(states[i].store, states[i].jobs[j].persist)
            case StoreRejects(j, applied) =>
              && j < |states[i].jobs| && j < |states[i + 1].jobs| && states[i + 1].jobs[j].phase == Settled(false)
              && states[i + 1].store ==
                 if applied then StoreAfter(states[i].store, states[i].jobs[j].persist) else states[i].store
            case _ => states[i + 1].store == states[i].store
  {
    assert StepAt(states, steps, i);
  }
}
