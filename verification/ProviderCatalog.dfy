/** One provider's refresh tables as the program changes them, and the list of models it offers: the
    baseline overlaid with what the last publication put in memory. */
module ProviderCatalog {
  import opened Wrappers
  import opened Catalog

  // ---- The overlay ----

  /** The first entry with this id. */
  function Find(models: Models, id: string): Option<Model> {
    if models == [] then None else if models[0].id == id then Some(models[0]) else Find(models[1..], id)
  }

  function FindIndex(models: Models, id: string): (r: Option<nat>)
    ensures r.Some? ==> r.value < |models| && models[r.value].id == id && Find(models, id) == Some(models[r.value])
    ensures r.Some? ==> forall i :: 0 <= i < r.value ==> models[i].id != id
    ensures r.None? ==> Find(models, id).None? && forall i :: 0 <= i < |models| ==> models[i].id != id
  {
    if models == [] then None
    else if models[0].id == id then Some(0)
    else match FindIndex(models[1..], id) case None => None case Some(i) => Some(i + 1)
  }

  /** The last entry with this id. */
  function FindLast(models: Models, id: string): Option<Model> {
    if models == [] then None
    else if models[|models| - 1].id == id then Some(models[|models| - 1])
    else FindLast(models[..|models| - 1], id)
  }

  /** One model laid over a list: it replaces the entry with its id, or goes to the end. */
  function Overlay(merged: Models, model: Model): Models {
    match FindIndex(merged, model.id)
    case Some(i) => merged[i := model]
    case None => merged + [model]
  }

  function Merge(baseline: Models, dynamic: Models): Models {
    if dynamic == [] then baseline
    else Overlay(Merge(baseline, dynamic[..|dynamic| - 1]), dynamic[|dynamic| - 1])
  }

  lemma {:induction false} FindInUpdate(models: Models, i: nat, model: Model, id: string)
    requires i < |models| && models[i].id == model.id && forall k :: 0 <= k < i ==> models[k].id != model.id
    ensures Find(models[i := model], id) == if id == model.id then Some(model) else Find(models, id)
    decreases |models|
  {
    if i > 0 {
      FindInUpdate(models[1..], i - 1, model, id);
      assert models[i := model][1..] == models[1..][i - 1 := model];
    } else {
      assert models[i := model][1..] == models[1..];
    }
  }

  lemma {:induction false} FindInAppend(models: Models, model: Model, id: string)
    ensures Find(models + [model], id) ==
            if Find(models, id).Some? then Find(models, id) else if model.id == id then Some(model) else None
    decreases |models|
  {
    if models != [] {
      FindInAppend(models[1..], model, id);
      assert (models + [model])[1..] == models[1..] + [model];
    }
  }

  lemma FindInOverlay(merged: Models, model: Model, id: string)
    ensures Find(Overlay(merged, model), id) == if id == model.id then Some(model) else Find(merged, id)
  {
    match FindIndex(merged, model.id)
    case Some(i) => FindInUpdate(merged, i, model, id);
    case None => FindInAppend(merged, model, id);
  }

  /** Looking an id up in the merged list finds the last dynamic model with it, or else the baseline
      one. */
  lemma {:induction false} MergedLookup(baseline: Models, dynamic: Models, id: string)
    ensures Find(Merge(baseline, dynamic), id) ==
            if FindLast(dynamic, id).Some? then FindLast(dynamic, id) else Find(baseline, id)
    decreases |dynamic|
  {
    if dynamic != [] {
      MergedLookup(baseline, dynamic[..|dynamic| - 1], id);
      FindInOverlay(Merge(baseline, dynamic[..|dynamic| - 1]), dynamic[|dynamic| - 1], id);
    }
  }

  /** The baseline keeps its length and order of ids at the front, and the models after it have ids
      that occur nowhere before them. */
  lemma {:induction false} MergedOrder(baseline: Models, dynamic: Models)
    ensures var merged := Merge(baseline, dynamic);
            && |baseline| <= |merged|
            && (forall i :: 0 <= i < |baseline| ==> merged[i].id == baseline[i].id)
            && (forall i, k :: |baseline| <= i < |merged| && 0 <= k < i ==> merged[k].id != merged[i].id)
    decreases |dynamic|
  {
    if dynamic != [] {
      MergedOrder(baseline, dynamic[..|dynamic| - 1]);
    }
  }

  lemma {:induction false} FindIndexInFront(models: Models, more: Models, id: string)
    ensures FindIndex(models + more, id) ==
            if FindIndex(models, id).Some? then FindIndex(models, id)
            else match FindIndex(more, id) case None => None case Some(i) => Some(|models| + i)
  {
    if models == [] {
      assert models + more == more;
    } else {
      assert (models + more)[1..] == models[1..] + more;
      FindIndexInFront(models[1..], more, id);
    }
  }

  /** Where a new model stands in the dynamic list. */
  predicate ComesBefore(dynamic: Models, a: Model, b: Model) {
    && FindIndex(dynamic, a.id).Some? && FindIndex(dynamic, b.id).Some?
    && FindIndex(dynamic, a.id).value < FindIndex(dynamic, b.id).value
  }

  /** The models from `n` on come in the order in which their ids first occur in the dynamic list. */
  predicate NewInOrder(merged: Models, n: nat, dynamic: Models) {
    && n <= |merged|
    && (forall i :: n <= i < |merged| ==> FindIndex(dynamic, merged[i].id).Some?)
    && (forall i, k :: n <= i < k < |merged| ==> ComesBefore(dynamic, merged[i], merged[k]))
  }

  lemma OneMoreInOrder(merged: Models, n: nat, dynamic: Models, last: Model)
    requires NewInOrder(merged, n, dynamic)
    requires FindIndex(merged, last.id).None? ==> FindIndex(dynamic, last.id).None?
    ensures NewInOrder(Overlay(merged, last), n, dynamic + [last])
  {
    var next := Overlay(merged, last);
    FindIndexInFront(dynamic, [last], last.id);
    forall i | 0 <= i < |merged|
      ensures next[i].id == merged[i].id
      ensures FindIndex(dynamic, merged[i].id).Some? ==>
                FindIndex(dynamic + [last], merged[i].id) == FindIndex(dynamic, merged[i].id)
    {
      FindIndexInFront(dynamic, [last], merged[i].id);
    }
  }

  /** The models after the baseline come in the order in which their ids first occur in the dynamic list. */
  lemma {:induction false} NewModelsInOrder(baseline: Models, dynamic: Models)
    ensures NewInOrder(Merge(baseline, dynamic), |baseline|, dynamic)
    decreases |dynamic|
  {
    if dynamic != [] {
      var front, last := dynamic[..|dynamic| - 1], dynamic[|dynamic| - 1];
      NewModelsInOrder(baseline, front);
      MergedLookup(baseline, front, last.id);
      NotFoundAnywhere(front, last.id);
      OneMoreInOrder(Merge(baseline, front), |baseline|, front, last);
      assert dynamic == front + [last];
    }
  }

  lemma {:induction false} NotFoundAnywhere(models: Models, id: string)
    ensures FindIndex(models, id).None? <==> FindLast(models, id).None?
    decreases |models|
  {
    if models != [] {
      var n := |models| - 1;
      NotFoundAnywhere(models[..n], id);
      FindIndexInFront(models[..n], [models[n]], id);
      assert models == models[..n] + [models[n]];
    }
  }

  /** The models a provider offers. */
  method CurrentModels(baseline: Models, dynamic: Models) returns (merged: Models)
    ensures merged == Merge(baseline, dynamic)
  {
    merged := baseline;
    for k := 0 to |dynamic|
      invariant merged == Merge(baseline, dynamic[..k])
    {
      assert dynamic[..k + 1][..k] == dynamic[..k];
      var model := dynamic[k];
      var index := 0;
      while index < |merged| && merged[index].id != model.id
        invariant index <= |merged| && forall i :: 0 <= i < index ==> merged[i].id != model.id
      {
        index := index + 1;
      }
      if index < |merged| {
        merged := merged[index := model];
      } else {
        merged := merged + [model];
      }
    }
    assert dynamic[..|dynamic|] == dynamic;
  }

  // ---- The tables ----

  class ProviderRefresh {
    var generation: Generation
    var controller: Option<Generation>
    var aborted: set<Generation>
    var jobs: seq<Job>
    var tail: Option<JobId>
    var store: Option<Models>
    var memory: Models
    ghost var updates: seq<Update>

    ghost function View(): State
      reads this
    {
      State(generation, controller, aborted, jobs, tail, store, memory, updates)
    }

    constructor (store: Option<Models>)
      ensures View() == Initial(store)
    {
      generation, controller, aborted, jobs, tail := 0, None, {}, [], None;
      this.store, memory, updates := store, [], [];
    }

    method SupersedeProviderRefresh()
      modifies this`generation, this`controller, this`aborted
      ensures View() == Apply(old(View()), Supersede)
      ensures controller.None? && (old(controller).Some? ==> old(controller).value in aborted)
      ensures forall h: nat :: h <= old(generation) ==> !Current(View(), h)
    {
      generation := generation + 1;
      if controller.Some? {
        aborted := aborted + {controller.value};
        controller := None;
      }
    }

    method BeginProviderRefresh() returns (g: Generation)
      modifies this`generation, this`controller, this`aborted
      ensures View() == Apply(old(View()), BeginRefresh) && g == generation == old(generation) + 1
      ensures controller == Some(g) && (old(controller).Some? ==> old(controller).value in aborted)
      ensures forall h: nat :: h <= old(generation) ==> !Current(View(), h)
    {
      SupersedeProviderRefresh();
      controller := Some(generation);
      g := generation;
    }

    /** Queue a publication behind the one before it. */
    method PublishProviderModels(g: Generation, persist: Persist, update: Option<Models>) returns (j: JobId)
      requires g <= generation
      modifies this`jobs, this`tail
      ensures View() == Apply(old(View()), Publish(g, persist, update)) && j == |old(jobs)|
    {
      j := |jobs|;
      jobs := jobs + [Job(g, persist, update, tail, Waiting)];
      tail := Some(j);
    }

    method Enter(j: JobId, phase: Phase)
      requires j < |jobs|
      modifies this`jobs
      ensures View() == SetPhase(old(View()), j, phase)
    {
      jobs := jobs[j := jobs[j].(phase := phase)];
    }

    /** The last check, and the update of memory. */
    method FinishPublication(j: JobId)
      requires j < |jobs|
      modifies this`jobs, this`memory, this`updates
      ensures View() == Finish(old(View()), j)
    {
      var job := jobs[j];
      if job.generation in aborted || job.generation != generation {
        Enter(j, Settled(false));
        return;
      }
      if job.update.Some? {
        memory := job.update.value;
        updates := updates + [Update(j, job.generation)];
      }
      Enter(j, Settled(true));
    }

    /** A queued publication after the one before it: the first check, then the store or the end. */
    method StartPublication(j: JobId)
      requires Enabled(View(), Start(j))
      modifies this`jobs, this`memory, this`updates
      ensures View() == Apply(old(View()), Start(j))
    {
      var job := jobs[j];
      if job.generation in aborted || job.generation != generation {
        Enter(j, Settled(false));
      } else if job.persist.Keep? {
        FinishPublication(j);
      } else {
        Enter(j, Mutating);
      }
    }

    /** The store has answered the mutation of a publication. */
    method StoreAnswered(j: JobId)
      requires Enabled(View(), StoreAnswers(j))
      modifies this`jobs, this`store
      ensures View() == Apply(old(View()), StoreAnswers(j))
    {
      match jobs[j].persist {
        case Keep =>
        case Delete => store := None;
        case Write(entry) => store := Some(entry);
      }
      Enter(j, Stored);
    }

    /** A publication with nothing before it and a store that answers, while no other refresh begins:
        it publishes exactly if its refresh is the current one, and then store and memory hold what it
        brought; otherwise it leaves both alone. */
    method PublishAlone(g: Generation, persist: Persist, update: Option<Models>) returns (published: bool)
      requires Inv(View()) && g <= generation && tail.None?
      modifies this`jobs, this`tail, this`store, this`memory, this`updates
      ensures Inv(View())
      ensures published <==> Current(old(View()), g)
      ensures published ==>
                && store == StoreAfter(old(store), persist)
                && memory == (if update.Some? then update.value else old(memory))
      ensures !published ==> store == old(store) && memory == old(memory) && updates == old(updates)
    {
      StepKeepsInv(View(), Publish(g, persist, update));
      var j := PublishProviderModels(g, persist, update);
      published := RunPublication(j);
    }

    /** A publication whose turn has come, with a store that answers. */
    method RunPublication(j: JobId) returns (published: bool)
      requires Inv(View()) && Enabled(View(), Start(j))
      modifies this`jobs, this`store, this`memory, this`updates
      ensures Inv(View())
      ensures published <==> old(Current(View(), jobs[j].generation))
      ensures published ==>
                && store == StoreAfter(old(store), old(jobs[j].persist))
                && memory == old(if jobs[j].update.Some? then jobs[j].update.value else memory)
      ensures !published ==> store == old(store) && memory == old(memory) && updates == old(updates)
    {
      StepKeepsInv(View(), Start(j));
      StartPublication(j);
      if jobs[j].phase.Mutating? {
        FinishMutation(j);
      }
      published := jobs[j].phase == Settled(true);
    }

    /** The store answers a mutation of the current refresh. */
    method FinishMutation(j: JobId)
      requires Inv(View()) && Enabled(View(), StoreAnswers(j)) && Current(View(), jobs[j].generation)
      modifies this`jobs, this`store, this`memory, this`updates
      ensures Inv(View()) && j < |jobs| && jobs[j].phase == Settled(true)
      ensures store == StoreAfter(old(store), old(jobs[j].persist))
      ensures memory == old(if jobs[j].update.Some? then jobs[j].update.value else memory)
    {
      StepKeepsInv(View(), StoreAnswers(j));
      StoreAnswered(j);
      StepKeepsInv(View(), Resume(j));
      FinishPublication(j);
    }

    /** A refresh begun now supersedes every earlier one, and its publication comes through when nothing
        is queued. */
    method RefreshAlone(persist: Persist, update: Models) returns (published: bool)
      requires Inv(View()) && tail.None?
      modifies this
      ensures Inv(View()) && forall h: nat :: h <= old(generation) ==> !Current(View(), h)
      ensures published && memory == update && store == StoreAfter(old(store), persist)
    {
      StepKeepsInv(View(), BeginRefresh);
      var g := BeginProviderRefresh();
      published := PublishAlone(g, persist, Some(update));
    }
  }
}
