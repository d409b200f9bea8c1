/** The broadcast and the cleanup, as their methods do them, are runs of the state machine of EndToEnd in
    which nobody else moves, whichever of their calls fail. */
module BroadcastRefinement {
  import opened Kube
  import opened Objects
  import opened WorkerJobs
  import opened WorkerCleanup
  import opened EndToEnd
  import Workflow = Broadcast

  /** The machine's Jobs are the stored ones, with the outcomes of their own. */
  predicate Shows(jobs: Jobs, store: Workflow.JobStore) {
    jobs.Keys == store.Keys && forall k | k in jobs :: jobs[k].labels == store[k].labels
  }

  function From(names: seq<string>, i: nat): set<string>
    requires i <= |names|
  {
    set n | n in names[i..]
  }

  /** Run has served some of its nodes; their workers are new, and no other Job has changed. */
  ghost predicate Grown(b: Broadcast, s: State, r: State, names: seq<string>, i: nat, k: nat)
    requires i <= k <= |names|
  {
    && r == s.(jobs := r.jobs, run := Creating(From(names, k)))
    && (forall key | key in s.jobs :: key in r.jobs && r.jobs[key] == s.jobs[key])
    && forall j | i <= j < k :: At(r.jobs, WorkerKey(b, names[j])) == Some(StoredJob(LabelsFor(b, names[j]), []))
  }

  function At(jobs: Jobs, k: NamespacedName): Option<StoredJob> {
    if k in jobs then Some(jobs[k]) else None
  }

  lemma OneCreated(b: Broadcast, s: State, names: seq<string>, i: nat)
    requires Distinct(names) && i < |names| && s.run == Creating(From(names, i))
    requires WorkerKey(b, names[i]) !in s.jobs
    ensures Enabled(b, s, CreateWorker(names[i]))
    ensures Next(b, s, CreateWorker(names[i])) ==
              s.(jobs := s.jobs[WorkerKey(b, names[i]) := StoredJob(LabelsFor(b, names[i]), [])],
                 run := Creating(From(names, i + 1)))
  {
    assert names[i..] == [names[i]] + names[i + 1..];
    assert From(names, i) - {names[i]} == From(names, i + 1) by {
      forall j | i + 1 <= j < |names| ensures names[j] != names[i] {}
    }
  }

  /** The create loop from the i-th node to the k-th. */
  lemma {:induction false} CreatesRun(b: Broadcast, s: State, names: seq<string>, i: nat, k: nat)
    returns (run: seq<Action>)
    requires Distinct(names) && i <= k <= |names| && s.run == Creating(From(names, i))
    requires forall j | i <= j < k :: WorkerKey(b, names[j]) !in s.jobs
    ensures IsRun(b, s, run) && Grown(b, s, Final(b, s, run), names, i, k)
    ensures Final(b, s, run).jobs.Keys == s.jobs.Keys + set j | i <= j < k :: WorkerKey(b, names[j])
    decreases k - i
  {
    if i == k {
      run := [];
    } else {
      var a := CreateWorker(names[i]);
      var next := Next(b, s, a);
      OneCreated(b, s, names, i);
      forall j | i < j < k ensures WorkerKey(b, names[j]) != WorkerKey(b, names[i]) {
        OtherKey(b, CreateWorker(names[j]), names[i]);
      }
      run := CreatesRun(b, next, names, i + 1, k);
      RunStep(b, s, a, run);
      run := [a] + run;
    }
  }

  /** The workers of Run are the Jobs that the machine makes. */
  ghost predicate Made(b: Broadcast, workers: seq<JobView>, names: seq<string>) {
    && |workers| == |names|
    && forall j | 0 <= j < |names| ::
         Workflow.Key(workers[j]) == WorkerKey(b, names[j]) && workers[j].labels == LabelsFor(b, names[j])
  }

  lemma WorkersAreMade(b: Broadcast, names: seq<string>, t: TemplateView)
    requires OrEmpty(t.labels) == b.template
    ensures Made(b, Workflow.Workers(b.cfg, names, t), names)
  {
    forall j | 0 <= j < |names|
      ensures Workflow.Key(Workflow.Workers(b.cfg, names, t)[j]) == WorkerKey(b, names[j])
      ensures Workflow.Workers(b.cfg, names, t)[j].labels == LabelsFor(b, names[j])
    {
      WorkerIsBuilt(b, names[j], t);
    }
  }

  lemma MadeAreDistinct(b: Broadcast, workers: seq<JobView>, names: seq<string>)
    requires Made(b, workers, names) && Distinct(names)
    ensures forall i, j | 0 <= i < j < |workers| :: Workflow.Key(workers[i]) != Workflow.Key(workers[j])
  {
    forall i, j | 0 <= i < j < |workers| ensures Workflow.Key(workers[i]) != Workflow.Key(workers[j]) {
      OtherKey(b, CreateWorker(names[i]), names[j]);
    }
  }

  /** Jobs and store stay alike when the same workers are added to both. */
  lemma AddedShow(before: Jobs, after: Jobs, store: Workflow.JobStore, workers: seq<JobView>, r: Workflow.JobStore)
    requires Shows(before, store) && r == Workflow.StoreAll(store, workers)
    requires forall i, j | 0 <= i < j < |workers| :: Workflow.Key(workers[i]) != Workflow.Key(workers[j])
    requires after.Keys == before.Keys + set j | 0 <= j < |workers| :: Workflow.Key(workers[j])
    requires forall k | k in before :: after[k] == before[k]
    requires forall j | 0 <= j < |workers| ::
               Workflow.Key(workers[j]) !in before && after[Workflow.Key(workers[j])].labels == workers[j].labels
    ensures Shows(after, r)
  {
    Workflow.StoredKeys(store, workers);
    Workflow.StoredValues(store, workers);
    forall k | k in after ensures k in r && after[k].labels == r[k].labels {
      if k in before {
        assert forall j | 0 <= j < |workers| :: Workflow.Key(workers[j]) != k;
      }
    }
  }

  lemma CreatedShow(b: Broadcast, before: Jobs, after: Jobs, store: Workflow.JobStore, names: seq<string>,
                    first: seq<JobView>, r: Workflow.JobStore)
    requires Distinct(names) && Made(b, first, names) && Shows(before, store) && r == Workflow.StoreAll(store, first)
    requires after.Keys == before.Keys + set j | 0 <= j < |names| :: WorkerKey(b, names[j])
    requires forall k | k in before :: k in after && after[k] == before[k]
    requires forall j | 0 <= j < |names| ::
               && WorkerKey(b, names[j]) !in before
               && At(after, WorkerKey(b, names[j])) == Some(StoredJob(LabelsFor(b, names[j]), []))
    ensures Shows(after, r)
    ensures forall key | key in after && key !in before :: after[key].conditions == []
  {
    MadeAreDistinct(b, first, names);
    assert (set j | 0 <= j < |names| :: WorkerKey(b, names[j])) == set j | 0 <= j < |first| :: Workflow.Key(first[j]);
    forall j | 0 <= j < |first|
      ensures Workflow.Key(first[j]) !in before && after[Workflow.Key(first[j])].labels == first[j].labels
    {
      assert Workflow.Key(first[j]) == WorkerKey(b, names[j]);
    }
    AddedShow(before, after, store, first, r);
  }

  lemma PrefixMade(b: Broadcast, names: seq<string>, workers: seq<JobView>, k: nat)
    requires Distinct(names) && Made(b, workers, names) && k <= |names|
    ensures Distinct(names[..k]) && Made(b, workers[..k], names[..k])
    ensures (set j | 0 <= j < |names[..k]| :: WorkerKey(b, names[..k][j])) ==
            set j | 0 <= j < k :: WorkerKey(b, names[j])
  {
  }

  lemma PrefixShows(b: Broadcast, before: Jobs, after: Jobs, store: Workflow.JobStore, names: seq<string>,
                    workers: seq<JobView>, k: nat, r: Workflow.JobStore)
    requires Distinct(names) && Made(b, workers, names) && Shows(before, store) && k <= |names|
    requires r == Workflow.StoreAll(store, workers[..k])
    requires after.Keys == before.Keys + set j | 0 <= j < k :: WorkerKey(b, names[j])
    requires forall key | key in before :: key in after && after[key] == before[key]
    requires forall j | 0 <= j < k ::
               && WorkerKey(b, names[j]) !in before
               && At(after, WorkerKey(b, names[j])) == Some(StoredJob(LabelsFor(b, names[j]), []))
    ensures Shows(after, r)
    ensures forall key | key in after && key !in before :: after[key].conditions == []
  {
    PrefixMade(b, names, workers, k);
    var some := names[..k];
    forall j | 0 <= j < |some|
      ensures WorkerKey(b, some[j]) !in before
      ensures At(after, WorkerKey(b, some[j])) == Some(StoredJob(LabelsFor(b, some[j]), []))
    {
      assert some[j] == names[j];
    }
    CreatedShow(b, before, after, store, some, workers[..k], r);
  }

  lemma RunEnds(b: Broadcast, s: State, front: seq<Action>, last: Action) returns (run: seq<Action>)
    requires IsRun(b, s, front) && Enabled(b, Final(b, s, front), last)
    ensures IsRun(b, s, run) && Final(b, s, run) == Next(b, Final(b, s, front), last)
  {
    RunStep(b, Final(b, s, front), last, []);
    RunsJoin(b, s, front, [last] + []);
    run := front + ([last] + []);
  }

  /** After passing dry-runs: the creates that go through, and how Run ends then. */
  lemma PassedIsRun(b: Broadcast, s: State, store: Workflow.JobStore, names: seq<string>, workers: seq<JobView>,
                    k: nat, after: Workflow.JobStore) returns (run: seq<Action>)
    requires Distinct(names) && Made(b, workers, names) && Shows(s.jobs, store) && k <= |names|
    requires s.run == Creating(From(names, 0)) && after == Workflow.StoreAll(store, workers[..k])
    requires forall j | 0 <= j < k :: WorkerKey(b, names[j]) !in s.jobs
    ensures Mirrors(b, s, run, after, k == |names|)
  {
    var creates := CreatesRun(b, s, names, 0, k);
    var mid := Final(b, s, creates);
    PrefixShows(b, s.jobs, mid.jobs, store, names, workers, k, after);
    run := RunEnds(b, s, creates, if k == |names| then FinishRun else FailRun);
  }

  /** What Run does to a store that the machine shows, is what the machine can do. */
  lemma OutcomeIsRun(b: Broadcast, s: State, store: Workflow.JobStore, names: seq<string>, workers: seq<JobView>,
                     admits: JobView -> bool, faults: Workflow.Faults, outcome: Workflow.Outcome)
    returns (run: seq<Action>)
    requires Distinct(names) && Made(b, workers, names) && Shows(s.jobs, store)
    requires s.run == Creating(From(names, 0))
    requires outcome == Workflow.TwoPhase(store, workers, admits, faults)
    ensures Mirrors(b, s, run, outcome.jobs, outcome.ok)
  {
    if Workflow.DryRunsPass(store, workers, admits, faults) {
      forall j | 0 <= j < |names| ensures WorkerKey(b, names[j]) !in s.jobs {
        assert Workflow.Creatable(store, workers[j], admits);
      }
      var k := Workflow.Created(store, workers, admits, faults, 0);
      run := PassedIsRun(b, s, store, names, workers, k, outcome.jobs);
    } else {
      RunStep(b, s, FailRun, []);
      run := [FailRun] + [];
    }
  }

  /** A run that leaves the machine with the Jobs of the store and the verdict of Run; outcomes of Jobs that
      were there stay, and nothing but Jobs and Run has moved. */
  ghost predicate Mirrors(b: Broadcast, s: State, run: seq<Action>, store: Workflow.JobStore, ok: bool) {
    && IsRun(b, s, run)
    && var end := Final(b, s, run);
       && end == s.(jobs := end.jobs, run := if ok then RunSucceeded else RunFailed)
       && Shows(end.jobs, store)
       && (forall k | k in s.jobs :: k in end.jobs && end.jobs[k] == s.jobs[k])
       && forall k | k in end.jobs && k !in s.jobs :: end.jobs[k].conditions == []
  }

  /** Run itself, once it has read its object and listed the nodes. */
  method RunRefines(api: Workflow.ApiServer, faults: Workflow.Faults, ghost b: Broadcast, cfg: Config, ghost s: State)
    returns (ok: bool, ghost run: seq<Action>)
    requires api.Lookup(cfg).Some? && !faults.get && !faults.list
    requires b == EndToEnd.Broadcast(cfg, OrEmpty(api.Lookup(cfg).value.template.labels))
    requires s.run == Creating(MatchingNodes(api.nodes, api.Lookup(cfg).value.nodeSelector)) && Shows(s.jobs, api.jobs)
    modifies api`jobs
    ensures Mirrors(b, s, run, api.jobs, ok)
  {
    ghost var store, source := api.jobs, api.Lookup(cfg).value;
    var listed;
    ok, listed := api.Run(cfg, faults);
    assert listed[0..] == listed;
    assert From(listed, 0) == MatchingNodes(api.nodes, source.nodeSelector);
    ghost var workers := Workflow.Workers(cfg, listed, source.template);
    WorkersAreMade(b, listed, source.template);
    run := OutcomeIsRun(b, s, store, listed, workers, api.admits, faults, Workflow.Outcome(api.jobs, ok));
  }

  // ---- The cleanup ----

  lemma {:induction false} DeletesRun(b: Broadcast, s: State, owner: Owner, todo: set<NamespacedName>,
                                      gone: set<NamespacedName>) returns (run: seq<Action>)
    requires owner in s.cleanups && s.cleanups[owner] == Deleting(todo) && gone <= todo && gone <= s.jobs.Keys
    ensures IsRun(b, s, run)
    ensures Final(b, s, run) == s.(jobs := s.jobs - gone, cleanups := s.cleanups[owner := Deleting(todo - gone)])
    decreases gone
  {
    if gone == {} {
      run := [];
      assert s.jobs - {} == s.jobs && todo - {} == todo && s.cleanups[owner := Deleting(todo)] == s.cleanups;
    } else {
      var k :| k in gone;
      var a := DeleteWorker(owner, k);
      var next := s.(jobs := s.jobs - {k}, cleanups := s.cleanups[owner := Deleting(todo - {k})]);
      run := DeletesRun(b, next, owner, todo - {k}, gone - {k});
      RunStep(b, s, a, run);
      run := [a] + run;
      assert s.jobs - {k} - (gone - {k}) == s.jobs - gone && todo - {k} - (gone - {k}) == todo - gone;
      assert next.cleanups[owner := Deleting(todo - gone)] == s.cleanups[owner := Deleting(todo - gone)];
    }
  }

  /** The cleanup of an owner, however far it gets. */
  lemma CleanupIsRun(b: Broadcast, s: State, owner: Owner, gone: set<NamespacedName>) returns (run: seq<Action>)
    requires owner !in s.cleanups && gone <= Orphans(s.jobs, owner, s.nodes)
    ensures IsRun(b, s, run) && Final(b, s, run) == s.(jobs := s.jobs - gone)
  {
    var todo := Orphans(s.jobs, owner, s.nodes);
    var planned := s.(cleanups := s.cleanups[owner := Deleting(todo)]);
    assert s.cleanups[owner := NodesListed(s.nodes)][owner := Deleting(todo)] == planned.cleanups;
    TwoSteps(b, s, ListNodes(owner), ListWorkers(owner));
    var deletes := DeletesRun(b, planned, owner, todo, gone);
    var mid := Final(b, planned, deletes);
    RunStep(b, mid, EndCleanup(owner), []);
    RunsJoin(b, planned, deletes, [EndCleanup(owner)] + []);
    RunsJoin(b, s, [ListNodes(owner), ListWorkers(owner)], deletes + ([EndCleanup(owner)] + []));
    run := [ListNodes(owner), ListWorkers(owner)] + (deletes + ([EndCleanup(owner)] + []));
    assert s.cleanups[owner := Deleting(todo - gone)] - {owner} == s.cleanups;
  }

  /** Once a node has left, its owner's next cleanup can delete its worker. */
  lemma LeaverIsCleaned(b: Broadcast, s: State, n: string) returns (run: seq<Action>)
    requires Created(b, s, n) && OwnerOf(b) !in s.cleanups
    ensures IsRun(b, s, run)
    ensures WorkerKey(b, n) !in Final(b, s, run).jobs && n !in Final(b, s, run).nodes
  {
    var left := Next(b, s, Leave(n));
    WorkerIsSelected(b, n);
    assert WorkerKey(b, n) in Orphans(left.jobs, OwnerOf(b), left.nodes);
    run := CleanupIsRun(b, left, OwnerOf(b), {WorkerKey(b, n)});
    RunStep(b, s, Leave(n), run);
    run := [Leave(n)] + run;
  }

  /** The cleanup itself, on the machine's nodes and Jobs. */
  method CleanupRefines(c: Cleaner, owner: Owner, listFails: bool, fault: Option<nat>, ghost b: Broadcast,
                        ghost s: State)
    returns (err: bool, ghost run: seq<Action>)
    requires s.nodes == c.nodes && s.jobs == c.jobs && owner !in s.cleanups
    modifies c
    ensures IsRun(b, s, run) && Final(b, s, run) == s.(jobs := c.jobs)
    ensures !err ==> c.jobs == old(c.jobs) - Orphans(old(c.jobs), owner, s.nodes)
  {
    var gone;
    err, gone := c.DeleteWorkerJobsOnNotExistNode(owner, listFails, fault);
    run := CleanupIsRun(b, s, owner, gone);
  }
}
