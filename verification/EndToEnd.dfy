/** From broadcast to verdict: Run creating one worker Job for each node it listed, cleanups working on
    node lists they took earlier, nodes and Jobs coming and going, and updateStatus reading the result. */
module EndToEnd {
  import opened Kube
  import opened Conditions
  import opened WorkerJobs
  import opened BroadcastJobs
  import opened Selectors
  import opened WorkerCleanup
  import opened Objects
  import DaemonJobStatus
  import Workflow = Broadcast

  /** The broadcast under consideration: its configuration and the labels of its worker template. */
  datatype Broadcast = Broadcast(cfg: Config, template: Labels)

  /** A cleanup in flight, with the nodes it listed or the Jobs it is about to delete. */
  datatype Cleanup = NodesListed(live: set<string>) | Deleting(todo: set<NamespacedName>)

  /** Run after its node list, with the nodes still to be served. */
  datatype RunState = Creating(todo: set<string>) | RunSucceeded | RunFailed

  /** `pending` is what an updateStatus has read and not yet written. */
  datatype State = State(
    nodes: set<string>,
    jobs: Jobs,
    cleanups: map<Owner, Cleanup>,
    run: RunState,
    pending: Option<DaemonJobStatus.Observation>,
    status: DaemonJobStatus.Stored)

  datatype Action =
    | Join(node: string)
    | Leave(node: string)
    | Submit(key: NamespacedName, labels: Labels)
    | Withdraw(key: NamespacedName)
    | Progress(key: NamespacedName, conditions: seq<JobCondition>)
    | ListNodes(owner: Owner)
    | ListWorkers(owner: Owner)
    | DeleteWorker(owner: Owner, key: NamespacedName)
    | EndCleanup(owner: Owner)
    | CreateWorker(node: string)
    | FinishRun
    | FailRun
    | Look(o: DaemonJobStatus.Observation)
    | Commit

  function WorkerKey(b: Broadcast, node: string): NamespacedName {
    NamespacedName(b.cfg.ns, WorkerName(b.cfg.selfName, node))
  }

  function LabelsFor(b: Broadcast, node: string): Labels {
    WorkerLabels(b.cfg, node, b.template)
  }

  /** Whose workers the broadcast makes. */
  function OwnerOf(b: Broadcast): Owner {
    Owner(WorkerKind(b.cfg), b.cfg.ns, OwnerName(b.cfg))
  }

  function Outcome(job: StoredJob): JobStatusType {
    JobStatusOf(job.conditions).kind
  }

  /** The owner's worker list. */
  predicate Lists(b: Broadcast, jobs: Jobs, workers: seq<DaemonJobStatus.Worker>) {
    && (forall k | k in jobs && Selects(OwnerOf(b), k, jobs[k].labels) ::
        DaemonJobStatus.Worker(k.name, jobs[k].conditions) in workers)
    && (forall i | 0 <= i < |workers| ::
          exists k | k in jobs ::
            Selects(OwnerOf(b), k, jobs[k].labels) && workers[i] == DaemonJobStatus.Worker(k.name, jobs[k].conditions))
  }

  /** What updateStatus can read: the current workers, and a broadcast Job that is Complete only when
      Run has succeeded. */
  predicate Observable(b: Broadcast, s: State, o: DaemonJobStatus.Observation) {
    && (o.workers.Some? ==> Lists(b, s.jobs, o.workers.value))
    && (o.broadcast.Some? && JobStatusOf(o.broadcast.value).kind == Complete ==> s.run.RunSucceeded?)
  }

  predicate Enabled(b: Broadcast, s: State, a: Action) {
    match a
    case Join(_) => true
    case Leave(_) => true
    case Submit(k, _) => k !in s.jobs
    case Withdraw(k) => k in s.jobs
    // The outcome of a Job is final.
    case Progress(k, cs) => k in s.jobs && (Outcome(s.jobs[k]) != Progressing ==>
                                            JobStatusOf(cs).kind == Outcome(s.jobs[k]))
    case ListNodes(owner) => owner !in s.cleanups
    case ListWorkers(owner) => owner in s.cleanups && s.cleanups[owner].NodesListed?
    case DeleteWorker(owner, k) => owner in s.cleanups && s.cleanups[owner].Deleting? && k in s.cleanups[owner].todo
    case EndCleanup(owner) => owner in s.cleanups
    case CreateWorker(n) => s.run.Creating? && n in s.run.todo
    case FinishRun => s.run.Creating? && s.run.todo == {}
    case FailRun => s.run.Creating?
    case Look(o) => s.pending.None? && Observable(b, s, o)
    case Commit => s.pending.Some?
  }

  function Next(b: Broadcast, s: State, a: Action): State
    requires Enabled(b, s, a)
  {
    match a
    case Join(n) => s.(nodes := s.nodes + {n})
    case Leave(n) => s.(nodes := s.nodes - {n})
    case Submit(k, labels) => s.(jobs := s.jobs[k := StoredJob(labels, [])])
    case Withdraw(k) => s.(jobs := s.jobs - {k})
    case Progress(k, cs) => s.(jobs := s.jobs[k := s.jobs[k].(conditions := cs)])
    case ListNodes(owner) => s.(cleanups := s.cleanups[owner := NodesListed(s.nodes)])
    case ListWorkers(owner) =>
      s.(cleanups := s.cleanups[owner := Deleting(Orphans(s.jobs, owner, s.cleanups[owner].live))])
    case DeleteWorker(owner, k) =>
      if k in s.jobs then
        s.(jobs := s.jobs - {k}, cleanups := s.cleanups[owner := Deleting(s.cleanups[owner].todo - {k})])
      else s.(cleanups := s.cleanups - {owner})
    case EndCleanup(owner) => s.(cleanups := s.cleanups - {owner})
    case CreateWorker(n) =>
      if WorkerKey(b, n) in s.jobs then s.(run := RunFailed)
      else s.(jobs := s.jobs[WorkerKey(b, n) := StoredJob(LabelsFor(b, n), [])], run := Creating(s.run.todo - {n}))
    case FinishRun => s.(run := RunSucceeded)
    case FailRun => s.(run := RunFailed)
    case Look(o) => s.(pending := Some(o))
    case Commit => s.(pending := None, status := DaemonJobStatus.Step(s.status, s.pending.value))
  }

  predicate IsRun(b: Broadcast, s: State, run: seq<Action>)
    decreases |run|
  {
    run == [] || (Enabled(b, s, run[0]) && IsRun(b, Next(b, s, run[0]), run[1..]))
  }

  function Final(b: Broadcast, s: State, run: seq<Action>): State
    requires IsRun(b, s, run)
    decreases |run|
  {
    if run == [] then s else Final(b, Next(b, s, run[0]), run[1..])
  }

  /** The node does not leave, and nobody but Run and the cleanups creates or deletes its worker. */
  predicate Spared(b: Broadcast, a: Action, n: string) {
    && a != Leave(n)
    && a != Withdraw(WorkerKey(b, n))
    && (a.Submit? ==> a.key != WorkerKey(b, n))
  }

  predicate Stays(b: Broadcast, run: seq<Action>, n: string) {
    forall i | 0 <= i < |run| :: Spared(b, run[i], n)
  }

  // ---- Invariant ----

  predicate Created(b: Broadcast, s: State, n: string) {
    WorkerKey(b, n) in s.jobs && s.jobs[WorkerKey(b, n)].labels == LabelsFor(b, n)
  }

  /** The node has a worker of this broadcast, and it is Complete. */
  predicate Served(b: Broadcast, s: State, n: string) {
    Created(b, s, n) && Outcome(s.jobs[WorkerKey(b, n)]) == Complete
  }

  /** A cleanup that will not delete the node's worker. */
  predicate Harmless(b: Broadcast, s: State, owner: Owner, c: Cleanup, n: string) {
    match c
    case NodesListed(live) =>
      n in live || (!Selects(owner, WorkerKey(b, n), LabelsFor(b, n)) &&
                    (WorkerKey(b, n) in s.jobs ==> Created(b, s, n)))
    case Deleting(todo) => WorkerKey(b, n) !in todo
  }

  predicate AllHarmless(b: Broadcast, s: State, n: string) {
    forall owner | owner in s.cleanups :: Harmless(b, s, owner, s.cleanups[owner], n)
  }

  /** A Job under the worker's name says it is for that node. */
  predicate Named(b: Broadcast, s: State, n: string) {
    WorkerKey(b, n) in s.jobs ==> Has(s.jobs[WorkerKey(b, n)].labels, Node, n)
  }

  /** As long as the node stays, its worker does. */
  predicate Kept(b: Broadcast, s: State, n: string) {
    && n in s.nodes
    && Named(b, s, n)
    && AllHarmless(b, s, n)
    && (s.run.Creating? && n !in s.run.todo ==> Created(b, s, n))
    && (s.run.RunSucceeded? ==> Created(b, s, n))
  }

  /** Complete, written or about to be, tells the truth about the node. */
  predicate Truthful(b: Broadcast, s: State, n: string) {
    && DaemonJobStatus.Consistent(s.status.conditions)
    && (s.pending.Some? && DaemonJobStatus.Proven(s.pending.value) ==> Served(b, s, n))
    && (IsTrue(s.status.conditions, DaemonJobStatus.COMPLETE) ==> Served(b, s, n))
  }

  // ---- Preservation ----

  lemma WorkerIsSelected(b: Broadcast, n: string)
    ensures Selects(OwnerOf(b), WorkerKey(b, n), LabelsFor(b, n))
    ensures Has(LabelsFor(b, n), Node, n)
  {
    WorkerIsolation(b.cfg, n, b.template, WorkerKind(b.cfg), OwnerName(b.cfg), n);
    MatchesTwo(Role, ROLE_WORKER, Node, n, LabelsFor(b, n));
  }

  /** The worker of a node is the Job that the builder makes for it, stored under that Job's own key. */
  lemma WorkerIsBuilt(b: Broadcast, node: string, t: TemplateView)
    requires OrEmpty(t.labels) == b.template
    ensures var job := WorkerJob(b.cfg, node, t);
            Workflow.Key(job) == WorkerKey(b, node) && job.labels == LabelsFor(b, node)
  {
  }

  /** Two cleanups that mean to delete one Job: the later one fails and gives up the rest of its plan. */
  lemma RacingCleanups(b: Broadcast, s: State, first: Owner, second: Owner, k: NamespacedName)
    requires first != second && k in s.jobs
    requires Enabled(b, s, DeleteWorker(first, k)) && Enabled(b, s, DeleteWorker(second, k))
    ensures var mid := Next(b, s, DeleteWorker(first, k));
            && Enabled(b, mid, DeleteWorker(second, k))
            && var r := Next(b, mid, DeleteWorker(second, k));
               && r.jobs == s.jobs - {k}
               && second !in r.cleanups && r.cleanups[first] == Deleting(s.cleanups[first].todo - {k})
               && r.cleanups - {first} == s.cleanups - {first, second}
  {
  }

  /** A Job that is not over may still end either way; one that is over keeps its outcome until it is deleted. */
  lemma JobsEndOnce(b: Broadcast, s: State, a: Action, k: NamespacedName, end: JobConditionKind)
    requires k in s.jobs && end in {JobComplete, JobFailed}
    ensures Outcome(s.jobs[k]) == Progressing ==> Enabled(b, s, Progress(k, [JobCondition(end, True, "", "")]))
    ensures Outcome(s.jobs[k]) != Progressing && Enabled(b, s, a) && k in Next(b, s, a).jobs ==>
              Outcome(Next(b, s, a).jobs[k]) == Outcome(s.jobs[k])
  {
  }

  /** Creating another node's worker is creating another Job. */
  lemma OtherKey(b: Broadcast, a: Action, n: string)
    requires a.CreateWorker? && a.node != n
    ensures WorkerKey(b, a.node) != WorkerKey(b, n)
  {
    if WorkerKey(b, a.node) == WorkerKey(b, n) {
      WorkerNameInjective(b.cfg.selfName, a.node, n);
    }
  }

  lemma CreatedStays(b: Broadcast, s: State, a: Action, n: string)
    requires Enabled(b, s, a) && Spared(b, a, n) && AllHarmless(b, s, n) && Created(b, s, n)
    ensures Created(b, Next(b, s, a), n)
  {
  }

  lemma HarmlessStays(b: Broadcast, s: State, a: Action, n: string)
    requires Kept(b, s, n) && Enabled(b, s, a) && Spared(b, a, n)
    ensures AllHarmless(b, Next(b, s, a), n)
  {
    var s' := Next(b, s, a);
    if Created(b, s, n) {
      CreatedStays(b, s, a, n);
    }
    if a.CreateWorker? && a.node != n {
      OtherKey(b, a, n);
    }
    forall owner | owner in s'.cleanups ensures Harmless(b, s', owner, s'.cleanups[owner], n) {
      if owner in s.cleanups {
        assert Harmless(b, s, owner, s.cleanups[owner], n);
      }
    }
  }

  lemma KeptStep(b: Broadcast, s: State, a: Action, n: string)
    requires Kept(b, s, n) && Enabled(b, s, a) && Spared(b, a, n)
    ensures Kept(b, Next(b, s, a), n)
  {
    HarmlessStays(b, s, a, n);
    WorkerIsSelected(b, n);
    if a.CreateWorker? && a.node != n {
      OtherKey(b, a, n);
    }
    if Created(b, s, n) {
      CreatedStays(b, s, a, n);
    }
  }

  lemma ServedStays(b: Broadcast, s: State, a: Action, n: string)
    requires Kept(b, s, n) && Enabled(b, s, a) && Spared(b, a, n) && Served(b, s, n)
    ensures Served(b, Next(b, s, a), n)
  {
    CreatedStays(b, s, a, n);
  }

  /** A worker list that proves completion was taken after Run had succeeded, so the node's worker was on it. */
  lemma ProofShowsWorker(b: Broadcast, s: State, o: DaemonJobStatus.Observation, n: string)
    requires Kept(b, s, n) && Observable(b, s, o) && DaemonJobStatus.Proven(o)
    ensures Served(b, s, n)
  {
    WorkerIsSelected(b, n);
    var k := WorkerKey(b, n);
    var w := DaemonJobStatus.Worker(k.name, s.jobs[k].conditions);
    assert w in o.workers.value;
    var i :| 0 <= i < |o.workers.value| && o.workers.value[i] == w;
  }

  lemma TruthfulStep(b: Broadcast, s: State, a: Action, n: string)
    requires Kept(b, s, n) && Truthful(b, s, n) && Enabled(b, s, a) && Spared(b, a, n)
    ensures Truthful(b, Next(b, s, a), n)
  {
    if Served(b, s, n) {
      ServedStays(b, s, a, n);
    }
    if a.Look? && DaemonJobStatus.Proven(a.o) {
      ProofShowsWorker(b, s, a.o, n);
    }
    if a.Commit? && DaemonJobStatus.Decide(s.status.conditions, s.pending.value).Some? {
      DaemonJobStatus.DecideMeaning(s.status.conditions, s.pending.value);
    }
  }

  lemma {:induction false} KeptAlongRun(b: Broadcast, s: State, run: seq<Action>, n: string)
    requires Kept(b, s, n) && IsRun(b, s, run) && Stays(b, run, n)
    ensures Kept(b, Final(b, s, run), n)
    ensures Truthful(b, s, n) ==> Truthful(b, Final(b, s, run), n)
    decreases |run|
  {
    if run != [] {
      assert Spared(b, run[0], n);
      KeptStep(b, s, run[0], n);
      if Truthful(b, s, n) {
        TruthfulStep(b, s, run[0], n);
      }
      assert Stays(b, run[1..], n) by {
        assert forall i | 0 <= i < |run[1..]| :: run[1..][i] == run[i + 1];
      }
      KeptAlongRun(b, Next(b, s, run[0]), run[1..], n);
    }
  }

  // ---- Main results ----

  /** Run has just listed its nodes, and Complete has not been reported yet. */
  predicate JustListed(b: Broadcast, s: State) {
    && s.run.Creating? && s.run.todo <= s.nodes
    && DaemonJobStatus.Consistent(s.status.conditions)
    && !IsTrue(s.status.conditions, DaemonJobStatus.COMPLETE)
    && (s.pending.Some? ==> !DaemonJobStatus.Proven(s.pending.value))
  }

  /** When a DaemonJob reports Complete, every node that Run listed and that has not left since has a
      Complete worker of this DaemonJob, provided no cleanup in flight at the listing was out of date
      about that node. */
  lemma CompleteMeansServed(b: Broadcast, s: State, run: seq<Action>, n: string)
    requires b.cfg.daemonJobName != ""
    requires JustListed(b, s) && n in s.run.todo && Named(b, s, n) && AllHarmless(b, s, n)
    requires IsRun(b, s, run) && Stays(b, run, n)
    requires IsTrue(Final(b, s, run).status.conditions, DaemonJobStatus.COMPLETE)
    ensures Served(b, Final(b, s, run), n)
    ensures Selects(Owner(DaemonJobKind, b.cfg.ns, b.cfg.daemonJobName), WorkerKey(b, n), LabelsFor(b, n))
  {
    KeptAlongRun(b, s, run, n);
    WorkerIsSelected(b, n);
  }

  /** Once Run has created the node's worker, it is there. */
  predicate HasWorker(b: Broadcast, s: State, n: string) {
    (s.run.Creating? && n !in s.run.todo) || s.run.RunSucceeded? ==> Created(b, s, n)
  }

  ghost predicate NeverLosesWorker(b: Broadcast, s: State, n: string) {
    forall run: seq<Action> | IsRun(b, s, run) && Stays(b, run, n) :: HasWorker(b, Final(b, s, run), n)
  }

  lemma RunStep(b: Broadcast, s: State, a: Action, rest: seq<Action>)
    requires Enabled(b, s, a) && IsRun(b, Next(b, s, a), rest)
    ensures IsRun(b, s, [a] + rest) && Final(b, s, [a] + rest) == Final(b, Next(b, s, a), rest)
  {
    assert ([a] + rest)[1..] == rest;
  }

  lemma TwoSteps(b: Broadcast, s: State, a: Action, a': Action)
    requires Enabled(b, s, a) && Enabled(b, Next(b, s, a), a')
    ensures IsRun(b, s, [a, a']) && Final(b, s, [a, a']) == Next(b, Next(b, s, a), a')
  {
    RunStep(b, Next(b, s, a), a', []);
    RunStep(b, s, a, [a'] + []);
    assert [a] + ([a'] + []) == [a, a'];
  }

  /** A run in which node n stays and its worker is made and deleted again, with nothing else changed
      for Run and updateStatus. */
  ghost predicate Loses(b: Broadcast, s: State, run: seq<Action>, n: string) {
    && IsRun(b, s, run) && Stays(b, run, n)
    && var end := Final(b, s, run);
       && s.run.Creating? && end.run == Creating(s.run.todo - {n})
       && end.jobs == s.jobs && end.pending == s.pending && end.status == s.status
  }

  /** A cleanup that already means to delete a Job of that name. */
  lemma PlannedDeleteHits(b: Broadcast, s: State, owner: Owner, n: string) returns (run: seq<Action>)
    requires s.run.Creating? && n in s.run.todo && WorkerKey(b, n) !in s.jobs
    requires owner in s.cleanups && s.cleanups[owner].Deleting? && WorkerKey(b, n) in s.cleanups[owner].todo
    ensures Loses(b, s, run, n)
  {
    run := [CreateWorker(n), DeleteWorker(owner, WorkerKey(b, n))];
    TwoSteps(b, s, run[0], run[1]);
    assert Final(b, s, run).jobs == s.jobs;
  }

  /** A cleanup that does not know the node and has yet to list the Jobs. */
  lemma StaleListHits(b: Broadcast, s: State, owner: Owner, n: string) returns (run: seq<Action>)
    requires s.run.Creating? && n in s.run.todo && WorkerKey(b, n) !in s.jobs
    requires owner in s.cleanups && s.cleanups[owner].NodesListed? && n !in s.cleanups[owner].live
    requires Selects(owner, WorkerKey(b, n), LabelsFor(b, n))
    ensures Loses(b, s, run, n)
  {
    var k := WorkerKey(b, n);
    var made := Next(b, s, CreateWorker(n));
    WorkerIsSelected(b, n);
    assert k in Orphans(made.jobs, owner, s.cleanups[owner].live);
    TwoSteps(b, made, ListWorkers(owner), DeleteWorker(owner, k));
    run := [CreateWorker(n)] + [ListWorkers(owner), DeleteWorker(owner, k)];
    RunStep(b, s, CreateWorker(n), [ListWorkers(owner), DeleteWorker(owner, k)]);
    assert Final(b, s, run).jobs == s.jobs;
  }

  lemma OutOfDateLoses(b: Broadcast, s: State, n: string) returns (run: seq<Action>)
    requires s.run.Creating? && n in s.run.todo && WorkerKey(b, n) !in s.jobs && !AllHarmless(b, s, n)
    ensures Loses(b, s, run, n)
  {
    var owner :| owner in s.cleanups && !Harmless(b, s, owner, s.cleanups[owner], n);
    if s.cleanups[owner].Deleting? {
      run := PlannedDeleteHits(b, s, owner, n);
    } else {
      run := StaleListHits(b, s, owner, n);
    }
  }

  /** The condition is exact: with the name free, a staying node can lose its worker if and only if
      some cleanup in flight is out of date about it. */
  lemma WorkerKeptExactly(b: Broadcast, s: State, n: string)
    requires s.run.Creating? && n in s.run.todo && n in s.nodes && WorkerKey(b, n) !in s.jobs
    ensures NeverLosesWorker(b, s, n) <==> AllHarmless(b, s, n)
  {
    if AllHarmless(b, s, n) {
      forall run: seq<Action> | IsRun(b, s, run) && Stays(b, run, n) ensures HasWorker(b, Final(b, s, run), n) {
        KeptAlongRun(b, s, run, n);
      }
    } else {
      var run := OutOfDateLoses(b, s, n);
      assert !HasWorker(b, Final(b, s, run), n);
    }
  }

  /** All there is to read after Run has succeeded and its workers are gone. */
  function NothingLeft(): DaemonJobStatus.Observation {
    DaemonJobStatus.Observation(DaemonJobStatus.Present, DaemonJobStatus.Present, DaemonJobStatus.Present,
      Some([JobCondition(JobComplete, True, "", "")]), None, Some([]), true)
  }

  /** A run to the given end in which node n stays. */
  ghost predicate Reaches(b: Broadcast, s: State, run: seq<Action>, n: string, end: State) {
    IsRun(b, s, run) && Stays(b, run, n) && Final(b, s, run) == end
  }

  lemma {:induction false} RunsJoin(b: Broadcast, s: State, front: seq<Action>, back: seq<Action>)
    requires IsRun(b, s, front) && IsRun(b, Final(b, s, front), back)
    ensures IsRun(b, s, front + back) && Final(b, s, front + back) == Final(b, Final(b, s, front), back)
    decreases |front|
  {
    if front == [] {
      assert front + back == back;
    } else {
      RunsJoin(b, Next(b, s, front[0]), front[1..], back);
      RunStep(b, s, front[0], front[1..] + back);
      assert [front[0]] + (front[1..] + back) == front + back;
    }
  }

  lemma ReachesJoin(b: Broadcast, s: State, front: seq<Action>, mid: State, back: seq<Action>, n: string, end: State)
    requires Reaches(b, s, front, n, mid) && Reaches(b, mid, back, n, end)
    ensures Reaches(b, s, front + back, n, end)
  {
    RunsJoin(b, s, front, back);
  }

  lemma ReachesStep(b: Broadcast, s: State, a: Action, rest: seq<Action>, n: string, end: State)
    requires Enabled(b, s, a) && Spared(b, a, n) && Reaches(b, Next(b, s, a), rest, n, end)
    ensures Reaches(b, s, [a] + rest, n, end)
  {
    RunStep(b, s, a, rest);
  }

  /** Other Jobs may all be withdrawn. */
  lemma {:induction false} WithdrawAll(b: Broadcast, s: State, n: string) returns (run: seq<Action>)
    requires WorkerKey(b, n) !in s.jobs
    ensures Reaches(b, s, run, n, s.(jobs := map[]))
    decreases s.jobs.Keys
  {
    if s.jobs == map[] {
      run := [];
    } else {
      var k :| k in s.jobs;
      var rest := WithdrawAll(b, s.(jobs := s.jobs - {k}), n);
      ReachesStep(b, s, Withdraw(k), rest, n, s.(jobs := map[]));
      run := [Withdraw(k)] + rest;
    }
  }

  /** Run may serve the other nodes and see their workers withdrawn. */
  lemma {:induction false} ServeOthers(b: Broadcast, s: State, n: string) returns (run: seq<Action>)
    requires s.run.Creating? && n !in s.run.todo && s.jobs == map[]
    ensures Reaches(b, s, run, n, s.(run := Creating({})))
    decreases if s.run.Creating? then s.run.todo else {}
  {
    if s.run.todo == {} {
      run := [];
    } else {
      var m :| m in s.run.todo;
      OtherKey(b, CreateWorker(m), n);
      var next := s.(run := Creating(s.run.todo - {m}));
      var rest := ServeOthers(b, next, n);
      var made := Next(b, s, CreateWorker(m));
      assert made.jobs - {WorkerKey(b, m)} == map[];
      ReachesStep(b, made, Withdraw(WorkerKey(b, m)), rest, n, s.(run := Creating({})));
      run := [Withdraw(WorkerKey(b, m))] + rest;
      ReachesStep(b, s, CreateWorker(m), run, n, s.(run := Creating({})));
      run := [CreateWorker(m)] + run;
    }
  }

  /** Condition and state of the DaemonJob. */
  predicate SaysComplete(s: State) {
    IsTrue(s.status.conditions, DaemonJobStatus.COMPLETE) && s.status.state == "Complete"
  }

  /** Run ends well and updateStatus finds no worker to complain about. */
  lemma FinishAndReport(b: Broadcast, s: State, n: string) returns (run: seq<Action>)
    requires s.run == Creating({}) && s.pending.None? && s.jobs == map[]
    requires DaemonJobStatus.Consistent(s.status.conditions)
    ensures IsRun(b, s, run) && Stays(b, run, n)
    ensures SaysComplete(Final(b, s, run)) && Final(b, s, run).jobs == map[]
  {
    var done := Next(b, s, FinishRun);
    assert Observable(b, done, NothingLeft());
    DaemonJobStatus.DecideMeaning(s.status.conditions, NothingLeft());
    DaemonJobStatus.StateNeverUnknown(s.status, NothingLeft());
    TwoSteps(b, done, Look(NothingLeft()), Commit);
    RunStep(b, s, FinishRun, [Look(NothingLeft()), Commit]);
    run := [FinishRun] + [Look(NothingLeft()), Commit];
  }

  /** An updateStatus in flight may write what it has read. */
  lemma CommitPending(b: Broadcast, s: State, n: string) returns (run: seq<Action>)
    requires DaemonJobStatus.Consistent(s.status.conditions)
    ensures IsRun(b, s, run) && Stays(b, run, n)
    ensures var end := Final(b, s, run);
            && end == s.(pending := None, status := end.status)
            && DaemonJobStatus.Consistent(end.status.conditions)
  {
    run := [];
    if s.pending.Some? {
      ReachesStep(b, s, Commit, [], n, Next(b, s, Commit));
      run := [Commit] + [];
      if DaemonJobStatus.Decide(s.status.conditions, s.pending.value).Some? {
        DaemonJobStatus.DecideMeaning(s.status.conditions, s.pending.value);
      }
    }
  }

  /** From a worker lost to a report of Complete. */
  lemma LossToReport(b: Broadcast, s: State, n: string) returns (run: seq<Action>)
    requires s.run.Creating? && n !in s.run.todo && WorkerKey(b, n) !in s.jobs && s.pending.None?
    requires DaemonJobStatus.Consistent(s.status.conditions)
    ensures IsRun(b, s, run) && Stays(b, run, n)
    ensures SaysComplete(Final(b, s, run)) && Final(b, s, run).jobs == map[]
  {
    var alone := s.(jobs := map[]);
    var done := alone.(run := Creating({}));
    run := WithdrawAll(b, s, n);
    var serve := ServeOthers(b, alone, n);
    ReachesJoin(b, s, run, alone, serve, n, done);
    run := run + serve;
    var report := FinishAndReport(b, done, n);
    ReachesJoin(b, s, run, done, report, n, Final(b, done, report));
    run := run + report;
  }

  /** A cleanup that is out of date about a listed node can make Complete a lie. */
  lemma CompleteCanLie(b: Broadcast, s: State, n: string) returns (run: seq<Action>)
    requires JustListed(b, s) && n in s.run.todo && WorkerKey(b, n) !in s.jobs && !AllHarmless(b, s, n)
    ensures IsRun(b, s, run) && Stays(b, run, n)
    ensures SaysComplete(Final(b, s, run)) && WorkerKey(b, n) !in Final(b, s, run).jobs
  {
    run := CommitPending(b, s, n);
    var mid := Final(b, s, run);
    assert !AllHarmless(b, mid, n) by {
      var owner :| owner in s.cleanups && !Harmless(b, s, owner, s.cleanups[owner], n);
      assert !Harmless(b, mid, owner, mid.cleanups[owner], n);
    }
    var lose := OutOfDateLoses(b, mid, n);
    var lost := Final(b, mid, lose);
    ReachesJoin(b, s, run, mid, lose, n, lost);
    run := run + lose;
    var report := LossToReport(b, lost, n);
    ReachesJoin(b, s, run, lost, report, n, Final(b, lost, report));
    run := run + report;
  }

  /** In no run in which the node stays is Complete reported while the node lacks a Complete worker. */
  ghost predicate CompleteIsTrue(b: Broadcast, s: State, n: string) {
    forall run: seq<Action> | IsRun(b, s, run) && Stays(b, run, n) ::
      IsTrue(Final(b, s, run).status.conditions, DaemonJobStatus.COMPLETE) ==> Served(b, Final(b, s, run), n)
  }

  /** From the moment Run lists a node whose worker's name is free, Complete tells the truth about it in
      every run if and only if no cleanup in flight is out of date about it. */
  lemma CompleteIsTrueExactly(b: Broadcast, s: State, n: string)
    requires JustListed(b, s) && n in s.run.todo && WorkerKey(b, n) !in s.jobs
    ensures CompleteIsTrue(b, s, n) <==> AllHarmless(b, s, n)
  {
    if AllHarmless(b, s, n) {
      forall run: seq<Action> | IsRun(b, s, run) && Stays(b, run, n)
        ensures IsTrue(Final(b, s, run).status.conditions, DaemonJobStatus.COMPLETE) ==> Served(b, Final(b, s, run), n)
      {
        KeptAlongRun(b, s, run, n);
      }
    } else {
      var run := CompleteCanLie(b, s, n);
      assert !Served(b, Final(b, s, run), n);
    }
  }

  /** In particular when the DaemonJob's own cleanup listed the nodes before n joined: it deletes n's
      fresh worker, and Complete is reported with no worker on n. */
  lemma LateNodeIsLost(b: Broadcast, n: string) returns (run: seq<Action>)
    ensures var s := State({n}, map[], map[OwnerOf(b) := NodesListed({})], Creating({n}), None,
                           DaemonJobStatus.Stored([], ""));
            && JustListed(b, s) && IsRun(b, s, run) && Stays(b, run, n)
            && SaysComplete(Final(b, s, run)) && WorkerKey(b, n) !in Final(b, s, run).jobs
  {
    var s := State({n}, map[], map[OwnerOf(b) := NodesListed({})], Creating({n}), None, DaemonJobStatus.Stored([], ""));
    WorkerIsSelected(b, n);
    assert !Harmless(b, s, OwnerOf(b), s.cleanups[OwnerOf(b)], n);
    run := CompleteCanLie(b, s, n);
  }
}
