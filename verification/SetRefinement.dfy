/** Every reconcile of SetReconciler, whichever of its calls fail, is a run of the state machine of
    SetRuns in which nobody else moves; and so a queued set can always be brought to where it should be. */
module SetRefinement {
  import opened Kube
  import opened Conditions
  import opened CronJobSets
  import opened SetStore
  import opened SetReconciler
  import opened SetRuns

  /** Only the reconcile of key has moved, and in the tame case by tame steps. */
  ghost predicate Moved(st: State, run: seq<Action>, store: ChildStore, tame: bool) {
    && IsRun(st, run) && (tame ==> TameRun(st, run))
    && Final(st, run).nodes == st.nodes && Final(st, run).sets == st.sets
    && Final(st, run).cronJobs == store
    && st.queue <= Final(st, run).queue
  }

  ghost predicate Reached(st: State, run: seq<Action>, key: NamespacedName, pc: Pc, store: ChildStore, tame: bool) {
    && Moved(st, run, store, tame)
    && Final(st, run).active == st.active[key := pc] && Final(st, run).recorded == st.recorded
  }

  /** The reconcile is over, and the counts recorded are as given.  One that failed is queued again; one
      that changed the recorded counts has made an event of its set. */
  ghost predicate Ended(st: State, run: seq<Action>, key: NamespacedName, err: bool, store: ChildStore,
                        told: map<NamespacedName, Counts>, tame: bool) {
    && Moved(st, run, store, tame)
    && Final(st, run).active == st.active - {key} && Final(st, run).recorded == told
    && (err ==> key in Final(st, run).queue)
    && (told != st.recorded ==> OwnerOf(key) in Final(st, run).events)
  }

  /** The counts recorded at the end: a reconcile that failed has written none. */
  function Told(st: State, key: NamespacedName, s: SetView, store: ChildStore, err: bool): map<NamespacedName, Counts> {
    if err then st.recorded
    else st.recorded[key := Counts(|Want(st, s)|, |Children(store, s.ns, s.name)|)]
  }

  lemma ReachedThen(st: State, front: seq<Action>, mid: State, back: seq<Action>, key: NamespacedName, pc: Pc, pc': Pc,
                    store: ChildStore, store': ChildStore, tame: bool)
    requires Reached(st, front, key, pc, store, tame) && mid == Final(st, front)
    requires Reached(mid, back, key, pc', store', tame)
    ensures Reached(st, front + back, key, pc', store', tame)
  {
    RunsJoin(st, front, back);
    if tame {
      TameRunsJoin(st, front, back);
    }
    assert st.active[key := pc][key := pc'] == st.active[key := pc'];
  }

  lemma ReachedThenEnded(st: State, front: seq<Action>, mid: State, back: seq<Action>, key: NamespacedName, pc: Pc,
                         store: ChildStore, store': ChildStore, err: bool, told: map<NamespacedName, Counts>,
                         tame: bool)
    requires Reached(st, front, key, pc, store, tame) && mid == Final(st, front)
    requires Ended(mid, back, key, err, store', told, tame)
    ensures Ended(st, front + back, key, err, store', told, tame)
  {
    RunsJoin(st, front, back);
    if tame {
      TameRunsJoin(st, front, back);
    }
    assert st.active[key := pc] - {key} == st.active - {key};
  }

  lemma Works(st: State, key: NamespacedName, pc: Pc)
    requires key in st.active && Enabled(st, Work(key)) && Worked(st, key) == Goto(st, key, pc)
    ensures Reached(st, [Work(key)], key, pc, st.cronJobs, true)
  {
    RunStep(st, Work(key), []);
    assert [Work(key)] + [] == [Work(key)];
  }

  lemma WorksTwice(st: State, key: NamespacedName, mid: State, pc: Pc, pc': Pc)
    requires key in st.active && Enabled(st, Work(key)) && Worked(st, key) == Goto(st, key, pc) == mid
    requires Enabled(mid, Work(key)) && Worked(mid, key) == Goto(mid, key, pc')
    ensures Reached(st, [Work(key)] + [Work(key)], key, pc', st.cronJobs, true)
  {
    Works(st, key, pc);
    Works(mid, key, pc');
    ReachedThen(st, [Work(key)], mid, [Work(key)], key, pc, pc', st.cronJobs, st.cronJobs, true);
  }

  /** The reconcile returns an error. */
  lemma Errs(st: State, key: NamespacedName)
    requires key in st.active && !st.active[key].InDeletePhase()
    ensures Ended(st, [Fail(key)], key, true, st.cronJobs, st.recorded, true)
  {
    RunStep(st, Fail(key), []);
    assert [Fail(key)] + [] == [Fail(key)];
  }

  /** An error in the delete phase, only logged. */
  lemma Logs(st: State, key: NamespacedName, s: SetView)
    requires key in st.active && st.active[key].InDeletePhase() && st.active[key].s == s
    ensures Reached(st, [Fail(key)], key, Deleted(s), st.cronJobs, false)
  {
    RunStep(st, Fail(key), []);
    assert [Fail(key)] + [] == [Fail(key)];
  }

  /** The delete loop, as far as it gets. */
  lemma {:induction false} Deletes(st: State, key: NamespacedName, s: SetView, todo: set<NamespacedName>,
                                   gone: set<NamespacedName>) returns (run: seq<Action>)
    requires key in st.active && st.active[key] == Deleting(s, todo) && gone <= todo && gone <= st.cronJobs.Keys
    ensures Reached(st, run, key, Deleting(s, todo - gone), st.cronJobs - gone, true)
    decreases gone
  {
    if gone == {} {
      run := [];
      assert todo - {} == todo && st.cronJobs - {} == st.cronJobs;
      assert st.active[key := Deleting(s, todo)] == st.active;
    } else {
      var c :| c in gone;
      var next := DeletedOne(st, key, c);
      DeletesOne(st, key, s, todo, c);
      run := Deletes(next, key, s, todo - {c}, gone - {c});
      ReachedAfter(st, DeleteOne(key, c), next, run, key, Deleting(s, todo - {c} - (gone - {c})),
                   next.cronJobs - (gone - {c}));
      run := [DeleteOne(key, c)] + run;
      assert st.cronJobs - {c} - (gone - {c}) == st.cronJobs - gone && todo - {c} - (gone - {c}) == todo - gone;
    }
  }

  lemma DeletesOne(st: State, key: NamespacedName, s: SetView, todo: set<NamespacedName>, c: NamespacedName)
    requires key in st.active && st.active[key] == Deleting(s, todo) && c in todo && c in st.cronJobs
    ensures var next := DeletedOne(st, key, c);
            && Next(st, DeleteOne(key, c)) == next
            && next.nodes == st.nodes && next.sets == st.sets && next.recorded == st.recorded
            && st.queue <= next.queue
            && next.active == st.active[key := Deleting(s, todo - {c})] && next.cronJobs == st.cronJobs - {c}
  {
  }

  /** If the first names can be served, so can fewer. */
  lemma {:induction false} FewerServed(store: ChildStore, s: SetView, names: seq<string>, i: nat, n: nat)
    requires i <= n <= |names| && EnsuredFirst(store, s, names, n).Some?
    ensures EnsuredFirst(store, s, names, i).Some?
    decreases n - i
  {
    if i < n {
      FewerServed(store, s, names, i, n - 1);
    }
  }

  function Left(names: seq<string>, i: nat): set<string>
    requires i <= |names|
  {
    Firsts(names, |names|) - Firsts(names, i)
  }

  /** The create loop, as far as it gets. */
  lemma {:induction false} Creates(st: State, key: NamespacedName, s: SetView, base: ChildStore, names: seq<string>,
                                   i: nat, n: nat, after: ChildStore) returns (run: seq<Action>)
    requires Distinct(names) && i <= n <= |names|
    requires EnsuredFirst(base, s, names, i) == Some(st.cronJobs) && EnsuredFirst(base, s, names, n) == Some(after)
    requires key in st.active && st.active[key] == Creating(s, Left(names, i))
    ensures Reached(st, run, key, Creating(s, Left(names, n)), after, true)
    decreases n - i
  {
    if i == n {
      run := [];
      assert st.active[key := Creating(s, Left(names, i))] == st.active;
    } else {
      FewerServed(base, s, names, i + 1, n);
      CreatesOne(st, key, s, names, i);
      var next := CreatedOne(st, key, names[i]);
      run := Creates(next, key, s, base, names, i + 1, n, after);
      ReachedAfter(st, CreateOne(key, names[i]), next, run, key, Creating(s, Left(names, n)), after);
      run := [CreateOne(key, names[i])] + run;
    }
  }

  /** One tame step of the reconcile more at the front. */
  lemma ReachedAfter(st: State, a: Action, next: State, rest: seq<Action>, key: NamespacedName, pc: Pc,
                     store: ChildStore)
    requires Enabled(st, a) && Tame(st, a) && Next(st, a) == next && Reached(next, rest, key, pc, store, true)
    requires next.nodes == st.nodes && next.sets == st.sets && st.queue <= next.queue && next.recorded == st.recorded
    requires key in next.active && next.active == st.active[key := next.active[key]]
    ensures Reached(st, [a] + rest, key, pc, store, true)
  {
    RunStep(st, a, rest);
    assert st.active[key := next.active[key]][key := pc] == st.active[key := pc];
  }

  lemma CreatesOne(st: State, key: NamespacedName, s: SetView, names: seq<string>, i: nat)
    requires Distinct(names) && i < |names| && Ensured(st.cronJobs, s, names[i]).Some?
    requires key in st.active && st.active[key] == Creating(s, Left(names, i))
    ensures Enabled(st, CreateOne(key, names[i]))
    ensures var next := CreatedOne(st, key, names[i]);
            && next.nodes == st.nodes && next.sets == st.sets && next.recorded == st.recorded
            && st.queue <= next.queue
            && next.active == st.active[key := Creating(s, Left(names, i + 1))]
            && next.cronJobs == Ensured(st.cronJobs, s, names[i]).value
  {
    assert names[..|names|] == names;
    forall j | 0 <= j < i ensures names[..i][j] != names[i] {
      assert names[..i][j] == names[j];
    }
    assert names[i] in Left(names, i);
    assert Left(names, i) - {names[i]} == Left(names, i + 1);
  }

  /** From the list of nodes to the end of the delete phase, however it ends. */
  lemma DeletePhaseRuns(st: State, key: NamespacedName, s: SetView, gone: set<NamespacedName>, logged: bool)
    returns (run: seq<Action>)
    requires WellMade(st.cronJobs) && key in st.active && st.active[key] == Fetched(s)
    requires gone <= Stale(st.cronJobs, NodeLabels(st.nodes), s)
    requires !logged ==> gone == Stale(st.cronJobs, NodeLabels(st.nodes), s)
    ensures Reached(st, run, key, Deleted(s), st.cronJobs - gone, !logged)
  {
    var live := Want(st, s);
    var stale := Mismatched(st.cronJobs, s, live);
    MismatchedIsStale(st, s);
    WorksTwice(st, key, Goto(st, key, NodesListed(s, live)), NodesListed(s, live), Deleting(s, stale));
    run := [Work(key)] + [Work(key)];
    var st2 := Final(st, run);
    var deletes := Deletes(st2, key, s, stale, gone);
    ReachedThen(st, run, st2, deletes, key, Deleting(s, stale), Deleting(s, stale - gone), st.cronJobs,
                st.cronJobs - gone, true);
    run := run + deletes;
    var st3 := Final(st, run);
    var last;
    if stale - gone == {} {
      Works(st3, key, Deleted(s));
      last := [Work(key)];
    } else {
      Logs(st3, key, s);
      last := [Fail(key)];
    }
    ReachedThen(st, run, st3, last, key, Deleting(s, stale - gone), Deleted(s), st.cronJobs - gone,
                st.cronJobs - gone, !logged);
    run := run + last;
  }

  /** From the end of the delete phase, when the list of nodes fails. */
  lemma UnlistedRuns(st: State, key: NamespacedName, s: SetView) returns (run: seq<Action>)
    requires key in st.active && st.active[key] == Deleted(s)
    ensures Ended(st, run, key, true, st.cronJobs, st.recorded, true)
  {
    Errs(st, key);
    run := [Fail(key)];
  }

  /** From the end of the delete phase to the end, when the nodes are listed. */
  lemma CreatePhaseRuns(st: State, key: NamespacedName, s: SetView, names: seq<string>, n: nat, after: ChildStore,
                        err: bool) returns (run: seq<Action>)
    requires key in st.active && st.active[key] == Deleted(s) && At(st.sets, key) == Some(StoredSet(s, false))
    requires Distinct(names) && Firsts(names, |names|) == Want(st, s) && n <= |names| && (!err ==> n == |names|)
    requires EnsuredFirst(st.cronJobs, s, names, n) == Some(after)
    ensures Ended(st, run, key, err, after, Told(st, key, s, after, err), true)
  {
    assert Want(st, s) == Left(names, 0);
    Works(st, key, Creating(s, Left(names, 0)));
    run := [Work(key)];
    var st1 := Final(st, run);
    var creates := Creates(st1, key, s, st.cronJobs, names, 0, n, after);
    ReachedThen(st, run, st1, creates, key, Creating(s, Left(names, 0)), Creating(s, Left(names, n)), st.cronJobs,
                after, true);
    run := run + creates;
    var st2 := Final(st, run);
    assert Want(st2, s) == Want(st, s);
    var last := StatusRuns(st2, key, s, names, n, err);
    ReachedThenEnded(st, run, st2, last, key, Creating(s, Left(names, n)), after, after, err,
                     Told(st, key, s, after, err), true);
    run := run + last;
  }

  /** From the create loop to the end. */
  lemma StatusRuns(st: State, key: NamespacedName, s: SetView, names: seq<string>, n: nat, err: bool)
    returns (run: seq<Action>)
    requires n <= |names| && (!err ==> n == |names|) && At(st.sets, key) == Some(StoredSet(s, false))
    requires key in st.active && st.active[key] == Creating(s, Left(names, n))
    ensures Ended(st, run, key, err, st.cronJobs, Told(st, key, s, st.cronJobs, err), true)
  {
    if err {
      Errs(st, key);
      run := [Fail(key)];
    } else {
      assert Left(names, n) == {};
      StatusPhaseRuns(st, key, s, Counts(|Want(st, s)|, |Children(st.cronJobs, s.ns, s.name)|));
      run := StatusPhase(key);
    }
  }

  /** Pop and Get. */
  lemma PopRuns(st: State, key: NamespacedName) returns (run: seq<Action>)
    requires Live(st, key) && key in st.queue && key !in st.active
    ensures IsRun(st, run) && TameRun(st, run)
    ensures Final(st, run) == Goto(st, key, Fetched(st.sets[key].view)).(queue := st.queue - {key})
    ensures Final(st, run).active - {key} == st.active
  {
    var popped := Next(st, Pop(key));
    RunStep(popped, Work(key), []);
    RunStep(st, Pop(key), [Work(key)] + []);
    run := [Pop(key)] + ([Work(key)] + []);
    assert popped.active[key := Fetched(st.sets[key].view)] == st.active[key := Fetched(st.sets[key].view)];
  }

  /** A reconcile that has fetched its set, with any faults from there on. */
  lemma FetchedRuns(st: State, key: NamespacedName, s: SetView, before: ChildStore, nodes: map<string, Labels>,
                    after: ChildStore, f: Faults, err: bool, t: Trace) returns (run: seq<Action>)
    requires st.cronJobs == before && NodeLabels(st.nodes) == nodes
    requires WellMade(before) && key in st.active && st.active[key] == Fetched(s)
    requires At(st.sets, key) == Some(StoredSet(s, false))
    requires Traced(before, after, nodes, s, f, err, t)
    ensures Ended(st, run, key, err, after, Told(st, key, s, after, err), !t.logged)
  {
    run := DeletePhaseRuns(st, key, s, t.gone, t.logged);
    var mid := Final(st, run);
    var back := RestRuns(mid, key, s, before, nodes, after, f, err, t);
    assert Want(mid, s) == Want(st, s);
    ReachedThenEnded(st, run, mid, back, key, Deleted(s), st.cronJobs - t.gone, after, err,
                     Told(st, key, s, after, err), !t.logged);
    run := run + back;
  }

  /** What follows the delete phase. */
  lemma RestRuns(st: State, key: NamespacedName, s: SetView, before: ChildStore, nodes: map<string, Labels>,
                 after: ChildStore, f: Faults, err: bool, t: Trace) returns (run: seq<Action>)
    requires key in st.active && st.active[key] == Deleted(s) && At(st.sets, key) == Some(StoredSet(s, false))
    requires before - t.gone == st.cronJobs && NodeLabels(st.nodes) == nodes
    requires Traced(before, after, nodes, s, f, err, t)
    ensures Ended(st, run, key, err, after, Told(st, key, s, after, err), true)
  {
    if f.applies.ListFails? {
      assert t.served == 0 by {
        if t.names != [] {
          NameListed(t.names, 0);
        }
      }
      run := UnlistedRuns(st, key, s);
    } else {
      run := CreatePhaseRuns(st, key, s, t.names, t.served, after, err);
    }
  }

  /** Whatever calls fail after the Get, a reconcile with that trace is a run of the state machine: it
      leaves the CronJobs as the reconciler does and records the same counts, it is queued again if it
      returned an error or the counts were news, and every other reconcile stands where it stood. */
  lemma ReconcileIsRun(st: State, key: NamespacedName, after: ChildStore, f: Faults, err: bool, t: Trace)
    returns (run: seq<Action>)
    requires WellMade(st.cronJobs) && Live(st, key) && key in st.queue && key !in st.active
    requires Traced(st.cronJobs, after, NodeLabels(st.nodes), st.sets[key].view, f, err, t)
    ensures IsRun(st, run) && (!t.logged ==> TameRun(st, run))
    ensures var end := Final(st, run);
            && end.nodes == st.nodes && end.sets == st.sets && end.active == st.active
            && end.cronJobs == after && end.recorded == Told(st, key, st.sets[key].view, after, err)
            && (err ==> key in end.queue) && (end.recorded != st.recorded ==> OwnerOf(key) in end.events)
  {
    var s := st.sets[key].view;
    var front := PopRuns(st, key);
    var fetched := Final(st, front);
    assert Want(fetched, s) == Want(st, s);
    var back := FetchedRuns(fetched, key, s, st.cronJobs, NodeLabels(st.nodes), after, f, err, t);
    run := front + back;
    AfterPop(st, front, fetched, back, key, err, after, Told(st, key, s, after, err), !t.logged);
  }

  lemma AfterPop(st: State, front: seq<Action>, fetched: State, back: seq<Action>, key: NamespacedName, err: bool,
                 after: ChildStore, told: map<NamespacedName, Counts>, tame: bool)
    requires IsRun(st, front) && TameRun(st, front) && fetched == Final(st, front)
    requires fetched.nodes == st.nodes && fetched.sets == st.sets && fetched.recorded == st.recorded
    requires fetched.active - {key} == st.active && Ended(fetched, back, key, err, after, told, tame)
    ensures IsRun(st, front + back) && (tame ==> TameRun(st, front + back))
    ensures var end := Final(st, front + back);
            && end.nodes == st.nodes && end.sets == st.sets && end.active == st.active
            && end.cronJobs == after && end.recorded == told
            && (err ==> key in end.queue) && (told != st.recorded ==> OwnerOf(key) in end.events)
  {
    RunsJoin(st, front, back);
    if tame {
      TameRunsJoin(st, front, back);
    }
  }

  /** A failed Get, and a set that is gone or going. */
  lemma EmptyReconcileIsRun(st: State, key: NamespacedName, getFails: bool) returns (run: seq<Action>)
    requires key in st.queue && key !in st.active && (getFails || !Live(st, key))
    ensures IsRun(st, run) && TameRun(st, run)
    ensures var end := Final(st, run);
            && end == st.(queue := if getFails then st.queue else st.queue - {key})
  {
    var popped := Next(st, Pop(key));
    var last := if getFails then Fail(key) else Work(key);
    RunStep(popped, last, []);
    RunStep(st, Pop(key), [last] + []);
    run := [Pop(key)] + ([last] + []);
    assert popped.active - {key} == st.active;
    assert st.queue - {key} + {key} == st.queue;
  }

  /** The counts that each status is up to date for. */
  function UpToDate(status: map<NamespacedName, SetStatus>): map<NamespacedName, Counts> {
    map key | key in status && CountedStatus(status[key], status[key].desired, status[key].available) == status[key] ::
      Counts(status[key].desired, status[key].available)
  }

  /** Counts written once are up to date, and writing them changes the status exactly if they were not. */
  lemma WritingCounts(status: map<NamespacedName, SetStatus>, key: NamespacedName, c: Counts)
    ensures var w := CountedStatus(StatusOf(status, key), c.desired, c.available);
            && UpToDate(status[key := w]) == UpToDate(status)[key := c]
            && (w != StatusOf(status, key) <==> At(UpToDate(status), key) != Some(c))
  {
    var prior := StatusOf(status, key);
    PairTwice(prior.conditions, AVAILABLE, DEGRADED, false, "Reconciling", "Too much cronjobs");
    PairTwice(prior.conditions, AVAILABLE, DEGRADED, false, "Reconciling", "Too few cronjobs");
    PairTwice(prior.conditions, AVAILABLE, DEGRADED, true, "OK", "");
    var w := CountedStatus(prior, c.desired, c.available);
    assert CountedStatus(w, c.desired, c.available) == w;
    assert key !in status ==> w != prior;
  }

  /** A set that is right says that it is available, unless its conditions had been tampered with. */
  lemma RightIsAvailable(status: map<NamespacedName, SetStatus>, st: State, key: NamespacedName)
    requires st.recorded == UpToDate(status) && Right(st, key)
    ensures key in status && status[key].desired == status[key].available == |Want(st, st.sets[key].view)|
    ensures UniqueKinds(status[key].conditions) ==> IsTrue(status[key].conditions, AVAILABLE)
  {
    if UniqueKinds(status[key].conditions) {
      CountedStatusTells(status[key], status[key].desired, status[key].available);
    }
  }

  /** The run does to the state machine's copy what the reconcile did to CronJobs and status: a reconcile
      that failed is queued again, one that changed the status of its set has made an event of it. */
  ghost predicate Mirrors(st: State, run: seq<Action>, key: NamespacedName, cronJobs: ChildStore,
                          before: map<NamespacedName, SetStatus>, after: map<NamespacedName, SetStatus>, err: bool) {
    && IsRun(st, run)
    && var end := Final(st, run);
       && end.nodes == st.nodes && end.sets == st.sets && end.active == st.active
       && end.cronJobs == cronJobs && end.recorded == UpToDate(after)
       && (err ==> key in end.queue)
       && (StatusOf(after, key) != StatusOf(before, key) ==> OwnerOf(key) in end.events)
  }

  lemma ServedMirrors(st: State, key: NamespacedName, before: map<NamespacedName, SetStatus>, cronJobs: ChildStore,
                      after: map<NamespacedName, SetStatus>, f: Faults, err: bool, t: Trace)
    returns (run: seq<Action>)
    requires WellMade(st.cronJobs) && Live(st, key) && key in st.queue && key !in st.active
    requires st.recorded == UpToDate(before)
    requires Traced(st.cronJobs, cronJobs, NodeLabels(st.nodes), st.sets[key].view, f, err, t)
    requires if err then after == before
             else Recorded(before, after, key, cronJobs, NodeLabels(st.nodes), st.sets[key].view)
    ensures Mirrors(st, run, key, cronJobs, before, after, err) && (!t.logged ==> TameRun(st, run))
  {
    var s := st.sets[key].view;
    run := ReconcileIsRun(st, key, cronJobs, f, err, t);
    if !err {
      WritingCounts(before, key, Counts(|Want(st, s)|, |Children(cronJobs, s.ns, s.name)|));
    }
  }

  /** The reconciler itself, on a store that is the state machine's: for all faults there is a run of the
      machine that mirrors it, and a tame one if no delete fails. */
  method ReconcileRefines(r: Reconciler, key: NamespacedName, f: Faults, ghost st: State)
    returns (err: bool, ghost run: seq<Action>)
    requires r.Valid()
    requires st.cronJobs == r.cronJobs && st.sets == r.sets && NodeLabels(st.nodes) == r.nodes
    requires st.recorded == UpToDate(r.status)
    requires key in st.queue && key !in st.active
    modifies r
    ensures Mirrors(st, run, key, r.cronJobs, old(r.status), r.status, err)
    ensures f.deletes.NoFault? ==> TameRun(st, run)
  {
    ghost var before := r.status;
    var deleted, made;
    ghost var t;
    err, deleted, made, t := r.Reconcile(key, f);
    if f.get || !Live(st, key) {
      run := EmptyReconcileIsRun(st, key, f.get);
    } else {
      run := ServedMirrors(st, key, before, r.cronJobs, r.status, f, err, t);
    }
  }

  lemma {:induction false} NoneTaken(store: ChildStore, nodes: map<string, Labels>, s: SetView, names: seq<string>,
                                     i: nat)
    requires WellMade(store) && i <= |names| && Firsts(names, |names|) <= MatchingNodes(nodes, s.selector)
    requires forall n | n in MatchingNodes(nodes, s.selector) :: !Taken(store, s, n)
    ensures EnsuredFirst(store, s, names, i).Some?
  {
    if i > 0 {
      NoneTaken(store, nodes, s, names, i - 1);
      ApplyNodes(store, s, names, i - 1);
      var r := EnsuredFirst(store, s, names, i - 1).value;
      ApplyProgress(store, nodes, s, names, i - 1, r);
      assert names[..|names|][i - 1] == names[i - 1];
      TakenKept(store, r, s, names[i - 1]);
      TakenFails(r, s, names[i - 1]);
    }
  }

  lemma {:induction false} InSomeOrder(xs: set<string>) returns (names: seq<string>)
    ensures Distinct(names) && Firsts(names, |names|) == xs
    decreases xs
  {
    if xs == {} {
      names := [];
    } else {
      var x :| x in xs;
      var rest := InSomeOrder(xs - {x});
      names := rest + [x];
      assert rest[..|rest|] == rest && names[..|names|] == names;
      forall j | 0 <= j < |rest| ensures rest[j] != x {
        assert rest[j] in Firsts(rest, |rest|);
      }
      assert Firsts(names, |names|) == Firsts(rest, |rest|) + {x} by {
        assert forall y :: y in names <==> y in rest || y == x;
      }
    }
  }

  lemma DeletesTakeNothing(store: ChildStore, nodes: map<string, Labels>, s: SetView)
    requires WellMade(store)
    requires forall n | n in MatchingNodes(nodes, s.selector) :: !Taken(store, s, n)
    ensures WellMade(store - Stale(store, nodes, s))
    ensures forall n | n in MatchingNodes(nodes, s.selector) :: !Taken(store - Stale(store, nodes, s), s, n)
    ensures ChildNodes(store - Stale(store, nodes, s), s) <= MatchingNodes(nodes, s.selector)
  {
    DeletePhase(store, nodes, s, Stale(store, nodes, s));
    forall n | n in MatchingNodes(nodes, s.selector) ensures !Taken(store - Stale(store, nodes, s), s, n) {
      TakenKept(store, store - Stale(store, nodes, s), s, n);
    }
  }

  /** Without a name in other hands the two phases, one after the other, reach exactly the matching nodes. */
  lemma PhasesReach(store: ChildStore, nodes: map<string, Labels>, s: SetView, names: seq<string>)
    requires WellMade(store) && Firsts(names, |names|) == MatchingNodes(nodes, s.selector)
    requires forall n | n in MatchingNodes(nodes, s.selector) :: !Taken(store, s, n)
    ensures var r := EnsuredFirst(store - Stale(store, nodes, s), s, names, |names|);
            r.Some? && WellMade(r.value) && ChildNodes(r.value, s) == MatchingNodes(nodes, s.selector)
  {
    var kept := store - Stale(store, nodes, s);
    DeletesTakeNothing(store, nodes, s);
    NoneTaken(kept, nodes, s, names, |names|);
    ApplyNodes(kept, s, names, |names|);
  }

  /** From any state at all, a queued set whose names nobody else holds can become right by the steps
      of its own reconcile, however out of date it is. */
  lemma QueuedCanBecomeRight(st: State, key: NamespacedName) returns (run: seq<Action>)
    requires WellMade(st.cronJobs) && Keyed(st) && Live(st, key) && key in st.queue && key !in st.active
    requires forall n | n in Want(st, st.sets[key].view) :: !Taken(st.cronJobs, st.sets[key].view, n)
    ensures IsRun(st, run) && TameRun(st, run)
    ensures Right(Final(st, run), key) && key !in Final(st, run).active
  {
    var s := st.sets[key].view;
    var names := InSomeOrder(Want(st, s));
    var stale := Stale(st.cronJobs, NodeLabels(st.nodes), s);
    PhasesReach(st.cronJobs, NodeLabels(st.nodes), s, names);
    var after := EnsuredFirst(st.cronJobs - stale, s, names, |names|).value;
    run := ReconcileIsRun(st, key, after, Faults(false, NoFault, NoFault, false), false,
                          Trace(stale, false, names, |names|));
    DistinctNodes(after, s, Children(after, s.ns, s.name));
    assert Want(Final(st, run), s) == Want(st, s);
  }

  /** So a set that was forgotten is not lost: a resync of the watch queues it, and it can become right. */
  lemma ResyncCures(st: State, key: NamespacedName) returns (run: seq<Action>)
    requires WellMade(st.cronJobs) && Keyed(st) && Live(st, key) && key !in st.active
    requires forall n | n in Want(st, st.sets[key].view) :: !Taken(st.cronJobs, st.sets[key].view, n)
    ensures IsRun(st, run) && TameRun(st, run)
    ensures Right(Final(st, run), key) && key !in Final(st, run).active
  {
    var queued := Next(st, Resync(key));
    run := QueuedCanBecomeRight(queued, key);
    RunStep(st, Resync(key), run);
    run := [Resync(key)] + run;
  }
}
