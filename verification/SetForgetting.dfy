/** Which steps can make the DaemonCronJobSet controller forget a set, exactly: the guards of SetRuns are
    not only enough, without them a set can end up wrong with nothing left to look at it. */
module SetForgetting {
  import opened Kube
  import opened CronJobSets
  import opened Selectors
  import opened SetStore
  import opened SetReconciler
  import opened SetRuns

  // ---- Exactly the tame steps ----

  /** The set or its status is wrong, and of all that has happened nothing will have it looked at again:
      only a prompt from outside, which `Resync` and `Restart` model, still can, such as the resync of the
      watch or an update of a CronJob of the set, which every firing of a leftover one makes. */
  ghost predicate Forgotten(st: State, key: NamespacedName) {
    Live(st, key) && !Armed(st, key) && key !in st.active && !Right(st, key)
  }

  ghost predicate Forgets(st: State, run: seq<Action>, key: NamespacedName) {
    IsRun(st, run) && TameRun(st, run) && Forgotten(Final(st, run), key)
  }

  ghost predicate NeverForgets(st: State, key: NamespacedName) {
    forall run: seq<Action> | IsRun(st, run) && TameRun(st, run) :: !Forgotten(Final(st, run), key)
  }

  lemma ForgetsLater(st: State, a: Action, rest: seq<Action>, key: NamespacedName)
    requires Enabled(st, a) && Tame(st, a) && Forgets(Next(st, a), rest, key)
    ensures Forgets(st, [a] + rest, key)
  {
    RunStep(st, a, rest);
  }

  /** A reconcile of the set as it is, with nothing that will queue the set again. */
  ghost predicate Alone(st: State, key: NamespacedName, s: SetView) {
    && WellMade(st.cronJobs) && Keyed(st) && Live(st, key) && !Armed(st, key)
    && st.sets[key].view == s && key in st.active
  }

  /** The reconcile moves on, and nothing else changes. */
  lemma Onward(st: State, key: NamespacedName, s: SetView, pc: Pc, next: State)
    requires Alone(st, key, s) && !pc.Popped? && pc.s == s && next == Goto(st, key, pc)
    ensures Alone(next, key, s) && next.active[key] == pc && next.cronJobs == st.cronJobs
    ensures Want(next, s) == Want(st, s) && next.recorded == st.recorded
  {
  }

  lemma WorkForgets(st: State, key: NamespacedName, next: State, rest: seq<Action>)
    requires Enabled(st, Work(key)) && Worked(st, key) == next && Forgets(next, rest, key)
    ensures Forgets(st, [Work(key)] + rest, key)
  {
    ForgetsLater(st, Work(key), rest, key);
  }

  /** The status write finds nothing to write. */
  lemma FromAllCounted(st: State, key: NamespacedName, s: SetView, c: Counts) returns (run: seq<Action>)
    requires Alone(st, key, s) && st.active[key] == AllCounted(s, c.desired, c.available)
    requires At(st.recorded, key) == Some(c) && !Agrees(Some(c), Have(st.cronJobs, key), Want(st, s))
    ensures Forgets(st, run, key)
  {
    var done := Done(st, key);
    assert Want(done, s) == Want(st, s);
    SettledIsRight(done, key);
    WorkForgets(st, key, done, []);
    run := [Work(key)] + [];
  }

  lemma FromNodesCounted(st: State, key: NamespacedName, s: SetView, desired: nat) returns (run: seq<Action>)
    requires Alone(st, key, s) && st.active[key] == NodesCounted(s, desired)
    requires At(st.recorded, key) == Some(Counts(desired, |Have(st.cronJobs, key)|))
    requires !Agrees(At(st.recorded, key), Have(st.cronJobs, key), Want(st, s))
    ensures Forgets(st, run, key)
  {
    ChildCount(st, key);
    var c := st.recorded[key];
    var next := Goto(st, key, AllCounted(s, desired, c.available));
    Onward(st, key, s, AllCounted(s, desired, c.available), next);
    run := FromAllCounted(next, key, s, c);
    WorkForgets(st, key, next, run);
    run := [Work(key)] + run;
  }

  /** A node the set has no CronJob on can leave without the set being told. */
  lemma QuietRemoval(st: State, key: NamespacedName, n: string)
    requires Live(st, key) && !Armed(st, key) && n in st.nodes && n !in Have(st.cronJobs, key)
    ensures var terminating := Next(st, TerminateNode(n));
            && Enabled(terminating, RemoveNode(n))
            && Next(terminating, RemoveNode(n)) == Emit(st.(nodes := st.nodes - {n}), OnNode(n))
            && !Armed(Emit(st.(nodes := st.nodes - {n}), OnNode(n)), key)
  {
    assert st.nodes[n := st.nodes[n].(terminating := true)] - {n} == st.nodes - {n};
    assert forall e | e in Emit(st, OnNode(n)).events :: e in st.events || e == OnNode(n);
  }

  lemma ForgetsWithout(st: State, key: NamespacedName, n: string, run: seq<Action>)
    requires Live(st, key) && !Armed(st, key) && n in st.nodes && n !in Have(st.cronJobs, key)
    requires Forgets(Emit(st.(nodes := st.nodes - {n}), OnNode(n)), run, key)
    ensures Forgets(st, [TerminateNode(n)] + ([RemoveNode(n)] + run), key)
  {
    QuietRemoval(st, key, n);
    ForgetsLater(Next(st, TerminateNode(n)), RemoveNode(n), run, key);
    ForgetsLater(st, TerminateNode(n), [RemoveNode(n)] + run, key);
  }

  lemma OneNodeLess(st: State, key: NamespacedName, s: SetView, n: string, next: State)
    requires Alone(st, key, s) && n in Want(st, s) && n !in Have(st.cronJobs, key)
    requires next == Emit(st.(nodes := st.nodes - {n}), OnNode(n))
    ensures Alone(next, key, s) && next.active == st.active && next.cronJobs == st.cronJobs
    ensures Want(next, s) == Want(st, s) - {n} && next.recorded == st.recorded
  {
    QuietRemoval(st, key, n);
    RemovalMovesWant(st, s, n);
  }

  /** As long as more nodes match than the status says, one of them has no CronJob. */
  lemma OneTooMany(told: Option<Counts>, have: set<string>, want: set<string>) returns (n: string)
    requires !Heeded(told, have, want) && |want| != told.value.desired
    ensures n in want && n !in have && !Heeded(told, have, want - {n})
  {
    assert want <= have ==> want * have == want;
    n :| n in want && n !in have;
    assert (want - {n}) * have == want * have;
  }

  lemma AsTold(told: Option<Counts>, have: set<string>, want: set<string>)
    requires !Heeded(told, have, want) && |want| == told.value.desired
    ensures told == Some(Counts(|want|, |have|)) && !Agrees(told, have, want)
  {
  }

  /** Nodes without a CronJob leave until as many are left as the status says. */
  lemma {:induction false} FromApplied(st: State, key: NamespacedName, s: SetView) returns (run: seq<Action>)
    requires Alone(st, key, s) && st.active[key] == Applied(s)
    requires !Heeded(At(st.recorded, key), Have(st.cronJobs, key), Want(st, s))
    ensures Forgets(st, run, key)
    decreases Want(st, s)
  {
    var have, want, told := Have(st.cronJobs, key), Want(st, s), At(st.recorded, key);
    if |want| == told.value.desired {
      AsTold(told, have, want);
      var next := Goto(st, key, NodesCounted(s, |want|));
      Onward(st, key, s, NodesCounted(s, |want|), next);
      run := FromNodesCounted(next, key, s, |want|);
      WorkForgets(st, key, next, run);
      run := [Work(key)] + run;
    } else {
      var n := OneTooMany(told, have, want);
      var next := Emit(st.(nodes := st.nodes - {n}), OnNode(n));
      OneNodeLess(st, key, s, n, next);
      run := FromApplied(next, key, s);
      ForgetsWithout(st, key, n, run);
      run := [TerminateNode(n)] + ([RemoveNode(n)] + run);
    }
  }

  lemma CreatingAgain(st: State, key: NamespacedName, s: SetView, todo: set<string>, n: string)
    requires WellMade(st.cronJobs) && KeyOf(s) == key && key in st.active && st.active[key] == Creating(s, todo)
    requires n in todo && n in Have(st.cronJobs, key)
    ensures CreatedOne(st, key, n) == Goto(st, key, Creating(s, todo - {n}))
  {
    ChildNodeIffKey(st.cronJobs, s, n);
    assert Ensured(st.cronJobs, s, n) == Some(st.cronJobs);
  }

  /** Creating what is there already writes nothing, so nothing queues the set. */
  lemma {:induction false} CreatesNothing(st: State, key: NamespacedName, s: SetView, todo: set<string>)
    returns (run: seq<Action>)
    requires WellMade(st.cronJobs) && KeyOf(s) == key
    requires key in st.active && st.active[key] == Creating(s, todo) && todo <= Have(st.cronJobs, key)
    ensures IsRun(st, run) && TameRun(st, run) && Final(st, run) == Goto(st, key, Creating(s, {}))
    decreases todo
  {
    if todo == {} {
      run := [];
      assert st.active[key := Creating(s, {})] == st.active;
    } else {
      var n :| n in todo;
      var next := Goto(st, key, Creating(s, todo - {n}));
      CreatingAgain(st, key, s, todo, n);
      run := CreatesNothing(next, key, s, todo - {n});
      RunStep(st, CreateOne(key, n), run);
      run := [CreateOne(key, n)] + run;
      GotoTwice(st, key, Creating(s, todo - {n}), Creating(s, {}));
    }
  }

  lemma RunForgets(st: State, key: NamespacedName, front: seq<Action>, back: seq<Action>)
    requires IsRun(st, front) && TameRun(st, front) && Forgets(Final(st, front), back, key)
    ensures Forgets(st, front + back, key)
  {
    Joined(st, front, back);
  }

  lemma FromCreating(st: State, key: NamespacedName, s: SetView, todo: set<string>) returns (run: seq<Action>)
    requires Alone(st, key, s) && st.active[key] == Creating(s, todo) && todo <= Have(st.cronJobs, key)
    requires !Heeded(At(st.recorded, key), Have(st.cronJobs, key), Want(st, s))
    ensures Forgets(st, run, key)
  {
    var front := CreatesNothing(st, key, s, todo);
    var created := Goto(st, key, Creating(s, {}));
    Onward(st, key, s, Creating(s, {}), created);
    var applied := Goto(created, key, Applied(s));
    Onward(created, key, s, Applied(s), applied);
    run := FromApplied(applied, key, s);
    WorkForgets(created, key, applied, run);
    RunForgets(st, key, front, [Work(key)] + run);
    run := front + ([Work(key)] + run);
  }

  lemma DeletedHasNothingToCreate(st: State, key: NamespacedName, s: SetView) returns (run: seq<Action>)
    requires Alone(st, key, s) && st.active[key] == Deleted(s) && Want(st, s) <= Have(st.cronJobs, key)
    requires !Noticed(At(st.recorded, key), Have(st.cronJobs, key), Want(st, s))
    ensures Forgets(st, run, key)
  {
    var have, want := Have(st.cronJobs, key), Want(st, s);
    assert want * have == want;
    var next := Goto(st, key, Creating(s, want));
    Onward(st, key, s, Creating(s, want), next);
    run := FromCreating(next, key, s, want);
    WorkForgets(st, key, next, run);
    run := [Work(key)] + run;
  }

  /** With a CronJob left on a node that does not match, what would queue the set again is news in the
      counts or something to create, and the nodes for that can leave. */
  lemma {:induction false} FromDeleted(st: State, key: NamespacedName, s: SetView) returns (run: seq<Action>)
    requires Alone(st, key, s) && st.active[key] == Deleted(s)
    requires !Noticed(At(st.recorded, key), Have(st.cronJobs, key), Want(st, s))
    ensures Forgets(st, run, key)
    decreases Want(st, s)
  {
    var have, want := Have(st.cronJobs, key), Want(st, s);
    if want <= have {
      run := DeletedHasNothingToCreate(st, key, s);
    } else {
      var n :| n in want && n !in have;
      var next := Emit(st.(nodes := st.nodes - {n}), OnNode(n));
      OneNodeLess(st, key, s, n, next);
      assert (want - {n}) * have == want * have;
      run := FromDeleted(next, key, s);
      ForgetsWithout(st, key, n, run);
      run := [TerminateNode(n)] + ([RemoveNode(n)] + run);
    }
  }

  /** The same before an empty delete loop. */
  lemma FromDeleting(st: State, key: NamespacedName, s: SetView) returns (run: seq<Action>)
    requires Alone(st, key, s) && st.active[key] == Deleting(s, {})
    requires !Noticed(At(st.recorded, key), Have(st.cronJobs, key), Want(st, s))
    ensures Forgets(st, run, key)
  {
    var next := Goto(st, key, Deleted(s));
    Onward(st, key, s, Deleted(s), next);
    run := FromDeleted(next, key, s);
    WorkForgets(st, key, next, run);
    run := [Work(key)] + run;
  }

  lemma FromNodesListed(st: State, key: NamespacedName, s: SetView, live: set<string>) returns (run: seq<Action>)
    requires Alone(st, key, s) && st.active[key] == NodesListed(s, live) && Have(st.cronJobs, key) <= live
    requires !Noticed(At(st.recorded, key), Have(st.cronJobs, key), Want(st, s))
    ensures Forgets(st, run, key)
  {
    NoMismatch(st, key);
    var next := Goto(st, key, Deleting(s, {}));
    Onward(st, key, s, Deleting(s, {}), next);
    run := FromDeleting(next, key, s);
    WorkForgets(st, key, next, run);
    run := [Work(key)] + run;
  }

  /** A set that is not covered can be forgotten by tame steps alone. */
  lemma UncoveredForgets(st: State, key: NamespacedName) returns (run: seq<Action>)
    requires Sound(st) && !Covered(st, key)
    ensures Forgets(st, run, key)
  {
    var s := st.sets[key].view;
    assert Current(st, key) && KeyOf(s) == key;
    if key !in st.active {
      SettledIsRight(st, key);
      run := [];
    } else {
      match st.active[key]
      case NodesListed(_, live) => run := FromNodesListed(st, key, s, live);
      case Deleting(_, _) => run := FromDeleting(st, key, s);
      case Deleted(_) => run := FromDeleted(st, key, s);
      case Creating(_, todo) => run := FromCreating(st, key, s, todo);
      case Applied(_) => run := FromApplied(st, key, s);
      case NodesCounted(_, desired) => run := FromNodesCounted(st, key, s, desired);
      case AllCounted(_, desired, available) => run := FromAllCounted(st, key, s, Counts(desired, available));
    }
  }

  /** Covered is exactly what it takes: a set is never forgotten if and only if it is covered. */
  lemma NeverForgetsExactly(st: State, key: NamespacedName)
    requires Sound(st)
    ensures NeverForgets(st, key) <==> Covered(st, key)
  {
    if Covered(st, key) {
      forall run: seq<Action> | IsRun(st, run) && TameRun(st, run) ensures !Forgotten(Final(st, run), key) {
        CoveredAlongRun(st, run, key);
        if key in Final(st, run).sets && key !in Final(st, run).active {
          SettledIsRight(Final(st, run), key);
        }
      }
    } else {
      var run := UncoveredForgets(st, key);
    }
  }

  lemma UntamedUncovers(st: State, a: Action) returns (key: NamespacedName)
    requires Inv(st) && Enabled(st, a) && !Tame(st, a)
    ensures !Covered(Next(st, a), key)
  {
    match a
    case UpdateNode(n, labels) =>
      key :| key in st.sets && Overlooks(st, key, n, labels);
      RelabelStep(st, n, labels, key);
    case Fail(k) =>
      key := k;
      FailStep(st, k, key);
    case Lose(e) =>
      key :| key in Requests(st, e) && Live(st, key) && !Armed(Lost(st, e), key) && !Settled(st, key);
      LossStep(st, e, key);
  }

  /** And the tame steps are exactly the steps after which no set can be forgotten. */
  lemma TameExactly(st: State, a: Action)
    requires Inv(st) && Enabled(st, a)
    ensures Tame(st, a) <==> forall key :: NeverForgets(Next(st, a), key)
  {
    SoundKept(st, a);
    forall key ensures NeverForgets(Next(st, a), key) <==> Covered(Next(st, a), key) {
      NeverForgetsExactly(Next(st, a), key);
    }
    if Tame(st, a) {
      forall key ensures Covered(Next(st, a), key) {
        assert Covered(st, key) && Current(st, key);
        StepKeeps(st, a, key);
      }
    } else {
      var key := UntamedUncovers(st, a);
    }
  }

  // ---- The three guards, from a state at rest ----

  function RelabelOf(st: State, n: string, labels: Labels): State
    requires n in st.nodes
  {
    st.(nodes := st.nodes[n := st.nodes[n].(labels := labels)])
  }

  /** At rest all is well. */
  lemma RestIsRight(st: State, key: NamespacedName)
    requires Inv(st) && Idle(st) && Live(st, key)
    ensures Right(st, key) && Agrees(At(st.recorded, key), Have(st.cronJobs, key), Want(st, st.sets[key].view))
  {
    assert Covered(st, key);
    SettledIsRight(st, key);
  }

  lemma StillAgrees(told: Option<Counts>, have: set<string>, want: set<string>, n: string, now: bool)
    requires Agrees(told, have, want)
    ensures Agrees(told, have, if now then want + {n} else want - {n}) <==> (n in have <==> now)
  {
    if n in have <==> now {
      assert (if now then want + {n} else want - {n}) == want;
    }
  }

  /** A relabel at rest and nothing else: all is well exactly when the set has a CronJob on the node just
      if the node matches. */
  lemma RelabelJudged(st: State, key: NamespacedName, n: string, labels: Labels, q: set<NamespacedName>, end: State)
    requires Inv(st) && Idle(st) && Live(st, key) && n in st.nodes && end == RelabelOf(st, n, labels).(queue := q)
    ensures Live(end, key) && key !in end.active && (Armed(end, key) <==> key in q)
    ensures Right(end, key) <==> (n in Have(st.cronJobs, key) <==> Matches(st.sets[key].view.selector, labels))
    ensures n in Have(st.cronJobs, key) <==> Matches(st.sets[key].view.selector, st.nodes[n].labels)
  {
    var s := st.sets[key].view;
    RestIsRight(st, key);
    RelabelMovesWant(st, s, n, st.nodes[n].(labels := labels));
    assert Want(end, s) == Want(RelabelOf(st, n, labels), s);
    StillAgrees(At(st.recorded, key), Have(st.cronJobs, key), Want(st, s), n, Matches(s.selector, labels));
    SettledIsRight(end, key);
    assert Right(end, key) <==> Settled(end, key);
    assert Settled(end, key) <==> Agrees(At(st.recorded, key), Have(st.cronJobs, key), Want(end, s));
  }

  lemma RelabelToldRuns(st: State, n: string, labels: Labels)
    requires Idle(st) && n in st.nodes && st.nodes[n].terminating && labels != st.nodes[n].labels
    ensures var run := [UpdateNode(n, labels), Deliver(OnNode(n))];
            IsRun(st, run) && Final(st, run) == RelabelOf(st, n, labels).(queue := SetsOnNode(st.cronJobs, n))
  {
    assert Next(st, UpdateNode(n, labels)) == RelabelOf(st, n, labels).(events := multiset{OnNode(n)});
    TwoSteps(st, UpdateNode(n, labels), Deliver(OnNode(n)));
  }

  lemma RelabelLostRuns(st: State, n: string, labels: Labels)
    requires Idle(st) && n in st.nodes && !st.nodes[n].terminating && labels != st.nodes[n].labels
    ensures var run := [UpdateNode(n, labels), Lose(AllSets)];
            IsRun(st, run) && Final(st, run) == RelabelOf(st, n, labels).(queue := {})
  {
    assert Next(st, UpdateNode(n, labels)) == RelabelOf(st, n, labels).(events := multiset{AllSets});
    TwoSteps(st, UpdateNode(n, labels), Lose(AllSets));
  }

  /** A terminating node is relabelled and the event delivered: a set comes out right exactly when it
      has a CronJob on the node or the node does not match it now; otherwise it is forgotten. */
  lemma RelabelledAtRest(st: State, key: NamespacedName, n: string, labels: Labels)
    requires Inv(st) && Idle(st) && Live(st, key)
    requires n in st.nodes && st.nodes[n].terminating && labels != st.nodes[n].labels
    ensures var run := [UpdateNode(n, labels), Deliver(OnNode(n))];
            && IsRun(st, run)
            && (key in Final(st, run).queue || Right(Final(st, run), key) <==>
                n in Have(st.cronJobs, key) || !Matches(st.sets[key].view.selector, labels))
            && (Forgotten(Final(st, run), key) <==> !(key in Final(st, run).queue || Right(Final(st, run), key)))
  {
    RelabelToldRuns(st, n, labels);
    var q := SetsOnNode(st.cronJobs, n);
    RelabelJudged(st, key, n, labels, q, RelabelOf(st, n, labels).(queue := q));
    OnNodeMeansChild(st.cronJobs, key, n);
  }

  /** A node is relabelled and the event lost: a set comes out right exactly when the node matches it
      now if and only if it did before. */
  lemma LostAtRest(st: State, key: NamespacedName, n: string, labels: Labels)
    requires Inv(st) && Idle(st) && Live(st, key)
    requires n in st.nodes && !st.nodes[n].terminating && labels != st.nodes[n].labels
    ensures var run := [UpdateNode(n, labels), Lose(AllSets)];
            var selector := st.sets[key].view.selector;
            && IsRun(st, run) && Idle(Final(st, run))
            && (Right(Final(st, run), key) <==> (Matches(selector, labels) <==> Matches(selector, st.nodes[n].labels)))
  {
    RelabelLostRuns(st, n, labels);
    RelabelJudged(st, key, n, labels, {}, RelabelOf(st, n, labels).(queue := {}));
  }

  /** A node is relabelled, the set is reconciled, and its delete phase fails. */
  function FailedDelete(key: NamespacedName, n: string, labels: Labels): seq<Action> {
    [UpdateNode(n, labels), Deliver(AllSets)] + ([Pop(key), Work(key)] + [Fail(key)])
  }

  lemma FailedDeleteRuns(st: State, key: NamespacedName, n: string, labels: Labels)
    requires Inv(st) && Idle(st) && Live(st, key)
    requires n in st.nodes && !st.nodes[n].terminating && labels != st.nodes[n].labels
    ensures IsRun(st, FailedDelete(key, n, labels)) && TameRun(st, FailedDelete(key, n, labels))
    ensures Final(st, FailedDelete(key, n, labels)) ==
            RelabelOf(st, n, labels).(queue := st.sets.Keys - {key}, active := map[key := Deleted(st.sets[key].view)])
  {
    var queued := RelabelOf(st, n, labels).(queue := st.sets.Keys);
    assert Next(st, UpdateNode(n, labels)) == RelabelOf(st, n, labels).(events := multiset{AllSets});
    assert Next(Next(st, UpdateNode(n, labels)), Deliver(AllSets)) == queued;
    TwoSteps(st, UpdateNode(n, labels), Deliver(AllSets));
    NewsAfterRelabel(st, key, n, labels);
    assert Want(queued, st.sets[key].view) == Want(RelabelOf(st, n, labels), st.sets[key].view);
    PopGetFail(queued, key);
    Joined(st, [UpdateNode(n, labels), Deliver(AllSets)], [Pop(key), Work(key)] + [Fail(key)]);
  }

  /** Counts that leave a CronJob out are not those of a rest. */
  lemma NewsAfterRelabel(st: State, key: NamespacedName, n: string, labels: Labels)
    requires Inv(st) && Idle(st) && Live(st, key) && n in st.nodes
    ensures Noticed(At(st.recorded, key), Have(st.cronJobs, key), Want(RelabelOf(st, n, labels), st.sets[key].view))
  {
    var have, want := Have(st.cronJobs, key), Want(RelabelOf(st, n, labels), st.sets[key].view);
    RestIsRight(st, key);
    SubsetSize(want * have, have);
  }

  lemma PopGet(st: State, key: NamespacedName)
    requires Live(st, key) && st.active == map[] && key in st.queue
    ensures var run := [Pop(key), Work(key)];
            && IsRun(st, run) && TameRun(st, run)
            && Final(st, run) == st.(queue := st.queue - {key}, active := map[key := Fetched(st.sets[key].view)])
  {
    var popped := st.(queue := st.queue - {key}, active := map[key := Popped]);
    assert Next(st, Pop(key)) == popped;
    assert Worked(popped, key) == popped.(active := map[key := Fetched(st.sets[key].view)]);
    TwoSteps(st, Pop(key), Work(key));
  }

  lemma FailFetched(st: State, key: NamespacedName, s: SetView)
    requires Live(st, key) && st.active == map[key := Fetched(s)]
    requires Noticed(At(st.recorded, key), Have(st.cronJobs, key), Want(st, st.sets[key].view))
    ensures IsRun(st, [Fail(key)]) && TameRun(st, [Fail(key)])
    ensures Final(st, [Fail(key)]) == st.(active := map[key := Deleted(s)])
  {
    assert Failed(st, key) == st.(active := map[key := Deleted(s)]);
    RunStep(st, Fail(key), []);
    assert [Fail(key)] + [] == [Fail(key)];
  }

  lemma PopGetFail(st: State, key: NamespacedName)
    requires Live(st, key) && st.active == map[] && key in st.queue
    requires Noticed(At(st.recorded, key), Have(st.cronJobs, key), Want(st, st.sets[key].view))
    ensures var run := [Pop(key), Work(key)] + [Fail(key)];
            && IsRun(st, run) && TameRun(st, run)
            && Final(st, run) == st.(queue := st.queue - {key}, active := map[key := Deleted(st.sets[key].view)])
  {
    PopGet(st, key);
    var fetched := Final(st, [Pop(key), Work(key)]);
    assert Want(fetched, st.sets[key].view) == Want(st, st.sets[key].view);
    FailFetched(fetched, key, st.sets[key].view);
    Joined(st, [Pop(key), Work(key)], [Fail(key)]);
  }

  /** A delete phase that fails, in any state: the set can be forgotten exactly when nothing is queued for
      it, a CronJob is left on a node that does not match, and the status already says what will be counted
      if nothing is created. */
  lemma FailedDeleteExactly(st: State, key: NamespacedName)
    requires Inv(st) && Live(st, key) && key in st.active && st.active[key].InDeletePhase()
    ensures var have, want := Have(st.cronJobs, key), Want(st, st.sets[key].view);
            NeverForgets(Next(st, Fail(key)), key) <==>
            Armed(st, key) || have <= want || At(st.recorded, key) != Some(Counts(|want * have|, |have|))
  {
    assert Covered(st, key);
    SoundKept(st, Fail(key));
    FailStep(st, key, key);
    NeverForgetsExactly(Next(st, Fail(key)), key);
  }

  /** What the set asks for after a node it matched has ceased to match. */
  lemma OneLeftOver(st: State, key: NamespacedName, n: string, labels: Labels)
    requires Inv(st) && Idle(st) && Live(st, key) && n in st.nodes
    requires Matches(st.sets[key].view.selector, st.nodes[n].labels) && !Matches(st.sets[key].view.selector, labels)
    ensures var have, want := Have(st.cronJobs, key), Want(RelabelOf(st, n, labels), st.sets[key].view);
            n in have && want == have - {n} && want * have == want && |want| + 1 == |have|
  {
    RestIsRight(st, key);
    RelabelMovesWant(st, st.sets[key].view, n, st.nodes[n].(labels := labels));
  }

  /** The first delete phase that fails after a rest does no harm: whether or not it leaves something, the
      counts are news, and writing them queues the set again. */
  lemma FailedAtRest(st: State, key: NamespacedName, n: string, labels: Labels)
    requires Inv(st) && Idle(st) && Live(st, key)
    requires n in st.nodes && !st.nodes[n].terminating && labels != st.nodes[n].labels
    ensures var run := FailedDelete(key, n, labels);
            IsRun(st, run) && TameRun(st, run) && NeverForgets(Final(st, run), key)
  {
    FailedDeleteRuns(st, key, n, labels);
    CoveredAlongRun(st, FailedDelete(key, n, labels), key);
    NeverForgetsExactly(Final(st, FailedDelete(key, n, labels)), key);
  }

  /** From the end of the delete phase to the end of a create loop that finds everything there. */
  lemma AgainCreates(st: State, key: NamespacedName, s: SetView) returns (run: seq<Action>)
    requires WellMade(st.cronJobs) && KeyOf(s) == key && key in st.active && st.active[key] == Deleted(s)
    requires Want(st, s) <= Have(st.cronJobs, key)
    ensures IsRun(st, run) && TameRun(st, run) && Final(st, run) == Goto(st, key, Creating(s, {}))
  {
    var creating := Goto(st, key, Creating(s, Want(st, s)));
    assert Next(st, Work(key)) == creating;
    run := CreatesNothing(creating, key, s, Want(st, s));
    RunStep(st, Work(key), run);
    GotoTwice(st, key, Creating(s, Want(st, s)), Creating(s, {}));
    run := [Work(key)] + run;
  }

  /** A reconcile whose delete phase has failed and that finds nothing to create, up to its status write. */
  lemma AgainCounts(st: State, key: NamespacedName, s: SetView, c: Counts) returns (run: seq<Action>)
    requires WellMade(st.cronJobs) && Keyed(st) && Live(st, key) && st.sets[key].view == s
    requires st.active == map[key := Deleted(s)] && Want(st, s) <= Have(st.cronJobs, key)
    requires c == Counts(|Want(st, s)|, |Have(st.cronJobs, key)|)
    ensures IsRun(st, run) && TameRun(st, run) && Final(st, run) == StatusWritten(st, key, s, c)
  {
    run := AgainCreates(st, key, s);
    var created := Goto(st, key, Creating(s, {}));
    assert Want(created, s) == Want(st, s);
    ChildCount(st, key);
    StatusPhaseRuns(created, key, s, c);
    WrittenFromAnywhere(st, key, s, c, Creating(s, {}));
    Joined(st, run, StatusPhase(key));
    run := run + StatusPhase(key);
  }

  /** The event of the status write brings the next reconcile, up to its delete phase. */
  lemma AgainFetches(st: State, key: NamespacedName, s: SetView) returns (run: seq<Action>)
    requires Live(st, key) && st.sets[key].view == s && key !in st.queue
    requires st.active == map[] && st.events == multiset{OwnerOf(key)}
    ensures IsRun(st, run) && TameRun(st, run)
    ensures Final(st, run) == st.(active := map[key := Fetched(s)], events := multiset{})
  {
    var queued := st.(queue := st.queue + {key}, events := multiset{});
    RunStep(st, Deliver(OwnerOf(key)), []);
    assert Next(st, Deliver(OwnerOf(key))) == queued;
    PopGet(queued, key);
    Joined(st, [Deliver(OwnerOf(key))] + [], [Pop(key), Work(key)]);
    run := [Deliver(OwnerOf(key))] + [] + [Pop(key), Work(key)];
    assert st.queue + {key} - {key} == st.queue;
  }

  lemma AgainRuns(st: State, key: NamespacedName, s: SetView, c: Counts) returns (run: seq<Action>)
    requires WellMade(st.cronJobs) && Keyed(st) && Live(st, key) && st.sets[key].view == s
    requires st.active == map[key := Deleted(s)] && st.events == multiset{} && key !in st.queue
    requires Want(st, s) <= Have(st.cronJobs, key)
    requires c == Counts(|Want(st, s)|, |Have(st.cronJobs, key)|) && At(st.recorded, key) != Some(c)
    ensures IsRun(st, run) && TameRun(st, run)
    ensures Final(st, run) == st.(active := map[key := Fetched(s)], recorded := st.recorded[key := c])
  {
    var front := AgainCounts(st, key, s, c);
    var written := Final(st, front);
    assert written == st.(active := map[], recorded := st.recorded[key := c], events := multiset{OwnerOf(key)});
    var back := AgainFetches(written, key, s);
    Joined(st, front, back);
    run := front + back;
  }

  /** The second in a row is forgotten: from every rest in which a matching node ceases to match, tame
      steps lead through one failed delete phase to the next, and if that fails too the set can be left
      with a CronJob on the node and nothing to look at it. */
  lemma SecondFailureForgets(st: State, key: NamespacedName, n: string, labels: Labels) returns (again: seq<Action>)
    requires Inv(st) && Idle(st) && Live(st, key) && n in st.nodes && !st.nodes[n].terminating
    requires Matches(st.sets[key].view.selector, st.nodes[n].labels) && !Matches(st.sets[key].view.selector, labels)
    ensures var run := FailedDelete(key, n, labels) + again;
            && IsRun(st, run) && TameRun(st, run) && Enabled(Final(st, run), Fail(key))
            && !NeverForgets(Next(Final(st, run), Fail(key)), key)
  {
    var s := st.sets[key].view;
    FailedDeleteRuns(st, key, n, labels);
    InvAlongRun(st, FailedDelete(key, n, labels));
    var mid := Final(st, FailedDelete(key, n, labels));
    OneLeftOver(st, key, n, labels);
    RestIsRight(st, key);
    assert Want(mid, s) == Want(RelabelOf(st, n, labels), s);
    again := AgainRuns(mid, key, s, Counts(|Want(mid, s)|, |Have(mid.cronJobs, key)|));
    Joined(st, FailedDelete(key, n, labels), again);
    InvAlongRun(mid, again);
    var end := Final(mid, again);
    assert Want(end, s) == Want(mid, s);
    ToldOfLeftOver(end, key, s, n);
  }

  lemma ToldOfLeftOver(st: State, key: NamespacedName, s: SetView, n: string)
    requires Inv(st) && Live(st, key) && st.sets[key].view == s && key !in st.queue && st.events == multiset{}
    requires st.active == map[key := Fetched(s)]
    requires n in Have(st.cronJobs, key) && n !in Want(st, s) && Want(st, s) <= Have(st.cronJobs, key)
    requires At(st.recorded, key) == Some(Counts(|Want(st, s)|, |Have(st.cronJobs, key)|))
    ensures !NeverForgets(Next(st, Fail(key)), key)
  {
    var have, want := Have(st.cronJobs, key), Want(st, s);
    assert want * have == want && !(have <= want);
    assert !Armed(st, key);
    FailedDeleteExactly(st, key);
  }

  lemma InvAlongRun(st: State, run: seq<Action>)
    requires Inv(st) && IsRun(st, run) && TameRun(st, run)
    ensures Inv(Final(st, run))
  {
    SoundAlongRun(st, run);
    forall key ensures Covered(Final(st, run), key) {
      assert Covered(st, key);
      CoveredAlongRun(st, run, key);
    }
  }

  // ---- None of them is idle talk ----

  function Resting(nodes: map<string, NodeObject>, s: SetView, cronJobs: ChildStore): State {
    var n := |Children(cronJobs, s.ns, s.name)|;
    State(nodes, map[KeyOf(s) := StoredSet(s, false)], cronJobs, map[KeyOf(s) := Counts(n, n)], {}, map[], multiset{})
  }

  /** One set at rest, with no CronJob and a node that does not match. */
  lemma RestingWithoutChildren(s: SetView, n: string, labels: Labels, terminating: bool)
    requires !Matches(s.selector, labels)
    ensures var st := Resting(map[n := NodeObject(labels, terminating)], s, map[]);
            Inv(st) && Idle(st) && Live(st, KeyOf(s)) && Have(st.cronJobs, KeyOf(s)) == {}
  {
    var st := Resting(map[n := NodeObject(labels, terminating)], s, map[]);
    assert NodeLabels(st.nodes) == map[n := labels];
    assert Children(map[], s.ns, s.name) == {};
  }

  /** One set at rest, with its CronJob on the node that matches. */
  lemma RestingWithChild(s: SetView, n: string, c: Child, labels: Labels)
    requires WellMadeAt(ChildKey(s, n), c) && c.controller == ControlledBySet(s.name) && Has(c.job.labels, Node, n)
    requires Matches(s.selector, labels)
    ensures var st := Resting(map[n := NodeObject(labels, false)], s, map[ChildKey(s, n) := c]);
            Inv(st) && Idle(st) && Live(st, KeyOf(s))
  {
    var store := map[ChildKey(s, n) := c];
    var st := Resting(map[n := NodeObject(labels, false)], s, store);
    assert NodeLabels(st.nodes) == map[n := labels];
    assert Children(store, s.ns, s.name) == {ChildKey(s, n)};
    assert NodeAt(store, ChildKey(s, n)) == n;
    assert Have(store, KeyOf(s)) == {n} == Want(st, s);
  }

  lemma TerminatingNodeIsMissed(s: SetView, n: string, before: Labels, after: Labels)
    requires !Matches(s.selector, before) && Matches(s.selector, after)
    ensures var st := Resting(map[n := NodeObject(before, true)], s, map[]);
            var run := [UpdateNode(n, after), Deliver(OnNode(n))];
            Inv(st) && IsRun(st, run) && Forgotten(Final(st, run), KeyOf(s))
  {
    RestingWithoutChildren(s, n, before, true);
    RelabelledAtRest(Resting(map[n := NodeObject(before, true)], s, map[]), KeyOf(s), n, after);
  }

  lemma LostEventIsMissed(s: SetView, n: string, before: Labels, after: Labels)
    requires !Matches(s.selector, before) && Matches(s.selector, after)
    ensures var st := Resting(map[n := NodeObject(before, false)], s, map[]);
            var run := [UpdateNode(n, after), Lose(AllSets)];
            Inv(st) && IsRun(st, run) && Idle(Final(st, run)) && !Right(Final(st, run), KeyOf(s))
  {
    RestingWithoutChildren(s, n, before, false);
    LostAtRest(Resting(map[n := NodeObject(before, false)], s, map[]), KeyOf(s), n, after);
  }

  lemma FailedDeletesAreForgotten(s: SetView, n: string, c: Child, before: Labels, after: Labels)
    returns (again: seq<Action>)
    requires WellMadeAt(ChildKey(s, n), c) && c.controller == ControlledBySet(s.name) && Has(c.job.labels, Node, n)
    requires Matches(s.selector, before) && !Matches(s.selector, after)
    ensures var st := Resting(map[n := NodeObject(before, false)], s, map[ChildKey(s, n) := c]);
            var run := FailedDelete(KeyOf(s), n, after) + again;
            && Inv(st) && IsRun(st, run) && TameRun(st, run) && Enabled(Final(st, run), Fail(KeyOf(s)))
            && !NeverForgets(Next(Final(st, run), Fail(KeyOf(s))), KeyOf(s))
  {
    RestingWithChild(s, n, c, before);
    var st := Resting(map[n := NodeObject(before, false)], s, map[ChildKey(s, n) := c]);
    again := SecondFailureForgets(st, KeyOf(s), n, after);
  }
}
