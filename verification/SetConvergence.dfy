/** When nodes and sets stay as they are, the DaemonCronJobSet controller comes to an end: however its
    steps are scheduled they run out, and then every set that nobody keeps from its names is right. */
module SetConvergence {
  import opened Kube
  import opened CronJobSets
  import opened SetStore
  import opened SetReconciler
  import opened SetRuns

  // ---- Quiet schedules ----

  /** The set asks for a CronJob on the node and another owner holds its name: that create fails. */
  predicate Blocked(st: State, key: NamespacedName, n: string) {
    Live(st, key) && n in Want(st, st.sets[key].view) && Taken(st.cronJobs, st.sets[key].view, n)
  }

  /** The controller's own steps, when nothing happens outside and no call fails but what is bound to,
      because the reconcile is out of date: the delete of a CronJob that is gone, the write of a status of
      a set that has changed, and the create for a node that the set does not ask for now. */
  predicate Quiet(st: State, a: Action) {
    a.Deliver? || a.Pop? || a.Work? || a.DeleteOne? || (a.CreateOne? && !Blocked(st, a.key, a.node))
  }

  predicate QuietRun(st: State, run: seq<Action>)
    requires IsRun(st, run)
    decreases |run|
  {
    run == [] || (Quiet(st, run[0]) && QuietRun(Next(st, run[0]), run[1..]))
  }

  /** No quiet step is left. */
  ghost predicate Over(st: State) {
    forall a: Action | Enabled(st, a) :: !Quiet(st, a)
  }

  // ---- How far a set is from its goal ----

  /** The nodes the set should have CronJobs on; none when it is gone or going. */
  function Goal(st: State, key: NamespacedName): set<string> {
    if Live(st, key) then Want(st, st.sets[key].view) else {}
  }

  function StaleChildren(st: State, key: NamespacedName): set<NamespacedName> {
    set c | c in Children(st.cronJobs, key.ns, key.name) && NodeAt(st.cronJobs, c) !in Goal(st, key)
  }

  /** The reconcile works on the set as it is. */
  predicate Fresh(st: State, key: NamespacedName, pc: Pc) {
    pc.Popped? || At(st.sets, key) == Some(StoredSet(pc.s, false))
  }

  /** All that matters of one key: whether there is a set to look after, where its reconcile stands, if
      that is fresh and what it asks for, and what there is, should be, and is recorded. */
  datatype Stand = Stand(live: bool, pc: Option<Pc>, current: bool, want: set<string>, have: set<string>,
                         goal: set<string>, stale: set<NamespacedName>, told: Option<Counts>)
  {
    function Off(): nat {
      |have - goal| + |goal - have|
    }

    /** How many writes of the reconcile could lead the set away from its goal, because what it has read
        is out of date. */
    function Misled(): nat {
      match pc
      case Some(Fetched(_)) => |have * goal - want| + |want - goal|
      case Some(NodesListed(_, listed)) => |have * goal - listed| + |want - goal|
      case Some(Deleting(_, todo)) => |todo - stale| + |want - goal|
      case Some(Deleted(_)) => |want - goal|
      case Some(Creating(_, todo)) => |todo - goal|
      case _ => 0
    }

    /** Each write of a CronJob takes one off this. */
    function Writes(): nat {
      Off() + 2 * Misled()
    }

    /** The reconcile will record counts that are not the ones now. */
    predicate Miscounted() {
      current &&
      match pc
      case Some(NodesCounted(_, desired)) => desired != |goal|
      case Some(AllCounted(_, desired, available)) => desired != |goal| || available != |have|
      case _ => false
    }

    /** The status says something else than the counts now. */
    predicate Untold() {
      live && told != Some(Counts(|goal|, |have|))
    }

    /** Each write of a status takes one off this, and no write of a CronJob adds more than three. */
    function Reports(): nat {
      (if Untold() then 1 else 0) + (if Miscounted() then 2 else 0)
    }

    /** Each write of either kind takes one off this. */
    function News(): nat {
      4 * Writes() + Reports()
    }

    /** The reconcile may still fail and be queued again. */
    predicate Refusable() {
      pc.Some? && (!current || (pc.value.Creating? && !(pc.value.want <= goal)))
    }

    /** Steps of the reconcile, and what it costs when it is queued again. */
    function Steps(u: Universe): nat {
      if pc.None? then 0 else Rank(u, pc.value) + if Refusable() then u.Round() else 0
    }
  }

  function StandOf(st: State, key: NamespacedName): Stand {
    var pc := At(st.active, key);
    Stand(Live(st, key), pc, pc.None? || Fresh(st, key, pc.value),
          if pc.None? || pc.value.Popped? then {} else Want(st, pc.value.s),
          Have(st.cronJobs, key), Goal(st, key), StaleChildren(st, key), At(st.recorded, key))
  }

  // ---- Steps left ----

  /** Everything the state names: the sets, queued or active keys and owners of CronJobs, and the nodes. */
  datatype Universe = Universe(keys: seq<NamespacedName>, nodes: set<string>) {
    /** What a queued key can cost. */
    function Round(): nat {
      10 + 2 * |nodes|
    }

    /** What an event can cost. */
    function Prompt(): nat {
      Times(Round(), |keys| + 1) + 1
    }
  }

  /** The universe has the nodes with CronJobs, and the sets that the CronJobs are of. */
  ghost predicate Owners(u: Universe, store: ChildStore) {
    forall c | c in store && OwnerKey(store, c).Some? ::
      OwnerKey(store, c).value in u.keys && NodeAt(store, c) in u.nodes
  }

  /** It has the nodes that create loops have on their lists. */
  ghost predicate Lists(u: Universe, active: map<NamespacedName, Pc>) {
    forall key | key in active && active[key].Creating? :: active[key].want <= u.nodes
  }

  /** It has every set that exists, is queued, is reconciled or has an event. */
  ghost predicate Names(u: Universe, st: State) {
    forall key | key in st.sets || key in st.queue || key in st.active || OwnerOf(key) in st.events :: key in u.keys
  }

  ghost predicate Covers(u: Universe, st: State) {
    && Distinct(u.keys) && st.nodes.Keys <= u.nodes
    && Names(u, st) && Lists(u, st.active) && Owners(u, st.cronJobs)
  }

  /** The set whose CronJob it is. */
  function OwnerKey(store: ChildStore, c: NamespacedName): Option<NamespacedName>
    requires c in store
  {
    var name := LabelledFor(store[c].job.labels);
    if name.None? then None else Some(NamespacedName(c.ns, name.value))
  }

  /** Steps of a reconcile from where it stands. */
  function Rank(u: Universe, pc: Pc): nat {
    match pc
    case Popped => 9 + 2 * |u.nodes|
    case Fetched(_) => 8 + 2 * |u.nodes|
    case NodesListed(_, _) => 7 + 2 * |u.nodes|
    case Deleting(_, todo) => 6 + |u.nodes| + |todo|
    case Deleted(_) => 5 + |u.nodes|
    case Creating(_, todo) => 4 + |todo|
    case Applied(_) => 3
    case NodesCounted(_, _) => 2
    case AllCounted(_, _, _) => 1
  }

  function Times(n: nat, x: nat): nat {
    if x == 0 then 0 else n + Times(n, x - 1)
  }

  function Cost(u: Universe, v: Stand): nat {
    Times(u.Prompt() + 1, v.News()) + v.Steps(u)
  }

  function Costs(u: Universe, st: State): NamespacedName -> nat {
    key => Cost(u, StandOf(st, key))
  }

  function Sum(cost: NamespacedName -> nat, keys: seq<NamespacedName>): nat {
    if keys == [] then 0 else cost(keys[0]) + Sum(cost, keys[1..])
  }

  function Total(u: Universe, st: State): nat {
    Sum(Costs(u, st), u.keys)
  }

  /** A bound on the quiet steps from a state. */
  function StepsLeft(u: Universe, st: State): nat {
    Total(u, st) + Times(u.Round(), |st.queue|) + Times(u.Prompt(), |st.events|)
  }

  lemma {:induction false} TimesAdds(n: nat, x: nat, y: nat)
    ensures Times(n, x + y) == Times(n, x) + Times(n, y)
    decreases x
  {
    if x != 0 {
      TimesAdds(n, x - 1, y);
    }
  }

  lemma TimesGrows(n: nat, x: nat, y: nat)
    requires x <= y
    ensures Times(n, x) <= Times(n, y)
    ensures x < y ==> Times(n, x) + n <= Times(n, y)
  {
    TimesAdds(n, y - x, x);
    if x < y {
      TimesAdds(n, 1, y - x - 1);
      assert Times(n, 1) == n + Times(n, 0);
    }
  }

  lemma TimesOne(n: nat, x: nat)
    ensures Times(n, x + 1) == Times(n, x) + n
  {
  }

  lemma TimesWithin(n: nat, x: nat, y: nat, more: nat)
    requires x <= y + more
    ensures Times(n, x) <= Times(n, y) + Times(n, more)
  {
    TimesGrows(n, x, y + more);
    TimesAdds(n, y, more);
  }

  // ---- Costs of one key ----

  lemma CostFalls(u: Universe, v: Stand, v': Stand, d: int)
    requires v'.News() <= v.News() && v'.Steps(u) + d <= v.Steps(u)
    ensures Cost(u, v') + d <= Cost(u, v)
    ensures v'.News() < v.News() ==> Cost(u, v') + d + u.Prompt() + 1 <= Cost(u, v)
  {
    TimesGrows(u.Prompt() + 1, v'.News(), v.News());
  }

  /** How far a step that writes nothing takes a reconcile. */
  predicate Moves(v: Stand, next: Pc) {
    v.pc.Some? &&
    match v.pc.value
    case Popped => false
    case Fetched(s) => next == NodesListed(s, v.want)
    case NodesListed(s, listed) =>
      next.Deleting? && next.s == s && |next.todo - v.stale| <= |v.have * v.goal - listed| && |next.todo| <= |v.have|
    case Deleting(s, _) => next == Deleted(s)
    case Deleted(s) => next == Creating(s, v.want)
    case Creating(s, todo) => next == Applied(s) || (next.Creating? && next.s == s && next.want < todo)
    case Applied(s) => next == NodesCounted(s, |v.want|)
    case NodesCounted(s, desired) => next == AllCounted(s, desired, |v.have|)
    case AllCounted(_, _, _) => false
  }

  lemma MoveMisleadsNoMore(v: Stand, next: Pc)
    requires Moves(v, next)
    ensures v.(pc := Some(next)).Misled() <= v.Misled()
  {
    if v.pc.value.Creating? && next.Creating? {
      SubsetSize(next.want - v.goal, v.pc.value.want - v.goal);
    }
  }

  lemma MoveIsFurther(u: Universe, v: Stand, next: Pc)
    requires Moves(v, next) && |v.have| <= |u.nodes| && |v.want| <= |u.nodes|
    ensures Rank(u, next) < Rank(u, v.pc.value)
  {
    if v.pc.value.Creating? && next.Creating? {
      SubsetSize(next.want, v.pc.value.want);
    }
  }

  lemma MoveCosts(u: Universe, v: Stand, next: Pc)
    requires Moves(v, next) && |v.have| <= |u.nodes| && |v.want| <= |u.nodes| && (v.current ==> v.want == v.goal)
    ensures Cost(u, v.(pc := Some(next))) < Cost(u, v)
  {
    MoveMisleadsNoMore(v, next);
    MoveIsFurther(u, v, next);
    var v' := v.(pc := Some(next));
    assert v'.Miscounted() ==> v.Miscounted();
    assert v'.Refusable() ==> v.Refusable();
    assert v'.Off() == v.Off();
    CostFalls(u, v, v', 1);
  }

  /** The CronJob c of this key, on node n, is gone. */
  predicate Loses(v: Stand, v': Stand, c: NamespacedName, n: string) {
    && n in v.have && (c in v.stale <==> n !in v.goal)
    && v' == v.(have := v.have - {n}, stale := v.stale - {c}, pc := v'.pc)
  }

  lemma OffAfterLoss(v: Stand, v': Stand, c: NamespacedName, n: string)
    requires Loses(v, v', c, n)
    ensures v'.Off() == if n in v.goal then v.Off() + 1 else v.Off() - 1
  {
    if n in v.goal {
      assert v.goal - v'.have == v.goal - v.have + {n} && v'.have - v.goal == v.have - v.goal;
    } else {
      assert v'.have - v.goal == v.have - v.goal - {n} && v.goal - v'.have == v.goal - v.have;
    }
  }

  /** The delete of a CronJob of its own brings the set closer or was one of those it was misled to. */
  lemma OwnDeleteCosts(u: Universe, v: Stand, v': Stand, c: NamespacedName, n: string)
    requires Loses(v, v', c, n) && v.pc.Some? && v.pc.value.Deleting? && c in v.pc.value.todo
    requires v'.pc == Some(v.pc.value.(todo := v.pc.value.todo - {c}))
    ensures Cost(u, v') + u.Prompt() + 1 < Cost(u, v)
  {
    OffAfterLoss(v, v', c, n);
    var todo := v.pc.value.todo;
    if n in v.goal {
      assert todo - {c} - v'.stale == todo - v.stale - {c};
    } else {
      assert todo - {c} - v'.stale == todo - v.stale;
    }
    assert v'.Writes() < v.Writes();
    CostFalls(u, v, v', 1);
  }

  /** The delete of somebody else's was one it was misled to. */
  lemma ForeignDeleteCosts(u: Universe, v: Stand, v': Stand, c: NamespacedName)
    requires v.pc.Some? && v.pc.value.Deleting? && c in v.pc.value.todo && c !in v.stale
    requires v' == v.(pc := Some(v.pc.value.(todo := v.pc.value.todo - {c})))
    ensures Cost(u, v') + Times(u.Prompt() + 1, 8) < Cost(u, v)
  {
    assert v.pc.value.todo - {c} - v.stale == v.pc.value.todo - v.stale - {c};
    assert v'.News() + 8 == v.News();
    TimesAdds(u.Prompt() + 1, v'.News(), 8);
  }

  /** What the one who loses it has to do more. */
  lemma LossCosts(u: Universe, v: Stand, v': Stand, c: NamespacedName, n: string)
    requires Loses(v, v', c, n) && v'.pc == v.pc
    ensures Cost(u, v') <= Cost(u, v) + Times(u.Prompt() + 1, 7)
  {
    OffAfterLoss(v, v', c, n);
    LossMisleads(v, v', c, n);
    assert v'.News() <= v.News() + 7;
    TimesGrows(u.Prompt() + 1, v'.News(), v.News() + 7);
    TimesAdds(u.Prompt() + 1, v.News(), 7);
  }

  lemma LossMisleads(v: Stand, v': Stand, c: NamespacedName, n: string)
    requires Loses(v, v', c, n) && v'.pc == v.pc
    ensures v'.Misled() <= v.Misled() + (if n in v.goal then 0 else 1)
  {
    if v.pc.Some? && v.pc.value.Deleting? {
      OneLessStale(v.pc.value.todo, v.stale, c);
    } else {
      LossMisleadsNoMore(v, v'.have, v'.stale, n);
    }
  }

  lemma LossMisleadsNoMore(v: Stand, have: set<string>, stale: set<NamespacedName>, n: string)
    requires have == v.have - {n} && !(v.pc.Some? && v.pc.value.Deleting?)
    ensures v.(have := have, stale := stale).Misled() <= v.Misled()
  {
    if v.pc.Some? && v.pc.value.Fetched? {
      OneLessToKeep(v.have, v.goal, v.want, n);
    } else if v.pc.Some? && v.pc.value.NodesListed? {
      OneLessToKeep(v.have, v.goal, v.pc.value.live, n);
    }
  }

  lemma OneLessToKeep(have: set<string>, goal: set<string>, listed: set<string>, n: string)
    ensures |(have - {n}) * goal - listed| <= |have * goal - listed|
  {
    SubsetSize((have - {n}) * goal - listed, have * goal - listed);
  }

  lemma OneLessStale(todo: set<NamespacedName>, stale: set<NamespacedName>, c: NamespacedName)
    ensures |todo - (stale - {c})| <= |todo - stale| + if c in stale then 1 else 0
  {
    if c in stale {
      SubsetSize(todo - (stale - {c}), todo - stale + {c});
    } else {
      assert stale - {c} == stale;
    }
  }

  lemma OffAfterGain(v: Stand, v': Stand, n: string)
    requires n !in v.have && v'.have == v.have + {n} && v'.goal == v.goal
    ensures v'.Off() == if n in v.goal then v.Off() - 1 else v.Off() + 1
  {
    if n in v.goal {
      assert v.goal - v'.have == v.goal - v.have - {n} && v'.have - v.goal == v.have - v.goal;
    } else {
      assert v'.have - v.goal == v.have - v.goal + {n} && v.goal - v'.have == v.goal - v.have;
    }
  }

  lemma LessToCreate(todo: set<string>, goal: set<string>, n: string)
    requires n in todo
    ensures |todo - {n} - goal| == if n in goal then |todo - goal| else |todo - goal| - 1
    ensures todo <= goal ==> todo - {n} <= goal
  {
    if n in goal {
      assert todo - {n} - goal == todo - goal;
    } else {
      assert todo - {n} - goal == todo - goal - {n};
    }
  }

  /** A create that stores something brings the set closer or was one of those it was misled to. */
  lemma CreateCosts(u: Universe, v: Stand, v': Stand, n: string)
    requires v.pc.Some? && v.pc.value.Creating? && n in v.pc.value.want && n !in v.have
    requires v' == v.(pc := Some(v.pc.value.(want := v.pc.value.want - {n})), have := v.have + {n}, stale := v'.stale)
    ensures Cost(u, v') + u.Prompt() + 1 < Cost(u, v)
  {
    OffAfterGain(v, v', n);
    LessToCreate(v.pc.value.want, v.goal, n);
    assert v'.Writes() < v.Writes();
    CostFalls(u, v, v', 1);
  }

  /** The end of a reconcile, with what is recorded then. */
  function Ended(v: Stand, told: Option<Counts>): Stand {
    v.(pc := None, current := true, want := {}, told := told)
  }

  lemma EndCosts(u: Universe, v: Stand)
    requires v.pc.Some?
    ensures Cost(u, Ended(v, v.told)) < Cost(u, v)
    ensures v.Refusable() ==> Cost(u, Ended(v, v.told)) + u.Round() < Cost(u, v)
  {
    var v' := Ended(v, v.told);
    assert v'.Off() == v.Off() && v'.Misled() == 0;
    CostFalls(u, v, v', 1);
    if v.Refusable() {
      CostFalls(u, v, v', u.Round() + 1);
    }
  }

  /** A status that changes becomes true, or the counts had been taken before others. */
  lemma ReportCosts(u: Universe, v: Stand, c: Counts)
    requires v.live && v.current && v.pc.Some? && v.pc.value.AllCounted?
    requires c == Counts(v.pc.value.desired, v.pc.value.available) && v.told != Some(c)
    ensures Cost(u, Ended(v, Some(c))) + u.Prompt() + 1 < Cost(u, v)
  {
    var v' := Ended(v, Some(c));
    assert v'.Off() == v.Off() && v'.Misled() == v.Misled() == 0;
    assert !v'.Miscounted();
    if v.Miscounted() {
      assert v'.Reports() < v.Reports();
    } else {
      assert v.Untold() && !v'.Untold();
    }
    CostFalls(u, v, v', 1);
  }

  /** A reconcile begins. */
  lemma StartCosts(u: Universe, v: Stand, v': Stand)
    requires v.pc.None? && v' == v.(pc := Some(Popped), current := true, want := {})
    ensures Cost(u, v') < Cost(u, v) + u.Round()
  {
    assert v'.News() == v.News();
  }

  lemma FetchCosts(u: Universe, v: Stand, v': Stand, s: SetView)
    requires v.pc == Some(Popped) && v' == v.(pc := Some(Fetched(s)), current := true, want := v.goal)
    ensures Cost(u, v') < Cost(u, v)
  {
    assert v.have * v.goal - v.goal == {} && v.goal - v.goal == {};
    assert v'.Misled() == 0 && v'.Off() == v.Off();
    CostFalls(u, v, v', 1);
  }

  // ---- Costs of all keys ----

  /** One key gets cheaper by d, another dearer by at most e, and no third changes. */
  lemma {:induction false} SumFalls(before: NamespacedName -> nat, after: NamespacedName -> nat,
                                    keys: seq<NamespacedName>, key: NamespacedName, d: int,
                                    other: NamespacedName, e: nat)
    requires Distinct(keys) && after(key) + d <= before(key)
    requires other != key ==> after(other) <= before(other) + e
    requires forall k | k in keys && k != key && k != other :: after(k) == before(k)
    ensures Sum(after, keys) + (if key in keys then d else 0) <= Sum(before, keys) + (if other in keys then e else 0)
    decreases |keys|
  {
    if keys != [] {
      assert keys[0] !in keys[1..] && forall k :: k in keys <==> k == keys[0] || k in keys[1..];
      SumFalls(before, after, keys[1..], key, d, other, e);
    }
  }

  lemma TotalFalls(u: Universe, st: State, r: State, key: NamespacedName, d: int, other: NamespacedName, e: nat)
    requires Distinct(u.keys) && key in u.keys && Cost(u, StandOf(r, key)) + d <= Cost(u, StandOf(st, key))
    requires other != key ==> Cost(u, StandOf(r, other)) <= Cost(u, StandOf(st, other)) + e
    requires forall k | k in u.keys && k != key && k != other :: StandOf(r, k) == StandOf(st, k)
    ensures Total(u, r) + d <= Total(u, st) + e
  {
    SumFalls(Costs(u, st), Costs(u, r), u.keys, key, d, other, e);
  }

  lemma StandUntouched(st: State, r: State, key: NamespacedName)
    requires Untouched(st, r, key)
    ensures StandOf(r, key) == StandOf(st, key)
  {
    SameNodesAt(st.cronJobs, r.cronJobs, Children(st.cronJobs, key.ns, key.name));
    assert Goal(r, key) == Goal(st, key);
    assert StaleChildren(r, key) == StaleChildren(st, key);
  }

  lemma OneKeyFalls(u: Universe, st: State, r: State, key: NamespacedName, d: int)
    requires Covers(u, st) && key in u.keys && Cost(u, StandOf(r, key)) + d <= Cost(u, StandOf(st, key))
    requires forall k | k != key :: Untouched(st, r, k)
    ensures Total(u, r) + d <= Total(u, st)
  {
    forall k | k in u.keys && k != key ensures StandOf(r, k) == StandOf(st, k) {
      StandUntouched(st, r, k);
    }
    TotalFalls(u, st, r, key, d, key, 0);
  }

  /** What may be queued or sent meanwhile is paid for. */
  lemma StepsLeftFalls(u: Universe, st: State, r: State, queued: nat, sent: nat)
    requires Total(u, r) + Times(u.Round(), queued) + Times(u.Prompt(), sent) < Total(u, st)
    requires |r.queue| <= |st.queue| + queued && |r.events| <= |st.events| + sent
    ensures StepsLeft(u, r) < StepsLeft(u, st)
  {
    TimesWithin(u.Round(), |r.queue|, |st.queue|, queued);
    TimesWithin(u.Prompt(), |r.events|, |st.events|, sent);
  }

  /** A step that leaves the CronJobs alone touches no other set. */
  lemma OthersUntouched(st: State, r: State, key: NamespacedName)
    requires Confined(st, r, key) && r.cronJobs == st.cronJobs
    ensures forall k | k != key :: Untouched(st, r, k)
  {
    forall k | k != key ensures Untouched(st, r, k) {
      assert At(r.active, k) == At(st.active, k) && At(r.recorded, k) == At(st.recorded, k);
    }
  }

  // ---- The steps, one by one ----

  ghost predicate Ready(u: Universe, st: State) {
    WellMade(st.cronJobs) && Keyed(st) && Covers(u, st)
  }

  lemma ChildrenCovered(u: Universe, st: State, key: NamespacedName)
    requires Ready(u, st)
    ensures Have(st.cronJobs, key) <= u.nodes && |Have(st.cronJobs, key)| <= |u.nodes|
    ensures Children(st.cronJobs, key.ns, key.name) != {} ==> key in u.keys
  {
    forall c | c in Children(st.cronJobs, key.ns, key.name) ensures NodeAt(st.cronJobs, c) in u.nodes && key in u.keys {
      assert OwnerKey(st.cronJobs, c) == Some(key);
    }
    SubsetSize(Have(st.cronJobs, key), u.nodes);
  }

  lemma StandFits(u: Universe, st: State, key: NamespacedName)
    requires Ready(u, st)
    ensures var v := StandOf(st, key);
            && |v.have| <= |u.nodes| && |v.want| <= |u.nodes|
            && (v.pc.Some? && !v.pc.value.Popped? && v.current ==> v.live && v.want == v.goal)
  {
    ChildrenCovered(u, st, key);
    SubsetSize(StandOf(st, key).want, u.nodes);
  }

  /** The reconcile stands elsewhere, and nothing else has changed. */
  lemma StandMoved(st: State, key: NamespacedName, pc: Pc)
    requires key in st.active && !st.active[key].Popped? && !pc.Popped? && pc.s == st.active[key].s
    ensures StandOf(Goto(st, key, pc), key) == StandOf(st, key).(pc := Some(pc))
  {
    var r := Goto(st, key, pc);
    assert Goal(r, key) == Goal(st, key);
    assert StaleChildren(r, key) == StaleChildren(st, key);
  }

  lemma GotoFalls(u: Universe, st: State, key: NamespacedName, pc: Pc)
    requires Ready(u, st) && key in st.active && !st.active[key].Popped? && !pc.Popped? && pc.s == st.active[key].s
    requires Moves(StandOf(st, key), pc)
    ensures StepsLeft(u, Goto(st, key, pc)) < StepsLeft(u, st)
  {
    var r := Goto(st, key, pc);
    StandFits(u, st, key);
    StandMoved(st, key, pc);
    MoveCosts(u, StandOf(st, key), pc);
    GotoConfined(st, key, pc);
    OthersUntouched(st, r, key);
    OneKeyFalls(u, st, r, key, 1);
    StepsLeftFalls(u, st, r, 0, 0);
  }

  /** The deletes that a node list out of date picks wrongly, counted by their nodes. */
  lemma WrongDeletes(st: State, key: NamespacedName, s: SetView, live: set<string>)
    requires WellMade(st.cronJobs) && KeyOf(s) == key
    ensures |Mismatched(st.cronJobs, s, live) - StaleChildren(st, key)|
         <= |Have(st.cronJobs, key) * Goal(st, key) - live|
    ensures |Mismatched(st.cronJobs, s, live)| <= |Have(st.cronJobs, key)|
  {
    var picked := Mismatched(st.cronJobs, s, live);
    var wrong := picked - StaleChildren(st, key);
    forall c | c in picked ensures NodeAt(st.cronJobs, c) in Have(st.cronJobs, key) - live {
      ChildFacts(st.cronJobs, s, c);
    }
    DistinctNodes(st.cronJobs, s, wrong);
    SubsetSize(NodesAt(st.cronJobs, wrong), Have(st.cronJobs, key) * Goal(st, key) - live);
    DistinctNodes(st.cronJobs, s, picked);
    SubsetSize(NodesAt(st.cronJobs, picked), Have(st.cronJobs, key));
  }

  lemma MoveFalls(u: Universe, st: State, key: NamespacedName)
    requires Ready(u, st) && Enabled(st, Work(key)) && !st.active[key].Popped? && !st.active[key].AllCounted?
    ensures StepsLeft(u, Worked(st, key)) < StepsLeft(u, st)
  {
    var pc := st.active[key];
    match pc {
      case NodesListed(s, live) => WrongDeletes(st, key, s, live);
      case NodesCounted(s, _) => DistinctNodes(st.cronJobs, s, Children(st.cronJobs, s.ns, s.name));
      case _ =>
    }
    GotoFalls(u, st, key, NextPc(st, pc));
  }

  lemma StandDone(st: State, key: NamespacedName, r: State)
    requires r.nodes == st.nodes && r.sets == st.sets && r.cronJobs == st.cronJobs && key !in r.active
    ensures StandOf(r, key) == Ended(StandOf(st, key), At(r.recorded, key))
  {
    assert Goal(r, key) == Goal(st, key);
    assert StaleChildren(r, key) == StaleChildren(st, key);
  }

  lemma DoneFalls(u: Universe, st: State, key: NamespacedName)
    requires Ready(u, st) && key in st.active
    ensures StepsLeft(u, Done(st, key)) < StepsLeft(u, st)
  {
    DoneConfined(st, key);
    StandDone(st, key, Done(st, key));
    EndCosts(u, StandOf(st, key));
    OthersUntouched(st, Done(st, key), key);
    OneKeyFalls(u, st, Done(st, key), key, 1);
    StepsLeftFalls(u, st, Done(st, key), 0, 0);
  }

  lemma RetryFalls(u: Universe, st: State, key: NamespacedName)
    requires Ready(u, st) && key in st.active && StandOf(st, key).Refusable()
    ensures StepsLeft(u, Retry(st, key)) < StepsLeft(u, st)
  {
    DoneConfined(st, key);
    StandDone(st, key, Retry(st, key));
    EndCosts(u, StandOf(st, key));
    OthersUntouched(st, Retry(st, key), key);
    OneKeyFalls(u, st, Retry(st, key), key, u.Round() + 1);
    TimesOne(u.Round(), 0);
    StepsLeftFalls(u, st, Retry(st, key), 1, 0);
  }

  lemma WriteFalls(u: Universe, st: State, key: NamespacedName, c: Counts)
    requires Ready(u, st) && key in st.active && st.active[key].AllCounted?
    requires c == Counts(st.active[key].desired, st.active[key].available)
    ensures StepsLeft(u, StatusWritten(st, key, st.active[key].s, c)) < StepsLeft(u, st)
  {
    var s := st.active[key].s;
    if At(st.sets, key) != Some(StoredSet(s, false)) {
      RetryFalls(u, st, key);
    } else if At(st.recorded, key) == Some(c) {
      DoneFalls(u, st, key);
    } else {
      var r := StatusWritten(st, key, s, c);
      WriteConfined(st, key, s, c);
      StandFits(u, st, key);
      StandDone(st, key, r);
      ReportCosts(u, StandOf(st, key), c);
      OthersUntouched(st, r, key);
      OneKeyFalls(u, st, r, key, u.Prompt() + 1);
      TimesOne(u.Prompt(), 0);
      StepsLeftFalls(u, st, r, 0, 1);
    }
  }

  lemma FetchFalls(u: Universe, st: State, key: NamespacedName)
    requires Ready(u, st) && key in st.active && st.active[key].Popped?
    ensures StepsLeft(u, Worked(st, key)) < StepsLeft(u, st)
  {
    if Live(st, key) {
      var s := st.sets[key].view;
      var r := Goto(st, key, Fetched(s));
      assert Goal(r, key) == Goal(st, key);
      assert StaleChildren(r, key) == StaleChildren(st, key);
      FetchCosts(u, StandOf(st, key), StandOf(r, key), s);
      GotoConfined(st, key, Fetched(s));
      OthersUntouched(st, r, key);
      OneKeyFalls(u, st, r, key, 1);
      StepsLeftFalls(u, st, r, 0, 0);
    } else {
      DoneFalls(u, st, key);
    }
  }

  lemma WorkFalls(u: Universe, st: State, key: NamespacedName)
    requires Ready(u, st) && Enabled(st, Work(key))
    ensures StepsLeft(u, Worked(st, key)) < StepsLeft(u, st)
  {
    var pc := st.active[key];
    if pc.Popped? {
      FetchFalls(u, st, key);
    } else if pc.AllCounted? {
      WriteFalls(u, st, key, Counts(pc.desired, pc.available));
    } else {
      MoveFalls(u, st, key);
    }
  }

  lemma PopFalls(u: Universe, st: State, key: NamespacedName)
    requires Ready(u, st) && Enabled(st, Pop(key))
    ensures StepsLeft(u, Next(st, Pop(key))) < StepsLeft(u, st)
  {
    var r := Next(st, Pop(key));
    PopTouchesOwn(st, key, r);
    StartCosts(u, StandOf(st, key), StandOf(r, key));
    OneKeyFalls(u, st, r, key, 1 - u.Round());
    PopPays(u, st, r);
  }

  lemma PopPays(u: Universe, st: State, r: State)
    requires Total(u, r) + 1 <= Total(u, st) + u.Round()
    requires |st.queue| == |r.queue| + 1 && r.events == st.events
    ensures StepsLeft(u, r) < StepsLeft(u, st)
  {
    TimesOne(u.Round(), |r.queue|);
  }

  lemma PopTouchesOwn(st: State, key: NamespacedName, r: State)
    requires Enabled(st, Pop(key)) && r == Next(st, Pop(key))
    ensures forall k | k != key :: Untouched(st, r, k)
    ensures StandOf(r, key) == StandOf(st, key).(pc := Some(Popped), current := true, want := {})
  {
    assert Goal(r, key) == Goal(st, key);
    assert StaleChildren(r, key) == StaleChildren(st, key);
    forall k | k != key ensures Untouched(st, r, k) {
      assert At(r.active, k) == At(st.active, k);
    }
  }

  lemma {:induction false} SeqSet(keys: seq<NamespacedName>, xs: set<NamespacedName>)
    requires forall x | x in xs :: x in keys
    ensures |xs| <= |keys|
    decreases |keys|
  {
    if keys != [] {
      SeqSet(keys[1..], xs - {keys[0]});
    }
  }

  lemma RequestsCovered(u: Universe, st: State, e: Event)
    requires Ready(u, st) && e in st.events
    ensures forall key | key in Requests(st, e) :: key in u.keys
    ensures |Requests(st, e)| <= |u.keys|
  {
    forall key | key in Requests(st, e) ensures key in u.keys {
      if e.OnNode? {
        OnNodeMeansChild(st.cronJobs, key, e.node);
        ChildrenCovered(u, st, key);
      }
    }
    SeqSet(u.keys, Requests(st, e));
  }

  lemma UnionSize(a: set<NamespacedName>, b: set<NamespacedName>)
    ensures |a + b| <= |a| + |b|
  {
    assert a + b == a + (b - a);
  }

  lemma DeliverFalls(u: Universe, st: State, e: Event)
    requires Ready(u, st) && e in st.events
    ensures StepsLeft(u, Next(st, Deliver(e))) < StepsLeft(u, st)
  {
    var r := Next(st, Deliver(e));
    RequestsCovered(u, st, e);
    UnionSize(st.queue, Requests(st, e));
    forall k | k in u.keys ensures StandOf(r, k) == StandOf(st, k) {
      StandUntouched(st, r, k);
    }
    SameSum(Costs(u, st), Costs(u, r), u.keys);
    DeliverPays(u, st, r);
  }

  lemma DeliverPays(u: Universe, st: State, r: State)
    requires Total(u, r) == Total(u, st)
    requires |r.queue| <= |st.queue| + |u.keys| && |r.events| + 1 == |st.events|
    ensures StepsLeft(u, r) < StepsLeft(u, st)
  {
    TimesWithin(u.Round(), |r.queue|, |st.queue|, |u.keys|);
    TimesOne(u.Prompt(), |r.events|);
    TimesOne(u.Round(), |u.keys|);
  }

  lemma {:induction false} SameSum(before: NamespacedName -> nat, after: NamespacedName -> nat,
                                   keys: seq<NamespacedName>)
    requires forall k | k in keys :: after(k) == before(k)
    ensures Sum(after, keys) == Sum(before, keys)
    decreases |keys|
  {
    if keys != [] {
      assert forall k | k in keys[1..] :: k in keys;
      SameSum(before, after, keys[1..]);
    }
  }

  // ---- Deletes ----

  lemma StandLoses(st: State, r: State, key: NamespacedName, c: NamespacedName)
    requires WellMade(st.cronJobs) && c in Children(st.cronJobs, key.ns, key.name)
    requires r.nodes == st.nodes && r.sets == st.sets && r.recorded == st.recorded && r.cronJobs == st.cronJobs - {c}
    requires At(r.active, key) == At(st.active, key)
             || (key in st.active && key in r.active && st.active[key].Deleting? && r.active[key].Deleting?
                 && r.active[key].s == st.active[key].s)
    ensures Loses(StandOf(st, key), StandOf(r, key), c, NodeAt(st.cronJobs, c))
  {
    LosesNode(st.cronJobs, r.cronJobs, key, c);
    assert Goal(r, key) == Goal(st, key);
    assert StaleChildren(r, key) == StaleChildren(st, key) - {c};
  }

  lemma LosesNode(store: ChildStore, store': ChildStore, key: NamespacedName, c: NamespacedName)
    requires WellMade(store) && c in Children(store, key.ns, key.name) && store' == store - {c}
    ensures Have(store', key) == Have(store, key) - {NodeAt(store, c)}
    ensures Children(store', key.ns, key.name) == Children(store, key.ns, key.name) - {c}
    ensures forall d | d in Children(store', key.ns, key.name) :: NodeAt(store', d) == NodeAt(store, d)
  {
    forall d | d in Children(store, key.ns, key.name) && NodeAt(store, d) == NodeAt(store, c) ensures d == c {
      OneChildOnNode(store, key, c, d);
    }
    var all, rest := Children(store, key.ns, key.name), Children(store', key.ns, key.name);
    assert rest == all - {c};
    SameNodesAt(store, store', rest);
    assert NodesAt(store, rest) == NodesAt(store, all) - {NodeAt(store, c)};
  }

  lemma OneChildOnNode(store: ChildStore, key: NamespacedName, c: NamespacedName, d: NamespacedName)
    requires WellMade(store) && c in Children(store, key.ns, key.name) && d in Children(store, key.ns, key.name)
    requires NodeAt(store, c) == NodeAt(store, d)
    ensures c == d
  {
    assert WellMadeAt(c, store[c]) && WellMadeAt(d, store[d]);
  }

  /** The reconcile of key has deleted c. */
  predicate HasDeleted(st: State, r: State, key: NamespacedName, c: NamespacedName) {
    && key in st.active && st.active[key].Deleting? && c in st.active[key].todo && c in st.cronJobs
    && r.nodes == st.nodes && r.sets == st.sets && r.recorded == st.recorded && r.cronJobs == st.cronJobs - {c}
    && r.active == st.active[key := st.active[key].(todo := st.active[key].todo - {c})]
  }

  lemma DeleteSpares(st: State, r: State, key: NamespacedName, c: NamespacedName, k: NamespacedName)
    requires HasDeleted(st, r, key, c) && c !in Children(st.cronJobs, k.ns, k.name)
    ensures k != key ==> StandOf(r, k) == StandOf(st, k)
    ensures k == key ==> StandOf(r, k) == StandOf(st, k).(pc := At(r.active, k))
  {
    assert Children(r.cronJobs, k.ns, k.name) == Children(st.cronJobs, k.ns, k.name);
    SameNodesAt(st.cronJobs, r.cronJobs, Children(st.cronJobs, k.ns, k.name));
    assert Goal(r, k) == Goal(st, k);
    assert StaleChildren(r, k) == StaleChildren(st, k);
  }

  lemma OwnDeleteTotals(u: Universe, st: State, r: State, key: NamespacedName, c: NamespacedName)
    requires Ready(u, st) && HasDeleted(st, r, key, c) && OwnerKey(st.cronJobs, c) == Some(key)
    ensures Total(u, r) + u.Prompt() + 1 < Total(u, st)
  {
    StandLoses(st, r, key, c);
    OwnDeleteCosts(u, StandOf(st, key), StandOf(r, key), c, NodeAt(st.cronJobs, c));
    forall k | k in u.keys && k != key ensures StandOf(r, k) == StandOf(st, k) {
      DeleteSpares(st, r, key, c, k);
    }
    TotalFalls(u, st, r, key, u.Prompt() + 2, key, 0);
  }

  lemma ForeignDeleteTotals(u: Universe, st: State, r: State, key: NamespacedName, c: NamespacedName)
    requires Ready(u, st) && HasDeleted(st, r, key, c) && OwnerKey(st.cronJobs, c) != Some(key)
    ensures Total(u, r) + u.Prompt() + 1 < Total(u, st)
  {
    var f := u.Prompt() + 1;
    TimesOne(f, 7);
    DeleteSpares(st, r, key, c, key);
    ForeignDeleteCosts(u, StandOf(st, key), StandOf(r, key), c);
    var other := if OwnerKey(st.cronJobs, c).None? then key else OwnerKey(st.cronJobs, c).value;
    if other != key {
      StandLoses(st, r, other, c);
      LossCosts(u, StandOf(st, other), StandOf(r, other), c, NodeAt(st.cronJobs, c));
    }
    forall k | k in u.keys && k != key && k != other ensures StandOf(r, k) == StandOf(st, k) {
      DeleteSpares(st, r, key, c, k);
    }
    TotalFalls(u, st, r, key, Times(f, 8) + 1, other, Times(f, 7));
  }

  lemma DeletedHas(st: State, key: NamespacedName, c: NamespacedName, r: State)
    requires Enabled(st, DeleteOne(key, c)) && c in st.cronJobs && r == DeletedOne(st, key, c)
    ensures HasDeleted(st, r, key, c) && r.queue == st.queue && |r.events| <= |st.events| + 1
  {
  }

  lemma DeleteFalls(u: Universe, st: State, key: NamespacedName, c: NamespacedName)
    requires Ready(u, st) && Enabled(st, DeleteOne(key, c))
    ensures StepsLeft(u, DeletedOne(st, key, c)) < StepsLeft(u, st)
  {
    var r := DeletedOne(st, key, c);
    if c !in st.cronJobs {
      GotoFalls(u, st, key, Deleted(st.active[key].s));
    } else {
      DeletedHas(st, key, c, r);
      DeleteTotals(u, st, r, key, c);
      TimesOne(u.Prompt(), 0);
      StepsLeftFalls(u, st, r, 0, 1);
    }
  }

  lemma DeleteTotals(u: Universe, st: State, r: State, key: NamespacedName, c: NamespacedName)
    requires Ready(u, st) && HasDeleted(st, r, key, c)
    ensures Total(u, r) + u.Prompt() + 1 < Total(u, st)
  {
    if OwnerKey(st.cronJobs, c) == Some(key) {
      OwnDeleteTotals(u, st, r, key, c);
    } else {
      ForeignDeleteTotals(u, st, r, key, c);
    }
  }

  // ---- Creates ----

  lemma StandGains(st: State, r: State, key: NamespacedName, s: SetView, n: string, next: ChildStore)
    requires WellMade(st.cronJobs) && KeyOf(s) == key && Ensured(st.cronJobs, s, n) == Some(next) && next != st.cronJobs
    requires key in st.active && st.active[key].Creating? && st.active[key].s == s
    requires r.nodes == st.nodes && r.sets == st.sets && r.recorded == st.recorded && r.cronJobs == next
    requires At(r.active, key) == Some(st.active[key].(want := st.active[key].want - {n}))
    ensures n !in StandOf(st, key).have
    ensures var v := StandOf(st, key);
            StandOf(r, key) == v.(pc := At(r.active, key), have := v.have + {n}, stale := StandOf(r, key).stale)
  {
    EnsuringGivesChild(st.cronJobs, s, n);
    assert Goal(r, key) == Goal(st, key);
  }

  lemma CreateFalls(u: Universe, st: State, key: NamespacedName, n: string)
    requires Ready(u, st) && Enabled(st, CreateOne(key, n)) && !Blocked(st, key, n)
    ensures StepsLeft(u, CreatedOne(st, key, n)) < StepsLeft(u, st)
  {
    var pc := st.active[key];
    var next := Ensured(st.cronJobs, pc.s, n);
    if next.None? {
      TakenFails(st.cronJobs, pc.s, n);
      assert n !in Goal(st, key);
      RetryFalls(u, st, key);
    } else if next.value == st.cronJobs {
      GotoFalls(u, st, key, pc.(want := pc.want - {n}));
      assert CreatedOne(st, key, n) == Goto(st, key, pc.(want := pc.want - {n}));
    } else {
      NewCronJobFalls(u, st, key, n, CreatedOne(st, key, n));
    }
  }

  lemma NewCronJobFalls(u: Universe, st: State, key: NamespacedName, n: string, r: State)
    requires Ready(u, st) && Enabled(st, CreateOne(key, n)) && r == CreatedOne(st, key, n)
    requires Ensured(st.cronJobs, st.active[key].s, n).Some? && r.cronJobs != st.cronJobs
    ensures StepsLeft(u, r) < StepsLeft(u, st)
  {
    var s := st.active[key].s;
    StandGains(st, r, key, s, n, r.cronJobs);
    CreateCosts(u, StandOf(st, key), StandOf(r, key), n);
    CreateConfined(st, key, n);
    forall k | k != key ensures Untouched(st, r, k) {
      CreatedSpares(st, key, n, k);
      assert At(r.active, k) == At(st.active, k);
    }
    OneKeyFalls(u, st, r, key, u.Prompt() + 2);
    TimesOne(u.Prompt(), 0);
    StepsLeftFalls(u, st, r, 0, 1);
  }

  lemma StepFalls(u: Universe, st: State, a: Action)
    requires Ready(u, st) && Enabled(st, a) && Quiet(st, a)
    ensures StepsLeft(u, Next(st, a)) < StepsLeft(u, st)
  {
    match a
    case Deliver(e) => DeliverFalls(u, st, e);
    case Pop(key) => PopFalls(u, st, key);
    case Work(key) => WorkFalls(u, st, key);
    case DeleteOne(key, c) => DeleteFalls(u, st, key, c);
    case CreateOne(key, n) => CreateFalls(u, st, key, n);
  }

  // ---- What quiet steps keep ----

  lemma OwnersGrow(u: Universe, store: ChildStore, store': ChildStore, c: NamespacedName)
    requires Owners(u, store) && c in store' && store' == store[c := store'[c]]
    requires OwnerKey(store', c).Some? ==> OwnerKey(store', c).value in u.keys && NodeAt(store', c) in u.nodes
    ensures Owners(u, store')
  {
    forall d | d in store' && OwnerKey(store', d).Some?
      ensures OwnerKey(store', d).value in u.keys && NodeAt(store', d) in u.nodes
    {
      assert d != c ==> OwnerKey(store', d) == OwnerKey(store, d) && NodeAt(store', d) == NodeAt(store, d);
    }
  }

  lemma OwnersShrink(u: Universe, store: ChildStore, c: NamespacedName)
    requires Owners(u, store)
    ensures Owners(u, store - {c})
  {
    forall d | d in store - {c} && OwnerKey(store - {c}, d).Some?
      ensures OwnerKey(store - {c}, d).value in u.keys && NodeAt(store - {c}, d) in u.nodes
    {
      assert OwnerKey(store - {c}, d) == OwnerKey(store, d) && NodeAt(store - {c}, d) == NodeAt(store, d);
    }
  }

  /** A new CronJob is its set's, on a node that was on the reconcile's list. */
  lemma CreatedOwners(u: Universe, st: State, key: NamespacedName, n: string, next: ChildStore)
    requires Ready(u, st) && Enabled(st, CreateOne(key, n)) && Ensured(st.cronJobs, st.active[key].s, n) == Some(next)
    ensures Owners(u, next)
  {
    var s := st.active[key].s;
    EnsuredCases(st.cronJobs, s, n);
    if ChildKey(s, n) !in st.cronJobs {
      NewChildIsWellMade(s, n);
      assert OwnerKey(next, ChildKey(s, n)) == Some(key) && NodeAt(next, ChildKey(s, n)) == n;
      OwnersGrow(u, st.cronJobs, next, ChildKey(s, n));
    }
  }

  /** No more than an event of that set has been added. */
  predicate Sends(st: State, r: State, key: NamespacedName) {
    r.events == st.events || r.events == st.events + multiset{OwnerOf(key)}
  }

  lemma NamesKept(u: Universe, st: State, r: State, key: NamespacedName, told: NamespacedName)
    requires Names(u, st) && Confined(st, r, key) && key in st.active && r.queue <= st.queue + {key}
    requires told in u.keys && Sends(st, r, told)
    ensures Names(u, r)
  {
    forall k | k in r.active ensures k in u.keys {
      assert k != key ==> At(r.active, k) == At(st.active, k);
    }
    forall k | OwnerOf(k) in r.events ensures k in u.keys {
      assert k == told || OwnerOf(k) in st.events;
    }
  }

  lemma ListsKept(u: Universe, st: State, r: State, key: NamespacedName)
    requires Lists(u, st.active) && Confined(st, r, key)
    requires key in r.active && r.active[key].Creating? ==> r.active[key].want <= u.nodes
    ensures Lists(u, r.active)
  {
    forall k | k in r.active && r.active[k].Creating? ensures r.active[k].want <= u.nodes {
      assert k != key ==> At(r.active, k) == At(st.active, k);
    }
  }

  lemma CreateTells(st: State, key: NamespacedName, n: string)
    requires Enabled(st, CreateOne(key, n))
    ensures CreatedOne(st, key, n).queue <= st.queue + {key} && Sends(st, CreatedOne(st, key, n), key)
  {
  }

  lemma CreateWants(st: State, key: NamespacedName, n: string)
    requires Enabled(st, CreateOne(key, n))
    ensures var r := CreatedOne(st, key, n);
            key in r.active ==> r.active[key].Creating? && r.active[key].want <= st.active[key].want
  {
  }

  lemma CreatedCovered(u: Universe, st: State, key: NamespacedName, n: string, r: State)
    requires Ready(u, st) && Enabled(st, CreateOne(key, n)) && r == CreatedOne(st, key, n)
    ensures Covers(u, r)
  {
    CreateConfined(st, key, n);
    CreateTells(st, key, n);
    CreateWants(st, key, n);
    NamesKept(u, st, r, key, key);
    ListsKept(u, st, r, key);
    CreateStores(st, key, n);
    if Ensured(st.cronJobs, st.active[key].s, n).Some? {
      CreatedOwners(u, st, key, n, r.cronJobs);
    }
  }

  lemma CreateStores(st: State, key: NamespacedName, n: string)
    requires Enabled(st, CreateOne(key, n))
    ensures var next := Ensured(st.cronJobs, st.active[key].s, n);
            if next.None? then CreatedOne(st, key, n).cronJobs == st.cronJobs
            else next == Some(CreatedOne(st, key, n).cronJobs)
  {
  }

  lemma DeletedCovered(u: Universe, st: State, key: NamespacedName, c: NamespacedName, r: State)
    requires Ready(u, st) && Enabled(st, DeleteOne(key, c)) && r == DeletedOne(st, key, c)
    ensures Covers(u, r)
  {
    DeleteConfined(st, key, c);
    ListsKept(u, st, r, key);
    DeletedNames(u, st, key, c, r);
    if c in st.cronJobs {
      OwnersShrink(u, st.cronJobs, c);
    }
  }

  lemma DeletedNames(u: Universe, st: State, key: NamespacedName, c: NamespacedName, r: State)
    requires Ready(u, st) && Enabled(st, DeleteOne(key, c)) && r == DeletedOne(st, key, c) && Confined(st, r, key)
    ensures Names(u, r)
  {
    if c in st.cronJobs && st.cronJobs[c].controller.ControlledBySet? {
      var owner := NamespacedName(c.ns, st.cronJobs[c].controller.name);
      assert OwnerKey(st.cronJobs, c) == Some(owner);
      NamesKept(u, st, r, key, owner);
    } else {
      NamesKept(u, st, r, key, key);
    }
  }

  lemma WorkWants(u: Universe, st: State, key: NamespacedName)
    requires Ready(u, st) && Enabled(st, Work(key))
    ensures var r := Worked(st, key); key in r.active && r.active[key].Creating? ==> r.active[key].want <= u.nodes
  {
    if st.active[key].Deleted? {
      assert Want(st, st.active[key].s) <= u.nodes;
    }
  }

  lemma WorkTells(st: State, key: NamespacedName)
    requires Enabled(st, Work(key))
    ensures Worked(st, key).queue <= st.queue + {key} && Sends(st, Worked(st, key), key)
  {
  }

  lemma WorkCovered(u: Universe, st: State, key: NamespacedName, r: State)
    requires Ready(u, st) && Enabled(st, Work(key)) && r == Worked(st, key)
    ensures Covers(u, r)
  {
    WorkConfined(st, key);
    WorkWants(u, st, key);
    WorkTells(st, key);
    NamesKept(u, st, r, key, key);
    ListsKept(u, st, r, key);
  }

  lemma ReadyKept(u: Universe, st: State, a: Action)
    requires Ready(u, st) && Enabled(st, a) && Quiet(st, a)
    ensures Ready(u, Next(st, a))
  {
    WellMadeKept(st, a);
    KeyedKept(st, a);
    match a
    case Deliver(e) => DeliveredCovered(u, st, e);
    case Pop(key) => PoppedCovered(u, st, key);
    case Work(key) => WorkCovered(u, st, key, Worked(st, key));
    case DeleteOne(key, c) => DeletedCovered(u, st, key, c, DeletedOne(st, key, c));
    case CreateOne(key, n) => CreatedCovered(u, st, key, n, CreatedOne(st, key, n));
  }

  lemma PoppedCovered(u: Universe, st: State, key: NamespacedName)
    requires Ready(u, st) && Enabled(st, Pop(key))
    ensures Covers(u, Next(st, Pop(key)))
  {
  }

  lemma DeliveredCovered(u: Universe, st: State, e: Event)
    requires Ready(u, st) && e in st.events
    ensures Covers(u, Next(st, Deliver(e)))
  {
    RequestsCovered(u, st, e);
  }

  // ---- Main results ----

  lemma {:induction false} Listed(xs: set<NamespacedName>) returns (keys: seq<NamespacedName>)
    ensures Distinct(keys) && forall x :: x in keys <==> x in xs
    decreases xs
  {
    if xs == {} {
      keys := [];
    } else {
      var x :| x in xs;
      var rest := Listed(xs - {x});
      keys := [x] + rest;
    }
  }

  /** Every state has a universe. */
  lemma UniverseExists(st: State) returns (u: Universe)
    ensures Covers(u, st)
  {
    var owners := set c | c in st.cronJobs && OwnerKey(st.cronJobs, c).Some? :: OwnerKey(st.cronJobs, c).value;
    var told := set e | e in st.events && e.OwnerOf? :: e.key;
    var keys := Listed(st.sets.Keys + st.queue + st.active.Keys + owners + told);
    var used := set c | c in st.cronJobs :: NodeAt(st.cronJobs, c);
    var asked := set key, n | key in st.active && st.active[key].Creating? && n in st.active[key].want :: n;
    u := Universe(keys, st.nodes.Keys + used + asked);
    forall key | OwnerOf(key) in st.events ensures key in told {
      assert OwnerOf(key).key == key;
    }
  }

  lemma {:induction false} QuietRunsEnd(u: Universe, st: State, run: seq<Action>)
    requires Ready(u, st) && IsRun(st, run) && QuietRun(st, run)
    ensures Ready(u, Final(st, run)) && |run| + StepsLeft(u, Final(st, run)) <= StepsLeft(u, st)
    decreases |run|
  {
    if run != [] {
      StepFalls(u, st, run[0]);
      ReadyKept(u, st, run[0]);
      QuietRunsEnd(u, Next(st, run[0]), run[1..]);
    }
  }

  /** Quiet steps are tame. */
  lemma {:induction false} QuietIsTame(st: State, run: seq<Action>)
    requires IsRun(st, run) && QuietRun(st, run)
    ensures TameRun(st, run)
    decreases |run|
  {
    if run != [] {
      QuietIsTame(Next(st, run[0]), run[1..]);
    }
  }

  /** Where no step is left, what is still active waits for a name somebody else holds. */
  lemma OverMeansBlocked(st: State, key: NamespacedName)
    requires WellMade(st.cronJobs) && Keyed(st) && Over(st) && key in st.active
    ensures exists n :: Blocked(st, key, n)
  {
    var pc := st.active[key];
    assert pc.Creating? && pc.want != {} by {
      if pc.Deleting? && pc.todo != {} {
        var c :| c in pc.todo;
        assert Enabled(st, DeleteOne(key, c)) && Quiet(st, DeleteOne(key, c));
      } else if !pc.Creating? || pc.want == {} {
        assert Enabled(st, Work(key)) && Quiet(st, Work(key));
      }
    }
    var n :| n in pc.want;
    assert Enabled(st, CreateOne(key, n)) && !Quiet(st, CreateOne(key, n));
  }

  lemma OverMeansDone(st: State, key: NamespacedName)
    requires WellMade(st.cronJobs) && Keyed(st) && Over(st) && forall n :: !Blocked(st, key, n)
    ensures key !in st.active && !Armed(st, key)
  {
    if key in st.active {
      OverMeansBlocked(st, key);
    }
    if key in st.queue {
      assert Enabled(st, Pop(key)) && Quiet(st, Pop(key));
    }
    forall e ensures e !in st.events {
      if e in st.events {
        assert Enabled(st, Deliver(e)) && Quiet(st, Deliver(e));
      }
    }
  }

  lemma OverMeansRight(st: State, run: seq<Action>, key: NamespacedName)
    requires Inv(st) && IsRun(st, run) && QuietRun(st, run) && Over(Final(st, run))
    requires Live(Final(st, run), key) && forall n :: !Blocked(Final(st, run), key, n)
    ensures Right(Final(st, run), key)
  {
    var end := Final(st, run);
    QuietIsTame(st, run);
    assert Covered(st, key);
    CoveredAlongRun(st, run, key);
    OverMeansDone(end, key);
    SettledIsRight(end, key);
  }

  /** However the controller's own steps are scheduled, there are no more of them than the state says, and
      when none is left every set whose names nobody else holds is right. */
  lemma QuietSchedulesConverge(u: Universe, st: State, run: seq<Action>)
    requires Inv(st) && Covers(u, st) && IsRun(st, run) && QuietRun(st, run)
    ensures |run| <= StepsLeft(u, st)
    ensures Over(Final(st, run)) ==>
              forall key | Live(Final(st, run), key) && forall n :: !Blocked(Final(st, run), key, n) ::
                Right(Final(st, run), key)
  {
    QuietRunsEnd(u, st, run);
    var end := Final(st, run);
    if Over(end) {
      forall key | Live(end, key) && forall n :: !Blocked(end, key, n) ensures Right(end, key) {
        OverMeansRight(st, run, key);
      }
    }
  }
}
