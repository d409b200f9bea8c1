/** Whole runs of the DaemonCronJobSet controller: reconciles of any number of sets take steps between
    node changes, edits of sets, outside deletions and watch events that arrive late and in any order
    (internal/controller/daemoncronjobset_controller.go). */
module SetRuns {
  import opened Kube
  import opened CronJobSets
  import opened Selectors
  import opened SetStore
  import opened SetReconciler

  /** How many nodes a set asks for and how many CronJobs it has. */
  datatype Counts = Counts(desired: nat, available: nat)

  datatype NodeObject = NodeObject(labels: Labels, terminating: bool)

  /** A watch event on its way to the event handler: a node event that asks for every set, one of a
      terminating node, or one of a set or of a CronJob it controls. */
  datatype Event = AllSets | OnNode(node: string) | OwnerOf(key: NamespacedName)

  /** Where a reconcile stands, with what it remembers of what it read; the last three are inside the
      status phase, before the list of nodes, before the list of CronJobs and before the write. */
  datatype Pc =
    | Popped
    | Fetched(s: SetView)
    | NodesListed(s: SetView, live: set<string>)
    | Deleting(s: SetView, todo: set<NamespacedName>)
    | Deleted(s: SetView)
    | Creating(s: SetView, want: set<string>)
    | Applied(s: SetView)
    | NodesCounted(s: SetView, desired: nat)
    | AllCounted(s: SetView, desired: nat, available: nat)
  {
    predicate InDeletePhase() {
      Fetched? || NodesListed? || Deleting?
    }
  }

  /** What is stored, what the controller is to do and what it does.  For a status that one more write of
      its counts would leave as it is, `recorded` has these counts. */
  datatype State = State(
    nodes: map<string, NodeObject>,
    sets: map<NamespacedName, StoredSet>,
    cronJobs: ChildStore,
    recorded: map<NamespacedName, Counts>,
    queue: set<NamespacedName>,
    active: map<NamespacedName, Pc>,
    events: multiset<Event>)

  datatype Action =
    | AddNode(node: string, labels: Labels)
    | UpdateNode(node: string, labels: Labels)
    | TerminateNode(node: string)
    | RemoveNode(node: string)
    | CreateSet(s: SetView)
    | EditSet(s: SetView)
    | TerminateSet(key: NamespacedName)
    | RemoveSet(key: NamespacedName)
    | DropCronJob(cron: NamespacedName)
    | Deliver(e: Event)
    | Lose(e: Event)
    | Resync(key: NamespacedName)
    | Restart
    | Pop(key: NamespacedName)
    | Work(key: NamespacedName)
    | DeleteOne(key: NamespacedName, cron: NamespacedName)
    | CreateOne(key: NamespacedName, node: string)
    | Fail(key: NamespacedName)
  {
    predicate OfNode() {
      AddNode? || UpdateNode? || TerminateNode? || RemoveNode?
    }

    predicate OfSet() {
      CreateSet? || EditSet? || TerminateSet? || RemoveSet?
    }

    predicate OfReconcile() {
      Work? || DeleteOne? || CreateOne? || Fail?
    }
  }

  // ---- Steps ----

  function KeyOf(s: SetView): NamespacedName {
    NamespacedName(s.ns, s.name)
  }

  function NodeLabels(nodes: map<string, NodeObject>): map<string, Labels> {
    map n | n in nodes :: nodes[n].labels
  }

  /** Names of the nodes a set asks for; terminating nodes are listed like any other. */
  function Want(st: State, s: SetView): set<string> {
    MatchingNodes(NodeLabels(st.nodes), s.selector)
  }

  /** The nodes the set of that name has CronJobs for. */
  function Have(store: ChildStore, key: NamespacedName): set<string> {
    NodesAt(store, Children(store, key.ns, key.name))
  }

  function Emit(st: State, e: Event): State {
    st.(events := st.events + multiset{e})
  }

  /** A CronJob event goes to the controlling set, if a set controls it. */
  function EmitOwner(st: State, cron: NamespacedName, c: Child): State {
    if c.controller.ControlledBySet? then Emit(st, OwnerOf(NamespacedName(cron.ns, c.controller.name))) else st
  }

  /** The state after a CronJob has disappeared. */
  function Without(st: State, c: NamespacedName): State
    requires c in st.cronJobs
  {
    EmitOwner(st.(cronJobs := st.cronJobs - {c}), c, st.cronJobs[c])
  }

  /** The sets that have a CronJob on the node, as the event handler finds them. */
  function SetsOnNode(store: ChildStore, node: string): set<NamespacedName> {
    set c | c in store && Matches(NodeSelector(node), store[c].job.labels) &&
      DaemonCronJobSetName in store[c].job.labels ::
      NamespacedName(c.ns, store[c].job.labels[DaemonCronJobSetName])
  }

  function Requests(st: State, e: Event): set<NamespacedName> {
    match e
    case AllSets => st.sets.Keys
    case OnNode(n) => SetsOnNode(st.cronJobs, n)
    case OwnerOf(key) => {key}
  }

  function Goto(st: State, key: NamespacedName, pc: Pc): State {
    st.(active := st.active[key := pc])
  }

  function Done(st: State, key: NamespacedName): State {
    st.(active := st.active - {key})
  }

  /** A reconcile that returns an error is queued again. */
  function Retry(st: State, key: NamespacedName): State {
    Done(st, key).(queue := st.queue + {key})
  }

  function NodeEvent(node: string, terminating: bool): Event {
    if terminating then OnNode(node) else AllSets
  }

  predicate Enabled(st: State, a: Action) {
    match a
    case AddNode(n, _) => n !in st.nodes
    case UpdateNode(n, _) => n in st.nodes
    case TerminateNode(n) => n in st.nodes
    case RemoveNode(n) => n in st.nodes
    case CreateSet(s) => KeyOf(s) !in st.sets
    case EditSet(s) => KeyOf(s) in st.sets
    case TerminateSet(key) => key in st.sets
    case RemoveSet(key) => key in st.sets
    case DropCronJob(c) => c in st.cronJobs
    case Deliver(e) => e in st.events
    // Only the handler of node events makes calls that can fail.
    case Lose(e) => e in st.events && !e.OwnerOf?
    case Resync(_) => true
    case Restart => true
    case Pop(key) => key in st.queue && key !in st.active
    case Work(key) =>
      && key in st.active
      && (st.active[key].Deleting? ==> st.active[key].todo == {})
      && (st.active[key].Creating? ==> st.active[key].want == {})
    case DeleteOne(key, c) => key in st.active && st.active[key].Deleting? && c in st.active[key].todo
    case CreateOne(key, n) => key in st.active && st.active[key].Creating? && n in st.active[key].want
    case Fail(key) => key in st.active
  }

  function At<T>(m: map<NamespacedName, T>, key: NamespacedName): Option<T> {
    if key in m then Some(m[key]) else None
  }

  /** A step of the reconcile for key: sets, nodes and other reconciles stay, nothing queued or sent is
      taken back, and it keeps the set it fetched. */
  ghost predicate Confined(st: State, r: State, key: NamespacedName) {
    && r.sets == st.sets && r.nodes == st.nodes
    && (forall k | k != key :: At(r.recorded, k) == At(st.recorded, k))
    && st.queue <= r.queue && st.events <= r.events
    && (forall k | k != key :: At(r.active, k) == At(st.active, k))
    && (key in r.active ==>
          && key in st.active
          && !r.active[key].Popped?
          && if st.active[key].Popped? then key in st.sets && r.active[key].s == st.sets[key].view
             else r.active[key].s == st.active[key].s)
  }

  /** The status write is refused unless the set is still the one that was read; one that changes the
      status is an update of the set, and the controller watches its sets. */
  function StatusWritten(st: State, key: NamespacedName, s: SetView, c: Counts): State {
    if At(st.sets, key) != Some(StoredSet(s, false)) then Retry(st, key)
    else if At(st.recorded, key) == Some(c) then Done(st, key)
    else Emit(Done(st, key).(recorded := st.recorded[key := c]), OwnerOf(key))
  }

  /** The lists and the ends of the two loops: what the reconcile remembers next. */
  function NextPc(st: State, pc: Pc): Pc
    requires !pc.Popped? && !pc.AllCounted?
  {
    match pc
    case Fetched(s) => NodesListed(s, Want(st, s))
    case NodesListed(s, live) => Deleting(s, Mismatched(st.cronJobs, s, live))
    case Deleting(s, _) => Deleted(s)
    case Deleted(s) => Creating(s, Want(st, s))
    case Creating(s, _) => Applied(s)
    case Applied(s) => NodesCounted(s, |Want(st, s)|)
    case NodesCounted(s, desired) => AllCounted(s, desired, |Children(st.cronJobs, s.ns, s.name)|)
  }

  /** Get, what lies between it and the status write, and that write. */
  function Worked(st: State, key: NamespacedName): State
    requires Enabled(st, Work(key))
  {
    var pc := st.active[key];
    if pc.Popped? then
      if Live(st, key) then Goto(st, key, Fetched(st.sets[key].view)) else Done(st, key)
    else if pc.AllCounted? then StatusWritten(st, key, pc.s, Counts(pc.desired, pc.available))
    else Goto(st, key, NextPc(st, pc))
  }

  /** Listed CronJobs that carry the label of a node not among the listed ones. */
  function Mismatched(store: ChildStore, s: SetView, live: set<string>): set<NamespacedName> {
    set c | c in Children(store, s.ns, s.name) && Node in store[c].job.labels && store[c].job.labels[Node] !in live
  }

  /** When nothing has changed since the nodes were listed, these are the stale children. */
  lemma MismatchedIsStale(st: State, s: SetView)
    requires WellMade(st.cronJobs)
    ensures Mismatched(st.cronJobs, s, Want(st, s)) == Stale(st.cronJobs, NodeLabels(st.nodes), s)
  {
    forall c | c in Children(st.cronJobs, s.ns, s.name)
      ensures c in Mismatched(st.cronJobs, s, Want(st, s)) <==> c in Stale(st.cronJobs, NodeLabels(st.nodes), s)
    {
      StaleIff(st.cronJobs, NodeLabels(st.nodes), s, c);
    }
  }

  /** A delete of something already gone is an error too, and ends the phase. */
  function DeletedOne(st: State, key: NamespacedName, c: NamespacedName): State
    requires Enabled(st, DeleteOne(key, c))
  {
    var pc := st.active[key];
    if c in st.cronJobs then
      Without(Goto(st, key, pc.(todo := pc.todo - {c})), c)
    else Goto(st, key, Deleted(pc.s))
  }

  function CreatedOne(st: State, key: NamespacedName, n: string): State
    requires Enabled(st, CreateOne(key, n))
  {
    var pc := st.active[key];
    var next := Ensured(st.cronJobs, pc.s, n);
    if next.None? then Retry(st, key)
    else
      var r := Goto(st, key, pc.(want := pc.want - {n})).(cronJobs := next.value);
      if next.value == st.cronJobs then r else Emit(r, OwnerOf(key))
  }

  /** In the delete phase an error is only logged; elsewhere it ends the reconcile. */
  function Failed(st: State, key: NamespacedName): State
    requires Enabled(st, Fail(key))
  {
    var pc := st.active[key];
    if pc.InDeletePhase() then Goto(st, key, Deleted(pc.s)) else Retry(st, key)
  }

  /** A restarted controller has lost its queue and gets an event for every set that exists. */
  function Restarted(st: State): State {
    st.(queue := {}, active := map[], events := multiset(set key | key in st.sets :: OwnerOf(key)))
  }

  /** What happens to nodes. */
  function NodeChanged(st: State, a: Action): State
    requires Enabled(st, a) && a.OfNode()
  {
    match a
    case AddNode(n, labels) => Emit(st.(nodes := st.nodes[n := NodeObject(labels, false)]), AllSets)
    case UpdateNode(n, labels) =>
      var o := st.nodes[n];
      if labels == o.labels then st
      else Emit(st.(nodes := st.nodes[n := o.(labels := labels)]), NodeEvent(n, o.terminating))
    case TerminateNode(n) => st.(nodes := st.nodes[n := st.nodes[n].(terminating := true)])
    case RemoveNode(n) => Emit(st.(nodes := st.nodes - {n}), NodeEvent(n, st.nodes[n].terminating))
  }

  /** What users do to sets. */
  function SetChanged(st: State, a: Action): State
    requires Enabled(st, a) && a.OfSet()
  {
    match a
    case CreateSet(s) =>
      Emit(st.(sets := st.sets[KeyOf(s) := StoredSet(s, false)], recorded := st.recorded - {KeyOf(s)}),
           OwnerOf(KeyOf(s)))
    case EditSet(s) => Emit(st.(sets := st.sets[KeyOf(s) := st.sets[KeyOf(s)].(view := s)]), OwnerOf(KeyOf(s)))
    case TerminateSet(key) => Emit(st.(sets := st.sets[key := st.sets[key].(terminating := true)]), OwnerOf(key))
    case RemoveSet(key) => Emit(st.(sets := st.sets - {key}), OwnerOf(key))
  }

  function Next(st: State, a: Action): State
    requires Enabled(st, a)
  {
    if a.OfNode() then NodeChanged(st, a)
    else if a.OfSet() then SetChanged(st, a)
    else
      match a
      case DropCronJob(c) => Without(st, c)
      case Deliver(e) => st.(queue := st.queue + Requests(st, e), events := st.events - multiset{e})
      case Lose(e) => Lost(st, e)
      case Resync(key) => st.(queue := st.queue + {key})
      case Restart => Restarted(st)
      case Pop(key) => Goto(st, key, Popped).(queue := st.queue - {key})
      case Work(key) => Worked(st, key)
      case DeleteOne(key, c) => DeletedOne(st, key, c)
      case CreateOne(key, n) => CreatedOne(st, key, n)
      case Fail(key) => Failed(st, key)
  }

  // ---- What a set may rely on ----

  predicate Live(st: State, key: NamespacedName) {
    key in st.sets && !st.sets[key].terminating
  }

  /** The set is queued, or an event of its own is on its way, which no failure can lose. */
  predicate Owed(st: State, key: NamespacedName) {
    key in st.queue || OwnerOf(key) in st.events
  }

  /** The set is queued, or an event that will queue it is on its way. */
  ghost predicate Armed(st: State, key: NamespacedName) {
    || Owed(st, key)
    || AllSets in st.events
    || exists n | n in Have(st.cronJobs, key) :: OnNode(n) in st.events
  }

  /** The set has its CronJobs where they should be, and its status says so. */
  predicate Agrees(told: Option<Counts>, have: set<string>, want: set<string>) {
    have == want && told == Some(Counts(|want|, |have|))
  }

  /** Nodes on which the set has no CronJob can leave without the set being told.  However many of them
      are gone when the counts are taken, all is well then, or the counts are news and queue the set. */
  predicate Heeded(told: Option<Counts>, have: set<string>, want: set<string>) {
    told.Some? && told.value.available == |have| && |want * have| <= told.value.desired <= |want| ==>
      have <= want && told.value.desired == |have|
  }

  /** After the delete phase: no CronJob is on a node that does not match, or the counts will be news
      even if nothing is created. */
  predicate Noticed(told: Option<Counts>, have: set<string>, want: set<string>) {
    have <= want || told != Some(Counts(|want * have|, |have|))
  }

  /** What is left of the set's reconcile makes all well or does something that queues the set again,
      given its CronJobs' nodes, the nodes it asks for and the counts in its status. */
  predicate ComesRight(pc: Option<Pc>, have: set<string>, want: set<string>, told: Option<Counts>) {
    match pc
    case None => Agrees(told, have, want)
    case Some(Popped) => true
    case Some(Fetched(_)) => true
    case Some(NodesListed(_, live)) => have <= live ==> Noticed(told, have, want)
    case Some(Deleting(_, todo)) => todo == {} ==> Noticed(told, have, want)
    case Some(Deleted(_)) => Noticed(told, have, want)
    case Some(Creating(_, todo)) => todo <= have ==> Heeded(told, have, want)
    case Some(Applied(_)) => Heeded(told, have, want)
    case Some(NodesCounted(_, desired)) => told == Some(Counts(desired, |have|)) ==> Agrees(told, have, want)
    case Some(AllCounted(_, desired, available)) =>
      told == Some(Counts(desired, available)) ==> Agrees(told, have, want)
  }

  /** Even if nothing that happened so far queues the set again it comes out right. */
  predicate Settled(st: State, key: NamespacedName)
    requires key in st.sets
  {
    ComesRight(At(st.active, key), Have(st.cronJobs, key), Want(st, st.sets[key].view), At(st.recorded, key))
  }

  ghost predicate Covered(st: State, key: NamespacedName) {
    Live(st, key) ==> Armed(st, key) || Settled(st, key)
  }

  /** A reconcile works on the set as it is and on CronJobs the set has, or the set is owed another one. */
  predicate Current(st: State, key: NamespacedName) {
    Live(st, key) && key in st.active && !st.active[key].Popped? ==>
      || Owed(st, key)
      || (st.active[key].s == st.sets[key].view
          && (st.active[key].Deleting? ==> st.active[key].todo <= Children(st.cronJobs, key.ns, key.name)))
  }

  ghost predicate Keyed(st: State) {
    && (forall key | key in st.sets :: KeyOf(st.sets[key].view) == key)
    && (forall key | key in st.active && !st.active[key].Popped? :: KeyOf(st.active[key].s) == key)
  }

  /** What every step keeps. */
  ghost predicate Sound(st: State) {
    WellMade(st.cronJobs) && Keyed(st) && forall key :: Current(st, key)
  }

  /** What every tame step keeps. */
  ghost predicate Inv(st: State) {
    Sound(st) && forall key :: Covered(st, key)
  }

  // ---- Runs ----

  predicate IsRun(st: State, run: seq<Action>)
    decreases |run|
  {
    run == [] || (Enabled(st, run[0]) && IsRun(Next(st, run[0]), run[1..]))
  }

  function Final(st: State, run: seq<Action>): State
    requires IsRun(st, run)
    decreases |run|
  {
    if run == [] then st else Final(Next(st, run[0]), run[1..])
  }

  /** A node starts to match a set that has no CronJob on it, will not be queued and whose reconcile, if
      any, is done with creating and will find no news in its counts. */
  ghost predicate Overlooks(st: State, key: NamespacedName, n: string, labels: Labels)
    requires n in st.nodes
  {
    && Live(st, key) && !Armed(st, key)
    && n !in Have(st.cronJobs, key)
    && !Matches(st.sets[key].view.selector, st.nodes[n].labels) && Matches(st.sets[key].view.selector, labels)
    && Missed(At(st.active, key), Have(st.cronJobs, key), Want(st, st.sets[key].view) + {n}, At(st.recorded, key))
  }

  /** A node that is wanted now and has no CronJob will not be noticed. */
  predicate Missed(pc: Option<Pc>, have: set<string>, want: set<string>, told: Option<Counts>) {
    match pc
    case None => true
    case Some(Creating(_, todo)) => todo <= have && !Heeded(told, have, want)
    case Some(Applied(_)) => !Heeded(told, have, want)
    case Some(NodesCounted(_, desired)) => told == Some(Counts(desired, |have|))
    case Some(AllCounted(_, desired, available)) => told == Some(Counts(desired, available))
    case _ => false
  }

  function Lost(st: State, e: Event): State {
    st.(events := st.events - multiset{e})
  }

  /** The guards of the three steps that can make the controller forget a set.  A terminating node may
      be relabelled unless a set overlooks it; the delete phase may fail unless it leaves a CronJob on a
      node that does not match and the status already says what will be counted then; the list of the
      event handler may fail unless a set that it would have queued has something to catch up on. */
  ghost predicate Tame(st: State, a: Action)
    requires Enabled(st, a)
  {
    match a
    case UpdateNode(n, labels) =>
      st.nodes[n].terminating ==> forall key | key in st.sets :: !Overlooks(st, key, n, labels)
    case Fail(key) =>
      st.active[key].InDeletePhase() && Live(st, key) && !Armed(st, key) ==>
        Noticed(At(st.recorded, key), Have(st.cronJobs, key), Want(st, st.sets[key].view))
    case Lose(e) =>
      forall key | key in Requests(st, e) && Live(st, key) && !Armed(Lost(st, e), key) :: Settled(st, key)
    case _ => true
  }

  ghost predicate TameRun(st: State, run: seq<Action>)
    requires IsRun(st, run)
    decreases |run|
  {
    run == [] || (Tame(st, run[0]) && TameRun(Next(st, run[0]), run[1..]))
  }

  // ---- Preservation ----

  lemma GotoConfined(st: State, key: NamespacedName, pc: Pc)
    requires key in st.active && !pc.Popped?
    requires if st.active[key].Popped? then key in st.sets && pc.s == st.sets[key].view else pc.s == st.active[key].s
    ensures Confined(st, Goto(st, key, pc), key)
  {
  }

  lemma DoneConfined(st: State, key: NamespacedName)
    ensures Confined(st, Done(st, key), key) && Confined(st, Retry(st, key), key)
  {
  }

  lemma WriteConfined(st: State, key: NamespacedName, s: SetView, c: Counts)
    ensures Confined(st, StatusWritten(st, key, s, c), key)
  {
    DoneConfined(st, key);
  }

  lemma NextPcKeepsSet(st: State, pc: Pc)
    requires !pc.Popped? && !pc.AllCounted?
    ensures !NextPc(st, pc).Popped? && NextPc(st, pc).s == pc.s
  {
  }

  lemma WorkConfined(st: State, key: NamespacedName)
    requires Enabled(st, Work(key))
    ensures Confined(st, Worked(st, key), key) && Worked(st, key).cronJobs == st.cronJobs
  {
    var pc := st.active[key];
    if pc.Popped? {
      DoneConfined(st, key);
      if Live(st, key) {
        GotoConfined(st, key, Fetched(st.sets[key].view));
      }
    } else if pc.AllCounted? {
      WriteConfined(st, key, pc.s, Counts(pc.desired, pc.available));
    } else {
      NextPcKeepsSet(st, pc);
      GotoConfined(st, key, NextPc(st, pc));
    }
  }

  lemma DeleteConfined(st: State, key: NamespacedName, c: NamespacedName)
    requires Enabled(st, DeleteOne(key, c))
    ensures Confined(st, DeletedOne(st, key, c), key)
  {
    GotoConfined(st, key, DeletedOne(st, key, c).active[key]);
  }

  lemma CreateConfined(st: State, key: NamespacedName, n: string)
    requires Enabled(st, CreateOne(key, n))
    ensures Confined(st, CreatedOne(st, key, n), key)
  {
    DoneConfined(st, key);
    if Ensured(st.cronJobs, st.active[key].s, n).Some? {
      GotoConfined(st, key, CreatedOne(st, key, n).active[key]);
    }
  }

  lemma FailConfined(st: State, key: NamespacedName)
    requires Enabled(st, Fail(key))
    ensures Confined(st, Failed(st, key), key) && Failed(st, key).cronJobs == st.cronJobs
  {
    DoneConfined(st, key);
    if st.active[key].InDeletePhase() {
      GotoConfined(st, key, Deleted(st.active[key].s));
    }
  }

  lemma StepConfined(st: State, a: Action)
    requires Enabled(st, a) && a.OfReconcile()
    ensures Confined(st, Next(st, a), a.key)
  {
    match a
    case Work(key) => WorkConfined(st, key);
    case DeleteOne(key, c) => DeleteConfined(st, key, c);
    case CreateOne(key, n) => CreateConfined(st, key, n);
    case Fail(key) => FailConfined(st, key);
  }

  /** Nothing that bears on the set has changed. */
  ghost predicate Untouched(st: State, st': State, key: NamespacedName) {
    && At(st'.sets, key) == At(st.sets, key)
    && At(st'.active, key) == At(st.active, key)
    && At(st'.recorded, key) == At(st.recorded, key)
    && st'.nodes == st.nodes
    && Children(st'.cronJobs, key.ns, key.name) == Children(st.cronJobs, key.ns, key.name)
    && forall c | c in Children(st.cronJobs, key.ns, key.name) :: st'.cronJobs[c] == st.cronJobs[c]
  }

  lemma SameNodesAt(store: ChildStore, store': ChildStore, keys: set<NamespacedName>)
    requires keys <= store.Keys && keys <= store'.Keys
    requires forall c | c in keys :: store'[c] == store[c]
    ensures NodesAt(store', keys) == NodesAt(store, keys)
  {
    assert forall c | c in keys :: NodeAt(store', c) == NodeAt(store, c);
  }

  lemma UntouchedStaysSettled(st: State, st': State, key: NamespacedName)
    requires key in st.sets && Untouched(st, st', key)
    ensures Have(st'.cronJobs, key) == Have(st.cronJobs, key)
    ensures Settled(st, key) ==> Settled(st', key)
  {
    var all := Children(st.cronJobs, key.ns, key.name);
    SameNodesAt(st.cronJobs, st'.cronJobs, all);
  }

  /** Only three kinds of step write CronJobs. */
  lemma CronJobsKept(st: State, a: Action)
    requires Enabled(st, a) && !a.CreateOne? && !a.DeleteOne? && !a.DropCronJob?
    ensures Next(st, a).cronJobs == st.cronJobs
  {
    if a.Work? {
      WorkConfined(st, a.key);
    } else if a.Fail? {
      FailConfined(st, a.key);
    } else if !a.OfSet() && !a.Pop? && !a.Restart? {
      StoresKept(st, a);
    }
  }

  lemma WellMadeKept(st: State, a: Action)
    requires WellMade(st.cronJobs) && Enabled(st, a)
    ensures WellMade(Next(st, a).cronJobs)
  {
    if a.CreateOne? {
      if Ensured(st.cronJobs, st.active[a.key].s, a.node).Some? {
        EnsuringGivesChild(st.cronJobs, st.active[a.key].s, a.node);
      }
    } else if !a.DeleteOne? && !a.DropCronJob? {
      CronJobsKept(st, a);
    }
  }

  lemma KeyedKept(st: State, a: Action)
    requires Keyed(st) && Enabled(st, a)
    ensures Keyed(Next(st, a))
  {
    if a.OfSet() {
      assert Next(st, a).active == st.active;
    } else {
      SetsKept(st, a);
      forall key | key in Next(st, a).active && !Next(st, a).active[key].Popped?
        ensures KeyOf(Next(st, a).active[key].s) == key
      {
        ActiveKeyed(st, a, key);
      }
    }
  }

  lemma ActiveKeyed(st: State, a: Action, key: NamespacedName)
    requires Keyed(st) && Enabled(st, a)
    requires key in Next(st, a).active && !Next(st, a).active[key].Popped?
    ensures KeyOf(Next(st, a).active[key].s) == key
  {
    if a.OfReconcile() {
      StepConfined(st, a);
      if key != a.key {
        assert At(Next(st, a).active, key) == At(st.active, key);
      }
    } else if !a.Pop? {
      ActiveKept(st, a);
    }
  }

  /** Only its own steps move a reconcile; a restart ends them all. */
  lemma ActiveKept(st: State, a: Action)
    requires Enabled(st, a) && !a.OfReconcile() && !a.Pop?
    ensures Next(st, a).active == if a.Restart? then map[] else st.active
  {
    if !a.OfSet() && !a.DropCronJob? && !a.Restart? {
      StoresKept(st, a);
    }
  }

  /** Nodes, events and the queue have no bearing on what is stored of sets and CronJobs. */
  lemma StoresKept(st: State, a: Action)
    requires Enabled(st, a) && !a.OfReconcile() && !a.OfSet() && !a.DropCronJob? && !a.Pop? && !a.Restart?
    ensures SameStores(st, Next(st, a))
  {
    if a.OfNode() {
      NodesOnly(st, a);
    }
  }

  predicate SameStores(st: State, r: State) {
    r.sets == st.sets && r.cronJobs == st.cronJobs && r.active == st.active && r.recorded == st.recorded
  }

  lemma NodesOnly(st: State, a: Action)
    requires Enabled(st, a) && a.OfNode()
    ensures SameStores(st, NodeChanged(st, a))
  {
  }

  lemma RemovalOwes(st: State, c: NamespacedName, key: NamespacedName)
    requires WellMade(st.cronJobs) && c in Children(st.cronJobs, key.ns, key.name)
    ensures Owed(Without(st, c), key)
  {
    assert st.cronJobs[c].controller == ControlledBySet(key.name);
    assert OwnerOf(key) in Without(st, c).events;
  }

  lemma RemovalSpares(st: State, c: NamespacedName, key: NamespacedName)
    requires c in st.cronJobs && c !in Children(st.cronJobs, key.ns, key.name)
    ensures Untouched(st, Without(st, c), key)
    ensures Have(Without(st, c).cronJobs, key) == Have(st.cronJobs, key)
  {
    var all := Children(st.cronJobs, key.ns, key.name);
    assert Children(Without(st, c).cronJobs, key.ns, key.name) == all;
    SameNodesAt(st.cronJobs, Without(st, c).cronJobs, all);
  }

  /** A CronJob that disappears either concerns another set or queues this one. */
  lemma RemovalIsTold(st: State, c: NamespacedName, key: NamespacedName)
    requires WellMade(st.cronJobs) && c in st.cronJobs
    ensures c in Children(st.cronJobs, key.ns, key.name) ==> Owed(Without(st, c), key)
    ensures c !in Children(st.cronJobs, key.ns, key.name) ==> Untouched(st, Without(st, c), key)
    ensures Armed(st, key) ==> Armed(Without(st, c), key)
  {
    if c in Children(st.cronJobs, key.ns, key.name) {
      RemovalOwes(st, c, key);
    } else {
      RemovalSpares(st, c, key);
      assert forall e | e in st.events :: e in Without(st, c).events;
    }
  }

  /** The nodes a set wants after a relabel of one. */
  lemma RelabelMovesWant(st: State, s: SetView, n: string, o: NodeObject)
    requires n in st.nodes
    ensures var want := Want(st, s);
            Want(st.(nodes := st.nodes[n := o]), s) ==
            if Matches(s.selector, o.labels) then want + {n} else want - {n}
    ensures n in Want(st, s) <==> Matches(s.selector, st.nodes[n].labels)
  {
    assert NodeLabels(st.nodes[n := o]) == NodeLabels(st.nodes)[n := o.labels];
  }

  lemma RemovalMovesWant(st: State, s: SetView, n: string)
    ensures Want(st.(nodes := st.nodes - {n}), s) == Want(st, s) - {n}
  {
    assert NodeLabels(st.nodes - {n}) == NodeLabels(st.nodes) - {n};
  }

  /** A set loses a matching node it has no CronJob on. */
  lemma LosingForeignNode(pc: Option<Pc>, have: set<string>, want: set<string>, told: Option<Counts>, n: string)
    requires ComesRight(pc, have, want, told) && n !in have
    ensures ComesRight(pc, have, want - {n}, told)
  {
    assert (want - {n}) * have == want * have;
    SubsetSize(want - {n}, want);
  }

  /** A set gains a matching node it has no CronJob on. */
  lemma GainingNode(pc: Option<Pc>, have: set<string>, want: set<string>, told: Option<Counts>, n: string)
    requires ComesRight(pc, have, want, told) && n !in have
    ensures ComesRight(pc, have, want + {n}, told) <==> !Missed(pc, have, want + {n}, told)
  {
    assert n in want + {n} && (want + {n}) * have == want * have;
  }

  /** Relabelling a terminating node leaves a set covered exactly when the set does not overlook it. */
  lemma RelabelStep(st: State, n: string, labels: Labels, key: NamespacedName)
    requires Covered(st, key) && Live(st, key) && n in st.nodes && st.nodes[n].terminating
    ensures Covered(Next(st, UpdateNode(n, labels)), key) <==> !Overlooks(st, key, n, labels)
  {
    if labels != st.nodes[n].labels {
      Relabelled(st, NodeChanged(st, UpdateNode(n, labels)), n, labels, key);
    }
  }

  lemma Relabelled(st: State, r: State, n: string, labels: Labels, key: NamespacedName)
    requires Covered(st, key) && Live(st, key) && n in st.nodes
    requires r == Emit(st.(nodes := st.nodes[n := st.nodes[n].(labels := labels)]), OnNode(n))
    ensures Covered(r, key) <==> !Overlooks(st, key, n, labels)
  {
    var s := st.sets[key].view;
    RelabelMovesWant(st, s, n, st.nodes[n].(labels := labels));
    if Armed(st, key) {
      assert forall e | e in st.events :: e in r.events;
    } else {
      assert OnNode(n) in r.events;
      assert Armed(r, key) <==> n in Have(st.cronJobs, key);
      if n !in Have(st.cronJobs, key) {
        MovedWant(At(st.active, key), Have(st.cronJobs, key), Want(st, s), At(st.recorded, key), n,
                  Matches(s.selector, labels));
      }
    }
  }

  /** A node without a CronJob comes to match the set or ceases to. */
  lemma MovedWant(pc: Option<Pc>, have: set<string>, want: set<string>, told: Option<Counts>, n: string, now: bool)
    requires ComesRight(pc, have, want, told) && n !in have
    ensures ComesRight(pc, have, if now then want + {n} else want - {n}, told) <==>
            !(n !in want && now && Missed(pc, have, want + {n}, told))
  {
    if !now {
      LosingForeignNode(pc, have, want, told, n);
    } else if n in want {
      assert want + {n} == want;
    } else {
      GainingNode(pc, have, want, told, n);
    }
  }

  lemma NodeStep(st: State, a: Action, key: NamespacedName)
    requires Covered(st, key) && Enabled(st, a) && Tame(st, a) && Live(st, key)
    requires a.OfNode()
    ensures Covered(Next(st, a), key)
  {
    var st' := NodeChanged(st, a);
    if a.UpdateNode? && st.nodes[a.node].terminating {
      RelabelStep(st, a.node, a.labels, key);
    } else if !Armed(st', key) {
      assert forall e | e in st.events :: e in st'.events;
      var s := st.sets[key].view;
      if a.TerminateNode? {
        RelabelMovesWant(st, s, a.node, st.nodes[a.node].(terminating := true));
        assert Want(st', s) == Want(st, s);
      } else if a.RemoveNode? {
        QuietlyRemoved(st, a.node, key);
      } else {
        assert a.UpdateNode? && st' == st;
      }
    }
  }

  /** A terminating node without a CronJob of the set is removed. */
  lemma QuietlyRemoved(st: State, n: string, key: NamespacedName)
    requires Live(st, key) && Settled(st, key) && n in st.nodes
    ensures var r := NodeChanged(st, RemoveNode(n)); Armed(r, key) || Settled(r, key)
  {
    var r := NodeChanged(st, RemoveNode(n));
    var s := st.sets[key].view;
    RemovalMovesWant(st, s, n);
    assert Want(r, s) == Want(st, s) - {n};
    if n in Have(st.cronJobs, key) {
      assert NodeEvent(n, st.nodes[n].terminating) in r.events;
    } else {
      LosingForeignNode(At(st.active, key), Have(st.cronJobs, key), Want(st, s), At(st.recorded, key), n);
    }
  }

  lemma SetStep(st: State, a: Action, key: NamespacedName)
    requires Covered(st, key) && Enabled(st, a)
    requires a.OfSet()
    ensures Covered(Next(st, a), key)
  {
    var st' := Next(st, a);
    var changed := if a.CreateSet? || a.EditSet? then KeyOf(a.s) else a.key;
    assert OwnerOf(changed) in st'.events;
    if Live(st', key) && key != changed {
      assert forall e | e in st.events :: e in st'.events;
      UntouchedStaysSettled(st, st', key);
    }
  }

  lemma MappedToOwner(store: ChildStore, key: NamespacedName, n: string)
    requires WellMade(store) && n in Have(store, key)
    ensures key in SetsOnNode(store, n)
  {
    var c :| c in Children(store, key.ns, key.name) && NodeAt(store, c) == n;
    MatchesTwo(Role, ROLE_WORKER, Node, n, store[c].job.labels);
  }

  /** The list for a node finds exactly the sets with a CronJob there. */
  lemma OnNodeMeansChild(store: ChildStore, key: NamespacedName, n: string)
    requires WellMade(store)
    ensures key in SetsOnNode(store, n) <==> n in Have(store, key)
  {
    if key in SetsOnNode(store, n) {
      var c :| c in store && Matches(NodeSelector(n), store[c].job.labels) &&
        DaemonCronJobSetName in store[c].job.labels &&
        key == NamespacedName(c.ns, store[c].job.labels[DaemonCronJobSetName]);
      MatchesTwo(Role, ROLE_WORKER, Node, n, store[c].job.labels);
      assert c in Children(store, key.ns, key.name) && NodeAt(store, c) == n;
    }
    if n in Have(store, key) {
      MappedToOwner(store, key, n);
    }
  }

  /** An event matters only to the sets it queues. */
  lemma EventReaches(st: State, e: Event, key: NamespacedName)
    requires WellMade(st.cronJobs) && e in st.events && Live(st, key)
    requires Armed(st, key) && !Armed(Lost(st, e), key)
    ensures key in Requests(st, e)
  {
    assert forall f | f in st.events && f != e :: f in Lost(st, e).events;
    if e.OnNode? {
      MappedToOwner(st.cronJobs, key, e.node);
    }
  }

  lemma DeliveryStep(st: State, e: Event, key: NamespacedName)
    requires WellMade(st.cronJobs) && Covered(st, key) && e in st.events && Live(st, key)
    ensures Covered(Next(st, Deliver(e)), key)
  {
    if Armed(st, key) {
      if !Armed(Lost(st, e), key) {
        EventReaches(st, e, key);
      }
    } else {
      UntouchedStaysSettled(st, Next(st, Deliver(e)), key);
    }
  }

  /** Which sets a delivered event queues: its own, those that exist, or those with a CronJob on its node. */
  lemma DeliveryQueuesExactly(st: State, e: Event, key: NamespacedName)
    requires WellMade(st.cronJobs) && e in st.events
    ensures key in Next(st, Deliver(e)).queue <==>
              || key in st.queue || e == OwnerOf(key) || (e.AllSets? && key in st.sets)
              || (e.OnNode? && e.node in Have(st.cronJobs, key))
  {
    if e.OnNode? {
      OnNodeMeansChild(st.cronJobs, key, e.node);
    }
  }

  /** Of a restarted controller nothing is left but one event for each set. */
  lemma RestartStartsOver(st: State)
    ensures var r := Next(st, Restart);
            && r.queue == {} && r.active == map[] && SameStores(st.(active := map[]), r)
            && forall e: Event :: r.events[e] == if e.OwnerOf? && e.key in st.sets then 1 else 0
  {
    var owners := set key | key in st.sets :: OwnerOf(key);
    forall e: Event ensures multiset(owners)[e] == if e.OwnerOf? && e.key in st.sets then 1 else 0 {
      assert e in owners <==> e.OwnerOf? && e.key in st.sets;
    }
  }

  /** A set that is created anew has no status, so the first one written is news, whatever it says. */
  lemma FirstStatusIsNews(st: State, s: SetView, c: Counts)
    requires KeyOf(s) !in st.sets
    ensures var r := Next(st, CreateSet(s));
            && OwnerOf(KeyOf(s)) in r.events && r.sets == st.sets[KeyOf(s) := StoredSet(s, false)]
            && KeyOf(s) !in r.recorded
            && var w := StatusWritten(r, KeyOf(s), s, c);
               At(w.recorded, KeyOf(s)) == Some(c) && w.events == r.events + multiset{OwnerOf(KeyOf(s))}
  {
  }

  /** A set that is being deleted stays so until it is gone, whatever users edit. */
  lemma TerminationIsFinal(st: State, a: Action, key: NamespacedName)
    requires Enabled(st, a) && key in st.sets && st.sets[key].terminating
    ensures if a == RemoveSet(key) then key !in Next(st, a).sets
            else key in Next(st, a).sets && Next(st, a).sets[key].terminating
  {
    if !a.OfSet() {
      SetsKept(st, a);
    }
  }

  /** Losing an event leaves every set covered exactly when each set it would have queued is queued
      otherwise or has nothing to catch up on. */
  lemma LossStep(st: State, e: Event, key: NamespacedName)
    requires WellMade(st.cronJobs) && Covered(st, key) && e in st.events && Live(st, key)
    ensures Covered(Lost(st, e), key) <==>
            (key in Requests(st, e) && !Armed(Lost(st, e), key) ==> Settled(st, key))
  {
    UntouchedStaysSettled(st, Lost(st, e), key);
    UntouchedStaysSettled(Lost(st, e), st, key);
    if Armed(st, key) && !Armed(Lost(st, e), key) {
      EventReaches(st, e, key);
    }
  }

  lemma WorkStep(st: State, k: NamespacedName, key: NamespacedName)
    requires WellMade(st.cronJobs) && Keyed(st) && Current(st, key) && Covered(st, key)
    requires Enabled(st, Work(k)) && Live(st, key)
    ensures Covered(Next(st, Work(k)), key)
  {
    WorkConfined(st, k);
    if Armed(st, key) {
      StaysArmed(st, Worked(st, k), k, key);
    } else if k != key {
      UntouchedStaysSettled(st, Worked(st, k), key);
    } else {
      OwnWorkStep(st, Worked(st, k), key);
    }
  }

  /** A step of a reconcile that removes no CronJob takes no prompt away. */
  lemma StaysArmed(st: State, r: State, k: NamespacedName, key: NamespacedName)
    requires Confined(st, r, k) && Armed(st, key) && Have(st.cronJobs, key) <= Have(r.cronJobs, key)
    ensures Armed(r, key)
  {
    assert forall e | e in st.events :: e in r.events;
  }

  lemma OwnWorkStep(st: State, r: State, key: NamespacedName)
    requires WellMade(st.cronJobs) && Keyed(st) && Live(st, key) && Settled(st, key)
    requires Current(st, key) && !Owed(st, key) && Enabled(st, Work(key)) && r == Worked(st, key)
    requires Confined(st, r, key) && r.cronJobs == st.cronJobs
    ensures Owed(r, key) || Settled(r, key)
  {
    var have, want, told := Have(st.cronJobs, key), Want(st, st.sets[key].view), At(st.recorded, key);
    assert Want(r, st.sets[key].view) == want;
    if st.active[key].AllCounted? {
      assert Owed(r, key) || r == Done(st, key);
    } else {
      assert At(r.recorded, key) == told;
      if !st.active[key].Popped? {
        OwnMove(st, key, have, want, told);
      }
    }
  }

  lemma OwnMove(st: State, key: NamespacedName, have: set<string>, want: set<string>, told: Option<Counts>)
    requires WellMade(st.cronJobs) && Keyed(st) && key in st.sets && Enabled(st, Work(key))
    requires !st.active[key].Popped? && !st.active[key].AllCounted? && st.active[key].s == st.sets[key].view
    requires have == Have(st.cronJobs, key) && want == Want(st, st.sets[key].view)
    requires ComesRight(Some(st.active[key]), have, want, told)
    ensures ComesRight(Some(NextPc(st, st.active[key])), have, want, told)
  {
    match st.active[key]
    case NodesListed(_, _) => NoMismatch(st, key);
    case Deleted(_) => CreatingHeeds(have, want, told);
    case Applied(_) => CountingHeeds(have, want, told);
    case NodesCounted(_, _) => ChildCount(st, key);
    case _ =>
  }

  lemma ChildCount(st: State, key: NamespacedName)
    requires WellMade(st.cronJobs) && Keyed(st) && key in st.sets
    ensures |Children(st.cronJobs, key.ns, key.name)| == |Have(st.cronJobs, key)|
  {
    DistinctNodes(st.cronJobs, st.sets[key].view, Children(st.cronJobs, key.ns, key.name));
  }

  /** When every node the set wants has a CronJob, no node can leave quietly. */
  lemma CreatingHeeds(have: set<string>, want: set<string>, told: Option<Counts>)
    requires Noticed(told, have, want)
    ensures want <= have ==> Heeded(told, have, want)
  {
    if want <= have {
      assert want * have == want;
      assert have <= want ==> have == want;
    }
  }

  lemma CountingHeeds(have: set<string>, want: set<string>, told: Option<Counts>)
    requires Heeded(told, have, want)
    ensures told == Some(Counts(|want|, |have|)) ==> Agrees(told, have, want)
  {
    SubsetSize(want * have, want);
    if have <= want && |have| == |want| {
      SubsetSize(have, want);
    }
  }

  /** The delete loop is empty exactly when all the set's nodes were listed. */
  lemma NoMismatch(st: State, key: NamespacedName)
    requires WellMade(st.cronJobs) && Keyed(st) && key in st.active && st.active[key].NodesListed?
    ensures Mismatched(st.cronJobs, st.active[key].s, st.active[key].live) == {} <==>
            Have(st.cronJobs, key) <= st.active[key].live
  {
    var s, live := st.active[key].s, st.active[key].live;
    forall c | c in Children(st.cronJobs, key.ns, key.name)
      ensures c in Mismatched(st.cronJobs, s, live) <==> NodeAt(st.cronJobs, c) !in live
    {
      ChildFacts(st.cronJobs, s, c);
    }
  }

  lemma DeleteStep(st: State, k: NamespacedName, c: NamespacedName, key: NamespacedName)
    requires WellMade(st.cronJobs) && Keyed(st) && Current(st, key) && Covered(st, key)
    requires Enabled(st, DeleteOne(k, c)) && Live(st, key)
    ensures Covered(Next(st, DeleteOne(k, c)), key)
  {
    var st' := Next(st, DeleteOne(k, c));
    if c in st.cronJobs {
      var moved := Goto(st, k, st.active[k].(todo := st.active[k].todo - {c}));
      RemovalIsTold(moved, c, key);
      if !Armed(st', key) {
        assert !Armed(st, key);
        UntouchedStaysSettled(st, st', key);
      }
    } else if !Armed(st, key) && k != key {
      UntouchedStaysSettled(st, st', key);
    }
  }

  lemma CreateStep(st: State, k: NamespacedName, n: string, key: NamespacedName)
    requires WellMade(st.cronJobs) && Keyed(st) && Covered(st, key)
    requires Enabled(st, CreateOne(k, n)) && Live(st, key)
    ensures Covered(Next(st, CreateOne(k, n)), key)
  {
    var st' := CreatedOne(st, k, n);
    CreateConfined(st, k, n);
    CreatedSpares(st, k, n, key);
    if Armed(st, key) {
      StaysArmed(st, st', k, key);
    } else if k != key {
      UntouchedStaysSettled(st, st', key);
    } else {
      OwnCreateStep(st, st', key, n);
    }
  }

  lemma CreatedSpares(st: State, k: NamespacedName, n: string, key: NamespacedName)
    requires WellMade(st.cronJobs) && Keyed(st) && Enabled(st, CreateOne(k, n))
    ensures var store, store' := st.cronJobs, CreatedOne(st, k, n).cronJobs;
            && Have(store, key) <= Have(store', key)
            && (k != key ==>
                  && Children(store', key.ns, key.name) == Children(store, key.ns, key.name)
                  && forall c | c in Children(store, key.ns, key.name) :: store'[c] == store[c])
  {
    var s := st.active[k].s;
    if Ensured(st.cronJobs, s, n).Some? {
      CreatingTouchesOwn(st.cronJobs, s, n, key, Ensured(st.cronJobs, s, n).value);
    }
  }

  /** A create that stores something queues the set; one that finds its CronJob there changes nothing. */
  lemma OwnCreateStep(st: State, r: State, key: NamespacedName, n: string)
    requires WellMade(st.cronJobs) && Keyed(st) && Live(st, key) && Settled(st, key)
    requires Enabled(st, CreateOne(key, n)) && r == CreatedOne(st, key, n) && Confined(st, r, key)
    ensures Owed(r, key) || Settled(r, key)
  {
    var s := st.active[key].s;
    if Ensured(st.cronJobs, s, n).Some? {
      EnsuringGivesChild(st.cronJobs, s, n);
    }
  }

  /** Creating for one set leaves the children of every other alone, and loses none of its own. */
  lemma CreatingTouchesOwn(store: ChildStore, s: SetView, n: string, key: NamespacedName, r: ChildStore)
    requires WellMade(store) && Ensured(store, s, n) == Some(r)
    ensures Have(store, key) <= Have(r, key)
    ensures key != KeyOf(s) ==>
              && Children(r, key.ns, key.name) == Children(store, key.ns, key.name)
              && forall c | c in Children(store, key.ns, key.name) :: r[c] == store[c]
  {
    if r != store {
      NewChildIsWellMade(s, n);
      assert r == store[ChildKey(s, n) := r[ChildKey(s, n)]] && ChildKey(s, n) !in store;
      AddingTouchesOwn(store, ChildKey(s, n), r[ChildKey(s, n)], key);
    }
  }

  lemma AddingTouchesOwn(store: ChildStore, k: NamespacedName, c: Child, key: NamespacedName)
    requires k !in store
    ensures var r := store[k := c];
            && Have(store, key) <= Have(r, key)
            && ((k.ns != key.ns || LabelledFor(c.job.labels) != Some(key.name)) ==>
                  && Children(r, key.ns, key.name) == Children(store, key.ns, key.name)
                  && forall c | c in Children(store, key.ns, key.name) :: r[c] == store[c])
  {
    var r := store[k := c];
    assert forall c | c in Children(store, key.ns, key.name) ::
        c in Children(r, key.ns, key.name) && NodeAt(r, c) == NodeAt(store, c);
  }

  /** A reconcile that fails leaves its set covered, unless it fails in the delete phase: then exactly
      when no CronJob is left on a node that does not match or the counts will be news. */
  lemma FailStep(st: State, k: NamespacedName, key: NamespacedName)
    requires Covered(st, key) && Enabled(st, Fail(k)) && Live(st, key)
    ensures Covered(Next(st, Fail(k)), key) <==>
            (k == key && st.active[k].InDeletePhase() && !Armed(st, key) ==>
               Noticed(At(st.recorded, key), Have(st.cronJobs, key), Want(st, st.sets[key].view)))
  {
    FailConfined(st, k);
    var st' := Failed(st, k);
    if Armed(st, key) {
      StaysArmed(st, st', k, key);
    } else if k != key {
      UntouchedStaysSettled(st, st', key);
    } else {
      assert Want(st', st.sets[key].view) == Want(st, st.sets[key].view);
      assert st.active[k].InDeletePhase() ==> st'.events == st.events && st'.queue == st.queue;
    }
  }

  lemma QueueStep(st: State, a: Action, key: NamespacedName)
    requires Covered(st, key) && Enabled(st, a) && Live(st, key)
    requires a.Resync? || a.Pop?
    ensures Covered(Next(st, a), key)
  {
    if a.key != key && !Armed(st, key) {
      UntouchedStaysSettled(st, Next(st, a), key);
    }
  }

  lemma RestartArms(st: State, key: NamespacedName)
    requires key in st.sets
    ensures Owed(Restarted(st), key)
  {
    assert OwnerOf(key) in (set k | k in st.sets :: OwnerOf(k));
  }

  lemma DropStep(st: State, c: NamespacedName, key: NamespacedName)
    requires WellMade(st.cronJobs) && Covered(st, key) && c in st.cronJobs && Live(st, key)
    ensures Covered(Next(st, DropCronJob(c)), key)
  {
    RemovalIsTold(st, c, key);
    if !Armed(Next(st, DropCronJob(c)), key) {
      UntouchedStaysSettled(st, Next(st, DropCronJob(c)), key);
    }
  }

  lemma SetsKept(st: State, a: Action)
    requires Enabled(st, a) && !a.OfSet()
    ensures Next(st, a).sets == st.sets
  {
    if a.OfReconcile() {
      StepConfined(st, a);
    } else if !a.DropCronJob? && !a.Pop? && !a.Restart? {
      StoresKept(st, a);
    }
  }

  /** Every tame step keeps every set covered. */
  lemma StepKeeps(st: State, a: Action, key: NamespacedName)
    requires WellMade(st.cronJobs) && Keyed(st) && Current(st, key) && Covered(st, key)
    requires Enabled(st, a) && Tame(st, a)
    ensures Covered(Next(st, a), key)
  {
    if a.OfSet() {
      SetStep(st, a, key);
    } else {
      SetsKept(st, a);
      if Live(st, key) {
        LiveStep(st, a, key);
      }
    }
  }

  lemma LiveStep(st: State, a: Action, key: NamespacedName)
    requires WellMade(st.cronJobs) && Keyed(st) && Current(st, key) && Covered(st, key)
    requires Enabled(st, a) && Tame(st, a) && Live(st, key)
    requires !a.OfSet()
    ensures Covered(Next(st, a), key)
  {
    match a
    case DropCronJob(c) => DropStep(st, c, key);
    case Deliver(e) => DeliveryStep(st, e, key);
    case Lose(e) => LossStep(st, e, key);
    case Restart => RestartArms(st, key);
    case Work(k) => WorkStep(st, k, key);
    case DeleteOne(k, c) => DeleteStep(st, k, c, key);
    case CreateOne(k, n) => CreateStep(st, k, n, key);
    case Fail(k) => FailStep(st, k, key);
    case Resync(_) => QueueStep(st, a, key);
    case Pop(_) => QueueStep(st, a, key);
    case _ => NodeStep(st, a, key);
  }

  // ---- Soundness ----

  /** A debt is only settled by a reconcile that starts from the beginning, or by a restart. */
  lemma OwedStays(st: State, a: Action, key: NamespacedName)
    requires Enabled(st, a) && Owed(st, key) && a != Pop(key) && a != Restart
    ensures Owed(Next(st, a), key)
  {
    if a.OfReconcile() {
      StepConfined(st, a);
    }
  }

  /** Every step, tame or not, keeps every reconcile current. */
  lemma CurrentKept(st: State, a: Action, key: NamespacedName)
    requires WellMade(st.cronJobs) && Keyed(st) && Current(st, key) && Enabled(st, a)
    ensures Current(Next(st, a), key)
  {
    if Owed(st, key) {
      if a != Pop(key) && a != Restart {
        OwedStays(st, a, key);
      }
    } else if a.Work? {
      WorkKeepsCurrent(st, a.key, key);
    } else if a.DeleteOne? {
      DeleteKeepsCurrent(st, a.key, a.cron, key);
    } else if a.CreateOne? {
      CreateKeepsCurrent(st, a.key, a.node, key);
    } else {
      OutsideKeepsCurrent(st, a, key);
    }
  }

  lemma OutsideKeepsCurrent(st: State, a: Action, key: NamespacedName)
    requires WellMade(st.cronJobs) && Current(st, key) && !Owed(st, key) && Enabled(st, a)
    requires !a.Work? && !a.DeleteOne? && !a.CreateOne?
    ensures Current(Next(st, a), key)
  {
    if a.DropCronJob? {
      RemovalIsTold(st, a.cron, key);
    } else if a.CreateSet? || a.EditSet? {
      assert OwnerOf(KeyOf(a.s)) in Next(st, a).events;
    } else if a.Fail? {
      FailConfined(st, a.key);
      assert key != a.key ==> At(Failed(st, a.key).active, key) == At(st.active, key);
    } else if !a.OfSet() && !a.Pop? && !a.Restart? {
      StoresKept(st, a);
    }
  }

  lemma CreateKeepsCurrent(st: State, k: NamespacedName, n: string, key: NamespacedName)
    requires WellMade(st.cronJobs) && Keyed(st) && Current(st, key) && !Owed(st, key) && Enabled(st, CreateOne(k, n))
    ensures Current(Next(st, CreateOne(k, n)), key)
  {
    CreateConfined(st, k, n);
    CreatedSpares(st, k, n, key);
    if k != key {
      assert At(CreatedOne(st, k, n).active, key) == At(st.active, key);
    }
  }

  lemma WorkKeepsCurrent(st: State, k: NamespacedName, key: NamespacedName)
    requires Keyed(st) && Current(st, key) && !Owed(st, key) && Enabled(st, Work(k))
    ensures Current(Worked(st, k), key)
  {
    WorkConfined(st, k);
    if k != key {
      assert At(Worked(st, k).active, key) == At(st.active, key);
    }
  }

  lemma DeleteKeepsCurrent(st: State, k: NamespacedName, c: NamespacedName, key: NamespacedName)
    requires WellMade(st.cronJobs) && Current(st, key) && !Owed(st, key) && Enabled(st, DeleteOne(k, c))
    ensures Current(Next(st, DeleteOne(k, c)), key)
  {
    if c in st.cronJobs {
      var moved := Goto(st, k, st.active[k].(todo := st.active[k].todo - {c}));
      RemovalIsTold(moved, c, key);
    }
  }

  lemma SoundKept(st: State, a: Action)
    requires Sound(st) && Enabled(st, a)
    ensures Sound(Next(st, a))
  {
    WellMadeKept(st, a);
    KeyedKept(st, a);
    forall key ensures Current(Next(st, a), key) {
      assert Current(st, key);
      CurrentKept(st, a, key);
    }
  }

  lemma {:induction false} SoundAlongRun(st: State, run: seq<Action>)
    requires Sound(st) && IsRun(st, run)
    ensures Sound(Final(st, run))
    decreases |run|
  {
    if run != [] {
      SoundKept(st, run[0]);
      SoundAlongRun(Next(st, run[0]), run[1..]);
    }
  }

  lemma {:induction false} CoveredAlongRun(st: State, run: seq<Action>, key: NamespacedName)
    requires Sound(st) && Covered(st, key) && IsRun(st, run) && TameRun(st, run)
    ensures Sound(Final(st, run)) && Covered(Final(st, run), key)
    decreases |run|
  {
    if run != [] {
      SoundKept(st, run[0]);
      assert Current(st, key);
      StepKeeps(st, run[0], key);
      CoveredAlongRun(Next(st, run[0]), run[1..], key);
    }
  }

  lemma RunStep(st: State, a: Action, rest: seq<Action>)
    requires Enabled(st, a) && IsRun(Next(st, a), rest)
    ensures IsRun(st, [a] + rest) && Final(st, [a] + rest) == Final(Next(st, a), rest)
    ensures Tame(st, a) && TameRun(Next(st, a), rest) ==> TameRun(st, [a] + rest)
  {
    assert ([a] + rest)[1..] == rest;
  }

  lemma TwoSteps(st: State, a: Action, b: Action)
    requires Enabled(st, a) && Enabled(Next(st, a), b)
    ensures IsRun(st, [a, b]) && Final(st, [a, b]) == Next(Next(st, a), b)
    ensures Tame(st, a) && Tame(Next(st, a), b) ==> TameRun(st, [a, b])
  {
    RunStep(Next(st, a), b, []);
    RunStep(st, a, [b] + []);
    assert [a] + ([b] + []) == [a, b];
  }

  lemma {:induction false} RunsJoin(st: State, front: seq<Action>, back: seq<Action>)
    requires IsRun(st, front) && IsRun(Final(st, front), back)
    ensures IsRun(st, front + back) && Final(st, front + back) == Final(Final(st, front), back)
    decreases |front|
  {
    if front == [] {
      assert front + back == back;
    } else {
      var a, rest := front[0], front[1..];
      RunsJoin(Next(st, a), rest, back);
      RunStep(st, a, rest + back);
      assert [a] + (rest + back) == front + back;
    }
  }

  lemma {:induction false} TameRunsJoin(st: State, front: seq<Action>, back: seq<Action>)
    requires IsRun(st, front) && IsRun(Final(st, front), back)
    requires TameRun(st, front) && TameRun(Final(st, front), back)
    ensures IsRun(st, front + back) && TameRun(st, front + back)
    decreases |front|
  {
    RunsJoin(st, front, back);
    if front == [] {
      assert front + back == back;
    } else {
      var a, rest := front[0], front[1..];
      TameRunsJoin(Next(st, a), rest, back);
      RunStep(st, a, rest + back);
      assert [a] + (rest + back) == front + back;
    }
  }

  lemma Joined(st: State, front: seq<Action>, back: seq<Action>)
    requires IsRun(st, front) && TameRun(st, front)
    requires IsRun(Final(st, front), back) && TameRun(Final(st, front), back)
    ensures IsRun(st, front + back) && TameRun(st, front + back)
    ensures Final(st, front + back) == Final(Final(st, front), back)
  {
    RunsJoin(st, front, back);
    TameRunsJoin(st, front, back);
  }

  lemma GotoTwice(st: State, key: NamespacedName, a: Pc, b: Pc)
    ensures Goto(Goto(st, key, a), key, b) == Goto(st, key, b)
  {
    assert st.active[key := a][key := b] == st.active[key := b];
  }

  lemma WrittenFromAnywhere(st: State, key: NamespacedName, s: SetView, c: Counts, pc: Pc)
    ensures StatusWritten(Goto(st, key, pc), key, s, c) == StatusWritten(st, key, s, c)
  {
    assert st.active[key := pc] - {key} == st.active - {key};
  }

  /** The status phase, when nothing else happens meanwhile. */
  function StatusPhase(key: NamespacedName): seq<Action> {
    [Work(key), Work(key)] + [Work(key), Work(key)]
  }

  lemma CountingRuns(st: State, key: NamespacedName, s: SetView)
    requires key in st.active && st.active[key] == Creating(s, {})
    ensures IsRun(st, [Work(key), Work(key)]) && TameRun(st, [Work(key), Work(key)])
    ensures Final(st, [Work(key), Work(key)]) == Goto(st, key, NodesCounted(s, |Want(st, s)|))
  {
    var applied := Goto(st, key, Applied(s));
    assert Next(st, Work(key)) == applied && Want(applied, s) == Want(st, s);
    GotoTwice(st, key, Applied(s), NodesCounted(s, |Want(st, s)|));
    TwoSteps(st, Work(key), Work(key));
  }

  lemma WritingRuns(st: State, key: NamespacedName, s: SetView, c: Counts)
    requires key in st.active && st.active[key] == NodesCounted(s, c.desired)
    requires c.available == |Children(st.cronJobs, s.ns, s.name)|
    ensures IsRun(st, [Work(key), Work(key)]) && TameRun(st, [Work(key), Work(key)])
    ensures Final(st, [Work(key), Work(key)]) == StatusWritten(st, key, s, c)
  {
    var counted := Goto(st, key, AllCounted(s, c.desired, c.available));
    assert Next(st, Work(key)) == counted && Next(counted, Work(key)) == StatusWritten(counted, key, s, c);
    WrittenFromAnywhere(st, key, s, c, AllCounted(s, c.desired, c.available));
    TwoSteps(st, Work(key), Work(key));
  }

  lemma StatusPhaseRuns(st: State, key: NamespacedName, s: SetView, c: Counts)
    requires key in st.active && st.active[key] == Creating(s, {})
    requires c == Counts(|Want(st, s)|, |Children(st.cronJobs, s.ns, s.name)|)
    ensures IsRun(st, StatusPhase(key)) && TameRun(st, StatusPhase(key))
    ensures Final(st, StatusPhase(key)) == StatusWritten(st, key, s, c)
  {
    CountingRuns(st, key, s);
    WritingRuns(Goto(st, key, NodesCounted(s, c.desired)), key, s, c);
    WrittenFromAnywhere(st, key, s, c, NodesCounted(s, c.desired));
    Joined(st, [Work(key), Work(key)], [Work(key), Work(key)]);
  }

  // ---- Main results ----

  /** The controller has just started, over whatever nodes, sets and CronJobs there are. */
  ghost predicate Started(st: State) {
    st == Restarted(st) && WellMade(st.cronJobs) && Keyed(st)
  }

  /** One CronJob on every matching node, and none elsewhere. */
  predicate Exact(st: State, key: NamespacedName) {
    && key in st.sets
    && Have(st.cronJobs, key) == Want(st, st.sets[key].view)
    && |Children(st.cronJobs, key.ns, key.name)| == |Want(st, st.sets[key].view)|
  }

  /** Exact, and a status that says so. */
  predicate Right(st: State, key: NamespacedName) {
    && Exact(st, key)
    && var n := |Children(st.cronJobs, key.ns, key.name)|; At(st.recorded, key) == Some(Counts(n, n))
  }

  lemma SettledIsRight(st: State, key: NamespacedName)
    requires WellMade(st.cronJobs) && Keyed(st) && key in st.sets && key !in st.active
    ensures Settled(st, key) <==> Right(st, key)
    ensures Exact(st, key) <==> Have(st.cronJobs, key) == Want(st, st.sets[key].view)
  {
    ChildCount(st, key);
  }

  lemma StartedIsInv(st: State)
    requires Started(st)
    ensures Inv(st)
  {
    forall key ensures Covered(st, key) {
      if key in st.sets {
        RestartArms(st, key);
      }
    }
  }

  /** In every state of every run each set that is not being deleted is queued or about to be, is being
      reconciled, or has its CronJobs on exactly its matching nodes and a status that says so. */
  lemma LevelTriggered(st: State, run: seq<Action>)
    requires Started(st) && IsRun(st, run) && TameRun(st, run)
    ensures var now := Final(st, run);
            forall key | Live(now, key) :: Armed(now, key) || key in now.active || Right(now, key)
  {
    StartedIsInv(st);
    var now := Final(st, run);
    forall key | Live(now, key) ensures Armed(now, key) || key in now.active || Right(now, key) {
      CoveredAlongRun(st, run, key);
      if key !in now.active {
        SettledIsRight(now, key);
      }
    }
  }

  predicate Idle(st: State) {
    st.queue == {} && st.active == map[] && st.events == multiset{}
  }

  /** So when the controller has nothing left to do, every set is as it should be. */
  lemma IdleMeansRight(st: State, run: seq<Action>, key: NamespacedName)
    requires Started(st) && IsRun(st, run) && TameRun(st, run)
    requires Idle(Final(st, run)) && Live(Final(st, run), key)
    ensures Right(Final(st, run), key)
  {
    LevelTriggered(st, run);
    assert !Armed(Final(st, run), key);
  }
}
