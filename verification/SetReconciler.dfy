/** One reconcile of a DaemonCronJobSet (internal/controller/daemoncronjobset_controller.go), with
    API calls that may fail at any point. */
module SetReconciler {
  import opened Kube
  import opened Conditions
  import opened CronJobSets
  import opened SetStore

  const AVAILABLE := "Available"
  const DEGRADED := "Degraded"

  datatype StoredSet = StoredSet(view: SetView, terminating: bool)
  datatype SetStatus = SetStatus(desired: nat, available: nat, conditions: seq<Condition>)

  /** A phase stops at its first failing call, so a phase's faults are one list fault or the number
      of writes that go through before one fails; None means none fails. */
  datatype Fault = ListFails | WriteFails(after: nat) | NoFault

  datatype Faults = Faults(get: bool, deletes: Fault, applies: Fault, status: bool)

  /** How a reconcile went: the CronJobs it deleted, whether its delete phase failed, the node names its
      create phase listed and how many of them it served. */
  datatype Trace = Trace(gone: set<NamespacedName>, logged: bool, names: seq<string>, served: nat)

  /** Status after counting: the pair says ok exactly when the counts agree. */
  function CountedStatus(prior: SetStatus, desired: nat, available: nat): SetStatus {
    SetStatus(desired, available,
      if desired < available then
        PairWritten(prior.conditions, AVAILABLE, DEGRADED, false, "Reconciling", "Too much cronjobs")
      else if desired > available then
        PairWritten(prior.conditions, AVAILABLE, DEGRADED, false, "Reconciling", "Too few cronjobs")
      else PairWritten(prior.conditions, AVAILABLE, DEGRADED, true, "OK", ""))
  }

  function StatusOf(status: map<NamespacedName, SetStatus>, key: NamespacedName): SetStatus {
    if key in status then status[key] else SetStatus(0, 0, [])
  }

  class Reconciler {
    var nodes: map<string, Labels>
    var sets: map<NamespacedName, StoredSet>
    var cronJobs: ChildStore
    var status: map<NamespacedName, SetStatus>

    constructor (nodes: map<string, Labels>, sets: map<NamespacedName, StoredSet>, cronJobs: ChildStore)
      ensures this.nodes == nodes && this.sets == sets && this.cronJobs == cronJobs && status == map[]
    {
      this.nodes, this.sets, this.cronJobs, this.status := nodes, sets, cronJobs, map[];
    }

    ghost predicate Valid()
      reads this
    {
      && WellMade(cronJobs)
      && forall key | key in sets :: sets[key].view.ns == key.ns && sets[key].view.name == key.name
    }

    /** The set exists and is not being deleted. */
    predicate Serves(key: NamespacedName)
      reads `sets
    {
      key in sets && !sets[key].terminating
    }

    /** Deletes children on nodes that no longer match, one by one, giving up at the first error. */
    method DeleteCronJobsOnMismatchedNode(s: SetView, fault: Fault) returns (err: bool, gone: set<NamespacedName>)
      requires WellMade(cronJobs)
      modifies `cronJobs
      ensures gone <= Stale(old(cronJobs), nodes, s) && cronJobs == old(cronJobs) - gone
      ensures err <==> fault.ListFails? || (fault.WriteFails? && fault.after < |Stale(old(cronJobs), nodes, s)|)
      ensures !err ==> gone == Stale(old(cronJobs), nodes, s)
      ensures err && fault.WriteFails? ==> |gone| == fault.after
    {
      gone := {};
      if fault == ListFails {
        return true, gone;
      }
      ghost var stale := Stale(cronJobs, nodes, s);
      var nodeNames := Enumerate(MatchingNodes(nodes, s.selector));
      var items := Enumerate(Children(cronJobs, s.ns, s.name));
      forall i | 0 <= i < |items|
        ensures items[i] in cronJobs && Node in cronJobs[items[i]].job.labels
        ensures items[i] in stale <==> cronJobs[items[i]].job.labels[Node] !in nodeNames
      {
        StaleIff(cronJobs, nodes, s, items[i]);
      }
      err, gone := DeleteListed(items, nodeNames, fault, stale);
    }

    /** The delete loop: items whose node is not among the names go, until a delete fails. */
    method DeleteListed(items: seq<NamespacedName>, nodeNames: seq<string>, fault: Fault,
                        ghost stale: set<NamespacedName>)
      returns (err: bool, gone: set<NamespacedName>)
      requires Distinct(items) && !fault.ListFails? && forall k | k in stale :: k in items
      requires forall i | 0 <= i < |items| :: items[i] in cronJobs && Node in cronJobs[items[i]].job.labels
      requires forall i | 0 <= i < |items| :: items[i] in stale <==> cronJobs[items[i]].job.labels[Node] !in nodeNames
      modifies `cronJobs
      ensures gone <= stale && cronJobs == old(cronJobs) - gone
      ensures err <==> fault.WriteFails? && fault.after < |stale|
      ensures !err ==> gone == stale
      ensures err ==> |gone| == fault.after
    {
      gone := {};
      for i := 0 to |items|
        invariant gone <= stale && cronJobs == old(cronJobs) - gone
        invariant fault.WriteFails? ==> |gone| <= fault.after
        invariant forall j | i <= j < |items| :: items[j] !in gone
        invariant forall j | 0 <= j < i && items[j] in stale :: items[j] in gone
      {
        var k := items[i];
        assert cronJobs[k] == old(cronJobs)[k];
        if Node in cronJobs[k].job.labels && cronJobs[k].job.labels[Node] !in nodeNames {
          assert k in stale;
          if fault == WriteFails(|gone|) {
            Smaller(gone, stale, k);
            return true, gone;
          }
          Removed(old(cronJobs), gone, k);
          cronJobs := cronJobs - {k};
          gone := gone + {k};
        }
      }
      AllSeen(items, stale, gone);
      err := false;
    }

    /** Creates what is missing, node by node, giving up at the first error; `upto` of the listed
        names were served. */
    method ApplyCronJobs(s: SetView, fault: Fault) returns (err: bool, names: seq<string>, upto: nat)
      modifies `cronJobs
      ensures Distinct(names) && Firsts(names, |names|) == if fault.ListFails? then {}
                else MatchingNodes(nodes, s.selector)
      ensures upto <= |names| && EnsuredFirst(old(cronJobs), s, names, upto) == Some(cronJobs)
      ensures !err ==> upto == |names|
      ensures err && !fault.ListFails? ==>
                upto < |names| && (fault == WriteFails(upto) || Ensured(cronJobs, s, names[upto]).None?)
      ensures fault.ListFails? ==> err && cronJobs == old(cronJobs)
      ensures !err && fault.WriteFails? ==> |names| <= fault.after
    {
      upto, names := 0, [];
      if fault == ListFails {
        return true, names, upto;
      }
      names := Enumerate(MatchingNodes(nodes, s.selector));
      assert Firsts(names, |names|) == MatchingNodes(nodes, s.selector);
      err, upto := EnsureListed(s, names, fault);
    }

    /** The create loop over the listed names. */
    method EnsureListed(s: SetView, names: seq<string>, fault: Fault) returns (err: bool, upto: nat)
      requires !fault.ListFails?
      modifies `cronJobs
      ensures upto <= |names| && EnsuredFirst(old(cronJobs), s, names, upto) == Some(cronJobs)
      ensures err ==> upto < |names| && (fault == WriteFails(upto) || Ensured(cronJobs, s, names[upto]).None?)
      ensures !err ==> upto == |names| && (fault.WriteFails? ==> |names| <= fault.after)
    {
      upto := 0;
      while upto < |names|
        invariant upto <= |names|
        invariant fault.WriteFails? ==> upto <= fault.after
        invariant EnsuredFirst(old(cronJobs), s, names, upto) == Some(cronJobs)
      {
        var next := Ensured(cronJobs, s, names[upto]);
        if fault == WriteFails(upto) || next.None? {
          return true, upto;
        }
        cronJobs := next.value;
        upto := upto + 1;
      }
      err := false;
    }

    /** Counts matching nodes and children and records what the counts say. */
    method UpdateStatus(key: NamespacedName, s: SetView, fault: bool) returns (err: bool)
      modifies `status
      ensures err == fault
      ensures err ==> unchanged(`status)
      ensures status == if err then old(status) else
                old(status)[key := CountedStatus(StatusOf(old(status), key), |MatchingNodes(nodes, s.selector)|,
                                                 |Children(cronJobs, s.ns, s.name)|)]
    {
      if fault {
        return true;
      }
      var writer := new Status(StatusOf(status, key).conditions, AVAILABLE, DEGRADED, DEGRADED, "Reconciling");
      var desired := |MatchingNodes(nodes, s.selector)|;
      var available := |Children(cronJobs, s.ns, s.name)|;
      if desired < available {
        writer.SetPair(false, "Reconciling", "Too much cronjobs");
      } else if desired > available {
        writer.SetPair(false, "Reconciling", "Too few cronjobs");
      } else {
        writer.SetPair(true, "OK", "");
      }
      status := status[key := SetStatus(desired, available, writer.conditions)];
      return false;
    }

    /** One reconcile.  A failed Get or a set that is gone or going changes nothing. */
    method Reconcile(key: NamespacedName, f: Faults) returns (err: bool, deleted: nat, made: nat, ghost t: Trace)
      requires Valid()
      modifies `cronJobs, `status
      ensures Valid()
      ensures !(Serves(key) && !f.get) ==> err == f.get && unchanged(`cronJobs) && unchanged(`status)
      ensures Serves(key) && !f.get ==>
                Ran(old(cronJobs), cronJobs, nodes, sets[key].view, f, err, deleted + made, t)
      ensures Serves(key) && !err ==> Recorded(old(status), status, key, cronJobs, nodes, sets[key].view)
      ensures err ==> unchanged(`status)
    {
      deleted, made, t := 0, 0, Trace({}, false, [], 0);
      if f.get {
        return true, deleted, made, t;
      }
      if !Serves(key) {
        return false, deleted, made, t;
      }
      var s := sets[key].view;
      err, deleted, made, t := ReconcileSet(key, s, f);
      assert Serves(key) && sets[key].view == s;
    }

    /** A failed delete phase is only logged; `deleted` and `made` count the writes that went through. */
    method ReconcileSet(key: NamespacedName, s: SetView, f: Faults)
      returns (err: bool, deleted: nat, made: nat, ghost t: Trace)
      requires WellMade(cronJobs)
      modifies `cronJobs, `status
      ensures WellMade(cronJobs)
      ensures Ran(old(cronJobs), cronJobs, nodes, s, f, err, deleted + made, t)
      ensures !err ==> Recorded(old(status), status, key, cronJobs, nodes, s)
      ensures err ==> unchanged(`status)
    {
      err, deleted, made, t := WriteCronJobs(s, f);
      if err {
        return;
      }
      err := RecordStatus(key, s, f.status);
    }

    /** Once every matching node has its CronJob, the status recorded is true. */
    method RecordStatus(key: NamespacedName, s: SetView, fault: bool) returns (err: bool)
      requires WellMade(cronJobs) && MatchingNodes(nodes, s.selector) <= ChildNodes(cronJobs, s)
      modifies `status
      ensures err == fault
      ensures if err then unchanged(`status) else Recorded(old(status), status, key, cronJobs, nodes, s)
    {
      StatusIsTrue(StatusOf(status, key), cronJobs, nodes, s);
      err := UpdateStatus(key, s, fault);
    }

    /** The two phases that write CronJobs. */
    method WriteCronJobs(s: SetView, f: Faults) returns (err: bool, deleted: nat, made: nat, ghost t: Trace)
      requires WellMade(cronJobs)
      modifies `cronJobs
      ensures WellMade(cronJobs)
      ensures Ran(old(cronJobs), cronJobs, nodes, s, f, err || f.status, deleted + made, t)
      ensures !err ==> MatchingNodes(nodes, s.selector) <= ChildNodes(cronJobs, s)
    {
      ghost var before := cronJobs;
      var logged, gone := DeleteCronJobsOnMismatchedNode(s, f.deletes);
      deleted := |gone|;
      var kept := |cronJobs|;
      var names, upto;
      err, names, upto := ApplyCronJobs(s, f.applies);
      Outcome(before, nodes, s, f, logged, gone, err, names, upto);
      made := |cronJobs| - kept;
      t := Trace(gone, logged, names, upto);
    }
  }

  /** The two phases, step by step: which CronJobs the first deleted and which names the second served. */
  ghost predicate Traced(before: ChildStore, after: ChildStore, nodes: map<string, Labels>, s: SetView, f: Faults,
                         err: bool, t: Trace) {
    && t.gone <= Stale(before, nodes, s) && (!t.logged ==> t.gone == Stale(before, nodes, s))
    && (f.deletes.NoFault? ==> !t.logged)
    && Distinct(t.names) && Firsts(t.names, |t.names|) ==
       (if f.applies.ListFails? then {} else MatchingNodes(nodes, s.selector))
    && t.served <= |t.names| && EnsuredFirst(before - t.gone, s, t.names, t.served) == Some(after)
    && (!err ==> t.served == |t.names| && !f.applies.ListFails? && !f.status)
  }

  /** The counts are recorded for the set, and what its status says then is true. */
  ghost predicate Recorded(before: map<NamespacedName, SetStatus>, after: map<NamespacedName, SetStatus>,
                           key: NamespacedName, store: ChildStore, nodes: map<string, Labels>, s: SetView) {
    && after == before[key := CountedStatus(StatusOf(before, key), |MatchingNodes(nodes, s.selector)|,
                                            |Children(store, s.ns, s.name)|)]
    && StatusTrue(StatusOf(before, key), after[key], store, nodes, s)
  }

  ghost predicate Ran(before: ChildStore, after: ChildStore, nodes: map<string, Labels>, s: SetView, f: Faults,
                      err: bool, writes: nat, t: Trace) {
    Traced(before, after, nodes, s, f, err, t) && Reconciled(before, after, nodes, s, f, err, writes)
  }

  /** What one reconcile does to the CronJobs: progress however it is cut short; without faults it
      converges, and the only error left is another owner's hold on one of the names. */
  ghost predicate Reconciled(before: ChildStore, after: ChildStore, nodes: map<string, Labels>, s: SetView, f: Faults,
                             err: bool, writes: nat) {
    && Progress(before, after, nodes, s, writes)
    && Survivors(before, after)
    && (f.deletes.NoFault? && !err ==> Drift(after, nodes, s) == {})
    && (f.applies.NoFault? && !f.status ==>
          (err <==> exists n | n in MatchingNodes(nodes, s.selector) :: Taken(before, s, n)))
  }

  /** What a phase of `writes` successful writes has done: each write brought the set one node closer
      to where it should be, and nothing belonging to another owner was touched. */
  ghost predicate Progress(before: ChildStore, after: ChildStore, nodes: map<string, Labels>, s: SetView, writes: nat) {
    && |Drift(after, nodes, s)| + writes == |Drift(before, nodes, s)|
    && (writes == 0 ==> after == before)
    && Gentle(before, after, s)
  }

  ghost predicate Gentle(before: ChildStore, after: ChildStore, s: SetView) {
    && (forall k | k in before && Foreign(k, before[k], s) :: k in after && after[k] == before[k])
    && (forall k | k in after && Foreign(k, after[k], s) :: k in before && after[k] == before[k])
  }

  /** Not controlled by this set: in another namespace, or controlled by something else here. */
  predicate Foreign(k: NamespacedName, c: Child, s: SetView) {
    k.ns != s.ns || c.controller != ControlledBySet(s.name)
  }

  /** The stored object wins: a CronJob that is still there has not been edited. */
  ghost predicate Survivors(before: ChildStore, after: ChildStore) {
    forall k | k in before && k in after :: after[k] == before[k]
  }

  /** The recorded status says available exactly when it is true and too much exactly otherwise, and never
      too few. */
  ghost predicate StatusTrue(prior: SetStatus, now: SetStatus, store: ChildStore, nodes: map<string, Labels>,
                             s: SetView) {
    && now.desired == |MatchingNodes(nodes, s.selector)| <= now.available == |Children(store, s.ns, s.name)|
    && (UniqueKinds(prior.conditions) ==>
          && UniqueKinds(now.conditions)
          && (IsTrue(now.conditions, AVAILABLE) <==> ChildNodes(store, s) == MatchingNodes(nodes, s.selector))
          && (ChildNodes(store, s) == MatchingNodes(nodes, s.selector) ==>
                && HasOnly(now.conditions, Condition("Available", True, "OK", ""))
                && HasOnly(now.conditions, Condition("Degraded", False, "OK", "")))
          && (ChildNodes(store, s) != MatchingNodes(nodes, s.selector) ==>
                && HasOnly(now.conditions, Condition("Available", False, "Reconciling", ""))
                && HasOnly(now.conditions, Condition("Degraded", True, "Reconciling", "Too much cronjobs")))
          && NeverTooFew(now.conditions))
  }

  /** Neither verdict says so. */
  ghost predicate NeverTooFew(cs: seq<Condition>) {
    forall c | c in cs && c.kind in {"Available", "Degraded"} :: c.message != "Too few cronjobs"
  }

  /** Another controller holds the name the set would use for the node. */
  predicate Taken(store: ChildStore, s: SetView, node: string) {
    ChildKey(s, node) in store && store[ChildKey(s, node)].controller != ControlledBySet(s.name)
  }

  /** Then it is something else, or a set whose name and node name join to the same text. */
  lemma TakenByWhom(store: ChildStore, s: SetView, node: string)
    requires WellMade(store) && Taken(store, s, node)
    ensures var holder := store[ChildKey(s, node)];
            || holder.controller.ControlledByOther?
            || (holder.controller.ControlledBySet? && holder.controller.name != s.name && Node in holder.job.labels
                && JoinAlike(s.name, node, holder.controller.name, holder.job.labels[Node]))
  {
    var holder := store[ChildKey(s, node)];
    if holder.controller.ControlledBySet? {
      CronJobNamesCollide(s.name, node, holder.controller.name, holder.job.labels[Node]);
    }
  }

  function Firsts(names: seq<string>, i: nat): set<string>
    requires i <= |names|
  {
    set n | n in names[..i]
  }

  lemma AllSeen(items: seq<NamespacedName>, stale: set<NamespacedName>, gone: set<NamespacedName>)
    requires gone <= stale && forall k | k in stale :: k in items
    requires forall j | 0 <= j < |items| && items[j] in stale :: items[j] in gone
    ensures gone == stale
  {
    forall k | k in stale ensures k in gone {
      assert k in items;
    }
  }

  lemma Smaller<T>(part: set<T>, whole: set<T>, x: T)
    requires part <= whole && x in whole && x !in part
    ensures |part| < |whole|
  {
    SubsetSize(part, whole - {x});
  }

  lemma {:induction false} SubsetSize<T>(a: set<T>, b: set<T>)
    requires a <= b
    ensures |a| <= |b|
    ensures |a| == |b| ==> a == b
    decreases a
  {
    if a != {} {
      var x :| x in a;
      SubsetSize(a - {x}, b - {x});
    }
  }

  /** The store after CreateOrUpdate for the first i names, if none of them fails. */
  function EnsuredFirst(store: ChildStore, s: SetView, names: seq<string>, i: nat): Option<ChildStore>
    requires i <= |names|
  {
    if i == 0 then Some(store)
    else
      var before := EnsuredFirst(store, s, names, i - 1);
      if before.None? then None else Ensured(before.value, s, names[i - 1])
  }

  lemma EnsuringSize(store: ChildStore, s: SetView, node: string)
    requires WellMade(store) && Ensured(store, s, node).Some?
    ensures |Ensured(store, s, node).value| == |store| + (if ChildKey(s, node) in store then 0 else 1)
    ensures WellMade(Ensured(store, s, node).value)
  {
    if ChildKey(s, node) !in store {
      NewChildIsWellMade(s, node);
      PutWellMade(store, ChildKey(s, node), Child(CronJobFor(s, node), ControlledBySet(s.name)));
    }
  }

  lemma Removed(store: ChildStore, gone: set<NamespacedName>, k: NamespacedName)
    ensures store - gone - {k} == store - (gone + {k})
  {
  }

  lemma PutWellMade(store: ChildStore, k: NamespacedName, c: Child)
    requires WellMade(store) && k !in store && WellMadeAt(k, c)
    ensures WellMade(store[k := c]) && |store[k := c]| == |store| + 1
  {
  }

  lemma StaleIff(store: ChildStore, nodes: map<string, Labels>, s: SetView, k: NamespacedName)
    requires WellMade(store) && k in Children(store, s.ns, s.name)
    ensures Node in store[k].job.labels
    ensures k in Stale(store, nodes, s) <==> store[k].job.labels[Node] !in MatchingNodes(nodes, s.selector)
  {
    ChildFacts(store, s, k);
  }

  /** A name is taken exactly when CreateOrUpdate fails on it. */
  lemma TakenFails(store: ChildStore, s: SetView, node: string)
    requires WellMade(store)
    ensures Ensured(store, s, node).None? <==> Taken(store, s, node)
  {
  }

  lemma AddingShrinksDrift(store: ChildStore, r: ChildStore, nodes: map<string, Labels>, s: SetView, node: string)
    requires ChildNodes(r, s) == ChildNodes(store, s) + {node}
    requires node in MatchingNodes(nodes, s.selector) - ChildNodes(store, s)
    ensures |Drift(r, nodes, s)| + 1 == |Drift(store, nodes, s)|
  {
    Grown(ChildNodes(store, s), MatchingNodes(nodes, s.selector), node);
  }

  lemma AddingIsGentle(store: ChildStore, r: ChildStore, s: SetView, k: NamespacedName)
    requires k !in store && k in r && r == store[k := r[k]] && !Foreign(k, r[k], s)
    ensures Gentle(store, r, s)
  {
  }

  lemma AddingProgress(store: ChildStore, r: ChildStore, nodes: map<string, Labels>, s: SetView, node: string,
                       k: NamespacedName)
    requires k !in store && k in r && r == store[k := r[k]] && !Foreign(k, r[k], s)
    requires ChildNodes(r, s) == ChildNodes(store, s) + {node}
    requires node in MatchingNodes(nodes, s.selector) - ChildNodes(store, s)
    ensures Progress(store, r, nodes, s, 1)
  {
    AddingShrinksDrift(store, r, nodes, s, node);
    AddingIsGentle(store, r, s, k);
  }

  lemma EnsuredCases(store: ChildStore, s: SetView, node: string)
    requires WellMade(store) && Ensured(store, s, node).Some?
    ensures var r, key := Ensured(store, s, node).value, ChildKey(s, node);
            && (key in store ==> r == store)
            && (key !in store ==> key in r && r == store[key := r[key]] && !Foreign(key, r[key], s))
  {
  }

  /** One CreateOrUpdate is progress of one write, or of none when the child is there already. */
  lemma EnsuringProgress(store: ChildStore, nodes: map<string, Labels>, s: SetView, node: string, r: ChildStore)
    requires WellMade(store) && Ensured(store, s, node) == Some(r) && node in MatchingNodes(nodes, s.selector)
    ensures Progress(store, r, nodes, s, if ChildKey(s, node) in store then 0 else 1)
    ensures forall k | k in store :: k in r && r[k] == store[k]
  {
    EnsuredCases(store, s, node);
    if ChildKey(s, node) !in store {
      EnsuringAdds(store, s, node, r);
      AddingProgress(store, r, nodes, s, node, ChildKey(s, node));
    }
  }

  lemma EnsuringAdds(store: ChildStore, s: SetView, node: string, r: ChildStore)
    requires WellMade(store) && Ensured(store, s, node) == Some(r) && ChildKey(s, node) !in store
    ensures node !in ChildNodes(store, s) && ChildNodes(r, s) == ChildNodes(store, s) + {node}
  {
    EnsuringGivesChild(store, s, node);
    ChildNodeIffKey(store, s, node);
  }

  lemma ProgressTwice(a: ChildStore, b: ChildStore, c: ChildStore, nodes: map<string, Labels>, s: SetView, m: nat,
                      n: nat)
    requires Progress(a, b, nodes, s, m) && Progress(b, c, nodes, s, n)
    ensures Progress(a, c, nodes, s, m + n)
  {
  }

  /** The create phase gives every name it served a child, however far it gets. */
  lemma {:induction false} ApplyNodes(store: ChildStore, s: SetView, names: seq<string>, i: nat)
    requires WellMade(store) && i <= |names| && EnsuredFirst(store, s, names, i).Some?
    ensures var r := EnsuredFirst(store, s, names, i).value;
            WellMade(r) && ChildNodes(r, s) == ChildNodes(store, s) + Firsts(names, i)
  {
    if i == 0 {
      assert Firsts(names, 0) == {};
    } else {
      ApplyNodes(store, s, names, i - 1);
      OneMoreChild(store, s, names, i, EnsuredFirst(store, s, names, i - 1).value,
                   EnsuredFirst(store, s, names, i).value);
    }
  }

  lemma OneMoreChild(store: ChildStore, s: SetView, names: seq<string>, i: nat, before: ChildStore, r: ChildStore)
    requires WellMade(before) && 0 < i <= |names|
    requires EnsuredFirst(store, s, names, i - 1) == Some(before) && EnsuredFirst(store, s, names, i) == Some(r)
    requires ChildNodes(before, s) == ChildNodes(store, s) + Firsts(names, i - 1)
    ensures WellMade(r) && ChildNodes(r, s) == ChildNodes(store, s) + Firsts(names, i)
  {
    var node := names[i - 1];
    assert Ensured(before, s, node) == Some(r);
    EnsuringGivesChild(before, s, node);
    assert names[..i] == names[..i - 1] + [node];
    assert Firsts(names, i) == Firsts(names, i - 1) + {node};
  }

  /** Everything stored before is still there, unchanged, and each new CronJob was progress. */
  ghost predicate Advanced(store: ChildStore, r: ChildStore, nodes: map<string, Labels>, s: SetView) {
    && WellMade(r) && |r| >= |store|
    && Progress(store, r, nodes, s, |r| - |store|)
    && forall k | k in store :: k in r && r[k] == store[k]
  }

  lemma OneMoreName(store: ChildStore, before: ChildStore, r: ChildStore, nodes: map<string, Labels>, s: SetView,
                    node: string)
    requires Advanced(store, before, nodes, s)
    requires Ensured(before, s, node) == Some(r) && node in MatchingNodes(nodes, s.selector)
    ensures Advanced(store, r, nodes, s)
  {
    EnsuringProgress(before, nodes, s, node, r);
    EnsuringSize(before, s, node);
    ProgressTwice(store, before, r, nodes, s, |before| - |store|, |r| - |before|);
  }

  lemma NameListed(names: seq<string>, i: nat)
    requires i < |names|
    ensures names[i] in Firsts(names, |names|)
  {
    assert names[..|names|] == names;
  }

  /** The create phase is progress, however far it gets. */
  lemma {:induction false} ApplyProgress(store: ChildStore, nodes: map<string, Labels>, s: SetView,
                                         names: seq<string>, i: nat, r: ChildStore)
    requires WellMade(store) && i <= |names| && EnsuredFirst(store, s, names, i) == Some(r)
    requires Firsts(names, |names|) <= MatchingNodes(nodes, s.selector)
    ensures Advanced(store, r, nodes, s)
  {
    if i == 0 {
      NothingAdvances(store, r, nodes, s);
    } else {
      var before := EnsuredFirst(store, s, names, i - 1).value;
      ApplyProgress(store, nodes, s, names, i - 1, before);
      OneNameFurther(store, nodes, s, names, i, before, r);
    }
  }

  lemma OneNameFurther(store: ChildStore, nodes: map<string, Labels>, s: SetView, names: seq<string>, i: nat,
                       before: ChildStore, r: ChildStore)
    requires 0 < i <= |names| && Firsts(names, |names|) <= MatchingNodes(nodes, s.selector)
    requires EnsuredFirst(store, s, names, i - 1) == Some(before) && EnsuredFirst(store, s, names, i) == Some(r)
    requires Advanced(store, before, nodes, s)
    ensures Advanced(store, r, nodes, s)
  {
    NameListed(names, i - 1);
    OneMoreName(store, before, r, nodes, s, names[i - 1]);
  }

  lemma NothingAdvances(store: ChildStore, r: ChildStore, nodes: map<string, Labels>, s: SetView)
    requires r == store && WellMade(store)
    ensures Advanced(store, r, nodes, s)
  {
  }

  /** Which names are taken is not changed by gentle writes. */
  lemma TakenKept(before: ChildStore, after: ChildStore, s: SetView, node: string)
    requires Gentle(before, after, s)
    ensures Taken(after, s, node) <==> Taken(before, s, node)
  {
  }

  lemma {:induction false} ServedNotTaken(store: ChildStore, nodes: map<string, Labels>, s: SetView,
                                          names: seq<string>, i: nat, j: nat)
    requires WellMade(store) && j < i <= |names| && EnsuredFirst(store, s, names, i).Some?
    requires Firsts(names, |names|) <= MatchingNodes(nodes, s.selector)
    ensures !Taken(store, s, names[j])
    decreases i
  {
    if j < i - 1 {
      ServedNotTaken(store, nodes, s, names, i - 1, j);
    } else {
      ApplyNodes(store, s, names, j);
      ApplyProgress(store, nodes, s, names, j, EnsuredFirst(store, s, names, j).value);
      var r := EnsuredFirst(store, s, names, j).value;
      TakenFails(r, s, names[j]);
      TakenKept(store, r, s, names[j]);
    }
  }

  /** Every CronJob the create phase adds is the one the builder makes for a matching node. */
  lemma {:induction false} ApplyContents(store: ChildStore, nodes: map<string, Labels>, s: SetView,
                                         names: seq<string>, i: nat, k: NamespacedName)
    requires WellMade(store) && i <= |names| && EnsuredFirst(store, s, names, i).Some?
    requires Firsts(names, |names|) <= MatchingNodes(nodes, s.selector)
    requires k in EnsuredFirst(store, s, names, i).value && k !in store
    ensures exists n | n in MatchingNodes(nodes, s.selector) ::
              k == ChildKey(s, n) && EnsuredFirst(store, s, names, i).value[k] ==
                Child(CronJobFor(s, n), ControlledBySet(s.name))
  {
    var r := EnsuredFirst(store, s, names, i - 1).value;
    assert names[i - 1] in Firsts(names, |names|);
    if k in r {
      ApplyContents(store, nodes, s, names, i - 1, k);
      ApplyNodes(store, s, names, i - 1);
      EnsuredCases(r, s, names[i - 1]);
    }
  }

  lemma DeletingIsGentle(store: ChildStore, s: SetView, gone: set<NamespacedName>)
    requires WellMade(store) && gone <= Children(store, s.ns, s.name)
    ensures Gentle(store, store - gone, s)
  {
    forall k | k in gone ensures !Foreign(k, store[k], s) {
      ChildFacts(store, s, k);
    }
  }

  lemma DeletingIsProgress(store: ChildStore, nodes: map<string, Labels>, s: SetView, gone: set<NamespacedName>)
    requires WellMade(store) && gone <= Stale(store, nodes, s)
    ensures WellMade(store - gone) && Progress(store, store - gone, nodes, s, |gone|)
  {
    DeletingShrinksDrift(store, nodes, s, gone);
    DeletingIsGentle(store, s, gone);
    if gone == {} {
      assert store - gone == store;
    }
  }

  /** The delete phase, however far it gets. */
  lemma DeletePhase(store: ChildStore, nodes: map<string, Labels>, s: SetView, gone: set<NamespacedName>)
    requires WellMade(store) && gone <= Stale(store, nodes, s)
    ensures WellMade(store - gone)
    ensures Progress(store, store - gone, nodes, s, |gone|)
    ensures gone == Stale(store, nodes, s) ==> ChildNodes(store - gone, s) <= MatchingNodes(nodes, s.selector)
  {
    DeletingIsProgress(store, nodes, s, gone);
    if gone == Stale(store, nodes, s) {
      AllStaleGone(store, nodes, s);
    }
  }

  lemma AllStaleGone(store: ChildStore, nodes: map<string, Labels>, s: SetView)
    requires WellMade(store)
    ensures ChildNodes(store - Stale(store, nodes, s), s) <= MatchingNodes(nodes, s.selector)
  {
    var kept := store - Stale(store, nodes, s);
    forall k | k in Children(kept, s.ns, s.name) ensures NodeAt(kept, k) in MatchingNodes(nodes, s.selector) {
      assert k in Children(store, s.ns, s.name) && NodeAt(kept, k) == NodeAt(store, k);
    }
  }

  /** What the delete phase removed, the create phase does not bring back. */
  lemma NothingRevived(before: ChildStore, nodes: map<string, Labels>, s: SetView, gone: set<NamespacedName>,
                       names: seq<string>, upto: nat, k: NamespacedName)
    requires WellMade(before) && WellMade(before - gone) && gone <= Stale(before, nodes, s) && k in gone
    requires upto <= |names| && Firsts(names, |names|) <= MatchingNodes(nodes, s.selector)
    requires EnsuredFirst(before - gone, s, names, upto).Some?
    ensures k !in EnsuredFirst(before - gone, s, names, upto).value
  {
    if k in EnsuredFirst(before - gone, s, names, upto).value {
      ApplyContents(before - gone, nodes, s, names, upto, k);
      var n :| n in MatchingNodes(nodes, s.selector) && k == ChildKey(s, n);
      ChildFacts(before, s, k);
      CronJobNameInjective(s.name, n, NodeAt(before, k));
    }
  }

  lemma PhasesKeepSurvivors(before: ChildStore, nodes: map<string, Labels>, s: SetView, gone: set<NamespacedName>,
                            names: seq<string>, upto: nat)
    requires WellMade(before) && WellMade(before - gone) && gone <= Stale(before, nodes, s)
    requires upto <= |names| && Firsts(names, |names|) <= MatchingNodes(nodes, s.selector)
    requires EnsuredFirst(before - gone, s, names, upto).Some?
    ensures Survivors(before, EnsuredFirst(before - gone, s, names, upto).value)
  {
    var after := EnsuredFirst(before - gone, s, names, upto).value;
    assert forall k | k in before - gone :: after[k] == before[k] by {
      ApplyProgress(before - gone, nodes, s, names, upto, after);
    }
    forall k | k in before && k in after ensures after[k] == before[k] {
      if k in gone {
        NothingRevived(before, nodes, s, gone, names, upto, k);
      }
    }
  }

  /** The two phases together, however far each got. */
  lemma BothPhases(before: ChildStore, nodes: map<string, Labels>, s: SetView, gone: set<NamespacedName>,
                   names: seq<string>, upto: nat)
    requires WellMade(before) && gone <= Stale(before, nodes, s)
    requires upto <= |names| && Firsts(names, |names|) <= MatchingNodes(nodes, s.selector)
    requires EnsuredFirst(before - gone, s, names, upto).Some?
    ensures var kept := before - gone;
            var after := EnsuredFirst(kept, s, names, upto).value;
            && WellMade(kept) && WellMade(after)
            && |after| >= |kept|
            && Progress(before, after, nodes, s, |gone| + (|after| - |kept|))
            && Survivors(before, after)
            && ChildNodes(after, s) == ChildNodes(kept, s) + Firsts(names, upto)
            && (gone == Stale(before, nodes, s) ==> ChildNodes(kept, s) <= MatchingNodes(nodes, s.selector))
  {
    var kept := before - gone;
    DeletePhase(before, nodes, s, gone);
    ApplyNodes(kept, s, names, upto);
    ApplyFollows(before, kept, nodes, s, names, upto, EnsuredFirst(kept, s, names, upto).value, |gone|);
    PhasesKeepSurvivors(before, nodes, s, gone, names, upto);
  }

  lemma ApplyFollows(before: ChildStore, kept: ChildStore, nodes: map<string, Labels>, s: SetView, names: seq<string>,
                     upto: nat, after: ChildStore, deleted: nat)
    requires WellMade(kept) && Progress(before, kept, nodes, s, deleted)
    requires upto <= |names| && Firsts(names, |names|) <= MatchingNodes(nodes, s.selector)
    requires EnsuredFirst(kept, s, names, upto) == Some(after)
    ensures |after| >= |kept| && Progress(before, after, nodes, s, deleted + (|after| - |kept|))
  {
    ApplyProgress(kept, nodes, s, names, upto, after);
    ProgressTwice(before, kept, after, nodes, s, deleted, |after| - |kept|);
  }

  /** Whether some name is taken is what decides a create phase without faults. */
  lemma TakenDecides(before: ChildStore, nodes: map<string, Labels>, s: SetView, gone: set<NamespacedName>,
                     names: seq<string>, upto: nat)
    requires WellMade(before) && gone <= Stale(before, nodes, s)
    requires upto <= |names| && Firsts(names, |names|) <= MatchingNodes(nodes, s.selector)
    requires EnsuredFirst(before - gone, s, names, upto).Some?
    ensures upto == |names| ==> forall n | n in Firsts(names, |names|) :: !Taken(before, s, n)
    ensures upto < |names| && Ensured(EnsuredFirst(before - gone, s, names, upto).value, s, names[upto]).None? ==>
              Taken(before, s, names[upto])
  {
    var kept := before - gone;
    BothPhases(before, nodes, s, gone, names, upto);
    DeletePhase(before, nodes, s, gone);
    if upto == |names| {
      forall n | n in Firsts(names, |names|) ensures !Taken(before, s, n) {
        var j :| 0 <= j < |names| && names[j] == n;
        ServedNotTaken(kept, nodes, s, names, upto, j);
        TakenKept(before, kept, s, n);
      }
    } else {
      var after := EnsuredFirst(kept, s, names, upto).value;
      TakenFails(after, s, names[upto]);
      TakenKept(before, after, s, names[upto]);
    }
  }

  lemma Outcome(before: ChildStore, nodes: map<string, Labels>, s: SetView, f: Faults, logged: bool,
                gone: set<NamespacedName>, err: bool, names: seq<string>, upto: nat)
    requires WellMade(before) && gone <= Stale(before, nodes, s)
    requires f.deletes.NoFault? ==> !logged
    requires !logged ==> gone == Stale(before, nodes, s)
    requires upto <= |names| && Firsts(names, |names|) <= MatchingNodes(nodes, s.selector)
    requires EnsuredFirst(before - gone, s, names, upto).Some?
    requires !err ==> upto == |names| && Firsts(names, |names|) == MatchingNodes(nodes, s.selector)
    requires err && f.applies.NoFault? ==>
               upto < |names| && Ensured(EnsuredFirst(before - gone, s, names, upto).value, s, names[upto]).None?
    ensures var kept := before - gone;
            var after := EnsuredFirst(kept, s, names, upto).value;
            && WellMade(after)
            && |after| >= |kept|
            && Reconciled(before, after, nodes, s, f, err || f.status, |gone| + (|after| - |kept|))
            && (!err ==> MatchingNodes(nodes, s.selector) <= ChildNodes(after, s))
  {
    BothPhases(before, nodes, s, gone, names, upto);
    TakenDecides(before, nodes, s, gone, names, upto);
    if upto < |names| {
      assert names[upto] in Firsts(names, |names|);
    }
  }

  /** Without drift the children are exactly one CronJob of the right name for each matching node. */
  lemma NoDriftMeansExact(store: ChildStore, nodes: map<string, Labels>, s: SetView)
    requires WellMade(store) && Drift(store, nodes, s) == {}
    ensures Children(store, s.ns, s.name) == set n | n in MatchingNodes(nodes, s.selector) :: ChildKey(s, n)
    ensures |Children(store, s.ns, s.name)| == |MatchingNodes(nodes, s.selector)|
  {
    var want := MatchingNodes(nodes, s.selector);
    assert ChildNodes(store, s) == want by {
      assert ChildNodes(store, s) - want <= Drift(store, nodes, s) &&
        want - ChildNodes(store, s) <= Drift(store, nodes, s);
    }
    forall k | k in Children(store, s.ns, s.name) ensures exists n | n in want :: k == ChildKey(s, n) {
      ChildFacts(store, s, k);
      assert NodeAt(store, k) in want;
    }
    forall n | n in want ensures ChildKey(s, n) in Children(store, s.ns, s.name) {
      ChildNodeIffKey(store, s, n);
    }
    DistinctNodes(store, s, Children(store, s.ns, s.name));
  }

  /** A reconcile of a set without drift writes nothing, whatever its calls do. */
  lemma NoDriftMeansNoWrite(before: ChildStore, after: ChildStore, nodes: map<string, Labels>, s: SetView, f: Faults,
                            err: bool, writes: nat)
    requires Reconciled(before, after, nodes, s, f, err, writes) && Drift(before, nodes, s) == {}
    ensures writes == 0 && after == before
  {
  }

  /** Once every matching node has a child, there are never too few, and the counts agree exactly
      when the node sets do. */
  lemma CountsTell(store: ChildStore, nodes: map<string, Labels>, s: SetView)
    requires WellMade(store) && MatchingNodes(nodes, s.selector) <= ChildNodes(store, s)
    ensures |MatchingNodes(nodes, s.selector)| <= |Children(store, s.ns, s.name)|
    ensures |MatchingNodes(nodes, s.selector)| == |Children(store, s.ns, s.name)|
            <==> ChildNodes(store, s) == MatchingNodes(nodes, s.selector)
  {
    DistinctNodes(store, s, Children(store, s.ns, s.name));
    SubsetSize(MatchingNodes(nodes, s.selector), ChildNodes(store, s));
  }

  lemma CountedStatusTells(prior: SetStatus, desired: nat, available: nat)
    requires UniqueKinds(prior.conditions)
    ensures UniqueKinds(CountedStatus(prior, desired, available).conditions)
    ensures IsTrue(CountedStatus(prior, desired, available).conditions, AVAILABLE) <==> desired == available
  {
    PairEffect(prior.conditions, AVAILABLE, DEGRADED, false, "Reconciling", "Too much cronjobs");
    PairEffect(prior.conditions, AVAILABLE, DEGRADED, false, "Reconciling", "Too few cronjobs");
    PairEffect(prior.conditions, AVAILABLE, DEGRADED, true, "OK", "");
  }

  /** The first status of a set has two conditions and nothing else. */
  lemma FirstStatus(status: map<NamespacedName, SetStatus>, key: NamespacedName, desired: nat, available: nat)
    requires key !in status
    ensures CountedStatus(StatusOf(status, key), desired, available) == SetStatus(desired, available,
              if desired == available then
                [Condition("Available", True, "OK", ""), Condition("Degraded", False, "OK", "")]
              else
                [Condition("Available", False, "Reconciling", ""),
                 Condition("Degraded", True, "Reconciling",
                           if available > desired then "Too much cronjobs" else "Too few cronjobs")])
  {
    assert Upsert([], Condition("Available", True, "OK", "")) == [Condition("Available", True, "OK", "")];
    assert forall c: Condition, d: Condition | c.kind != d.kind :: Upsert([c], d) == [c, d];
  }

  /** The words for the counts, and nothing else changes. */
  lemma CountedStatusSays(prior: SetStatus, desired: nat, available: nat)
    requires UniqueKinds(prior.conditions)
    ensures var cs := CountedStatus(prior, desired, available).conditions;
            && (desired < available ==>
                  && HasOnly(cs, Condition("Available", False, "Reconciling", ""))
                  && HasOnly(cs, Condition("Degraded", True, "Reconciling", "Too much cronjobs")))
            && (desired > available ==>
                  && HasOnly(cs, Condition("Available", False, "Reconciling", ""))
                  && HasOnly(cs, Condition("Degraded", True, "Reconciling", "Too few cronjobs")))
            && (desired == available ==>
                  && HasOnly(cs, Condition("Available", True, "OK", ""))
                  && HasOnly(cs, Condition("Degraded", False, "OK", "")))
            && forall c: Condition | c.kind !in {"Available", "Degraded"} :: c in cs <==> c in prior.conditions
  {
    PairSays(prior.conditions, AVAILABLE, DEGRADED, false, "Reconciling", "Too much cronjobs");
    PairSays(prior.conditions, AVAILABLE, DEGRADED, false, "Reconciling", "Too few cronjobs");
    PairSays(prior.conditions, AVAILABLE, DEGRADED, true, "OK", "");
  }

  lemma EnoughIsNeverTooFew(prior: SetStatus, desired: nat, available: nat)
    requires UniqueKinds(prior.conditions) && desired <= available
    ensures NeverTooFew(CountedStatus(prior, desired, available).conditions)
  {
    CountedStatusSays(prior, desired, available);
    assert "Too much cronjobs"[4] != "Too few cronjobs"[4];
  }

  lemma StatusIsTrue(prior: SetStatus, store: ChildStore, nodes: map<string, Labels>, s: SetView)
    requires WellMade(store) && MatchingNodes(nodes, s.selector) <= ChildNodes(store, s)
    ensures StatusTrue(prior, CountedStatus(prior, |MatchingNodes(nodes, s.selector)|,
                                            |Children(store, s.ns, s.name)|), store, nodes, s)
  {
    CountsTell(store, nodes, s);
    if UniqueKinds(prior.conditions) {
      CountedStatusTells(prior, |MatchingNodes(nodes, s.selector)|, |Children(store, s.ns, s.name)|);
      CountedStatusSays(prior, |MatchingNodes(nodes, s.selector)|, |Children(store, s.ns, s.name)|);
      EnoughIsNeverTooFew(prior, |MatchingNodes(nodes, s.selector)|, |Children(store, s.ns, s.name)|);
    }
  }

}
