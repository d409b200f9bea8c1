/** The CronJobs of DaemonCronJobSets in the object store, as sets of nodes. */
module SetStore {
  import opened Kube
  import opened Objects
  import opened CronJobSets
  import opened Selectors

  /** Who controls a CronJob: a DaemonCronJobSet of its namespace, something else, or nobody. */
  datatype Controller = ControlledBySet(name: string) | ControlledByOther | Uncontrolled

  datatype Child = Child(job: CronJobView, controller: Controller)

  type ChildStore = map<NamespacedName, Child>

  /** The set a CronJob is labelled for. */
  function LabelledFor(labels: Labels): Option<string> {
    if Has(labels, Role, ROLE_WORKER) && DaemonCronJobSetName in labels then Some(labels[DaemonCronJobSetName])
      else None
  }

  /** The children of a set: the CronJobs of its namespace labelled for it. */
  function Children(store: ChildStore, ns: string, name: string): set<NamespacedName> {
    set k | k in store && k.ns == ns && LabelledFor(store[k].job.labels) == Some(name)
  }

  /** They are exactly what ListDaemonCronJobSetCronJobs selects. */
  lemma ChildrenAreListed(store: ChildStore, ns: string, name: string)
    ensures Children(store, ns, name) == set k | k in store && k.ns == ns &&
              Matches(SetSelector(name), store[k].job.labels)
  {
    forall k | k in store
      ensures LabelledFor(store[k].job.labels) == Some(name) <==> Matches(SetSelector(name), store[k].job.labels)
    {
      MatchesTwo(DaemonCronJobSetName, name, Role, ROLE_WORKER, store[k].job.labels);
    }
  }

  function ChildKey(s: SetView, node: string): NamespacedName {
    NamespacedName(s.ns, CronJobName(s.name, node))
  }

  /** A CronJob has the key it says.  One controlled by a set is labelled for that set and its node and named
      accordingly; one controlled by something else is labelled for no set; none is uncontrolled. */
  predicate WellMadeAt(k: NamespacedName, c: Child) {
    && k == NamespacedName(c.job.ns, c.job.name)
    && match c.controller
       case ControlledBySet(name) =>
         && LabelledFor(c.job.labels) == Some(name)
         && Node in c.job.labels
         && k.name == CronJobName(name, c.job.labels[Node])
       case ControlledByOther => LabelledFor(c.job.labels) == None
       case Uncontrolled => false
  }

  ghost predicate WellMade(store: ChildStore) {
    forall k | k in store :: WellMadeAt(k, store[k])
  }

  function NodeAt(store: ChildStore, k: NamespacedName): string
    requires k in store
  {
    if Node in store[k].job.labels then store[k].job.labels[Node] else ""
  }

  function NodesAt(store: ChildStore, keys: set<NamespacedName>): set<string>
    requires keys <= store.Keys
  {
    set k | k in keys :: NodeAt(store, k)
  }

  /** The nodes a set has CronJobs for. */
  function ChildNodes(store: ChildStore, s: SetView): set<string> {
    NodesAt(store, Children(store, s.ns, s.name))
  }

  function SymmetricDifference(a: set<string>, b: set<string>): set<string> {
    (a - b) + (b - a)
  }

  /** The nodes on which the set and the cluster disagree. */
  function Drift(store: ChildStore, nodes: map<string, Labels>, s: SetView): set<string> {
    SymmetricDifference(ChildNodes(store, s), MatchingNodes(nodes, s.selector))
  }

  /** Children on nodes that do not match. */
  function Stale(store: ChildStore, nodes: map<string, Labels>, s: SetView): set<NamespacedName> {
    set k | k in Children(store, s.ns, s.name) && NodeAt(store, k) !in MatchingNodes(nodes, s.selector)
  }

  lemma ChildFacts(store: ChildStore, s: SetView, k: NamespacedName)
    requires WellMade(store) && k in Children(store, s.ns, s.name)
    ensures store[k].controller == ControlledBySet(s.name)
    ensures Node in store[k].job.labels && k == ChildKey(s, NodeAt(store, k))
  {
  }

  /** Children and their nodes correspond one to one. */
  lemma {:induction false} DistinctNodes(store: ChildStore, s: SetView, keys: set<NamespacedName>)
    requires WellMade(store) && keys <= Children(store, s.ns, s.name)
    ensures |NodesAt(store, keys)| == |keys|
    decreases keys
  {
    if keys != {} {
      var k :| k in keys;
      var rest := keys - {k};
      DistinctNodes(store, s, rest);
      assert NodeAt(store, k) !in NodesAt(store, rest) by {
        ChildFacts(store, s, k);
        forall j | j in rest ensures NodeAt(store, j) != NodeAt(store, k) {
          ChildFacts(store, s, j);
        }
      }
      assert NodesAt(store, keys) == NodesAt(store, rest) + {NodeAt(store, k)};
    }
  }

  /** A node has a child exactly when the store holds one of the set under that node's name. */
  lemma ChildNodeIffKey(store: ChildStore, s: SetView, node: string)
    requires WellMade(store)
    ensures node in ChildNodes(store, s) <==>
            ChildKey(s, node) in store && store[ChildKey(s, node)].controller == ControlledBySet(s.name)
  {
    var key := ChildKey(s, node);
    if node in ChildNodes(store, s) {
      var k :| k in Children(store, s.ns, s.name) && NodeAt(store, k) == node;
      ChildFacts(store, s, k);
    }
    if key in store && store[key].controller == ControlledBySet(s.name) {
      CronJobNameInjective(s.name, node, store[key].job.labels[Node]);
      assert key in Children(store, s.ns, s.name);
    }
  }

  /** Removing children removes exactly their nodes. */
  lemma DeletingRemovesNodes(store: ChildStore, s: SetView, gone: set<NamespacedName>)
    requires WellMade(store) && gone <= Children(store, s.ns, s.name)
    ensures ChildNodes(store - gone, s) == ChildNodes(store, s) - NodesAt(store, gone)
  {
    var all := Children(store, s.ns, s.name);
    assert Children(store - gone, s.ns, s.name) == all - gone;
    forall j, k | j in all - gone && k in gone ensures NodeAt(store, j) != NodeAt(store, k) {
      ChildFacts(store, s, j);
      ChildFacts(store, s, k);
    }
    assert forall k | k in all - gone :: NodeAt(store - gone, k) == NodeAt(store, k);
  }

  /** Deleting stale children removes exactly their nodes from the drift. */
  lemma DeletingShrinksDrift(store: ChildStore, nodes: map<string, Labels>, s: SetView, gone: set<NamespacedName>)
    requires WellMade(store) && gone <= Stale(store, nodes, s)
    ensures WellMade(store - gone)
    ensures Drift(store - gone, nodes, s) == Drift(store, nodes, s) - NodesAt(store, gone)
    ensures |Drift(store - gone, nodes, s)| + |gone| == |Drift(store, nodes, s)|
  {
    DeletingRemovesNodes(store, s, gone);
    DistinctNodes(store, s, gone);
    Shrunk(ChildNodes(store, s), MatchingNodes(nodes, s.selector), NodesAt(store, gone));
  }

  lemma Shrunk(have: set<string>, want: set<string>, gone: set<string>)
    requires gone <= have - want
    ensures SymmetricDifference(have - gone, want) == SymmetricDifference(have, want) - gone
    ensures |SymmetricDifference(have - gone, want)| + |gone| == |SymmetricDifference(have, want)|
  {
  }

  lemma Grown(have: set<string>, want: set<string>, x: string)
    requires x in want - have
    ensures |SymmetricDifference(have + {x}, want)| + 1 == |SymmetricDifference(have, want)|
  {
    assert SymmetricDifference(have + {x}, want) == SymmetricDifference(have, want) - {x};
  }

  /** The store after one CreateOrUpdate for a node; None when another controller owns the name. */
  function Ensured(store: ChildStore, s: SetView, node: string): Option<ChildStore> {
    var key := ChildKey(s, node);
    if key !in store then Some(store[key := Child(CronJobFor(s, node), ControlledBySet(s.name))])
    else
      match store[key].controller
      case ControlledBySet(name) => if name == s.name then Some(store) else None
      case ControlledByOther => None
      case Uncontrolled => Some(store[key := store[key].(controller := ControlledBySet(s.name))])
  }

  /** What CreateOrUpdate does in any store: it fails exactly on a name that somebody else controls, it never
      changes a CronJob that is there but makes an uncontrolled one the set's, and no other name matters. */
  lemma EnsuredExactly(store: ChildStore, s: SetView, node: string)
    ensures var key, r := ChildKey(s, node), Ensured(store, s, node);
            && (r.None? <==> key in store && store[key].controller !in {ControlledBySet(s.name), Uncontrolled})
            && (r.Some? ==>
                  && r.value - {key} == store - {key}
                  && key in r.value && r.value[key].controller == ControlledBySet(s.name)
                  && r.value[key].job == if key in store then store[key].job else CronJobFor(s, node))
  {
  }

  /** The CronJob built for a node is stored under its own name. */
  lemma BuiltUnderItsKey(s: SetView, node: string)
    ensures NamespacedName(CronJobFor(s, node).ns, CronJobFor(s, node).name) == ChildKey(s, node)
    ensures ChildKey(s, node) == NamespacedName(s.ns, s.name + "-" + node + "-dcjs")
  {
  }

  lemma NewChildIsWellMade(s: SetView, node: string)
    ensures WellMadeAt(ChildKey(s, node), Child(CronJobFor(s, node), ControlledBySet(s.name)))
    ensures Has(CronJobFor(s, node).labels, Node, node)
  {
    SetLabelsWin(OrEmpty(s.labels), s.name, node);
  }

  lemma CreatingGivesChild(store: ChildStore, s: SetView, node: string, c: Child)
    requires ChildKey(s, node) !in store
    requires c.controller == ControlledBySet(s.name) && WellMadeAt(ChildKey(s, node), c) && c.job.labels[Node] == node
    ensures var r := store[ChildKey(s, node) := c]; ChildNodes(r, s) == ChildNodes(store, s) + {node}
  {
    var key := ChildKey(s, node);
    var r := store[key := c];
    var all := Children(store, s.ns, s.name);
    assert Children(r, s.ns, s.name) == all + {key};
    assert forall k | k in all :: NodeAt(r, k) == NodeAt(store, k);
    assert NodesAt(r, all + {key}) == NodesAt(r, all) + {NodeAt(r, key)};
  }

  /** One successful CreateOrUpdate gives the node its child and leaves everything else alone. */
  lemma EnsuringGivesChild(store: ChildStore, s: SetView, node: string)
    requires WellMade(store) && Ensured(store, s, node).Some?
    ensures var r := Ensured(store, s, node).value;
            && WellMade(r)
            && ChildNodes(r, s) == ChildNodes(store, s) + {node}
            && (node in ChildNodes(store, s) ==> r == store)
            && (node !in ChildNodes(store, s) ==> ChildKey(s, node) !in store)
  {
    ChildNodeIffKey(store, s, node);
    if ChildKey(s, node) !in store {
      NewChildIsWellMade(s, node);
      CreatingGivesChild(store, s, node, Child(CronJobFor(s, node), ControlledBySet(s.name)));
    }
  }
}
