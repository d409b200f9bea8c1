/** Deleting the worker Jobs of nodes that are gone (deleteWorkerJobsOnNotExistNode in
    internal/controller/daemonjob_controller.go and daemoncronjob_controller.go). */
module WorkerCleanup {
  import opened Kube
  import opened Conditions
  import opened BroadcastJobs
  import opened Selectors

  datatype Owner = Owner(kind: Kind, ns: string, name: string)

  datatype StoredJob = StoredJob(labels: Labels, conditions: seq<JobCondition>)

  type Jobs = map<NamespacedName, StoredJob>

  /** The owner's worker list finds a Job of that key with those labels. */
  predicate Selects(owner: Owner, key: NamespacedName, labels: Labels) {
    key.ns == owner.ns && Matches(WorkerSelector(owner.kind, owner.name), labels)
  }

  function Workers(jobs: Jobs, owner: Owner): set<NamespacedName> {
    set k | k in jobs && Selects(owner, k, jobs[k].labels)
  }

  /** What a cleanup that knows these nodes deletes: the owner's workers on any other node. */
  function Orphans(jobs: Jobs, owner: Owner, live: set<string>): set<NamespacedName> {
    set k | k in Workers(jobs, owner) && Node in jobs[k].labels && jobs[k].labels[Node] !in live
  }

  class Cleaner {
    var nodes: set<string>
    var jobs: Jobs

    constructor (nodes: set<string>, jobs: Jobs)
      ensures this.nodes == nodes && this.jobs == jobs
    {
      this.nodes, this.jobs := nodes, jobs;
    }

    /** `fault` is the number of deletes that go through before one fails.  Only the owner's workers
        on missing nodes go, all of them when nothing fails. */
    method DeleteWorkerJobsOnNotExistNode(owner: Owner, listFails: bool, fault: Option<nat>)
      returns (err: bool, gone: set<NamespacedName>)
      modifies `jobs
      ensures gone <= Orphans(old(jobs), owner, nodes) && jobs == old(jobs) - gone
      ensures !err ==> gone == Orphans(old(jobs), owner, nodes)
      ensures err <==> listFails || (fault.Some? && fault.value < |Orphans(old(jobs), owner, nodes)|)
      ensures err && !listFails ==> |gone| == fault.value
    {
      gone := {};
      if listFails {
        return true, gone;
      }
      var items := Enumerate(Workers(jobs, owner));
      ghost var orphans := Orphans(jobs, owner, nodes);
      forall i | 0 <= i < |items|
        ensures items[i] in jobs
        ensures items[i] in orphans <==> Node in jobs[items[i]].labels && jobs[items[i]].labels[Node] !in nodes
      {
        assert items[i] in Workers(jobs, owner);
      }
      err, gone := DeleteListed(items, fault, orphans);
    }

    /** The delete loop: the listed Jobs on missing nodes go, until a delete fails. */
    method DeleteListed(items: seq<NamespacedName>, fault: Option<nat>, ghost orphans: set<NamespacedName>)
      returns (err: bool, gone: set<NamespacedName>)
      requires Distinct(items) && forall k | k in orphans :: k in items
      requires forall i | 0 <= i < |items| :: items[i] in jobs
      requires forall i | 0 <= i < |items| ::
                 items[i] in orphans <==> Node in jobs[items[i]].labels && jobs[items[i]].labels[Node] !in nodes
      modifies `jobs
      ensures gone <= orphans && jobs == old(jobs) - gone
      ensures !err ==> gone == orphans
      ensures err <==> fault.Some? && fault.value < |orphans|
      ensures err ==> |gone| == fault.value
    {
      gone := {};
      for i := 0 to |items|
        invariant gone <= orphans && jobs == old(jobs) - gone
        invariant fault.Some? ==> |gone| <= fault.value
        invariant forall j | i <= j < |items| :: items[j] !in gone
        invariant forall j | 0 <= j < i && items[j] in orphans :: items[j] in gone
      {
        var k := items[i];
        assert jobs[k] == old(jobs)[k];
        if Node in jobs[k].labels && jobs[k].labels[Node] !in nodes {
          assert k in orphans;
          if fault == Some(|gone|) {
            SmallerSet(gone, orphans, k);
            return true, gone;
          }
          OneMoreGone(old(jobs), gone, k);
          jobs := jobs - {k};
          gone := gone + {k};
        }
      }
      AllGone(items, orphans, gone);
      err := false;
    }
  }

  lemma OneMoreGone(jobs: Jobs, gone: set<NamespacedName>, k: NamespacedName)
    ensures jobs - gone - {k} == jobs - (gone + {k})
  {
  }

  lemma AllGone(items: seq<NamespacedName>, orphans: set<NamespacedName>, gone: set<NamespacedName>)
    requires gone <= orphans && forall k | k in orphans :: k in items
    requires forall j | 0 <= j < |items| && items[j] in orphans :: items[j] in gone
    ensures gone == orphans
  {
    forall k | k in orphans ensures k in gone {
      assert k in items;
    }
  }

  lemma {:induction false} SmallerSet(part: set<NamespacedName>, whole: set<NamespacedName>, x: NamespacedName)
    requires part <= whole && x in whole && x !in part
    ensures |part| < |whole|
    decreases part
  {
    if part != {} {
      var y :| y in part;
      SmallerSet(part - {y}, whole - {y}, x);
    }
  }

  /** Exactly which Jobs a cleanup deletes: those of the owner's namespace that carry its name under the key
      of its kind, the worker role and the name of a node that is not among the live ones. */
  lemma OrphansExactly(jobs: Jobs, owner: Owner, live: set<string>, k: NamespacedName)
    ensures k in Orphans(jobs, owner, live) <==>
              && k in jobs && k.ns == owner.ns && Has(jobs[k].labels, Role, "worker")
              && Has(jobs[k].labels, if owner.kind.DaemonJobKind? then DaemonJobName else DaemonCronJobName, owner.name)
              && Node in jobs[k].labels && jobs[k].labels[Node] !in live
  {
    if k in jobs {
      MatchesTwo(NameKey(owner.kind), owner.name, Role, ROLE_WORKER, jobs[k].labels);
    }
  }
}
