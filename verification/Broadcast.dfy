/** The broadcast workflow (Runner.Run in internal/broadcast/broadcast.go): dry-run every worker
    Job first, create them only when every dry-run passed. */
module Broadcast {
  import opened Kube
  import opened Objects
  import opened WorkerJobs
  import opened BroadcastJobs

  /** What Run takes from a stored object: its worker template and its node selector. */
  datatype Source = Source(template: TemplateView, nodeSelector: Labels)

  type JobStore = map<NamespacedName, JobView>

  /** Calls that fail for reasons outside the request: the i-th dry-run, the i-th create, and so on. */
  datatype Faults = Faults(get: bool, list: bool, dryRun: set<nat>, create: set<nat>)

  function Key(job: JobView): NamespacedName {
    NamespacedName(job.ns, job.name)
  }

  /** The API server's verdict on a create, dry-run or not: admission looks at the Job alone. */
  predicate Creatable(jobs: JobStore, job: JobView, admits: JobView -> bool) {
    Key(job) !in jobs && admits(job)
  }

  function Workers(cfg: Config, nodes: seq<string>, t: TemplateView): (jobs: seq<JobView>)
    ensures |jobs| == |nodes|
    ensures forall i | 0 <= i < |nodes| :: jobs[i] == WorkerJob(cfg, nodes[i], t)
  {
    seq(|nodes|, i requires 0 <= i < |nodes| => WorkerJob(cfg, nodes[i], t))
  }

  predicate DryRunsPass(jobs: JobStore, workers: seq<JobView>, admits: JobView -> bool, faults: Faults) {
    forall i | 0 <= i < |workers| :: i !in faults.dryRun && Creatable(jobs, workers[i], admits)
  }

  function StoreAll(jobs: JobStore, workers: seq<JobView>): JobStore {
    if workers == [] then jobs
    else StoreAll(jobs, workers[..|workers| - 1])[Key(workers[|workers| - 1]) := workers[|workers| - 1]]
  }

  /** How far the create loop gets: it stops at the first create that fails. */
  function Created(jobs: JobStore, workers: seq<JobView>, admits: JobView -> bool, faults: Faults, from: nat): (k: nat)
    requires from <= |workers|
    ensures from <= k <= |workers|
    decreases |workers| - from
  {
    if from < |workers| && from !in faults.create && Creatable(StoreAll(jobs, workers[..from]), workers[from], admits)
    then Created(jobs, workers, admits, faults, from + 1)
    else from
  }

  datatype Outcome = Outcome(jobs: JobStore, ok: bool)

  /** The store after Run on the given workers, and whether Run reports success. */
  function TwoPhase(jobs: JobStore, workers: seq<JobView>, admits: JobView -> bool, faults: Faults): Outcome {
    if DryRunsPass(jobs, workers, admits, faults) then
      var k := Created(jobs, workers, admits, faults, 0);
      Outcome(StoreAll(jobs, workers[..k]), k == |workers|)
    else Outcome(jobs, false)
  }

  class ApiServer {
    var nodes: map<string, Labels>
    var daemonJobs: map<NamespacedName, DaemonJobView>
    var daemonCronJobs: map<NamespacedName, DaemonCronJobView>
    var jobs: JobStore
    const admits: JobView -> bool

    constructor (nodes: map<string, Labels>, daemonJobs: map<NamespacedName, DaemonJobView>,
                 daemonCronJobs: map<NamespacedName, DaemonCronJobView>, jobs: JobStore, admits: JobView -> bool)
      ensures this.nodes == nodes && this.daemonJobs == daemonJobs && this.daemonCronJobs == daemonCronJobs
      ensures this.jobs == jobs && this.admits == admits
    {
      this.nodes, this.daemonJobs, this.daemonCronJobs := nodes, daemonJobs, daemonCronJobs;
      this.jobs, this.admits := jobs, admits;
    }

    /** What the object a configuration names asks for, if it is stored; the workers of a DaemonCronJob
        come from its Job template, not from the CronJob template around it. */
    function Lookup(cfg: Config): Option<Source>
      reads this
    {
      if cfg.daemonJobName != "" then
        var key := NamespacedName(cfg.ns, cfg.daemonJobName);
        if key in daemonJobs then Some(Source(daemonJobs[key].template, daemonJobs[key].nodeSelector)) else None
      else
        var key := NamespacedName(cfg.ns, cfg.daemonCronJobName);
        if key in daemonCronJobs then Some(Source(daemonCronJobs[key].template, daemonCronJobs[key].nodeSelector))
        else None
    }

    /** Create, either for real or as a dry-run that only reports the verdict. */
    method Create(job: JobView, dryRun: bool, fault: bool) returns (err: bool)
      modifies `jobs
      ensures err <==> fault || !Creatable(old(jobs), job, admits)
      ensures jobs == if err || dryRun then old(jobs) else old(jobs)[Key(job) := job]
    {
      err := fault || Key(job) in jobs || !admits(job);
      if !err && !dryRun {
        jobs := jobs[Key(job) := job];
      }
    }

    /** Returns the nodes it listed along with success. */
    method Run(cfg: Config, faults: Faults) returns (ok: bool, listed: seq<string>)
      modifies `jobs
      ensures Lookup(cfg).None? || faults.get || faults.list ==> !ok && jobs == old(jobs)
      ensures Lookup(cfg).Some? && !faults.get && !faults.list ==>
                && Distinct(listed)
                && (forall n :: n in listed <==> n in MatchingNodes(nodes, Lookup(cfg).value.nodeSelector))
                && Outcome(jobs, ok) ==
                   TwoPhase(old(jobs), Workers(cfg, listed, Lookup(cfg).value.template), admits, faults)
    {
      listed := [];
      if faults.get {
        return false, listed;
      }
      if cfg.daemonJobName != "" {
        var key := NamespacedName(cfg.ns, cfg.daemonJobName);
        if key !in daemonJobs {
          return false, listed;
        }
        var d := DecodeDaemonJob(key, daemonJobs[key]);
        ok, listed := ListAndApply(cfg, d.template, d.nodeSelector, faults);
      } else {
        var key := NamespacedName(cfg.ns, cfg.daemonCronJobName);
        if key !in daemonCronJobs {
          return false, listed;
        }
        var c := DecodeDaemonCronJob(key, daemonCronJobs[key]);
        var template := WorkerTemplate(c);
        ok, listed := ListAndApply(cfg, template, c.nodeSelector, faults);
      }
    }

    /** List the matching nodes and serve them. */
    method ListAndApply(cfg: Config, template: Template, nodeSelector: Labels, faults: Faults)
      returns (ok: bool, listed: seq<string>)
      modifies `jobs
      ensures faults.list ==> !ok && jobs == old(jobs)
      ensures !faults.list ==>
                && Distinct(listed) && (forall n :: n in listed <==> n in MatchingNodes(nodes, nodeSelector))
                && Outcome(jobs, ok) == TwoPhase(old(jobs), Workers(cfg, listed, old(template.View())), admits, faults)
    {
      listed := [];
      if faults.list {
        return false, listed;
      }
      listed := Enumerate(MatchingNodes(nodes, nodeSelector));
      ok := Apply(cfg, listed, template, faults);
    }

    /** Build for every node, then dry-run all, then create all. */
    method Apply(cfg: Config, listed: seq<string>, template: Template, faults: Faults) returns (ok: bool)
      modifies `jobs
      ensures Outcome(jobs, ok) == TwoPhase(old(jobs), Workers(cfg, listed, old(template.View())), admits, faults)
    {
      ghost var t := template.View();
      if listed == [] {
        assert Workers(cfg, listed, t) == [];
        return true;
      }
      var workers := BuildViews(cfg, listed, template);
      assert workers == Workers(cfg, listed, t);
      var passed := DryRunAll(workers, faults);
      if !passed {
        return false;
      }
      ok := CreateAll(workers, faults);
    }

    method DryRunAll(workers: seq<JobView>, faults: Faults) returns (passed: bool)
      modifies `jobs
      ensures jobs == old(jobs)
      ensures passed <==> DryRunsPass(jobs, workers, admits, faults)
    {
      for i := 0 to |workers|
        invariant jobs == old(jobs)
        invariant forall j | 0 <= j < i :: j !in faults.dryRun && Creatable(jobs, workers[j], admits)
      {
        var err := Create(workers[i], true, i in faults.dryRun);
        if err {
          return false;
        }
      }
      return true;
    }

    method CreateAll(workers: seq<JobView>, faults: Faults) returns (ok: bool)
      modifies `jobs
      ensures var k := Created(old(jobs), workers, admits, faults, 0);
              jobs == StoreAll(old(jobs), workers[..k]) && ok == (k == |workers|)
    {
      for i := 0 to |workers|
        invariant jobs == StoreAll(old(jobs), workers[..i])
        invariant Created(old(jobs), workers, admits, faults, 0) == Created(old(jobs), workers, admits, faults, i)
      {
        var err := Create(workers[i], false, i in faults.create);
        if err {
          return false;
        }
        assert workers[..i + 1][..i] == workers[..i];
      }
      return true;
    }
  }

  /** The built Jobs as they go over the wire. */
  method BuildViews(cfg: Config, nodes: seq<string>, template: Template) returns (views: seq<JobView>)
    ensures |views| == |nodes|
    ensures forall i | 0 <= i < |nodes| :: views[i] == WorkerJob(cfg, nodes[i], old(template.View()))
  {
    var built := BuildAll(cfg, nodes, template);
    views := [];
    for i := 0 to |built|
      invariant |views| == i
      invariant forall j | 0 <= j < i :: views[j] == built[j].View()
    {
      views := views + [built[i].View()];
    }
  }

  /** Run's own way from a DaemonCronJob to a worker template: metadata and spec of its Job template,
      field by field, sharing its maps. */
  method WorkerTemplate(c: DaemonCronJob) returns (t: Template)
    ensures fresh(t) && t.View() == c.template.View()
    ensures t.labels == c.template.labels && t.annotations == c.template.annotations
  {
    var spec := c.template;
    t := new Template(c.template.labels, c.template.annotations, spec.podLabels, spec.podAnnotations, spec.affinity,
                      spec.tolerations, spec.selector, spec.rest);
  }

  /** Reading an object back from the API server allocates everything anew, so nothing is shared. */
  method Decode(v: TemplateView) returns (t: Template)
    ensures t.View() == v
    ensures fresh(t) && fresh(t.Maps())
  {
    var l := DecodeMap(v.labels);
    var a := DecodeMap(v.annotations);
    var pl := DecodeMap(v.podLabels);
    var pa := DecodeMap(v.podAnnotations);
    var af: Affinity? := null;
    if v.affinity.Some? {
      af := new Affinity(v.affinity.value);
    }
    t := new Template(l, a, pl, pa, af, v.tolerations, v.selector, v.rest);
  }

  method DecodeDaemonJob(key: NamespacedName, v: DaemonJobView) returns (d: DaemonJob)
    ensures d.name == key.name && d.ns == key.ns
    ensures d.template.View() == v.template && d.nodeSelector == v.nodeSelector && d.broadcast == v.broadcast
  {
    var t := Decode(v.template);
    d := new DaemonJob(key.name, key.ns, t, v.nodeSelector, v.broadcast);
  }

  method DecodeDaemonCronJob(key: NamespacedName, v: DaemonCronJobView) returns (c: DaemonCronJob)
    ensures c.name == key.name && c.ns == key.ns && c.View() == v
    ensures c.labels != null ==> fresh(c.labels) && c.labels !in c.template.Maps()
  {
    var l := DecodeMap(v.labels);
    var a := DecodeMap(v.annotations);
    var t := Decode(v.template);
    c := new DaemonCronJob(key.name, key.ns, l, a, t, v.nodeSelector, v.broadcast, v.schedule);
  }

  method DecodeMap(v: Option<Labels>) returns (p: LabelMap?)
    ensures MapView(p) == v && (p != null ==> fresh(p))
  {
    if v.None? {
      return null;
    }
    p := new LabelMap(v.value);
  }

  /** The object that Run reads is the one its workers are labelled for. */
  lemma LookupFollowsLabels(api: ApiServer, cfg: Config)
    ensures var key, source := NamespacedName(cfg.ns, OwnerName(cfg)), api.Lookup(cfg);
            if OwnerKey(cfg) == DaemonJobName then
              source == if key in api.daemonJobs
                        then Some(Source(api.daemonJobs[key].template, api.daemonJobs[key].nodeSelector)) else None
            else
              source == if key in api.daemonCronJobs
                        then Some(Source(api.daemonCronJobs[key].template, api.daemonCronJobs[key].nodeSelector))
                        else None
  {
  }

  // ---- What the two phases guarantee ----

  lemma {:induction false} StoredKeys(jobs: JobStore, workers: seq<JobView>)
    ensures StoreAll(jobs, workers).Keys == jobs.Keys + set i | 0 <= i < |workers| :: Key(workers[i])
  {
    if workers != [] {
      var n := |workers| - 1;
      StoredKeys(jobs, workers[..n]);
      assert (set i | 0 <= i < |workers| :: Key(workers[i])) == (set i | 0 <= i < n :: Key(workers[..n][i])) +
        {Key(workers[n])};
    }
  }

  lemma WorkerKeysDistinct(cfg: Config, nodes: seq<string>, t: TemplateView)
    requires Distinct(nodes)
    ensures forall i, j | 0 <= i < j < |nodes| :: Key(Workers(cfg, nodes, t)[i]) != Key(Workers(cfg, nodes, t)[j])
  {
    forall i, j | 0 <= i < j < |nodes| ensures Key(Workers(cfg, nodes, t)[i]) != Key(Workers(cfg, nodes, t)[j]) {
      if Key(Workers(cfg, nodes, t)[i]) == Key(Workers(cfg, nodes, t)[j]) {
        WorkerNameInjective(cfg.selfName, nodes[i], nodes[j]);
      }
    }
  }

  /** A create takes its own key and no other, and changes the verdict on nothing else; this is why a
      dry-run foretells a later create. */
  lemma CreateTakesItsKeyOnly(jobs: JobStore, job: JobView, other: JobView, admits: JobView -> bool)
    requires Creatable(jobs, job, admits)
    ensures Creatable(jobs[Key(job) := job], other, admits)
            <==> Creatable(jobs, other, admits) && Key(other) != Key(job)
  {
  }

  /** After passing dry-runs a create can fail only through an outside fault. */
  lemma {:induction false} CreatesFollowDryRuns(jobs: JobStore, workers: seq<JobView>, admits: JobView -> bool,
                                                faults: Faults, from: nat)
    requires from <= |workers|
    requires DryRunsPass(jobs, workers, admits, faults)
    requires forall i, j | 0 <= i < j < |workers| :: Key(workers[i]) != Key(workers[j])
    ensures var k := Created(jobs, workers, admits, faults, from); k < |workers| ==> k in faults.create
    decreases |workers| - from
  {
    if from < |workers| && from !in faults.create {
      StoredKeys(jobs, workers[..from]);
      assert Creatable(StoreAll(jobs, workers[..from]), workers[from], admits);
      CreatesFollowDryRuns(jobs, workers, admits, faults, from + 1);
    }
  }

  /** Run leaves the store alone when a dry-run fails, and otherwise adds a prefix of the worker
      Jobs, cut short only by an outside fault; without one it adds all of them. */
  lemma RunAddsPrefix(jobs: JobStore, cfg: Config, nodes: seq<string>, t: TemplateView, admits: JobView -> bool,
                      faults: Faults)
    requires Distinct(nodes)
    ensures var workers := Workers(cfg, nodes, t);
            var r := TwoPhase(jobs, workers, admits, faults);
            && (!DryRunsPass(jobs, workers, admits, faults) ==> r == Outcome(jobs, false))
            && (DryRunsPass(jobs, workers, admits, faults) ==>
                  exists k: nat | k <= |workers| ::
                    && r == Outcome(StoreAll(jobs, workers[..k]), k == |workers|)
                    && (k < |workers| ==> k in faults.create))
  {
    var workers := Workers(cfg, nodes, t);
    if DryRunsPass(jobs, workers, admits, faults) {
      WorkerKeysDistinct(cfg, nodes, t);
      CreatesFollowDryRuns(jobs, workers, admits, faults, 0);
      var k := Created(jobs, workers, admits, faults, 0);
      assert TwoPhase(jobs, workers, admits, faults) == Outcome(StoreAll(jobs, workers[..k]), k == |workers|);
    }
  }

  /** Without outside faults Run is all-or-nothing: it succeeds exactly when every worker is admitted
      and no worker key is taken, and then the store gains exactly one Job for each node. */
  lemma RunIsAtomic(jobs: JobStore, cfg: Config, nodes: seq<string>, t: TemplateView, admits: JobView -> bool,
                    faults: Faults)
    requires Distinct(nodes) && faults.dryRun == {} && faults.create == {}
    ensures var workers := Workers(cfg, nodes, t);
            var r := TwoPhase(jobs, workers, admits, faults);
            && (r.ok <==> forall i | 0 <= i < |workers| :: Key(workers[i]) !in jobs && admits(workers[i]))
            && (!r.ok ==> r.jobs == jobs)
            && (r.ok ==> forall key ::
                  key in r.jobs <==> key in jobs || exists i | 0 <= i < |nodes| :: key == Key(workers[i]))
            && (r.ok ==> forall i | 0 <= i < |nodes| ::
                  Key(workers[i]) in r.jobs && r.jobs[Key(workers[i])] == workers[i])
            && (r.ok ==> forall key | key in jobs :: key in r.jobs && r.jobs[key] == jobs[key])
  {
    var workers := Workers(cfg, nodes, t);
    RunAddsPrefix(jobs, cfg, nodes, t, admits, faults);
    WorkerKeysDistinct(cfg, nodes, t);
    var r := TwoPhase(jobs, workers, admits, faults);
    if DryRunsPass(jobs, workers, admits, faults) {
      assert workers[..|workers|] == workers;
      StoredKeys(jobs, workers);
      StoredValues(jobs, workers);
    }
  }

  /** Under any faults, one dry-run that does not pass is enough for nothing to be stored; otherwise the first
      create with a fault lets through the Jobs before it and no other, and without one all are stored. */
  lemma RunUnderFaults(jobs: JobStore, cfg: Config, nodes: seq<string>, t: TemplateView, admits: JobView -> bool,
                       faults: Faults, k: nat)
    requires Distinct(nodes) && k <= |nodes| && (k < |nodes| ==> k in faults.create)
    requires forall i | 0 <= i < k :: i !in faults.create
    ensures var workers := Workers(cfg, nodes, t);
            var passed := forall i | 0 <= i < |workers| ::
                            i !in faults.dryRun && Key(workers[i]) !in jobs && admits(workers[i]);
            TwoPhase(jobs, workers, admits, faults) ==
            if passed then Outcome(StoreAll(jobs, workers[..k]), k == |nodes|) else Outcome(jobs, false)
  {
    var workers := Workers(cfg, nodes, t);
    WorkerKeysDistinct(cfg, nodes, t);
    if DryRunsPass(jobs, workers, admits, faults) {
      CreatesStopAt(jobs, workers, admits, faults, 0, k);
    }
  }

  lemma {:induction false} CreatesStopAt(jobs: JobStore, workers: seq<JobView>, admits: JobView -> bool,
                                         faults: Faults, from: nat, k: nat)
    requires from <= k <= |workers| && (k < |workers| ==> k in faults.create)
    requires forall i | from <= i < k :: i !in faults.create
    requires DryRunsPass(jobs, workers, admits, faults)
    requires forall i, j | 0 <= i < j < |workers| :: Key(workers[i]) != Key(workers[j])
    ensures Created(jobs, workers, admits, faults, from) == k
    decreases k - from
  {
    if from < k {
      StoredKeys(jobs, workers[..from]);
      assert Creatable(StoreAll(jobs, workers[..from]), workers[from], admits);
      CreatesStopAt(jobs, workers, admits, faults, from + 1, k);
    }
  }

  lemma {:induction false} StoredValues(jobs: JobStore, workers: seq<JobView>)
    requires forall i, j | 0 <= i < j < |workers| :: Key(workers[i]) != Key(workers[j])
    ensures var r := StoreAll(jobs, workers);
            && (forall i | 0 <= i < |workers| :: Key(workers[i]) in r && r[Key(workers[i])] == workers[i])
            && (forall key | key in jobs && (forall i | 0 <= i < |workers| :: Key(workers[i]) != key) ::
                  key in r && r[key] == jobs[key])
  {
    if workers != [] {
      StoredValues(jobs, workers[..|workers| - 1]);
    }
  }

  /** A second Run under the same name that meets a node already served adds nothing, whatever the
      template, the other nodes or the faults are by then. */
  lemma RepeatedRunAddsNothing(jobs: JobStore, cfg: Config, cfg': Config, served: string, t: TemplateView,
                               nodes': seq<string>, t': TemplateView, admits: JobView -> bool, faults: Faults)
    requires cfg.selfName == cfg'.selfName && cfg.ns == cfg'.ns
    requires Key(WorkerJob(cfg, served, t)) in jobs && served in nodes'
    ensures TwoPhase(jobs, Workers(cfg', nodes', t'), admits, faults) == Outcome(jobs, false)
  {
    var workers := Workers(cfg', nodes', t');
    var i :| 0 <= i < |nodes'| && nodes'[i] == served;
    assert !Creatable(jobs, workers[i], admits);
  }
}
