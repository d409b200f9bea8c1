/** The offline preview (internal/daemonjobctl/generate.go) against what the cluster would run. */
module Preview {
  import opened Kube
  import opened Objects
  import opened WorkerJobs
  import opened BroadcastJobs
  import opened Broadcast
  import opened CronJobSets
  import opened Selectors

  /** The configuration the preview assumes for the broadcast pod. */
  function PreviewConfig(kind: Kind, ns: string, name: string, uid: string): Config {
    if kind.DaemonJobKind? then Config(ResourceName(kind, name), ns, name, "", uid)
    else Config(ResourceName(kind, name), ns, "", name, uid)
  }

  /** It is what the pod of the generated broadcast Job loads, if the Job keeps its name and has that uid. */
  lemma PreviewConfigIsLoaded(kind: Kind, ns: string, name: string, uid: string, template: Labels)
    requires name != "" && ns != ""
    ensures var env := if kind.DaemonJobKind? then DaemonJobEnv() else DaemonCronJobEnv();
            var job := name + (if kind.DaemonJobKind? then "-dj" else "-dcj");
            var pod := JobLabels(kind, name, template)[BatchJobName := job][BatchControllerUid := uid];
            LoadConfig(env, pod, ns) == Some(PreviewConfig(kind, ns, name, uid))
  {
    BroadcastPodFindsOwner(kind, name, ns, template, ResourceName(kind, name), uid);
  }

  /** A simulated Job is one of the broadcast Job of that name, for the node. */
  predicate SpawnedBy(job: JobView, broadcast: string, ns: string, uid: string, node: string) {
    && job.name == broadcast + "-" + node && job.ns == ns
    && job.owner == OwnerReference("Job", broadcast, uid, true)
  }

  /** The simulated worker Jobs of a DaemonJob, after its broadcast Job has been generated. */
  method GenerateDaemonJob(d: DaemonJob, nodes: seq<string>, uid: string)
    returns (direct: BroadcastJob, simulated: seq<JobView>)
    ensures simulated == Workers(PreviewConfig(DaemonJobKind, d.ns, d.name, uid), nodes, old(d.template.View()))
    ensures direct.name == d.name + "-dj" && direct.ns == d.ns
    ensures forall i | 0 <= i < |nodes| :: SpawnedBy(simulated[i], direct.name, direct.ns, uid, nodes[i])
  {
    direct := NewDaemonJobJob(d);
    simulated := BuildViews(PreviewConfig(DaemonJobKind, d.ns, d.name, uid), nodes, d.template);
  }

  /** The simulated worker Jobs of a DaemonCronJob.  Generating the CronJob first writes into the
      object's own CronJob labels, and panics when there are none; as long as that map is not also
      the worker template's, the simulation is not affected.  The Jobs are those of the broadcast Job
      inside the generated CronJob. */
  method GenerateDaemonCronJob(c: DaemonCronJob, nodes: seq<string>, uid: string)
    returns (direct: Option<BroadcastCronJob>, simulated: Option<seq<JobView>>)
    modifies c.labels
    ensures simulated.Some? <==> c.labels != null
    ensures direct.Some? <==> simulated.Some?
    ensures simulated.Some? ==>
              && direct.value.job.name == c.name + "-dcj" && direct.value.job.ns == c.ns
              && |simulated.value| == |nodes|
              && forall i | 0 <= i < |nodes| ::
                   SpawnedBy(simulated.value[i], direct.value.job.name, direct.value.job.ns, uid, nodes[i])
    ensures simulated.Some? &&
            c.labels !in {c.template.labels, c.template.annotations, c.template.podLabels,
                          c.template.podAnnotations} ==>
              simulated.value == Workers(PreviewConfig(DaemonCronJobKind, c.ns, c.name, uid), nodes,
                                         old(c.template.View()))
  {
    ghost var t := c.template.View();
    direct := NewCronJob(c);
    if direct.None? {
      return None, None;
    }
    ghost var unshared := c.labels !in {c.template.labels, c.template.annotations, c.template.podLabels,
                                        c.template.podAnnotations};
    assert unshared ==> c.template.View() == t;
    var d := c.AsDaemonJob();
    var views := BuildViews(PreviewConfig(DaemonCronJobKind, c.ns, c.name, uid), nodes, d.template);
    return direct, Some(views);
  }

  /** The CronJobs of a DaemonCronJobSet. */
  method GenerateDaemonCronJobSet(s: CronJobSet, nodes: seq<string>) returns (direct: seq<CronJobView>)
    ensures |direct| == |nodes|
    ensures forall i | 0 <= i < |nodes| ::
              && direct[i] == CronJobFor(s.View(), nodes[i])
              && direct[i].name == s.name + "-" + nodes[i] + "-dcjs" && direct[i].ns == s.ns
  {
    direct := [];
    for i := 0 to |nodes|
      invariant |direct| == i
      invariant forall j | 0 <= j < i :: direct[j] == CronJobFor(s.View(), nodes[j])
    {
      var cron := s.NewCronJobForNode(nodes[i]);
      direct := direct + [cron];
    }
  }

  // ---- The preview against Run ----

  /** The Jobs that were added are exactly the given ones. */
  ghost predicate AddsExactly(before: JobStore, after: JobStore, jobs: seq<JobView>) {
    && (forall k | k in before :: k in after && after[k] == before[k])
    && (forall i | 0 <= i < |jobs| ::
          Key(jobs[i]) !in before && Key(jobs[i]) in after && after[Key(jobs[i])] == jobs[i])
    && (forall k | k in after && k !in before :: exists i | 0 <= i < |jobs| :: Key(jobs[i]) == k)
  }

  lemma StoringAdds(jobs: JobStore, workers: seq<JobView>)
    requires forall i, j | 0 <= i < j < |workers| :: Key(workers[i]) != Key(workers[j])
    requires forall i | 0 <= i < |workers| :: Key(workers[i]) !in jobs
    ensures AddsExactly(jobs, StoreAll(jobs, workers), workers)
  {
    StoredKeys(jobs, workers);
    StoredValues(jobs, workers);
  }

  lemma RunAddsWorkers(jobs: JobStore, cfg: Config, listed: seq<string>, t: TemplateView, admits: JobView -> bool,
                       faults: Faults)
    requires Distinct(listed) && TwoPhase(jobs, Workers(cfg, listed, t), admits, faults).ok
    ensures AddsExactly(jobs, TwoPhase(jobs, Workers(cfg, listed, t), admits, faults).jobs, Workers(cfg, listed, t))
  {
    var workers := Workers(cfg, listed, t);
    WorkerKeysDistinct(cfg, listed, t);
    StoringAdds(jobs, workers);
    assert TwoPhase(jobs, workers, admits, faults).jobs == StoreAll(jobs, workers) by {
      assert workers[..|workers|] == workers;
    }
  }

  lemma SameMembers(before: JobStore, after: JobStore, jobs: seq<JobView>, jobs': seq<JobView>)
    requires AddsExactly(before, after, jobs) && forall j :: j in jobs <==> j in jobs'
    ensures AddsExactly(before, after, jobs')
  {
    forall i | 0 <= i < |jobs'|
      ensures Key(jobs'[i]) !in before && Key(jobs'[i]) in after && after[Key(jobs'[i])] == jobs'[i]
    {
      assert jobs'[i] in jobs;
    }
    forall k | k in after && k !in before ensures exists i | 0 <= i < |jobs'| :: Key(jobs'[i]) == k {
      var i :| 0 <= i < |jobs| && Key(jobs[i]) == k;
      assert jobs[i] in jobs';
    }
  }

  lemma WorkersOfSame(cfg: Config, listed: seq<string>, nodes: seq<string>, t: TemplateView, job: JobView)
    requires job in Workers(cfg, listed, t) && forall n | n in listed :: n in nodes
    ensures job in Workers(cfg, nodes, t)
  {
    var i :| 0 <= i < |listed| && Workers(cfg, listed, t)[i] == job;
    assert listed[i] in nodes;
    var j :| 0 <= j < |nodes| && nodes[j] == listed[i];
    assert Workers(cfg, nodes, t)[j] == job;
  }

  /** The order in which the nodes are listed does not matter. */
  lemma AnyOrder(before: JobStore, after: JobStore, cfg: Config, listed: seq<string>, nodes: seq<string>,
                 t: TemplateView)
    requires AddsExactly(before, after, Workers(cfg, listed, t))
    requires forall n :: n in listed <==> n in nodes
    ensures AddsExactly(before, after, Workers(cfg, nodes, t))
  {
    forall job ensures job in Workers(cfg, listed, t) <==> job in Workers(cfg, nodes, t) {
      if job in Workers(cfg, listed, t) {
        WorkersOfSame(cfg, listed, nodes, t, job);
      }
      if job in Workers(cfg, nodes, t) {
        WorkersOfSame(cfg, nodes, listed, t, job);
      }
    }
    SameMembers(before, after, Workers(cfg, listed, t), Workers(cfg, nodes, t));
  }

  /** A stored DaemonJob or DaemonCronJob, read and previewed; a DaemonCronJob without labels panics. */
  method PreviewStored(api: ApiServer, kind: Kind, key: NamespacedName, nodes: seq<string>, uid: string)
    returns (simulated: Option<seq<JobView>>)
    requires if kind.DaemonJobKind? then key in api.daemonJobs else key in api.daemonCronJobs
    ensures simulated.None? <==> kind.DaemonCronJobKind? && api.daemonCronJobs[key].labels.None?
    ensures simulated.Some? ==>
              var t := if kind.DaemonJobKind? then api.daemonJobs[key].template else api.daemonCronJobs[key].template;
              simulated.value == Workers(PreviewConfig(kind, key.ns, key.name, uid), nodes, t)
    ensures simulated.Some? ==>
              forall i | 0 <= i < |nodes| ::
                SpawnedBy(simulated.value[i], key.name + (if kind.DaemonJobKind? then "-dj" else "-dcj"), key.ns, uid,
                          nodes[i])
  {
    if kind.DaemonJobKind? {
      var d := DecodeDaemonJob(key, api.daemonJobs[key]);
      var _, views := GenerateDaemonJob(d, nodes, uid);
      simulated := Some(views);
    } else {
      var c := DecodeDaemonCronJob(key, api.daemonCronJobs[key]);
      assert c.View().labels == MapView(c.labels) && c.View().template == c.template.View();
      var _, views := GenerateDaemonCronJob(c, nodes, uid);
      simulated := views;
    }
  }

  /** From one stored object: what the preview simulates is exactly what Run, started with the same
      configuration on the same nodes, adds to the store, although the preview lets CronJob() rewrite
      the object first and translates the template in its own way. */
  method PreviewThenRun(api: ApiServer, kind: Kind, key: NamespacedName, nodes: seq<string>, uid: string,
                        faults: Faults)
    returns (simulated: Option<seq<JobView>>, ok: bool)
    requires key.name != ""
    requires if kind.DaemonJobKind? then key in api.daemonJobs else key in api.daemonCronJobs
    requires var s := if kind.DaemonJobKind? then api.daemonJobs[key].nodeSelector
               else api.daemonCronJobs[key].nodeSelector;
             forall n :: n in nodes <==> n in MatchingNodes(api.nodes, s)
    modifies api`jobs
    ensures simulated.None? <==> kind.DaemonCronJobKind? && api.daemonCronJobs[key].labels.None?
    ensures simulated.Some? && ok ==> AddsExactly(old(api.jobs), api.jobs, simulated.value)
  {
    simulated := PreviewStored(api, kind, key, nodes, uid);
    var cfg := PreviewConfig(kind, key.ns, key.name, uid);
    ghost var before := api.jobs;
    ghost var source := api.Lookup(cfg).value;
    var listed;
    ok, listed := api.Run(cfg, faults);
    if ok {
      RunAddsWorkers(before, cfg, listed, source.template, api.admits, faults);
      AnyOrder(before, api.jobs, cfg, listed, nodes, source.template);
    }
  }

  /** When two configurations give the same owner label. */
  predicate SameOwnerLabels(cfg: Config, cfg': Config, template: Labels) {
    if OwnerKey(cfg) == OwnerKey(cfg') then OwnerName(cfg) == OwnerName(cfg')
    else Has(template, OwnerKey(cfg), OwnerName(cfg)) && Has(template, OwnerKey(cfg'), OwnerName(cfg'))
  }

  lemma SameLabelsExactly(cfg: Config, cfg': Config, node: string, template: Labels)
    ensures WorkerLabels(cfg, node, template) == WorkerLabels(cfg', node, template) <==>
              SameOwnerLabels(cfg, cfg', template)
  {
    var m, m' := WorkerLabels(cfg, node, template), WorkerLabels(cfg', node, template);
    assert Has(m, OwnerKey(cfg), OwnerName(cfg)) && Has(m', OwnerKey(cfg'), OwnerName(cfg'));
    if OwnerKey(cfg) != OwnerKey(cfg') {
      assert Has(m, OwnerKey(cfg'), OwnerName(cfg')) <==> Has(template, OwnerKey(cfg'), OwnerName(cfg'));
      assert Has(m', OwnerKey(cfg), OwnerName(cfg)) <==> Has(template, OwnerKey(cfg), OwnerName(cfg));
    }
  }

  /** Two configurations give a node the same Job exactly when broadcast name, namespace, uid and owner
      label agree; in particular for one object, exactly when the first three do. */
  lemma SameJobsExactly(cfg: Config, cfg': Config, node: string, t: TemplateView)
    ensures WorkerJob(cfg, node, t) == WorkerJob(cfg', node, t) <==>
            && cfg.selfName == cfg'.selfName && cfg.ns == cfg'.ns && cfg.controllerUid == cfg'.controllerUid
            && SameOwnerLabels(cfg, cfg', OrEmpty(t.labels))
  {
    SameLabelsExactly(cfg, cfg', node, OrEmpty(t.labels));
    var job, job' := WorkerJob(cfg, node, t), WorkerJob(cfg', node, t);
    if job == job' {
      assert job.owner.name == job'.owner.name && job.owner.uid == job'.owner.uid;
      assert job.labels == job'.labels;
    }
  }
}
