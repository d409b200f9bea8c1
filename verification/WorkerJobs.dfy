/** Building the worker Job of one node (internal/broadcast/broadcast.go). */
module WorkerJobs {
  import opened Kube
  import opened Objects
  import opened Scheduling

  datatype Config = Config(selfName: string, ns: string, daemonJobName: string, daemonCronJobName: string,
                           controllerUid: string)

  datatype OwnerReference = OwnerReference(kind: string, name: string, uid: string, controller: bool)

  /** A Job as it is sent to the API server. */
  datatype JobView = JobView(
    name: string,
    ns: string,
    owner: OwnerReference,
    labels: Labels,
    annotations: Labels,
    podLabels: Labels,
    podAnnotations: Labels,
    affinity: AffinityView,
    tolerations: seq<Toleration>,
    selector: Option<Labels>,
    rest: string)

  /** Labels Kubernetes puts on every Job by itself. */
  const GENERATED_KEYS: seq<LabelKey> := [ControllerUid, JobName, BatchControllerUid, BatchJobName]

  function GeneratedSet(): set<LabelKey> {
    {ControllerUid, JobName, BatchControllerUid, BatchJobName}
  }

  class Job {
    const name: string
    const ns: string
    const owner: OwnerReference
    const labels: LabelMap
    const annotations: LabelMap
    const podLabels: LabelMap
    const podAnnotations: LabelMap
    const affinity: Affinity
    const tolerations: seq<Toleration>
    const selector: Option<Labels>
    const rest: string

    constructor (name: string, ns: string, owner: OwnerReference, labels: LabelMap, annotations: LabelMap,
                 podLabels: LabelMap, podAnnotations: LabelMap, affinity: Affinity, tolerations: seq<Toleration>,
                 rest: string)
      ensures this.name == name && this.ns == ns && this.owner == owner
      ensures this.labels == labels && this.annotations == annotations
      ensures this.podLabels == podLabels && this.podAnnotations == podAnnotations && this.affinity == affinity
      ensures this.tolerations == tolerations && this.selector == None && this.rest == rest
    {
      this.name, this.ns, this.owner := name, ns, owner;
      this.labels, this.annotations := labels, annotations;
      this.podLabels, this.podAnnotations, this.affinity := podLabels, podAnnotations, affinity;
      this.tolerations, this.selector, this.rest := tolerations, None, rest;
    }

    ghost function Repr(): set<object> {
      {this, labels, annotations, podLabels, podAnnotations, affinity}
    }

    function View(): JobView
      reads labels, annotations, podLabels, podAnnotations, affinity
    {
      JobView(name, ns, owner, labels.m, annotations.m, podLabels.m, podAnnotations.m, affinity.value, tolerations,
              selector, rest)
    }
  }

  // ---- What the builder promises ----

  function WorkerName(selfName: string, node: string): string {
    selfName + "-" + node
  }

  /** The label that says whose worker this is. */
  function OwnerKey(cfg: Config): LabelKey {
    if cfg.daemonJobName != "" then DaemonJobName else DaemonCronJobName
  }

  function OwnerName(cfg: Config): string {
    if cfg.daemonJobName != "" then cfg.daemonJobName else cfg.daemonCronJobName
  }

  function WorkerLabels(cfg: Config, node: string, template: Labels): Labels {
    template[Node := node][Role := ROLE_WORKER][OwnerKey(cfg) := OwnerName(cfg)] - GeneratedSet()
  }

  /** The template's affinity with one more required term, creating what is missing on the way. */
  function Targeted(a: Option<AffinityView>, node: string): AffinityView {
    var affinity := if a.Some? then a.value else AffinityView(None, "");
    var nodeAffinity := if affinity.node.Some? then affinity.node.value else NodeAffinityView(None, "");
    affinity.(node := Some(nodeAffinity.(required := Some(RequiredTerms(a) + [NameIs(node)]))))
  }

  function WorkerJob(cfg: Config, node: string, t: TemplateView): JobView {
    var labels := WorkerLabels(cfg, node, OrEmpty(t.labels));
    var annotations := OrEmpty(t.annotations);
    JobView(
      WorkerName(cfg.selfName, node),
      cfg.ns,
      OwnerReference("Job", cfg.selfName, cfg.controllerUid, true),
      labels,
      annotations,
      OrEmpty(t.podLabels) + labels - GeneratedSet(),
      OrEmpty(t.podAnnotations) + annotations,
      Targeted(t.affinity, node),
      DEFAULT_TOLERATIONS + t.tolerations,
      None,
      t.rest)
  }

  // ---- The builder ----

  method DeleteGenerated(labels: LabelMap)
    modifies labels
    ensures labels.m == old(labels.m) - GeneratedSet()
  {
    var before := labels.m;
    for i := 0 to |GENERATED_KEYS|
      invariant labels.m == before - (set j | 0 <= j < i :: GENERATED_KEYS[j])
    {
      labels.Delete(GENERATED_KEYS[i]);
      assert (set j | 0 <= j < i + 1 :: GENERATED_KEYS[j]) == (set j | 0 <= j < i :: GENERATED_KEYS[j]) +
        {GENERATED_KEYS[i]};
    }
    assert GENERATED_KEYS[0] == ControllerUid && GENERATED_KEYS[1] == JobName
        && GENERATED_KEYS[2] == BatchControllerUid && GENERATED_KEYS[3] == BatchJobName;
    assert (set j | 0 <= j < 4 :: GENERATED_KEYS[j]) == GeneratedSet();
  }

  /** A new map with the entries of src, none when src is nil. */
  method Copied(src: LabelMap?) returns (r: LabelMap)
    ensures fresh(r) && r.m == OrEmpty(MapView(src))
  {
    r := new LabelMap(map[]);
    if src != null {
      r.CopyFrom(src);
      assert r.m == src.m;
    }
  }

  /** Adds the target's term at the end of the required terms, in place. */
  method TargetNode(a: Affinity, node: string)
    modifies a
    ensures a.value == Targeted(old(Some(a.value)), node)
  {
    if a.value.node.None? {
      a.value := a.value.(node := Some(NodeAffinityView(None, "")));
    }
    if a.value.node.value.required.None? {
      a.value := a.value.(node := Some(a.value.node.value.(required := Some([]))));
    }
    var terms := a.value.node.value.required.value;
    a.value := a.value.(node := Some(a.value.node.value.(required := Some(terms + [NameIs(node)]))));
  }

  method BuildLabels(cfg: Config, node: string, template: LabelMap?) returns (labels: LabelMap)
    ensures fresh(labels) && labels.m == WorkerLabels(cfg, node, OrEmpty(MapView(template)))
  {
    labels := Copied(template);
    labels.Put(Node, node);
    labels.Put(Role, ROLE_WORKER);
    if cfg.daemonJobName != "" {
      labels.Put(DaemonJobName, cfg.daemonJobName);
    } else {
      labels.Put(DaemonCronJobName, cfg.daemonCronJobName);
    }
    DeleteGenerated(labels);
  }

  method PodMetadata(labels: LabelMap, annotations: LabelMap, template: Template)
    returns (podLabels: LabelMap, podAnnotations: LabelMap)
    ensures fresh(podLabels) && podLabels.m == OrEmpty(MapView(template.podLabels)) + labels.m - GeneratedSet()
    ensures fresh(podAnnotations) && podAnnotations.m == OrEmpty(MapView(template.podAnnotations)) + annotations.m
  {
    podLabels := Copied(template.podLabels);
    podLabels.CopyFrom(labels);
    DeleteGenerated(podLabels);
    podAnnotations := Copied(template.podAnnotations);
    podAnnotations.CopyFrom(annotations);
  }

  /** The scheduling part, worked out on a deep copy of the template. */
  method PodScheduling(node: string, template: Template)
    returns (affinity: Affinity, tolerations: seq<Toleration>, rest: string)
    ensures fresh(affinity) && affinity.value == Targeted(old(AffinityOf(template.affinity)), node)
    ensures tolerations == DEFAULT_TOLERATIONS + template.tolerations && rest == template.rest
  {
    var spec := template.DeepCopy();
    assert AffinityOf(spec.affinity) == spec.View().affinity == template.View().affinity;
    if spec.affinity == null {
      spec.affinity := new Affinity(AffinityView(None, ""));
    }
    TargetNode(spec.affinity, node);
    spec.tolerations := DEFAULT_TOLERATIONS + spec.tolerations;
    return spec.affinity, spec.tolerations, spec.rest;
  }

  /** Everything the Job consists of is new, so the template and every other Job stay as they are. */
  method BuildWorkerJob(cfg: Config, node: string, template: Template) returns (job: Job)
    ensures fresh(job.Repr())
    ensures job.View() == WorkerJob(cfg, node, old(template.View()))
  {
    var labels := BuildLabels(cfg, node, template.labels);
    var annotations := Copied(template.annotations);
    var podLabels, podAnnotations := PodMetadata(labels, annotations, template);
    var affinity, tolerations, rest := PodScheduling(node, template);
    job := new Job(WorkerName(cfg.selfName, node), cfg.ns, OwnerReference("Job", cfg.selfName, cfg.controllerUid, true),
                   labels, annotations, podLabels, podAnnotations, affinity, tolerations, rest);
  }

  /** One new Job for each node.  At the end every Job still reads as built for its own node alone,
      so no later build has touched it, and the template reads as before. */
  method BuildAll(cfg: Config, nodes: seq<string>, template: Template) returns (jobs: seq<Job>)
    ensures |jobs| == |nodes|
    ensures forall i | 0 <= i < |jobs| :: fresh(jobs[i].Repr())
    ensures forall i | 0 <= i < |jobs| :: jobs[i].View() == WorkerJob(cfg, nodes[i], old(template.View()))
    ensures template.View() == old(template.View())
  {
    jobs := [];
    ghost var t := template.View();
    for i := 0 to |nodes|
      invariant |jobs| == i
      invariant forall j | 0 <= j < i :: fresh(jobs[j].Repr())
      invariant forall j | 0 <= j < i :: jobs[j].View() == WorkerJob(cfg, nodes[j], t)
    {
      var job := BuildWorkerJob(cfg, nodes[i], template);
      jobs := jobs + [job];
    }
  }

  // ---- What a worker Job means ----

  /** Worker names tell nodes apart. */
  lemma WorkerNameInjective(selfName: string, a: string, b: string)
    requires WorkerName(selfName, a) == WorkerName(selfName, b)
    ensures a == b
  {
    InfixInjective(selfName + "-", a, b, "");
    assert selfName + "-" + a + "" == WorkerName(selfName, a);
    assert selfName + "-" + b + "" == WorkerName(selfName, b);
  }

  /** The worker may run on the nodes the template requires and on its target. */
  lemma WorkerPlacement(cfg: Config, node: string, t: TemplateView, n: NodeInfo, number: string -> Option<int>)
    ensures var required := RequiredTerms(Some(WorkerJob(cfg, node, t).affinity));
            && (Admits(required, n, number) <==> Admits(RequiredTerms(t.affinity), n, number) || n.name == node)
            && (RequiredTerms(t.affinity) == [] ==> (Admits(required, n, number) <==> n.name == node))
  {
    AppendedTargetAdmits(RequiredTerms(t.affinity), node, n, number);
  }

  /** The pod template carries every label of the Job, and neither carries a generated one. */
  lemma PodLabelsFollowJob(cfg: Config, node: string, t: TemplateView)
    ensures var job := WorkerJob(cfg, node, t);
            && Matches(job.labels, job.podLabels)
            && job.labels.Keys !! GeneratedSet()
            && job.podLabels.Keys !! GeneratedSet()
            && (forall k | k in OrEmpty(t.podLabels) && k !in GeneratedSet() && k !in job.labels ::
                  k in job.podLabels && job.podLabels[k] == OrEmpty(t.podLabels)[k])
  {
  }

  /** The worker tolerates what the template tolerates, and in addition the taints of nodes that are not
      ready or unreachable and of nodes under pressure or cordoned, each for one effect. */
  lemma WorkerTolerates(cfg: Config, node: string, t: TemplateView, taint: Taint)
    ensures AllTolerate(WorkerJob(cfg, node, t).tolerations, taint) <==>
            || AllTolerate(t.tolerations, taint)
            || (taint.effect == NoExecute && taint.key in {NotReady, Unreachable})
            || (taint.effect == NoSchedule && taint.key in {DiskPressure, MemoryPressure, PidPressure, Unschedulable})
  {
    JoinedTolerate(DEFAULT_TOLERATIONS, t.tolerations, taint);
    DefaultsTolerate(taint);
  }

  /** Label by label: node, role and owner win over the template, and the four labels that Kubernetes
      writes are dropped; all others are the template's. */
  lemma WorkerLabelsByKey(cfg: Config, node: string, t: TemplateView)
    ensures var m, template := WorkerJob(cfg, node, t).labels, if t.labels.Some? then t.labels.value else map[];
            && Has(m, Node, node) && Has(m, Role, "worker")
            && (cfg.daemonJobName != "" ==> Has(m, DaemonJobName, cfg.daemonJobName))
            && (cfg.daemonJobName == "" ==> Has(m, DaemonCronJobName, cfg.daemonCronJobName))
            && forall k | k !in {Node, Role, if cfg.daemonJobName != "" then DaemonJobName else DaemonCronJobName} ::
                 if k in {ControllerUid, JobName, BatchControllerUid, BatchJobName} then k !in m
                 else (k in m <==> k in template) && (k in m ==> m[k] == template[k])
  {
  }

  /** The pod has the Job's labels and, where these say nothing, its template's; likewise annotations. */
  lemma PodMetadataByKey(cfg: Config, node: string, t: TemplateView)
    ensures var job := WorkerJob(cfg, node, t);
            && job.annotations == OrEmpty(t.annotations)
            && (forall k ::
                  if k in job.labels then Has(job.podLabels, k, job.labels[k])
                  else if k in {ControllerUid, JobName, BatchControllerUid, BatchJobName} then k !in job.podLabels
                  else (k in job.podLabels <==> k in OrEmpty(t.podLabels))
                       && (k in job.podLabels ==> job.podLabels[k] == OrEmpty(t.podLabels)[k]))
            && (forall k ::
                  if k in job.annotations then Has(job.podAnnotations, k, job.annotations[k])
                  else (k in job.podAnnotations <==> k in OrEmpty(t.podAnnotations))
                       && (k in job.podAnnotations ==> job.podAnnotations[k] == OrEmpty(t.podAnnotations)[k]))
  {
  }

  /** All else is the template's: what it prefers of nodes, what it says of other pods, its required terms
      in front of the target's, its tolerations behind the default ones; only the selector is dropped. */
  lemma TemplateCarriesOver(cfg: Config, node: string, t: TemplateView)
    ensures var job, target := WorkerJob(cfg, node, t), Term([], [FieldRequirement("metadata.name", In, [node])]);
            && job.rest == t.rest && job.selector == None
            && job.affinity.node.Some?
            && job.affinity.rest == (if t.affinity.Some? then t.affinity.value.rest else "")
            && match (if t.affinity.Some? then t.affinity.value.node else None)
               case None => job.affinity.node.value == NodeAffinityView(Some([target]), "")
               case Some(NodeAffinityView(None, rest)) =>
                 job.affinity.node.value == NodeAffinityView(Some([target]), rest)
               case Some(NodeAffinityView(Some(terms), rest)) =>
                 job.affinity.node.value == NodeAffinityView(Some(terms + [target]), rest)
    ensures var job := WorkerJob(cfg, node, t);
            |job.tolerations| == 6 + |t.tolerations| && job.tolerations[6..] == t.tolerations
  {
    assert WorkerJob(cfg, node, t).tolerations[6..] == t.tolerations;
    assert [] + [NameIs(node)] == [NameIs(node)];
  }
}
