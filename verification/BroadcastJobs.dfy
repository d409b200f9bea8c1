/** What a DaemonJob or DaemonCronJob generates to start its broadcast: names, labels, the Job and
    the CronJob (internal/controller/daemonjob.go and daemoncronjob.go). */
module BroadcastJobs {
  import opened Kube
  import opened Objects
  import opened WorkerJobs

  datatype Kind = DaemonJobKind | DaemonCronJobKind

  // ---- Names and labels ----

  function ResourceName(kind: Kind, name: string): string {
    name + (if kind.DaemonJobKind? then "-dj" else "-dcj")
  }

  /** Cluster-scoped, so the namespace goes into the name. */
  function ClusterRoleBindingName(kind: Kind, ns: string, name: string): string {
    ns + "-" + ResourceName(kind, name)
  }

  /** commonLabels of a DaemonJob. */
  function BroadcastLabels(name: string): Labels {
    CommonLabels()[DaemonJobName := name][Role := ROLE_BROADCAST][AppInstance := name][AppComponent := ROLE_BROADCAST]
  }

  /** fixCommonLabels: hand a DaemonJob's labels over to the DaemonCronJob of that name. */
  function Fixed(name: string, m: Labels): Labels {
    (m - {DaemonJobName})[DaemonCronJobName := name][AppInstance := name]
  }

  function ServiceAccountLabels(kind: Kind, name: string): Labels {
    if kind.DaemonJobKind? then BroadcastLabels(name) else Fixed(name, BroadcastLabels(name))
  }

  function ClusterRoleBindingLabels(kind: Kind, ns: string, name: string): Labels {
    var labels := BroadcastLabels(name)[Namespace := ns];
    if kind.DaemonJobKind? then labels else Fixed(name, labels)
  }

  /** Labels of the broadcast Job, given the labels of the worker template. */
  function JobLabels(kind: Kind, name: string, template: Labels): Labels {
    var labels := template + BroadcastLabels(name);
    if kind.DaemonJobKind? then labels else Fixed(name, labels)
  }

  /** Labels of the broadcast CronJob and of its job template, given the labels of the CronJob
      template and of the worker template. */
  function CronLabels(name: string, cronTemplate: Labels, template: Labels): Labels {
    cronTemplate + JobLabels(DaemonCronJobKind, name, template) - {DaemonJobName}
  }

  /** Writing the labels once is enough. */
  lemma CronLabelsFixpoint(name: string, cronTemplate: Labels, template: Labels)
    ensures CronLabels(name, CronLabels(name, cronTemplate, template), template) ==
              CronLabels(name, cronTemplate, template)
  {
  }

  /** Even when the CronJob template and the worker template share their label map. */
  lemma SharedCronLabelsFixpoint(name: string, shared: Labels)
    ensures var once := CronLabels(name, shared, shared); CronLabels(name, once, once) == once
  {
  }

  /** Copying the common labels a second time brings back the DaemonJob name, and fixing removes it again. */
  lemma CommonLabelsAbsorbed(name: string, cronTemplate: Labels, template: Labels)
    ensures Fixed(name, cronTemplate + JobLabels(DaemonCronJobKind, name, template) + BroadcastLabels(name))
            == CronLabels(name, cronTemplate, template)
  {
  }

  lemma FixedTwice(name: string, m: Labels)
    ensures Fixed(name, Fixed(name, m)) == Fixed(name, m)
  {
  }

  /** Label by label: the broadcast's own labels win over the template's, and the name of its object stands
      under the key of its own kind only; under a DaemonCronJob's the DaemonJob key is gone altogether. */
  lemma JobLabelsByKey(kind: Kind, name: string, template: Labels)
    ensures var m := JobLabels(kind, name, template);
            && Has(m, Role, "broadcast") && Has(m, AppComponent, "broadcast") && Has(m, AppInstance, name)
            && Has(m, AppName, "daemonjob") && Has(m, AppManagedBy, "daemonjob-controller")
            && (kind.DaemonJobKind? ==> Has(m, DaemonJobName, name))
            && (kind.DaemonCronJobKind? ==> Has(m, DaemonCronJobName, name) && DaemonJobName !in m)
            && forall k | k !in {Role, AppComponent, AppInstance, AppName, AppManagedBy, DaemonJobName} ::
                 k != DaemonCronJobName || kind.DaemonJobKind? ==>
                   (k in m <==> k in template) && (k in m ==> m[k] == template[k])
  {
  }

  /** On the CronJob too, where the labels of its own template come last. */
  lemma CronLabelsByKey(name: string, cronTemplate: Labels, template: Labels)
    ensures var m, job := CronLabels(name, cronTemplate, template), JobLabels(DaemonCronJobKind, name, template);
            && DaemonJobName !in m
            && forall k | k != DaemonJobName ::
                 if k in job then Has(m, k, job[k])
                 else (k in m <==> k in cronTemplate) && (k in m ==> m[k] == cronTemplate[k])
  {
  }

  /** A ServiceAccount has no labels but these, and a ClusterRoleBinding the namespace in addition. */
  lemma PlainLabels(name: string)
    ensures ServiceAccountLabels(DaemonJobKind, name) ==
            map[DaemonJobName := name, Role := "broadcast", AppInstance := name, AppComponent := "broadcast",
                AppName := "daemonjob", AppManagedBy := "daemonjob-controller"]
    ensures ServiceAccountLabels(DaemonCronJobKind, name) ==
            map[DaemonCronJobName := name, Role := "broadcast", AppInstance := name, AppComponent := "broadcast",
                AppName := "daemonjob", AppManagedBy := "daemonjob-controller"]
  {
  }

  lemma NamespacedLabels(kind: Kind, ns: string, name: string)
    ensures ClusterRoleBindingLabels(kind, ns, name) == ServiceAccountLabels(kind, name)[Namespace := ns]
  {
  }

  // ---- Objects ----

  datatype EnvName = EnvSelfName | EnvNamespace | EnvControllerUid | EnvDaemonJobName | EnvDaemonCronJobName
  datatype FieldPath = PodNamespace | PodLabel(key: LabelKey)
  datatype EnvVar = EnvVar(name: EnvName, path: FieldPath)

  /** A DaemonJob as stored, under its namespace and name. */
  datatype DaemonJobView = DaemonJobView(template: TemplateView, nodeSelector: Labels, broadcast: string)

  /** A DaemonCronJob as stored: metadata of the CronJob template, then its Job template. */
  datatype DaemonCronJobView = DaemonCronJobView(
    labels: Option<Labels>,
    annotations: Option<Labels>,
    template: TemplateView,
    nodeSelector: Labels,
    broadcast: string,
    schedule: string)

  class DaemonJob {
    const name: string
    const ns: string
    const template: Template
    const nodeSelector: Labels
    const broadcast: string

    constructor (name: string, ns: string, template: Template, nodeSelector: Labels, broadcast: string)
      ensures this.name == name && this.ns == ns && this.template == template
      ensures this.nodeSelector == nodeSelector && this.broadcast == broadcast
    {
      this.name, this.ns, this.template, this.nodeSelector, this.broadcast := name, ns, template, nodeSelector,
        broadcast;
    }
  }

  /** `labels` and `annotations` are those of the CronJob template; `template` is its Job template. */
  class DaemonCronJob {
    const name: string
    const ns: string
    const labels: LabelMap?
    const annotations: LabelMap?
    const template: Template
    const nodeSelector: Labels
    const broadcast: string
    const schedule: string

    constructor (name: string, ns: string, labels: LabelMap?, annotations: LabelMap?, template: Template,
                 nodeSelector: Labels, broadcast: string, schedule: string)
      ensures this.name == name && this.ns == ns && this.labels == labels && this.annotations == annotations
      ensures this.template == template && this.nodeSelector == nodeSelector
      ensures this.broadcast == broadcast && this.schedule == schedule
    {
      this.name, this.ns, this.labels, this.annotations := name, ns, labels, annotations;
      this.template, this.nodeSelector, this.broadcast, this.schedule := template, nodeSelector, broadcast, schedule;
    }

    function View(): DaemonCronJobView
      reads labels, annotations, template, template.labels, template.annotations, template.podLabels,
            template.podAnnotations, template.affinity
    {
      DaemonCronJobView(MapView(labels), MapView(annotations), template.View(), nodeSelector, broadcast, schedule)
    }

    /** The DaemonJob whose worker template is the Job template, field by field on a deep copy. */
    method AsDaemonJob() returns (d: DaemonJob)
      ensures fresh(d) && fresh(d.template) && (d.template.labels != null ==> fresh(d.template.labels))
      ensures d.name == name && d.ns == ns && d.nodeSelector == nodeSelector && d.broadcast == broadcast
      ensures d.template.View() == old(template.View())
    {
      var c := template.DeepCopy();
      var t := new Template(c.labels, c.annotations, c.podLabels, c.podAnnotations, c.affinity, c.tolerations,
                            c.selector, c.rest);
      assert t.View() == c.View();
      d := new DaemonJob(name, ns, t, nodeSelector, broadcast);
    }
  }

  class BroadcastJob {
    var name: string
    const ns: string
    const labels: LabelMap
    const podLabels: LabelMap
    var serviceAccount: string
    var env: seq<EnvVar>
    const rest: string

    constructor (name: string, ns: string, labels: LabelMap, podLabels: LabelMap, serviceAccount: string,
                 env: seq<EnvVar>, rest: string)
      ensures this.name == name && this.ns == ns && this.labels == labels && this.podLabels == podLabels
      ensures this.serviceAccount == serviceAccount && this.env == env && this.rest == rest
    {
      this.name, this.ns, this.labels, this.podLabels := name, ns, labels, podLabels;
      this.serviceAccount, this.env, this.rest := serviceAccount, env, rest;
    }
  }

  /** `labels` and `jobLabels` are references, so they may be one and the same map. */
  class BroadcastCronJob {
    const name: string
    const ns: string
    const labels: LabelMap
    const jobLabels: LabelMap
    const job: BroadcastJob
    const schedule: string

    constructor (name: string, ns: string, labels: LabelMap, jobLabels: LabelMap, job: BroadcastJob, schedule: string)
      ensures this.name == name && this.ns == ns && this.labels == labels && this.jobLabels == jobLabels
      ensures this.job == job && this.schedule == schedule
    {
      this.name, this.ns, this.labels, this.jobLabels, this.job, this.schedule := name, ns, labels, jobLabels, job,
        schedule;
    }
  }

  function DaemonJobEnv(): seq<EnvVar> {
    [EnvVar(EnvSelfName, PodLabel(BatchJobName)),
     EnvVar(EnvNamespace, PodNamespace),
     EnvVar(EnvControllerUid, PodLabel(BatchControllerUid)),
     EnvVar(EnvDaemonJobName, PodLabel(DaemonJobName))]
  }

  function DaemonCronJobEnv(): seq<EnvVar> {
    DaemonJobEnv()[..3] + [EnvVar(EnvDaemonCronJobName, PodLabel(DaemonCronJobName))]
  }

  // ---- Builders ----

  /** The broadcast Job of a DaemonJob.  Job and pod template share one label map. */
  method NewDaemonJobJob(d: DaemonJob) returns (job: BroadcastJob)
    ensures fresh(job) && fresh(job.labels) && job.podLabels == job.labels
    ensures job.name == job.serviceAccount == ResourceName(DaemonJobKind, d.name) == d.name + "-dj" && job.ns == d.ns
    ensures job.labels.m == JobLabels(DaemonJobKind, d.name, OrEmpty(old(MapView(d.template.labels))))
    ensures job.env == DaemonJobEnv() && job.rest == d.broadcast
  {
    var t := d.template.DeepCopy();
    assert MapView(t.labels) == t.View().labels == d.template.View().labels;
    var labels := t.labels;
    if labels == null {
      labels := new LabelMap(map[]);
    }
    var common := new LabelMap(BroadcastLabels(d.name));
    labels.CopyFrom(common);
    var name := ResourceName(DaemonJobKind, d.name);
    job := new BroadcastJob(name, d.ns, labels, labels, name, DaemonJobEnv(), d.broadcast);
  }

  method FixCommonLabels(name: string, labels: LabelMap)
    modifies labels
    ensures labels.m == Fixed(name, old(labels.m))
  {
    labels.Delete(DaemonJobName);
    labels.Put(DaemonCronJobName, name);
    labels.Put(AppInstance, name);
  }

  /** An environment without the DaemonJob's name, in the same order. */
  function Nameless(env: seq<EnvVar>): seq<EnvVar> {
    if env == [] then []
    else Nameless(env[..|env| - 1]) + (if env[|env| - 1].name.EnvDaemonJobName? then [] else [env[|env| - 1]])
  }

  method WithoutDaemonJobName(env: seq<EnvVar>) returns (r: seq<EnvVar>)
    ensures r == Nameless(env)
  {
    r := [];
    for i := 0 to |env|
      invariant r == Nameless(env[..i])
    {
      assert env[..i + 1][..i] == env[..i];
      if env[i].name != EnvDaemonJobName {
        r := r + [env[i]];
      }
    }
    assert env[..|env|] == env;
  }

  /** Dropping the name is a filter: what else there is stays, in its order. */
  lemma {:induction false} NamelessJoins(front: seq<EnvVar>, back: seq<EnvVar>)
    ensures Nameless(front + back) == Nameless(front) + Nameless(back)
  {
    if back == [] {
      assert front + back == front;
    } else {
      var n := |back| - 1;
      NamelessJoins(front, back[..n]);
      assert (front + back)[..|front| + n] == front + back[..n];
      assert (front + back)[|front| + n] == back[n];
    }
  }

  lemma {:induction false} NamelessKeeps(env: seq<EnvVar>)
    requires forall i | 0 <= i < |env| :: env[i].name != EnvDaemonJobName
    ensures Nameless(env) == env
  {
    if env != [] {
      NamelessKeeps(env[..|env| - 1]);
      assert env == env[..|env| - 1] + [env[|env| - 1]];
    }
  }

  lemma DaemonCronJobEnvIsNameless()
    ensures Nameless(DaemonJobEnv()) + [EnvVar(EnvDaemonCronJobName, PodLabel(DaemonCronJobName))] == DaemonCronJobEnv()
  {
    var front, last := DaemonJobEnv()[..3], EnvVar(EnvDaemonJobName, PodLabel(DaemonJobName));
    assert DaemonJobEnv() == front + [last];
    NamelessJoins(front, [last]);
    NamelessKeeps(front);
    assert [last][..0] == [];
  }

  /** The broadcast Job of a DaemonCronJob: the DaemonJob's, renamed and relabelled.  The shared
      label map is fixed twice, which changes nothing the second time. */
  method NewDaemonCronJobJob(c: DaemonCronJob) returns (job: BroadcastJob)
    ensures fresh(job) && fresh(job.labels) && job.podLabels == job.labels
    ensures job.name == job.serviceAccount == ResourceName(DaemonCronJobKind, c.name) == c.name + "-dcj"
    ensures job.ns == c.ns
    ensures job.labels.m == JobLabels(DaemonCronJobKind, c.name, OrEmpty(old(MapView(c.template.labels))))
    ensures job.env == DaemonCronJobEnv() && job.rest == c.broadcast
  {
    var d := c.AsDaemonJob();
    assert MapView(d.template.labels) == d.template.View().labels == c.template.View().labels;
    job := NewDaemonJobJob(d);
    job.name := ResourceName(DaemonCronJobKind, c.name);
    ghost var before := job.labels.m;
    FixCommonLabels(c.name, job.labels);
    FixCommonLabels(c.name, job.podLabels);
    FixedTwice(c.name, before);
    job.serviceAccount := ResourceName(DaemonCronJobKind, c.name);
    var env := WithoutDaemonJobName(job.env);
    job.env := env + [EnvVar(EnvDaemonCronJobName, PodLabel(DaemonCronJobName))];
    DaemonCronJobEnvIsNameless();
  }

  /** The broadcast CronJob.  Copying into a nil map panics, which is None here; otherwise the
      labels of the CronJob, the labels of its job template and the labels of the input are one
      map, and that map is the only input that changes. */
  method NewCronJob(c: DaemonCronJob) returns (r: Option<BroadcastCronJob>)
    modifies c.labels
    ensures r.Some? <==> c.labels != null
    ensures r.Some? ==>
              && fresh(r.value) && r.value.labels == r.value.jobLabels == c.labels
              && c.labels.m == CronLabels(c.name, old(c.labels.m), OrEmpty(old(MapView(c.template.labels))))
    ensures r.Some? ==>
              && r.value.name == ResourceName(DaemonCronJobKind, c.name) && r.value.ns == c.ns
              && r.value.schedule == c.schedule && fresh(r.value.job) && fresh(r.value.job.labels)
              && r.value.job.name == r.value.job.serviceAccount == r.value.name == c.name + "-dcj"
              && r.value.job.ns == c.ns && r.value.job.env == DaemonCronJobEnv() && r.value.job.rest == c.broadcast
              && r.value.job.labels.m == JobLabels(DaemonCronJobKind, c.name, OrEmpty(old(MapView(c.template.labels))))
  {
    ghost var template := OrEmpty(MapView(c.template.labels));
    var job := NewDaemonCronJobJob(c);
    var labels := c.labels;
    if labels == null {
      return None;
    }
    ghost var before := labels.m;
    labels.CopyFrom(job.labels);
    var jobLabels := c.labels;
    var common := new LabelMap(BroadcastLabels(c.name));
    jobLabels.CopyFrom(common);
    FixCommonLabels(c.name, jobLabels);
    CommonLabelsAbsorbed(c.name, before, template);
    var cron := new BroadcastCronJob(ResourceName(DaemonCronJobKind, c.name), c.ns, labels, jobLabels, job, c.schedule);
    return Some(cron);
  }

  // ---- The broadcast pod finds its owner ----

  function Resolve(path: FieldPath, labels: Labels, ns: string): string {
    match path
    case PodNamespace => ns
    case PodLabel(key) => if key in labels then labels[key] else ""
  }

  /** An unset variable reads as the empty string. */
  function Getenv(env: seq<EnvVar>, name: EnvName, labels: Labels, ns: string): string {
    if env == [] then ""
    else if env[0].name == name then Resolve(env[0].path, labels, ns)
    else Getenv(env[1..], name, labels, ns)
  }

  /** LoadConfigFromEnv in a pod with these labels. */
  function LoadConfig(env: seq<EnvVar>, labels: Labels, ns: string): Option<Config> {
    var cfg := Config(
      Getenv(env, EnvSelfName, labels, ns),
      Getenv(env, EnvNamespace, labels, ns),
      Getenv(env, EnvDaemonJobName, labels, ns),
      Getenv(env, EnvDaemonCronJobName, labels, ns),
      Getenv(env, EnvControllerUid, labels, ns));
    if cfg.ns == "" || cfg.selfName == "" || (cfg.daemonJobName == "" && cfg.daemonCronJobName == "") then None
      else Some(cfg)
  }

  /** A broadcast pod, whatever its labels, loads nothing exactly when it has no namespace, or its labels do
      not name its Job or the object it works for. */
  lemma LoadingFails(kind: Kind, labels: Labels, ns: string)
    ensures var env := if kind.DaemonJobKind? then DaemonJobEnv() else DaemonCronJobEnv();
            var owner := if kind.DaemonJobKind? then DaemonJobName else DaemonCronJobName;
            LoadConfig(env, labels, ns).None? <==>
              || ns == ""
              || BatchJobName !in labels || labels[BatchJobName] == ""
              || owner !in labels || labels[owner] == ""
  {
    BroadcastEnv(kind, labels, ns);
  }

  /** What the environment of a broadcast pod resolves to. */
  lemma BroadcastEnv(kind: Kind, labels: Labels, ns: string)
    ensures var env := if kind.DaemonJobKind? then DaemonJobEnv() else DaemonCronJobEnv();
            && Getenv(env, EnvSelfName, labels, ns) == Resolve(PodLabel(BatchJobName), labels, ns)
            && Getenv(env, EnvNamespace, labels, ns) == ns
            && Getenv(env, EnvControllerUid, labels, ns) == Resolve(PodLabel(BatchControllerUid), labels, ns)
            && Getenv(env, EnvDaemonJobName, labels, ns) ==
                 (if kind.DaemonJobKind? then Resolve(PodLabel(DaemonJobName), labels, ns) else "")
            && Getenv(env, EnvDaemonCronJobName, labels, ns) ==
                 (if kind.DaemonJobKind? then "" else Resolve(PodLabel(DaemonCronJobName), labels, ns))
  {
    var env := if kind.DaemonJobKind? then DaemonJobEnv() else DaemonCronJobEnv();
    var last := env[3];
    assert env == [env[0]] + ([env[1]] + ([env[2]] + [last]));
    GetenvCons(env[0], [env[1]] + ([env[2]] + [last]), labels, ns);
    GetenvCons(env[1], [env[2]] + [last], labels, ns);
    GetenvCons(env[2], [last], labels, ns);
    assert [last] == [last] + [];
    GetenvCons(last, [], labels, ns);
  }

  /** Whatever the user's template says, the pod of a broadcast Job loads a configuration that names
      exactly the object the Job was generated from. */
  lemma BroadcastPodFindsOwner(kind: Kind, name: string, ns: string, template: Labels, jobName: string, uid: string)
    requires name != "" && ns != "" && jobName != ""
    ensures var env := if kind.DaemonJobKind? then DaemonJobEnv() else DaemonCronJobEnv();
            var labels := JobLabels(kind, name, template)[BatchJobName := jobName][BatchControllerUid := uid];
            LoadConfig(env, labels, ns) ==
            Some(if kind.DaemonJobKind? then Config(jobName, ns, name, "", uid) else Config(jobName, ns, "", name, uid))
  {
    BroadcastEnv(kind, JobLabels(kind, name, template)[BatchJobName := jobName][BatchControllerUid := uid], ns);
  }

  lemma GetenvCons(head: EnvVar, tail: seq<EnvVar>, labels: Labels, ns: string)
    ensures forall name :: Getenv([head] + tail, name, labels, ns) ==
                           if head.name == name then Resolve(head.path, labels, ns) else Getenv(tail, name, labels, ns)
  {
    assert ([head] + tail)[1..] == tail;
  }
}
