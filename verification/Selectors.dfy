/** List selectors (internal/controller/api.go) against the labels the builders write: every object
    is found by its own owner's list, and by whose else, exactly. */
module Selectors {
  import opened Kube
  import opened WorkerJobs
  import opened BroadcastJobs
  import opened CronJobSets
  import opened Objects

  function NameKey(kind: Kind): LabelKey {
    if kind.DaemonJobKind? then DaemonJobName else DaemonCronJobName
  }

  /** ServiceAccounts, broadcast Jobs and broadcast CronJobs, within one namespace. */
  function BroadcastSelector(kind: Kind, name: string): Labels {
    map[NameKey(kind) := name, Role := ROLE_BROADCAST]
  }

  /** Cluster-scoped, so the namespace is a label. */
  function ClusterRoleBindingSelector(kind: Kind, ns: string, name: string): Labels {
    map[NameKey(kind) := name, Role := ROLE_BROADCAST, Namespace := ns]
  }

  /** Worker Jobs, within one namespace. */
  function WorkerSelector(kind: Kind, name: string): Labels {
    map[NameKey(kind) := name, Role := ROLE_WORKER]
  }

  /** CronJobs of a DaemonCronJobSet, within one namespace. */
  function SetSelector(name: string): Labels {
    map[DaemonCronJobSetName := name, Role := ROLE_WORKER]
  }

  /** Worker objects on one node, in every namespace. */
  function NodeSelector(node: string): Labels {
    map[Role := ROLE_WORKER, Node := node]
  }

  lemma MatchesPut(s: Labels, k: LabelKey, v: string, m: Labels)
    requires k !in s
    ensures Matches(s[k := v], m) <==> Has(m, k, v) && Matches(s, m)
  {
    if Matches(s[k := v], m) {
      assert k in s[k := v];
      forall j | j in s ensures Has(m, j, s[j]) { assert s[k := v][j] == s[j]; }
    }
  }

  lemma MatchesTwo(k1: LabelKey, v1: string, k2: LabelKey, v2: string, m: Labels)
    requires k1 != k2
    ensures Matches(map[k1 := v1, k2 := v2], m) <==> Has(m, k1, v1) && Has(m, k2, v2)
  {
    MatchesPut(map[], k1, v1, m);
    MatchesPut(map[k1 := v1], k2, v2, m);
  }

  lemma MatchesThree(k1: LabelKey, v1: string, k2: LabelKey, v2: string, k3: LabelKey, v3: string, m: Labels)
    requires k1 != k2 && k1 != k3 && k2 != k3
    ensures Matches(map[k1 := v1, k2 := v2, k3 := v3], m) <==> Has(m, k1, v1) && Has(m, k2, v2) && Has(m, k3, v3)
  {
    MatchesTwo(k1, v1, k2, v2, m);
    MatchesPut(map[k1 := v1, k2 := v2], k3, v3, m);
  }

  /** A ServiceAccount is found by its owner and by nobody else. */
  lemma ServiceAccountIsolation(kind: Kind, name: string, kind': Kind, name': string)
    ensures Matches(BroadcastSelector(kind', name'), ServiceAccountLabels(kind, name))
            <==> kind' == kind && name' == name
  {
    MatchesTwo(NameKey(kind'), name', Role, ROLE_BROADCAST, ServiceAccountLabels(kind, name));
  }

  /** A ClusterRoleBinding is found by its owner and by nobody else, in the whole cluster. */
  lemma ClusterRoleBindingIsolation(kind: Kind, ns: string, name: string, kind': Kind, ns': string, name': string)
    ensures Matches(ClusterRoleBindingSelector(kind', ns', name'), ClusterRoleBindingLabels(kind, ns, name))
            <==> kind' == kind && ns' == ns && name' == name
  {
    MatchesThree(NameKey(kind'), name', Role, ROLE_BROADCAST, Namespace, ns', ClusterRoleBindingLabels(kind, ns, name));
  }

  /** A DaemonJob's broadcast Job is found by its DaemonJob; a list for DaemonCronJobs finds it
      exactly when the user's template carries that DaemonCronJob's name label. */
  lemma BroadcastJobIsolation(name: string, template: Labels, kind': Kind, name': string)
    ensures Matches(BroadcastSelector(kind', name'), JobLabels(DaemonJobKind, name, template))
            <==> if kind'.DaemonJobKind? then name' == name else Has(template, DaemonCronJobName, name')
  {
    MatchesTwo(NameKey(kind'), name', Role, ROLE_BROADCAST, JobLabels(DaemonJobKind, name, template));
  }

  /** A broadcast CronJob is found by its DaemonCronJob and by no other owner, because the DaemonJob
      name is removed even when the user's template sets it; and no set takes it for a child. */
  lemma BroadcastCronJobIsolation(name: string, cronTemplate: Labels, template: Labels, kind': Kind, name': string)
    ensures Matches(BroadcastSelector(kind', name'), CronLabels(name, cronTemplate, template))
            <==> kind'.DaemonCronJobKind? && name' == name
    ensures !Matches(SetSelector(name'), CronLabels(name, cronTemplate, template))
  {
    MatchesTwo(NameKey(kind'), name', Role, ROLE_BROADCAST, CronLabels(name, cronTemplate, template));
    MatchesTwo(DaemonCronJobSetName, name', Role, ROLE_WORKER, CronLabels(name, cronTemplate, template));
  }

  /** Whose worker a configuration makes. */
  function WorkerKind(cfg: Config): Kind {
    if cfg.daemonJobName != "" then DaemonJobKind else DaemonCronJobKind
  }

  /** A worker Job is found by its owner and, when the user's template carries the other kind's name
      label, by the owner of that kind it names; it is always found by its node, never as a broadcast. */
  lemma WorkerIsolation(cfg: Config, node: string, template: Labels, kind': Kind, name': string, node': string)
    ensures Matches(WorkerSelector(kind', name'), WorkerLabels(cfg, node, template))
            <==> if kind' == WorkerKind(cfg) then name' == OwnerName(cfg) else Has(template, NameKey(kind'), name')
    ensures Matches(NodeSelector(node'), WorkerLabels(cfg, node, template)) <==> node' == node
    ensures !Matches(BroadcastSelector(kind', name'), WorkerLabels(cfg, node, template))
  {
    var m := WorkerLabels(cfg, node, template);
    MatchesTwo(NameKey(kind'), name', Role, ROLE_WORKER, m);
    MatchesTwo(Role, ROLE_WORKER, Node, node', m);
    MatchesTwo(NameKey(kind'), name', Role, ROLE_BROADCAST, m);
    assert Has(m, Role, ROLE_WORKER);
    assert ROLE_WORKER != ROLE_BROADCAST;
  }

  lemma SetLabelsWin(base: Labels, name: string, node: string)
    ensures var m := base + SetLabels(name, node);
            && Has(m, DaemonCronJobSetName, name) && Has(m, Role, ROLE_WORKER) && Has(m, Node, node)
  {
  }

  /** A CronJob of a set is found by that set and its node, and by no other set or node, and it is
      never taken for a broadcast CronJob. */
  lemma SetChildIsolation(s: SetView, node: string, name': string, node': string, kind': Kind)
    ensures Matches(SetSelector(name'), CronJobFor(s, node).labels) <==> name' == s.name
    ensures Matches(NodeSelector(node'), CronJobFor(s, node).labels) <==> node' == node
    ensures !Matches(BroadcastSelector(kind', name'), CronJobFor(s, node).labels)
  {
    var m := CronJobFor(s, node).labels;
    SetLabelsWin(OrEmpty(s.labels), s.name, node);
    MatchesTwo(DaemonCronJobSetName, name', Role, ROLE_WORKER, m);
    MatchesTwo(Role, ROLE_WORKER, Node, node', m);
    MatchesTwo(NameKey(kind'), name', Role, ROLE_BROADCAST, m);
    assert ROLE_WORKER != ROLE_BROADCAST;
  }

  /** From template to status: whatever the template of an object says, its broadcast pod, in the namespace
      of the object and with the labels Kubernetes gives the pod of a Job, builds workers that lie in that
      namespace, belong to the pod's Job and are found by the object's own worker list there. */
  lemma BroadcastReachesItsWorkers(kind: Kind, name: string, ns: string, t: TemplateView, jobName: string,
                                   uid: string, node: string)
    requires name != "" && ns != "" && jobName != ""
    ensures var env := if kind.DaemonJobKind? then DaemonJobEnv() else DaemonCronJobEnv();
            var pod := JobLabels(kind, name, OrEmpty(t.labels))[BatchJobName := jobName][BatchControllerUid := uid];
            var cfg := LoadConfig(env, pod, ns);
            && cfg.Some?
            && var worker := WorkerJob(cfg.value, node, t);
               && worker.ns == ns && worker.name == pod[BatchJobName] + "-" + node
               && worker.owner == OwnerReference("Job", pod[BatchJobName], pod[BatchControllerUid], true)
               && Matches(WorkerSelector(kind, name), worker.labels) && Has(worker.labels, Node, node)
  {
    BroadcastPodFindsOwner(kind, name, ns, OrEmpty(t.labels), jobName, uid);
    var cfg := if kind.DaemonJobKind? then Config(jobName, ns, name, "", uid) else Config(jobName, ns, "", name, uid);
    WorkerIsolation(cfg, node, OrEmpty(t.labels), kind, name, node);
    WorkerLabelsByKey(cfg, node, t);
  }
}
