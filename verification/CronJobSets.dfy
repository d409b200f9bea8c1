/** The CronJob a DaemonCronJobSet makes for one node (internal/controller/daemoncronjobset.go). */
module CronJobSets {
  import opened Kube
  import opened Objects
  import opened Scheduling
  import opened WorkerJobs

  /** A DaemonCronJobSet as stored. `labels` and `annotations` belong to the CronJob template,
      `template` is its Job template. */
  datatype SetView = SetView(
    name: string,
    ns: string,
    selector: Labels,
    labels: Option<Labels>,
    annotations: Option<Labels>,
    template: TemplateView,
    schedule: string)

  datatype CronJobView = CronJobView(
    name: string,
    ns: string,
    labels: Labels,
    annotations: Option<Labels>,
    jobLabels: Labels,
    jobAnnotations: Option<Labels>,
    podLabels: Labels,
    podAnnotations: Option<Labels>,
    affinity: AffinityView,
    tolerations: seq<Toleration>,
    selector: Option<Labels>,
    rest: string,
    schedule: string)

  function CronJobName(setName: string, node: string): string {
    setName + "-" + node + "-dcjs"
  }

  /** commonLabels: which set, which role, which node. */
  function SetLabels(setName: string, node: string): Labels {
    CommonLabels()[DaemonCronJobSetName := setName][Role := ROLE_WORKER][Node := node]
      [AppInstance := setName][AppComponent := ROLE_WORKER]
  }

  function CronJobFor(s: SetView, node: string): CronJobView {
    var common := SetLabels(s.name, node);
    CronJobView(
      CronJobName(s.name, node),
      s.ns,
      OrEmpty(s.labels) + common,
      s.annotations,
      OrEmpty(s.template.labels) + common,
      s.template.annotations,
      OrEmpty(s.template.podLabels) + common,
      s.template.podAnnotations,
      AffinityView(Some(NodeAffinityView(Some([NameIs(node)]), "")), ""),
      s.template.tolerations + DEFAULT_TOLERATIONS,
      s.template.selector,
      s.template.rest,
      s.schedule)
  }

  class CronJobSet {
    const name: string
    const ns: string
    const selector: Labels
    const labels: LabelMap?
    const annotations: LabelMap?
    const template: Template
    const schedule: string

    constructor (name: string, ns: string, selector: Labels, labels: LabelMap?, annotations: LabelMap?,
                 template: Template, schedule: string)
      ensures this.name == name && this.ns == ns && this.selector == selector
      ensures this.labels == labels && this.annotations == annotations && this.template == template &&
                this.schedule == schedule
    {
      this.name, this.ns, this.selector := name, ns, selector;
      this.labels, this.annotations, this.template, this.schedule := labels, annotations, template, schedule;
    }

    function View(): SetView
      reads labels, annotations, template, template.labels, template.annotations, template.podLabels,
        template.podAnnotations, template.affinity
    {
      SetView(name, ns, selector, MapView(labels), MapView(annotations), template.View(), schedule)
    }

    method NewCronJobForNode(node: string) returns (r: CronJobView)
      ensures r == CronJobFor(old(View()), node)
    {
      ghost var v := View();
      var common := new LabelMap(SetLabels(name, node));
      var cronLabels := CopyMap(labels);
      var cronLabelsM := WithCommon(cronLabels, common);
      var cronAnnotations := CopyMap(annotations);
      var t := template.DeepCopy();
      assert t.View() == v.template;
      r := CronJobView(CronJobName(name, node), ns, cronLabelsM.m, MapView(cronAnnotations), map[], None, map[], None,
                       AffinityView(None, ""), [], None, "", schedule);
      r := FillTemplate(t, common, node, r);
    }
  }

  /** Writes the common labels over a copied map, or over a new one when the copy is nil. */
  method WithCommon(p: LabelMap?, common: LabelMap) returns (r: LabelMap)
    requires p != common
    modifies p
    ensures r == p || (p == null && fresh(r))
    ensures r.m == OrEmpty(old(MapView(p))) + common.m
  {
    if p == null {
      r := new LabelMap(map[]);
    } else {
      r := p;
    }
    r.CopyFrom(common);
  }

  /** The part below spec.jobTemplate, on the copied template: its affinity is replaced outright. */
  method FillTemplate(t: Template, common: LabelMap, node: string, cron: CronJobView) returns (r: CronJobView)
    requires common !in {t.labels, t.podLabels}
    requires t.labels != null ==> t.labels !in {t.annotations, t.podLabels, t.podAnnotations}
    requires t.podLabels != null ==> t.podLabels !in {t.annotations, t.podAnnotations}
    modifies t, t.labels, t.podLabels
    ensures var v := old(t.View());
            r == cron.(
              jobLabels := OrEmpty(v.labels) + old(common.m),
              jobAnnotations := v.annotations,
              podLabels := OrEmpty(v.podLabels) + old(common.m),
              podAnnotations := v.podAnnotations,
              affinity := AffinityView(Some(NodeAffinityView(Some([NameIs(node)]), "")), ""),
              tolerations := v.tolerations + DEFAULT_TOLERATIONS,
              selector := v.selector,
              rest := v.rest)
  {
    var jobLabels := WithCommon(t.labels, common);
    t.labels := jobLabels;
    var podLabels := WithCommon(t.podLabels, common);
    t.podLabels := podLabels;
    var affinity := new Affinity(AffinityView(Some(NodeAffinityView(Some([NameIs(node)]), "")), ""));
    t.affinity := affinity;
    t.tolerations := t.tolerations + DEFAULT_TOLERATIONS;
    r := cron.(
      jobLabels := jobLabels.m,
      jobAnnotations := MapView(t.annotations),
      podLabels := podLabels.m,
      podAnnotations := MapView(t.podAnnotations),
      affinity := affinity.value,
      tolerations := t.tolerations,
      selector := t.selector,
      rest := t.rest);
  }

  // ---- Meaning ----

  /** Within one set, names tell nodes apart. */
  lemma CronJobNameInjective(setName: string, a: string, b: string)
    requires CronJobName(setName, a) == CronJobName(setName, b)
    ensures a == b
  {
    InfixInjective(setName + "-", a, b, "-dcjs");
  }

  /** Across sets they do not: two sets lay claim to one name exactly when one set's name goes on, after
      a dash, where the other's ends, and the node names make up for it. */
  lemma CronJobNamesCollide(setName: string, node: string, setName': string, node': string)
    ensures CronJobName(setName, node) == CronJobName(setName', node') <==> JoinAlike(setName, node, setName', node')
  {
    SameEnding(setName + "-" + node, setName' + "-" + node', "-dcjs");
    JoinedEqual(setName, node, setName', node');
  }

  /** The CronJob's pods may run on the target and nowhere else, whatever affinity the template has. */
  lemma CronJobPlacement(s: SetView, node: string, n: NodeInfo, number: string -> Option<int>)
    ensures Admits(RequiredTerms(Some(CronJobFor(s, node).affinity)), n, number) <==> n.name == node
  {
    AppendedTargetAdmits([], node, n, number);
    assert [] + [NameIs(node)] == [NameIs(node)];
    assert !Admits([], n, number);
  }

  /** From equal templates the two builders tolerate the same taints, though they join the default
      tolerations at opposite ends. */
  lemma SameTaintsTolerated(s: SetView, cfg: Config, node: string, node': string, taint: Taint)
    ensures AllTolerate(CronJobFor(s, node).tolerations, taint)
            <==> AllTolerate(WorkerJob(cfg, node', s.template).tolerations, taint)
  {
    JoinedTolerate(s.template.tolerations, DEFAULT_TOLERATIONS, taint);
    JoinedTolerate(DEFAULT_TOLERATIONS, s.template.tolerations, taint);
  }

  /** The pods tolerate what the template tolerates, and in addition the taints of nodes that are not ready
      or unreachable and of nodes under pressure or cordoned, each for one effect. */
  lemma CronJobTolerates(s: SetView, node: string, taint: Taint)
    ensures AllTolerate(CronJobFor(s, node).tolerations, taint) <==>
            || AllTolerate(s.template.tolerations, taint)
            || (taint.effect == NoExecute && taint.key in {NotReady, Unreachable})
            || (taint.effect == NoSchedule && taint.key in {DiskPressure, MemoryPressure, PidPressure, Unschedulable})
  {
    JoinedTolerate(s.template.tolerations, DEFAULT_TOLERATIONS, taint);
    DefaultsTolerate(taint);
  }

  /** The labels that a set writes, over labels of somebody else. */
  ghost predicate Labelled(m: Labels, base: Labels, setName: string, node: string) {
    && Has(m, DaemonCronJobSetName, setName) && Has(m, Role, "worker") && Has(m, Node, node)
    && Has(m, AppName, "daemonjob") && Has(m, AppManagedBy, "daemonjob-controller")
    && Has(m, AppInstance, setName) && Has(m, AppComponent, "worker")
    && forall k | k !in {DaemonCronJobSetName, Role, Node, AppName, AppManagedBy, AppInstance, AppComponent} ::
         (k in m <==> k in base) && (k in m ==> m[k] == base[k])
  }

  lemma SetLabelsOver(base: Labels, setName: string, node: string)
    ensures Labelled(base + SetLabels(setName, node), base, setName, node)
  {
  }

  /** Name, labels and all that is taken over, part by part; the CronJob, its Job template and its pod
      template each keep labels and annotations of their own. */
  lemma CronJobByPart(s: SetView, node: string)
    ensures var cron := CronJobFor(s, node);
            && cron.name == s.name + "-" + node + "-dcjs" && cron.ns == s.ns
            && Labelled(cron.labels, OrEmpty(s.labels), s.name, node)
            && Labelled(cron.jobLabels, OrEmpty(s.template.labels), s.name, node)
            && Labelled(cron.podLabels, OrEmpty(s.template.podLabels), s.name, node)
            && cron.annotations == s.annotations && cron.jobAnnotations == s.template.annotations
            && cron.podAnnotations == s.template.podAnnotations
            && cron.selector == s.template.selector && cron.rest == s.template.rest && cron.schedule == s.schedule
            && RequiredTerms(Some(cron.affinity)) == [Term([], [FieldRequirement("metadata.name", In, [node])])]
            && s.template.tolerations <= cron.tolerations
  {
    SetLabelsOver(OrEmpty(s.labels), s.name, node);
    SetLabelsOver(OrEmpty(s.template.labels), s.name, node);
    SetLabelsOver(OrEmpty(s.template.podLabels), s.name, node);
  }
}
