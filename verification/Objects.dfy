/** Go objects the builders work on: maps and pointers live on the heap, may be nil and may be
    shared; slices and plain fields are values.  A `View` is what an object serialises to. */
module Objects {
  import opened Kube
  import opened Scheduling

  /** A Go map from label keys to strings. */
  class LabelMap {
    var m: Labels

    constructor (m: Labels)
      ensures this.m == m
    {
      this.m := m;
    }

    method Put(k: LabelKey, v: string)
      modifies this
      ensures m == old(m)[k := v]
    {
      m := m[k := v];
    }

    method Delete(k: LabelKey)
      modifies this
      ensures m == old(m) - {k}
    {
      m := m - {k};
    }

    /** maps.Copy: the entries of src are written over this map. */
    method CopyFrom(src: LabelMap)
      modifies this
      ensures m == old(m) + old(src.m)
    {
      m := m + src.m;
    }

    method DeepCopy() returns (c: LabelMap)
      ensures fresh(c) && c.m == m
    {
      c := new LabelMap(m);
    }
  }

  function MapView(p: LabelMap?): Option<Labels>
    reads p
  {
    if p == null then None else Some(p.m)
  }

  function OrEmpty(m: Option<Labels>): Labels {
    if m.Some? then m.value else map[]
  }

  method CopyMap(p: LabelMap?) returns (c: LabelMap?)
    ensures (p == null) == (c == null)
    ensures c != null ==> fresh(c) && c.m == p.m
  {
    if p == null {
      return null;
    }
    c := p.DeepCopy();
  }

  datatype NodeAffinityView = NodeAffinityView(required: Option<seq<Term>>, rest: string)
  datatype AffinityView = AffinityView(node: Option<NodeAffinityView>, rest: string)

  /** An affinity is reached through one pointer; what it holds, nil at any level or not, is a value. */
  class Affinity {
    var value: AffinityView

    constructor (value: AffinityView)
      ensures this.value == value
    {
      this.value := value;
    }
  }

  function AffinityOf(p: Affinity?): Option<AffinityView>
    reads p
  {
    if p == null then None else Some(p.value)
  }

  /** The terms an affinity requires; none at all when any part of the path is nil. */
  function RequiredTerms(a: Option<AffinityView>): seq<Term> {
    if a.Some? && a.value.node.Some? && a.value.node.value.required.Some? then a.value.node.value.required.value else []
  }

  /** A Job template: its metadata, and its spec with the pod template inside.  `rest` stands for
      every field the builders only copy. */
  datatype TemplateView = TemplateView(
    labels: Option<Labels>,
    annotations: Option<Labels>,
    podLabels: Option<Labels>,
    podAnnotations: Option<Labels>,
    affinity: Option<AffinityView>,
    tolerations: seq<Toleration>,
    selector: Option<Labels>,
    rest: string)

  class Template {
    var labels: LabelMap?
    var annotations: LabelMap?
    var podLabels: LabelMap?
    var podAnnotations: LabelMap?
    var affinity: Affinity?
    var tolerations: seq<Toleration>
    var selector: Option<Labels>
    var rest: string

    constructor (labels: LabelMap?, annotations: LabelMap?, podLabels: LabelMap?, podAnnotations: LabelMap?,
                 affinity: Affinity?, tolerations: seq<Toleration>, selector: Option<Labels>, rest: string)
      ensures this.labels == labels && this.annotations == annotations
      ensures this.podLabels == podLabels && this.podAnnotations == podAnnotations && this.affinity == affinity
      ensures this.tolerations == tolerations && this.selector == selector && this.rest == rest
    {
      this.labels, this.annotations := labels, annotations;
      this.podLabels, this.podAnnotations, this.affinity := podLabels, podAnnotations, affinity;
      this.tolerations, this.selector, this.rest := tolerations, selector, rest;
    }

    function View(): TemplateView
      reads this, labels, annotations, podLabels, podAnnotations, affinity
    {
      TemplateView(MapView(labels), MapView(annotations), MapView(podLabels), MapView(podAnnotations),
                   AffinityOf(affinity), tolerations, selector, rest)
    }

    ghost function Maps(): set<LabelMap?>
      reads this
    {
      {labels, annotations, podLabels, podAnnotations} - {null}
    }

    /** The copy shares nothing with the original, and its maps are pairwise different objects. */
    method DeepCopy() returns (c: Template)
      ensures fresh(c) && c.View() == View()
      ensures c.labels != null ==> fresh(c.labels) && c.labels !in {c.annotations, c.podLabels, c.podAnnotations}
      ensures c.annotations != null ==> fresh(c.annotations) && c.annotations !in {c.podLabels, c.podAnnotations}
      ensures c.podLabels != null ==> fresh(c.podLabels) && c.podLabels != c.podAnnotations
      ensures c.podAnnotations != null ==> fresh(c.podAnnotations)
      ensures c.affinity != null ==> fresh(c.affinity)
    {
      var l := CopyMap(labels);
      var a := CopyMap(annotations);
      var pl := CopyMap(podLabels);
      var pa := CopyMap(podAnnotations);
      var af: Affinity? := null;
      if affinity != null {
        af := new Affinity(affinity.value);
      }
      c := new Template(l, a, pl, pa, af, tolerations, selector, rest);
    }
  }
}
