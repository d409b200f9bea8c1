/** What node selector terms and tolerations mean to the scheduler. */
module Scheduling {
  import opened Kube

  datatype Operator = In | NotIn | Exists | DoesNotExist | Gt | Lt

  datatype LabelRequirement = LabelRequirement(key: LabelKey, op: Operator, values: seq<string>)
  datatype FieldRequirement = FieldRequirement(key: string, op: Operator, values: seq<string>)

  /** The requirements of a term are ANDed, the terms of a selector are ORed. */
  datatype Term = Term(expressions: seq<LabelRequirement>, fields: seq<FieldRequirement>)

  datatype NodeInfo = NodeInfo(name: string, labels: Labels)

  const OBJECT_NAME_FIELD := "metadata.name"

  /** Gt and Lt compare integers; `number` is the parser they use. */
  predicate LabelHolds(r: LabelRequirement, n: NodeInfo, number: string -> Option<int>) {
    match r.op
    case In => r.key in n.labels && n.labels[r.key] in r.values
    case NotIn => r.key !in n.labels || n.labels[r.key] !in r.values
    case Exists => r.key in n.labels
    case DoesNotExist => r.key !in n.labels
    case Gt => Compared(r, n, number) && number(n.labels[r.key]).value > number(r.values[0]).value
    case Lt => Compared(r, n, number) && number(n.labels[r.key]).value < number(r.values[0]).value
  }

  predicate Compared(r: LabelRequirement, n: NodeInfo, number: string -> Option<int>) {
    r.key in n.labels && |r.values| == 1 && number(n.labels[r.key]).Some? && number(r.values[0]).Some?
  }

  /** Fields take In and NotIn with a single value; the only field a node has is its name. */
  predicate FieldHolds(r: FieldRequirement, n: NodeInfo) {
    && |r.values| == 1
    && var value := if r.key == OBJECT_NAME_FIELD then n.name else "";
       match r.op
       case In => value == r.values[0]
       case NotIn => value != r.values[0]
       case _ => false
  }

  /** A term without requirements matches nothing. */
  predicate TermAdmits(t: Term, n: NodeInfo, number: string -> Option<int>) {
    && (t.expressions != [] || t.fields != [])
    && (forall i | 0 <= i < |t.expressions| :: LabelHolds(t.expressions[i], n, number))
    && (forall i | 0 <= i < |t.fields| :: FieldHolds(t.fields[i], n))
  }

  predicate Admits(terms: seq<Term>, n: NodeInfo, number: string -> Option<int>) {
    exists i | 0 <= i < |terms| :: TermAdmits(terms[i], n, number)
  }

  function NameIs(node: string): Term {
    Term([], [FieldRequirement(OBJECT_NAME_FIELD, In, [node])])
  }

  /** Adding the target's term widens the selector by exactly the target. */
  lemma AppendedTargetAdmits(terms: seq<Term>, target: string, n: NodeInfo, number: string -> Option<int>)
    ensures Admits(terms + [NameIs(target)], n, number) <==> Admits(terms, n, number) || n.name == target
  {
    var all := terms + [NameIs(target)];
    assert all[|terms|] == NameIs(target);
    assert TermAdmits(NameIs(target), n, number) <==> n.name == target by {
      assert NameIs(target).fields[0].key == OBJECT_NAME_FIELD;
      assert FieldHolds(NameIs(target).fields[0], n) <==> n.name == target;
    }
    if Admits(terms, n, number) {
      var i :| 0 <= i < |terms| && TermAdmits(terms[i], n, number);
      assert all[i] == terms[i];
    }
  }

  /** Well-known taint keys are pairwise different strings; every other key is `OtherTaint`. */
  datatype TaintKey = NotReady | Unreachable | DiskPressure | MemoryPressure | PidPressure | Unschedulable |
    OtherTaint(text: string)

  datatype Effect = NoSchedule | PreferNoSchedule | NoExecute
  datatype Taint = Taint(key: TaintKey, value: string, effect: Effect)
  datatype TolerationOperator = Equal | AnyValue

  /** A missing effect tolerates every effect, a missing key every key. */
  datatype Toleration = Toleration(key: Option<TaintKey>, op: TolerationOperator, value: string, effect: Option<Effect>)

  predicate Tolerates(t: Toleration, taint: Taint) {
    && (t.effect.None? || t.effect.value == taint.effect)
    && (t.key.None? || t.key.value == taint.key)
    && (t.op.AnyValue? || t.value == taint.value)
  }

  predicate AllTolerate(ts: seq<Toleration>, taint: Taint) {
    exists i | 0 <= i < |ts| :: Tolerates(ts[i], taint)
  }

  function Tolerating(key: TaintKey, effect: Effect): Toleration {
    Toleration(Some(key), AnyValue, "", Some(effect))
  }

  /** Tolerations a DaemonSet would add to its pods. */
  const DEFAULT_TOLERATIONS: seq<Toleration> := [
    Tolerating(NotReady, NoExecute),
    Tolerating(Unreachable, NoExecute),
    Tolerating(DiskPressure, NoSchedule),
    Tolerating(MemoryPressure, NoSchedule),
    Tolerating(PidPressure, NoSchedule),
    Tolerating(Unschedulable, NoSchedule)
  ]

  /** The order in which tolerations are joined does not change what is tolerated. */
  lemma JoinedTolerate(a: seq<Toleration>, b: seq<Toleration>, taint: Taint)
    ensures AllTolerate(a + b, taint) <==> AllTolerate(a, taint) || AllTolerate(b, taint)
  {
    var all := a + b;
    if AllTolerate(a, taint) {
      var i :| 0 <= i < |a| && Tolerates(a[i], taint);
      assert all[i] == a[i];
    }
    if AllTolerate(b, taint) {
      var i :| 0 <= i < |b| && Tolerates(b[i], taint);
      assert all[|a| + i] == b[i];
    }
  }

  /** What a pod tolerates by default: a node in trouble for good, and one that only takes no new pods. */
  lemma DefaultsTolerate(taint: Taint)
    ensures AllTolerate(DEFAULT_TOLERATIONS, taint) <==>
            || (taint.effect == NoExecute && taint.key in {NotReady, Unreachable})
            || (taint.effect == NoSchedule && taint.key in {DiskPressure, MemoryPressure, PidPressure, Unschedulable})
  {
    var ts := DEFAULT_TOLERATIONS;
    assert Tolerates(ts[0], taint) <==> taint.key == NotReady && taint.effect == NoExecute;
    assert Tolerates(ts[1], taint) <==> taint.key == Unreachable && taint.effect == NoExecute;
    assert Tolerates(ts[2], taint) <==> taint.key == DiskPressure && taint.effect == NoSchedule;
    assert Tolerates(ts[3], taint) <==> taint.key == MemoryPressure && taint.effect == NoSchedule;
    assert Tolerates(ts[4], taint) <==> taint.key == PidPressure && taint.effect == NoSchedule;
    assert Tolerates(ts[5], taint) <==> taint.key == Unschedulable && taint.effect == NoSchedule;
  }
}
