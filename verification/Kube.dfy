/** Labels, label selectors and the few naming constants the controllers share. */
module Kube {

  datatype Option<+T> = None | Some(value: T)

  /** One constructor for each label key the repository names; the keys are pairwise different
      strings, so they become different constructors.  Every other key is `Other`. */
  datatype LabelKey =
    | DaemonJobName
    | DaemonCronJobName
    | DaemonCronJobSetName
    | Role
    | Node
    | Namespace
    | AppName
    | AppManagedBy
    | AppInstance
    | AppComponent
    | ControllerUid
    | JobName
    | BatchControllerUid
    | BatchJobName
    | Other(text: string)

  type Labels = map<LabelKey, string>

  datatype NamespacedName = NamespacedName(ns: string, name: string)

  const ROLE_WORKER := "worker"
  const ROLE_BROADCAST := "broadcast"

  /** An equality selector: every pair it names must be among the labels. */
  predicate Matches(selector: Labels, labels: Labels) {
    forall k | k in selector :: k in labels && labels[k] == selector[k]
  }

  predicate Has(m: Labels, key: LabelKey, value: string) {
    key in m && m[key] == value
  }

  /** Names of the nodes a selector picks; an empty selector picks all. */
  function MatchingNodes(nodes: map<string, Labels>, selector: Labels): set<string> {
    set n | n in nodes && Matches(selector, nodes[n])
  }

  predicate Distinct<T(==)>(xs: seq<T>) {
    forall i, j | 0 <= i < j < |xs| :: xs[i] != xs[j]
  }

  /** A list call answers in some order, naming everything once. */
  method Enumerate<T(==)>(s: set<T>) returns (xs: seq<T>)
    ensures Distinct(xs)
    ensures forall x :: x in xs <==> x in s
  {
    xs := [];
    var todo := s;
    while todo != {}
      invariant todo <= s
      invariant Distinct(xs)
      invariant forall x :: x in xs <==> x in s && x !in todo
      decreases todo
    {
      var x :| x in todo;
      xs := xs + [x];
      todo := todo - {x};
    }
  }

  /** The two labels every generated object carries. */
  function CommonLabels(): Labels {
    map[AppName := "daemonjob", AppManagedBy := "daemonjob-controller"]
  }

  /** Text between a fixed prefix and a fixed suffix is determined by the whole. */
  lemma InfixInjective(prefix: string, a: string, b: string, suffix: string)
    requires prefix + a + suffix == prefix + b + suffix
    ensures a == b
  {
    assert (prefix + a + suffix)[|prefix|..|prefix| + |a|] == a;
    assert (prefix + b + suffix)[|prefix|..|prefix| + |b|] == b;
  }

  /** Two names joined by a dash, read at a later dash. */
  predicate SplitsLater(a: string, x: string, b: string, y: string) {
    a + "-" <= b && x == b[|a| + 1..] + "-" + y
  }

  /** When joining with a dash forgets which names were joined. */
  predicate JoinAlike(a: string, x: string, b: string, y: string) {
    (a == b && x == y) || SplitsLater(a, x, b, y) || SplitsLater(b, y, a, x)
  }

  /** Joined names are equal in exactly these cases. */
  lemma JoinedEqual(a: string, x: string, b: string, y: string)
    ensures a + "-" + x == b + "-" + y <==> JoinAlike(a, x, b, y)
  {
    if |a| <= |b| {
      JoinedEqualOrdered(a, x, b, y);
    } else {
      JoinedEqualOrdered(b, y, a, x);
    }
  }

  lemma JoinedEqualOrdered(a: string, x: string, b: string, y: string)
    requires |a| <= |b|
    ensures a + "-" + x == b + "-" + y <==> (a == b && x == y) || SplitsLater(a, x, b, y)
    ensures !SplitsLater(b, y, a, x)
  {
    var left, right := a + "-" + x, b + "-" + y;
    if left == right {
      assert left[..|a|] == a && right[..|b|] == b;
      assert left[|a| + 1..] == x && right[|b| + 1..] == y;
      if |a| < |b| {
        assert b[..|a| + 1] == right[..|a| + 1] == left[..|a| + 1] == a + "-";
        assert x == right[|a| + 1..] == b[|a| + 1..] + "-" + y;
      } else {
        assert a == b;
      }
    }
    if SplitsLater(a, x, b, y) {
      assert b == a + "-" + b[|a| + 1..];
      assert left == right;
    }
  }

  /** A common ending does not matter. */
  lemma SameEnding(a: string, b: string, suffix: string)
    ensures a + suffix == b + suffix <==> a == b
  {
    if a + suffix == b + suffix {
      assert (a + suffix)[..|a|] == a && (b + suffix)[..|b|] == b;
    }
  }
}
