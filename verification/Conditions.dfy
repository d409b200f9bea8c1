/** Status conditions (internal/controller/status.go): upserting them, folding them into one
    state, and reading the outcome of a Job. */
module Conditions {
  import opened Kube

  datatype Truth = True | False | Unknown

  datatype Condition = Condition(kind: string, status: Truth, reason: string, message: string)

  function ConditionStatus(v: bool): Truth {
    if v then True else False
  }

  /** meta.SetStatusCondition without time stamps: replace the first condition of that kind, else append. */
  function Upsert(cs: seq<Condition>, c: Condition): seq<Condition> {
    if cs == [] then [c]
    else if cs[0].kind == c.kind then [c] + cs[1..]
    else [cs[0]] + Upsert(cs[1..], c)
  }

  function UpsertAll(cs: seq<Condition>, news: seq<Condition>): seq<Condition>
    decreases |news|
  {
    if news == [] then cs else Upsert(UpsertAll(cs, news[..|news| - 1]), news[|news| - 1])
  }

  predicate UniqueKinds(cs: seq<Condition>) {
    forall i, j | 0 <= i < j < |cs| :: cs[i].kind != cs[j].kind
  }

  predicate IsTrue(cs: seq<Condition>, kind: string) {
    exists i | 0 <= i < |cs| :: cs[i].kind == kind && cs[i].status.True?
  }

  /** Kinds stay unique, and exactly the truth of c's kind is replaced. */
  lemma {:induction false} UpsertEffect(cs: seq<Condition>, c: Condition)
    requires UniqueKinds(cs)
    ensures UniqueKinds(Upsert(cs, c))
    ensures forall k :: IsTrue(Upsert(cs, c), k) <==> if k == c.kind then c.status.True? else IsTrue(cs, k)
  {
    UpsertKinds(cs, c);
    if cs == [] {
      assert Upsert(cs, c)[0] == c;
    } else if cs[0].kind == c.kind {
      var r := Upsert(cs, c);
      assert r[0] == c && forall i | 1 <= i < |cs| :: r[i] == cs[i];
      assert forall k | k != c.kind && IsTrue(cs, k) :: IsTrue(r, k);
    } else {
      var r := Upsert(cs[1..], c);
      UpsertEffect(cs[1..], c);
      UpsertKinds(cs[1..], c);
      forall d | d in r ensures d.kind != cs[0].kind {}
      forall i, j | 0 <= i < j < |[cs[0]] + r| ensures ([cs[0]] + r)[i].kind != ([cs[0]] + r)[j].kind {
        assert ([cs[0]] + r)[j] == r[j - 1] && r[j - 1] in r;
      }
      IsTrueCons(cs[0], cs[1..]);
      IsTrueCons(cs[0], r);
      assert cs == [cs[0]] + cs[1..];
    }
  }

  /** The first condition of c's kind becomes c, or c is added at the end; all others stay in place. */
  lemma {:induction false} UpsertPlaces(cs: seq<Condition>, c: Condition) returns (i: nat)
    ensures i <= |cs| && forall j | 0 <= j < i :: cs[j].kind != c.kind
    ensures i == |cs| ==> Upsert(cs, c) == cs + [c]
    ensures i < |cs| ==> cs[i].kind == c.kind && Upsert(cs, c) == cs[i := c]
  {
    i := 0;
    if cs != [] && cs[0].kind != c.kind {
      var k := UpsertPlaces(cs[1..], c);
      i := k + 1;
      assert cs == [cs[0]] + cs[1..];
    }
  }

  /** The list has the condition, and no other one of its kind. */
  predicate HasOnly(cs: seq<Condition>, c: Condition) {
    c in cs && forall d | d in cs && d.kind == c.kind :: d == c
  }

  /** What was set is there, with its reason and message, and what there is of other kinds stays. */
  lemma UpsertHolds(cs: seq<Condition>, c: Condition)
    requires UniqueKinds(cs)
    ensures HasOnly(Upsert(cs, c), c)
    ensures forall d: Condition | d.kind != c.kind :: d in Upsert(cs, c) <==> d in cs
  {
    var r := Upsert(cs, c);
    var i := UpsertPlaces(cs, c);
    assert r[i] == c;
    forall d: Condition | d.kind != c.kind && d in cs ensures d in r {
      var j :| 0 <= j < |cs| && cs[j] == d;
      assert r[j] == d;
    }
  }

  lemma IsTrueCons(head: Condition, tail: seq<Condition>)
    ensures forall k :: IsTrue([head] + tail, k) <==> (head.kind == k && head.status.True?) || IsTrue(tail, k)
  {
    var whole := [head] + tail;
    assert whole[0] == head;
    forall k | IsTrue(tail, k) ensures IsTrue(whole, k) {
      var i :| 0 <= i < |tail| && tail[i].kind == k && tail[i].status.True?;
      assert whole[i + 1] == tail[i];
    }
  }

  lemma {:induction false} UpsertKinds(cs: seq<Condition>, c: Condition)
    ensures forall d | d in Upsert(cs, c) :: d == c || d in cs
  {
    if cs != [] {
      UpsertKinds(cs[1..], c);
    }
  }

  /** The first true condition that is a verdict. */
  function FirstVerdict(cs: seq<Condition>, available: string, degraded: string): Option<string> {
    if cs == [] then None
    else if cs[0].status.True? && (cs[0].kind == available || cs[0].kind == degraded) then Some(cs[0].kind)
    else FirstVerdict(cs[1..], available, degraded)
  }

  function StateOf(cs: seq<Condition>, available: string, progressing: string, degraded: string): Option<string> {
    var verdict := FirstVerdict(cs, available, degraded);
    if verdict.Some? then verdict else if IsTrue(cs, progressing) then Some(progressing) else None
  }

  lemma {:induction false} FirstVerdictMeaning(cs: seq<Condition>, available: string, degraded: string)
    ensures var v := FirstVerdict(cs, available, degraded);
            && (v.None? <==> !IsTrue(cs, available) && !IsTrue(cs, degraded))
            && (v.Some? ==> v.value in {available, degraded} && IsTrue(cs, v.value))
  {
    if cs != [] {
      FirstVerdictMeaning(cs[1..], available, degraded);
      IsTrueCons(cs[0], cs[1..]);
      assert cs == [cs[0]] + cs[1..];
    }
  }

  /** When both verdicts are true, the first in the list wins. */
  lemma {:induction false} FirstVerdictIsFirst(cs: seq<Condition>, available: string, degraded: string)
    returns (i: nat)
    requires FirstVerdict(cs, available, degraded).Some?
    ensures i < |cs| && cs[i].status == True && FirstVerdict(cs, available, degraded) == Some(cs[i].kind)
    ensures forall j | 0 <= j < i :: !(cs[j].status == True && cs[j].kind in {available, degraded})
  {
    i := 0;
    if !(cs[0].status == True && cs[0].kind in {available, degraded}) {
      var k := FirstVerdictIsFirst(cs[1..], available, degraded);
      i := k + 1;
    }
  }

  /** When the two verdicts are never both true, the state is a function of what is true, so the
      order of the conditions does not matter. */
  lemma StateIgnoresOrder(cs: seq<Condition>, ds: seq<Condition>, available: string, progressing: string,
                          degraded: string)
    requires !(IsTrue(cs, available) && IsTrue(cs, degraded))
    requires multiset(cs) == multiset(ds)
    ensures StateOf(cs, available, progressing, degraded) == StateOf(ds, available, progressing, degraded)
  {
    FirstVerdictMeaning(cs, available, degraded);
    FirstVerdictMeaning(ds, available, degraded);
    SameTruths(cs, ds);
    SameTruths(ds, cs);
  }

  lemma SameTruths(cs: seq<Condition>, ds: seq<Condition>)
    requires multiset(cs) == multiset(ds)
    ensures forall k | IsTrue(cs, k) :: IsTrue(ds, k)
  {
    forall k | IsTrue(cs, k) ensures IsTrue(ds, k) {
      var i :| 0 <= i < |cs| && cs[i].kind == k && cs[i].status.True?;
      assert cs[i] in multiset(ds);
      assert cs[i] in ds;
    }
  }

  /** The writer of one object's condition list. */
  class Status {
    var conditions: seq<Condition>
    const typeAvailable: string
    const typeProgressing: string
    const typeDegraded: string
    const reasonNotFound: string

    constructor (conditions: seq<Condition>, typeAvailable: string, typeProgressing: string, typeDegraded: string,
                 reasonNotFound: string)
      ensures this.conditions == conditions
      ensures this.typeAvailable == typeAvailable && this.typeProgressing == typeProgressing
      ensures this.typeDegraded == typeDegraded && this.reasonNotFound == reasonNotFound
    {
      this.conditions := conditions;
      this.typeAvailable := typeAvailable;
      this.typeProgressing := typeProgressing;
      this.typeDegraded := typeDegraded;
      this.reasonNotFound := reasonNotFound;
    }

    method State() returns (state: string, ok: bool)
      ensures ok == StateOf(conditions, typeAvailable, typeProgressing, typeDegraded).Some?
      ensures ok ==> Some(state) == StateOf(conditions, typeAvailable, typeProgressing, typeDegraded)
    {
      var progressing := false;
      for i := 0 to |conditions|
        invariant FirstVerdict(conditions, typeAvailable, typeDegraded) ==
                  FirstVerdict(conditions[i..], typeAvailable, typeDegraded)
        invariant progressing <==>
                  exists j | 0 <= j < i :: conditions[j].kind == typeProgressing && conditions[j].status.True?
      {
        var c := conditions[i];
        if c.status != True {
          continue;
        }
        if c.kind == typeAvailable || c.kind == typeDegraded {
          return c.kind, true;
        }
        if c.kind == typeProgressing {
          progressing := true;
        }
      }
      if progressing {
        return typeProgressing, true;
      }
      return "", false;
    }

    method Set(news: seq<Condition>)
      modifies this
      ensures conditions == UpsertAll(old(conditions), news)
    {
      for i := 0 to |news|
        invariant conditions == UpsertAll(old(conditions), news[..i])
      {
        assert news[..i + 1][..i] == news[..i];
        conditions := Upsert(conditions, news[i]);
      }
      assert news[..|news|] == news;
    }

    method SetProgressing(reason: string, message: string)
      modifies this
      ensures conditions == Upsert(old(conditions), Condition(typeProgressing, True, reason, message))
    {
      var c := Condition(typeProgressing, ConditionStatus(true), reason, message);
      Set([c]);
      assert [c][..0] == [];
    }

    method SetPair(ok: bool, reason: string, message: string)
      modifies this
      ensures conditions == PairWritten(old(conditions), typeAvailable, typeDegraded, ok, reason, message)
    {
      var x := Condition(typeAvailable, ConditionStatus(ok), reason, "");
      var y := Condition(typeDegraded, ConditionStatus(!ok), reason, "");
      if ok {
        x := x.(message := message);
      } else {
        y := y.(message := message);
      }
      ghost var before := conditions;
      Set([x, y]);
      assert [x, y][..1] == [x] && [x][..0] == [];
      assert UpsertAll(before, [x]) == Upsert(UpsertAll(before, []), x);
    }

    method SetNotFound(name: string)
      modifies this
      ensures conditions == PairWritten(old(conditions), typeAvailable, typeDegraded, false, reasonNotFound,
                                        name + " is not found")
    {
      SetPair(false, reasonNotFound, name + " is not found");
    }
  }

  /** Available says ok, Degraded says not ok, and the message goes to the one that is true. */
  function PairWritten(cs: seq<Condition>, available: string, degraded: string, ok: bool, reason: string,
                       message: string): seq<Condition> {
    Upsert(Upsert(cs, Condition(available, if ok then True else False, reason, if ok then message else "")),
           Condition(degraded, if ok then False else True, reason, if ok then "" else message))
  }

  /** After a pair exactly one of the two is true, and nothing else changes its truth. */
  lemma PairEffect(cs: seq<Condition>, available: string, degraded: string, ok: bool, reason: string, message: string)
    requires UniqueKinds(cs) && available != degraded
    ensures var r := PairWritten(cs, available, degraded, ok, reason, message);
            && UniqueKinds(r)
            && IsTrue(r, available) == ok
            && IsTrue(r, degraded) == !ok
            && forall k | k != available && k != degraded :: IsTrue(r, k) == IsTrue(cs, k)
  {
    var x := Condition(available, if ok then True else False, reason, if ok then message else "");
    UpsertEffect(cs, x);
    UpsertEffect(Upsert(cs, x), Condition(degraded, if ok then False else True, reason, if ok then "" else message));
  }

  /** The verdict that is true carries the reason and the message, the other the reason alone. */
  lemma PairSays(cs: seq<Condition>, available: string, degraded: string, ok: bool, reason: string, message: string)
    requires UniqueKinds(cs) && available != degraded
    ensures var r := PairWritten(cs, available, degraded, ok, reason, message);
            && (ok ==> HasOnly(r, Condition(available, True, reason, message))
                       && HasOnly(r, Condition(degraded, False, reason, "")))
            && (!ok ==> HasOnly(r, Condition(available, False, reason, ""))
                        && HasOnly(r, Condition(degraded, True, reason, message)))
            && forall d: Condition | d.kind != available && d.kind != degraded :: d in r <==> d in cs
  {
    var x := Condition(available, if ok then True else False, reason, if ok then message else "");
    UpsertEffect(cs, x);
    UpsertHolds(cs, x);
    UpsertHolds(Upsert(cs, x), Condition(degraded, if ok then False else True, reason, if ok then "" else message));
  }

  lemma {:induction false} UpsertTwice(cs: seq<Condition>, c: Condition)
    ensures Upsert(Upsert(cs, c), c) == Upsert(cs, c)
  {
    if cs != [] && cs[0].kind != c.kind {
      UpsertTwice(cs[1..], c);
      assert Upsert(cs, c)[1..] == Upsert(cs[1..], c);
    }
  }

  /** A condition that is there already still is after one of another kind. */
  lemma {:induction false} UpsertOther(cs: seq<Condition>, c: Condition, d: Condition)
    requires c.kind != d.kind && Upsert(cs, c) == cs
    ensures Upsert(Upsert(cs, d), c) == Upsert(cs, d)
  {
    var r := Upsert(cs, d);
    if cs[0].kind == c.kind {
      assert r == [cs[0]] + Upsert(cs[1..], d) && cs[0] == c;
    } else {
      assert Upsert(cs[1..], c) == cs[1..];
      if cs[0].kind == d.kind {
        assert r[1..] == cs[1..];
      } else {
        UpsertOther(cs[1..], c, d);
        assert r[1..] == Upsert(cs[1..], d);
      }
    }
  }

  /** Writing the same pair once more changes nothing. */
  lemma PairTwice(cs: seq<Condition>, available: string, degraded: string, ok: bool, reason: string, message: string)
    requires available != degraded
    ensures var r := PairWritten(cs, available, degraded, ok, reason, message);
            PairWritten(r, available, degraded, ok, reason, message) == r
  {
    var x := Condition(available, if ok then True else False, reason, if ok then message else "");
    var y := Condition(degraded, if ok then False else True, reason, if ok then "" else message);
    UpsertTwice(cs, x);
    UpsertOther(Upsert(cs, x), x, y);
    UpsertTwice(Upsert(cs, x), y);
  }

  // ---- Job outcome ----

  datatype JobConditionKind = JobComplete | JobFailed | JobOther(text: string)
  datatype JobCondition = JobCondition(kind: JobConditionKind, status: Truth, reason: string, message: string)
  datatype JobStatusType = Progressing | Complete | Failed
  datatype JobStatus = JobStatus(kind: JobStatusType, reason: string, message: string)

  predicate Decisive(c: JobCondition) {
    c.status.True? && !c.kind.JobOther?
  }

  function Decision(c: JobCondition): JobStatus
    requires Decisive(c)
  {
    JobStatus(if c.kind.JobComplete? then Complete else Failed, c.reason, c.message)
  }

  function JobStatusOf(cs: seq<JobCondition>): JobStatus {
    if cs == [] then JobStatus(Progressing, "", "")
    else if Decisive(cs[0]) then Decision(cs[0])
    else JobStatusOf(cs[1..])
  }

  /** The first true condition that says Complete or Failed decides, with its reason and message. */
  ghost predicate Decides(cs: seq<JobCondition>, kind: JobConditionKind, reason: string, message: string) {
    exists i | 0 <= i < |cs| ::
      && cs[i] == JobCondition(kind, True, reason, message)
      && forall j | 0 <= j < i :: !(cs[j].status == True && cs[j].kind in {JobComplete, JobFailed})
  }

  lemma {:induction false} JobStatusMeaning(cs: seq<JobCondition>)
    ensures var s := JobStatusOf(cs);
            && (s.kind == Complete <==> exists r, m :: Decides(cs, JobComplete, r, m))
            && (s.kind == Failed <==> exists r, m :: Decides(cs, JobFailed, r, m))
            && (s.kind == Progressing <==>
                forall i | 0 <= i < |cs| :: cs[i].status == True ==> cs[i].kind !in {JobComplete, JobFailed})
            && (s.kind == Complete ==> Decides(cs, JobComplete, s.reason, s.message))
            && (s.kind == Failed ==> Decides(cs, JobFailed, s.reason, s.message))
            && (s.kind == Progressing ==> s.reason == s.message == "")
  {
    if cs != [] {
      if cs[0].status == True && cs[0].kind in {JobComplete, JobFailed} {
        assert Decides(cs, cs[0].kind, cs[0].reason, cs[0].message);
      } else {
        JobStatusMeaning(cs[1..]);
        forall kind, r, m | kind in {JobComplete, JobFailed}
          ensures Decides(cs, kind, r, m) <==> Decides(cs[1..], kind, r, m)
        {
          DecidesLater(cs, kind, r, m);
        }
      }
    }
  }

  lemma DecidesLater(cs: seq<JobCondition>, kind: JobConditionKind, r: string, m: string)
    requires cs != [] && !(cs[0].status == True && cs[0].kind in {JobComplete, JobFailed})
    requires kind in {JobComplete, JobFailed}
    ensures Decides(cs, kind, r, m) <==> Decides(cs[1..], kind, r, m)
  {
    var tail := cs[1..];
    if Decides(cs, kind, r, m) {
      var i :| 0 <= i < |cs| && cs[i] == JobCondition(kind, True, r, m)
        && forall j | 0 <= j < i :: !(cs[j].status == True && cs[j].kind in {JobComplete, JobFailed});
      assert tail[i - 1] == cs[i];
    }
    if Decides(tail, kind, r, m) {
      var i :| 0 <= i < |tail| && tail[i] == JobCondition(kind, True, r, m)
        && forall j | 0 <= j < i :: !(tail[j].status == True && tail[j].kind in {JobComplete, JobFailed});
      assert cs[i + 1] == tail[i];
      forall j | 0 <= j < i + 1 ensures !(cs[j].status == True && cs[j].kind in {JobComplete, JobFailed}) {
        assert j > 0 ==> cs[j] == tail[j - 1];
      }
    }
  }

  /** The first condition that is true and says Complete or Failed decides; without one the Job progresses. */
  method CheckJobStatus(cs: seq<JobCondition>) returns (status: JobStatus)
    ensures status == JobStatusOf(cs)
    ensures status.kind == Complete <==> exists r, m :: Decides(cs, JobComplete, r, m)
    ensures status.kind == Failed <==> exists r, m :: Decides(cs, JobFailed, r, m)
    ensures status.kind == Progressing <==>
            forall i | 0 <= i < |cs| :: cs[i].status == True ==> cs[i].kind !in {JobComplete, JobFailed}
    ensures status.kind == Complete ==> Decides(cs, JobComplete, status.reason, status.message)
    ensures status.kind == Failed ==> Decides(cs, JobFailed, status.reason, status.message)
    ensures status.kind == Progressing ==> status.reason == status.message == ""
  {
    JobStatusMeaning(cs);
    status := JobStatus(Progressing, "", "");
    for i := 0 to |cs|
      invariant status == JobStatus(Progressing, "", "")
      invariant JobStatusOf(cs) == JobStatusOf(cs[i..])
      invariant forall j | 0 <= j < i :: !Decisive(cs[j])
    {
      var c := cs[i];
      if c.status != True {
        continue;
      }
      match c.kind {
        case JobComplete => status := status.(kind := Complete);
        case JobFailed => status := status.(kind := Failed);
        case JobOther(_) => continue;
      }
      status := status.(reason := c.reason, message := c.message);
      return;
    }
  }
}
