/** updateStatus of the DaemonJob reconciler (internal/controller/daemonjob_controller.go) and what
    its verdict means over a whole run of reconciles. */
module DaemonJobStatus {
  import opened Kube
  import opened Conditions

  const COMPLETE := "Complete"
  const PROGRESSING := "Progressing"
  const DEGRADED := "Degraded"
  const UNKNOWN := "Unknown"
  const REASON_RECONCILING := "Reconciling"

  /** The answer of an existence check. */
  datatype Presence = Present | Absent | ReadFailed

  datatype Worker = Worker(name: string, conditions: seq<JobCondition>)

  /** A pod of the broadcast Job with what its containers said at their end, empty if nothing. */
  datatype Pod = Pod(name: string, log: string)

  /** Everything one call reads from the API server, and whether its final write succeeds.  The
      broadcast Job is read twice: once for existence, once for its conditions. */
  datatype Observation = Observation(
    serviceAccount: Presence,
    clusterRoleBinding: Presence,
    job: Presence,
    broadcast: Option<seq<JobCondition>>,
    pods: Option<seq<Pod>>,
    workers: Option<seq<Worker>>,
    written: bool)

  datatype Stored = Stored(conditions: seq<Condition>, state: string)

  // ---- Specification ----

  function Pair(cs: seq<Condition>, ok: bool, reason: string, message: string): seq<Condition> {
    PairWritten(cs, COMPLETE, DEGRADED, ok, reason, message)
  }

  function NotFound(cs: seq<Condition>, p: Presence, name: string): seq<Condition> {
    if p.Absent? then Pair(cs, false, REASON_RECONCILING, name + " is not found") else cs
  }

  predicate SomeWorker(workers: seq<Worker>, kind: JobStatusType) {
    exists i | 0 <= i < |workers| :: JobStatusOf(workers[i].conditions).kind == kind
  }

  /** A listed worker with what became of it. */
  datatype Element = Element(name: string, status: JobStatus)

  function Elements(workers: seq<Worker>): seq<Element> {
    seq(|workers|, i requires 0 <= i < |workers| => Element(workers[i].name, JobStatusOf(workers[i].conditions)))
  }

  function OfKind(elems: seq<Element>, kind: JobStatusType): seq<Element> {
    if elems == [] then []
    else
      var last := elems[|elems| - 1];
      OfKind(elems[..|elems| - 1], kind) + if last.status.kind == kind then [last] else []
  }

  function FailureLines(elems: seq<Element>): seq<string> {
    seq(|elems|, i requires 0 <= i < |elems| =>
      elems[i].name + " failed," + elems[i].status.reason + ": " + elems[i].status.message)
  }

  function NamesOf(elems: seq<Element>): seq<string> {
    seq(|elems|, i requires 0 <= i < |elems| => elems[i].name)
  }

  function PodLines(pods: seq<Pod>): seq<string> {
    if pods == [] then []
    else
      var last := pods[|pods| - 1];
      PodLines(pods[..|pods| - 1]) + if last.log != "" then [last.name + ": " + last.log] else []
  }

  /** strings.Join. */
  function Joined(ss: seq<string>, sep: string): string {
    if ss == [] then "" else if |ss| == 1 then ss[0] else Joined(ss[..|ss| - 1], sep) + sep + ss[|ss| - 1]
  }

  function FailureMessage(workers: seq<Worker>): string {
    "Some jobs failed\n" + Joined(FailureLines(OfKind(Elements(workers), Failed)), "\n")
  }

  function ProgressMessage(workers: seq<Worker>): string {
    "Some jobs are progressing: " + Joined(NamesOf(OfKind(Elements(workers), Progressing)), ", ")
  }

  /** What a failed broadcast Job says, and what its pods said if they can be listed. */
  function BroadcastFailure(job: JobStatus, pods: Option<seq<Pod>>): string {
    var lines := if pods.Some? then PodLines(pods.value) else [];
    job.reason + ": " + job.message + (if lines == [] then "" else "\n" + Joined(lines, "\n"))
  }

  function Judge(cs: seq<Condition>, workers: seq<Worker>): seq<Condition> {
    if SomeWorker(workers, Failed) then Pair(cs, false, "Failed", FailureMessage(workers))
    else if SomeWorker(workers, Progressing) then
      Upsert(cs, Condition(PROGRESSING, True, "Progressing", ProgressMessage(workers)))
    else Pair(cs, true, "OK", "All jobs are completed")
  }

  function ResourcesChecked(cs: seq<Condition>, o: Observation): seq<Condition> {
    NotFound(NotFound(cs, o.serviceAccount, "ServiceAccount"), o.clusterRoleBinding, "ClusterRoleBinding")
  }

  function BroadcastChecked(cs: seq<Condition>, o: Observation): Option<seq<Condition>> {
    if o.broadcast.None? then None
    else
      var broadcast := JobStatusOf(o.broadcast.value);
      match broadcast.kind
      case Progressing => Some(Upsert(cs, Condition(PROGRESSING, True, "Broadcasting", "Broadcast is running")))
      case Failed => Some(Pair(cs, false, "Failed", BroadcastFailure(broadcast, o.pods)))
      case Complete => if o.workers.None? then None else Some(Judge(cs, o.workers.value))
  }

  /** The conditions one call arrives at; None when a read fails before the write. */
  function Decide(cs: seq<Condition>, o: Observation): Option<seq<Condition>> {
    if o.serviceAccount.ReadFailed? || o.clusterRoleBinding.ReadFailed? || o.job.ReadFailed? then None
    else if o.job.Absent? then Some(NotFound(ResourcesChecked(cs, o), Absent, "Job"))
    else BroadcastChecked(ResourcesChecked(cs, o), o)
  }

  function StateName(cs: seq<Condition>): string {
    var s := StateOf(cs, COMPLETE, PROGRESSING, DEGRADED);
    if s.Some? then s.value else UNKNOWN
  }

  function Step(st: Stored, o: Observation): Stored {
    var next := Decide(st.conditions, o);
    if next.Some? && o.written then Stored(next.value, StateName(next.value)) else st
  }

  function After(st: Stored, run: seq<Observation>): Stored
    decreases |run|
  {
    if run == [] then st else Step(After(st, run[..|run| - 1]), run[|run| - 1])
  }

  // ---- Implementation ----

  class DaemonJob {
    var conditions: seq<Condition>
    var state: string

    constructor ()
      ensures conditions == [] && state == ""
    {
      conditions, state := [], "";
    }

    function View(): Stored
      reads this
    {
      Stored(conditions, state)
    }

    /** Computes on a copy of the stored conditions and writes only at the end. */
    method UpdateStatus(o: Observation) returns (ok: bool)
      modifies this
      ensures View() == Step(old(View()), o)
      ensures ok <==> Decide(old(conditions), o).Some? && o.written
    {
      var status := new Status(conditions, COMPLETE, PROGRESSING, DEGRADED, REASON_RECONCILING);
      if o.serviceAccount != Present {
        if o.serviceAccount == ReadFailed {
          return false;
        }
        status.SetNotFound("ServiceAccount");
      }
      if o.clusterRoleBinding != Present {
        if o.clusterRoleBinding == ReadFailed {
          return false;
        }
        status.SetNotFound("ClusterRoleBinding");
      }
      assert status.conditions == ResourcesChecked(old(conditions), o);
      if o.job != Present {
        if o.job == ReadFailed {
          return false;
        }
        status.SetNotFound("Job");
      } else {
        var err := CheckBroadcast(status, o);
        if err {
          return false;
        }
      }
      ok := Write(status, o.written);
    }

    /** The part that reads the broadcast Job and, once that is Complete, the workers. */
    method CheckBroadcast(status: Status, o: Observation) returns (err: bool)
      requires status.typeAvailable == COMPLETE && status.typeProgressing == PROGRESSING &&
                 status.typeDegraded == DEGRADED
      modifies status
      ensures err <==> BroadcastChecked(old(status.conditions), o).None?
      ensures !err ==> BroadcastChecked(old(status.conditions), o) == Some(status.conditions)
    {
      if o.broadcast.None? {
        return true;
      }
      var jobStatus := CheckJobStatus(o.broadcast.value);
      match jobStatus.kind {
        case Progressing =>
          status.SetProgressing("Broadcasting", "Broadcast is running");
        case Failed =>
          var msg := CheckPods(jobStatus, o.pods);
          status.SetPair(false, "Failed", msg);
        case Complete =>
          if o.workers.None? {
            return true;
          }
          JudgeWorkers(status, o.workers.value);
      }
      return false;
    }

    /** What the worker Jobs make of a Complete broadcast. */
    method JudgeWorkers(status: Status, workers: seq<Worker>)
      requires status.typeAvailable == COMPLETE && status.typeProgressing == PROGRESSING &&
                 status.typeDegraded == DEGRADED
      modifies status
      ensures status.conditions == Judge(old(status.conditions), workers)
    {
      var elems := CheckWorkers(workers);
      if exists i | 0 <= i < |elems| :: elems[i].status.kind == Failed {
        assert SomeWorker(workers, Failed);
        var xs := KeepKind(elems, Failed);
        var ss := FailureTexts(xs);
        status.SetPair(false, "Failed", "Some jobs failed\n" + Joined(ss, "\n"));
      } else if exists i | 0 <= i < |elems| :: elems[i].status.kind == Progressing {
        assert !SomeWorker(workers, Failed) && SomeWorker(workers, Progressing) by { NoneOfKind(workers, Failed); }
        var xs := KeepKind(elems, Progressing);
        var ss := NameTexts(xs);
        status.SetProgressing("Progressing", "Some jobs are progressing: " + Joined(ss, ", "));
      } else {
        assert !SomeWorker(workers, Failed) && !SomeWorker(workers, Progressing) by {
          NoneOfKind(workers, Failed);
          NoneOfKind(workers, Progressing);
        }
        status.SetPair(true, "OK", "All jobs are completed");
      }
    }

    method CheckWorkers(workers: seq<Worker>) returns (elems: seq<Element>)
      ensures elems == Elements(workers)
    {
      elems := [];
      for i := 0 to |workers|
        invariant |elems| == i
        invariant forall j | 0 <= j < i :: elems[j] == Elements(workers)[j]
      {
        var s := CheckJobStatus(workers[i].conditions);
        elems := elems + [Element(workers[i].name, s)];
      }
    }

    method KeepKind(elems: seq<Element>, kind: JobStatusType) returns (xs: seq<Element>)
      ensures xs == OfKind(elems, kind)
    {
      xs := [];
      for i := 0 to |elems|
        invariant xs == OfKind(elems[..i], kind)
      {
        assert elems[..i + 1][..i] == elems[..i];
        if elems[i].status.kind == kind {
          xs := xs + [elems[i]];
        }
      }
      assert elems[..|elems|] == elems;
    }

    method FailureTexts(xs: seq<Element>) returns (ss: seq<string>)
      ensures ss == FailureLines(xs)
    {
      ss := [];
      for i := 0 to |xs|
        invariant |ss| == i
        invariant forall j | 0 <= j < i :: ss[j] == FailureLines(xs)[j]
      {
        ss := ss + [xs[i].name + " failed," + xs[i].status.reason + ": " + xs[i].status.message];
      }
    }

    method NameTexts(xs: seq<Element>) returns (ss: seq<string>)
      ensures ss == NamesOf(xs)
    {
      ss := [];
      for i := 0 to |xs|
        invariant |ss| == i
        invariant forall j | 0 <= j < i :: ss[j] == NamesOf(xs)[j]
      {
        ss := ss + [xs[i].name];
      }
    }

    /** The message of a failed broadcast: pods that cannot be listed are passed over. */
    method CheckPods(job: JobStatus, pods: Option<seq<Pod>>) returns (msg: string)
      ensures msg == BroadcastFailure(job, pods)
    {
      msg := job.reason + ": " + job.message;
      if pods.None? {
        return;
      }
      var ss := [];
      for i := 0 to |pods.value|
        invariant ss == PodLines(pods.value[..i])
      {
        assert pods.value[..i + 1][..i] == pods.value[..i];
        if pods.value[i].log != "" {
          ss := ss + [pods.value[i].name + ": " + pods.value[i].log];
        }
      }
      assert pods.value[..|pods.value|] == pods.value;
      if |ss| > 0 {
        msg := msg + "\n" + Joined(ss, "\n");
      }
    }

    method Write(status: Status, accepted: bool) returns (ok: bool)
      requires status.typeAvailable == COMPLETE && status.typeProgressing == PROGRESSING &&
                 status.typeDegraded == DEGRADED
      modifies this
      ensures ok == accepted
      ensures View() == if ok then Stored(status.conditions, StateName(status.conditions)) else old(View())
    {
      if accepted {
        var s, known := status.State();
        conditions := status.conditions;
        state := if known then s else UNKNOWN;
      }
      return accepted;
    }
  }

  lemma NoneOfKind(workers: seq<Worker>, kind: JobStatusType)
    requires forall i | 0 <= i < |workers| :: Elements(workers)[i].status.kind != kind
    ensures !SomeWorker(workers, kind)
  {
    forall i | 0 <= i < |workers| ensures JobStatusOf(workers[i].conditions).kind != kind {
      assert Elements(workers)[i].status.kind != kind;
    }
  }

  // ---- Meaning ----

  /** No condition kind twice, and never both verdicts. */
  predicate Consistent(cs: seq<Condition>) {
    UniqueKinds(cs) && !(IsTrue(cs, COMPLETE) && IsTrue(cs, DEGRADED))
  }

  /** A verdict has been written: exactly one of the two is true. */
  predicate Paired(cs: seq<Condition>) {
    IsTrue(cs, COMPLETE) != IsTrue(cs, DEGRADED)
  }

  /** The broadcast Job is Complete and so is every worker listed. */
  predicate Proven(o: Observation) {
    && o.job.Present?
    && o.broadcast.Some? && JobStatusOf(o.broadcast.value).kind == Complete
    && o.workers.Some?
    && forall i | 0 <= i < |o.workers.value| :: JobStatusOf(o.workers.value[i].conditions).kind == Complete
  }

  /** The call only reports progress and leaves the verdict alone. */
  predicate OnlyProgress(o: Observation) {
    && o.serviceAccount.Present? && o.clusterRoleBinding.Present? && o.job.Present? && o.broadcast.Some?
    && var kind := JobStatusOf(o.broadcast.value).kind;
       || kind == Progressing
       || (kind == Complete && o.workers.Some? &&
           !SomeWorker(o.workers.value, Failed) && SomeWorker(o.workers.value, Progressing))
  }

  lemma NotFoundEffect(cs: seq<Condition>, p: Presence, name: string)
    requires UniqueKinds(cs)
    ensures UniqueKinds(NotFound(cs, p, name))
    ensures IsTrue(NotFound(cs, p, name), PROGRESSING) == IsTrue(cs, PROGRESSING)
    ensures p.Absent? ==> !IsTrue(NotFound(cs, p, name), COMPLETE) && IsTrue(NotFound(cs, p, name), DEGRADED)
    ensures !p.Absent? ==> NotFound(cs, p, name) == cs
  {
    PairEffect(cs, COMPLETE, DEGRADED, false, REASON_RECONCILING, name + " is not found");
  }

  /** A missing resource settles the verdict for now; when none is missing nothing changes. */
  lemma ResourcesEffect(cs: seq<Condition>, o: Observation)
    requires Consistent(cs) && Decide(cs, o).Some?
    ensures var r := ResourcesChecked(cs, o);
            && Consistent(r)
            && (if o.serviceAccount.Present? && o.clusterRoleBinding.Present? then r == cs
                else !IsTrue(r, COMPLETE) && IsTrue(r, DEGRADED))
  {
    NotFoundEffect(cs, o.serviceAccount, "ServiceAccount");
    NotFoundEffect(NotFound(cs, o.serviceAccount, "ServiceAccount"), o.clusterRoleBinding, "ClusterRoleBinding");
  }

  /** What the broadcast Job and the workers make of the conditions. */
  lemma BroadcastMeaning(cs: seq<Condition>, o: Observation)
    requires UniqueKinds(cs) && o.job.Present? && BroadcastChecked(cs, o).Some?
    ensures var r, kind := BroadcastChecked(cs, o).value, JobStatusOf(o.broadcast.value).kind;
            && UniqueKinds(r)
            && if kind == Progressing || (kind == Complete && !SomeWorker(o.workers.value, Failed)
                                          && SomeWorker(o.workers.value, Progressing))
               then IsTrue(r, PROGRESSING) && IsTrue(r, COMPLETE) == IsTrue(cs, COMPLETE)
                    && IsTrue(r, DEGRADED) == IsTrue(cs, DEGRADED)
               else IsTrue(r, COMPLETE) == Proven(o) && IsTrue(r, DEGRADED) == !Proven(o)
                    && IsTrue(r, PROGRESSING) == IsTrue(cs, PROGRESSING)
  {
    var status := JobStatusOf(o.broadcast.value);
    match status.kind {
      case Progressing => UpsertEffect(cs, Condition(PROGRESSING, True, "Broadcasting", "Broadcast is running"));
      case Failed => PairEffect(cs, COMPLETE, DEGRADED, false, "Failed", BroadcastFailure(status, o.pods));
      case Complete =>
        PairEffect(cs, COMPLETE, DEGRADED, false, "Failed", FailureMessage(o.workers.value));
        UpsertEffect(cs, Condition(PROGRESSING, True, "Progressing", ProgressMessage(o.workers.value)));
        PairEffect(cs, COMPLETE, DEGRADED, true, "OK", "All jobs are completed");
    }
  }

  /** What each condition becomes, for every observation that reaches the write. */
  lemma DecideMeaning(cs: seq<Condition>, o: Observation)
    requires Consistent(cs) && Decide(cs, o).Some?
    ensures var r := Decide(cs, o).value;
            && Consistent(r)
            && (IsTrue(r, COMPLETE) <==> Proven(o) || (OnlyProgress(o) && IsTrue(cs, COMPLETE)))
            && (IsTrue(r, DEGRADED) <==> !Proven(o) && (OnlyProgress(o) ==> IsTrue(cs, DEGRADED)))
            && (OnlyProgress(o) ==> IsTrue(r, PROGRESSING))
  {
    var c2 := ResourcesChecked(cs, o);
    ResourcesEffect(cs, o);
    if o.job.Present? {
      BroadcastMeaning(c2, o);
    } else {
      NotFoundEffect(c2, Absent, "Job");
    }
  }

  // ---- What the messages say ----

  lemma ElementsGrow(workers: seq<Worker>, w: Worker, kind: JobStatusType)
    ensures var e := Element(w.name, JobStatusOf(w.conditions));
            OfKind(Elements(workers + [w]), kind) ==
            OfKind(Elements(workers), kind) + if e.status.kind == kind then [e] else []
  {
    var elems, e := Elements(workers), Element(w.name, JobStatusOf(w.conditions));
    assert Elements(workers + [w]) == elems + [e];
    assert (elems + [e])[..|elems|] == elems;
  }

  lemma SomeWorkerGrows(workers: seq<Worker>, w: Worker, kind: JobStatusType)
    ensures SomeWorker(workers + [w], kind) <==> SomeWorker(workers, kind) || JobStatusOf(w.conditions).kind == kind
  {
    var all := workers + [w];
    assert all[|workers|] == w;
    if SomeWorker(workers, kind) {
      var i :| 0 <= i < |workers| && JobStatusOf(workers[i].conditions).kind == kind;
      assert all[i] == workers[i];
    }
  }

  lemma {:induction false} NothingOfKind(workers: seq<Worker>, kind: JobStatusType)
    ensures OfKind(Elements(workers), kind) == [] <==> !SomeWorker(workers, kind)
  {
    if workers != [] {
      var n := |workers| - 1;
      assert workers == workers[..n] + [workers[n]];
      NothingOfKind(workers[..n], kind);
      ElementsGrow(workers[..n], workers[n], kind);
      SomeWorkerGrows(workers[..n], workers[n], kind);
    }
  }

  /** A message of a head and joined lines, with one line more. */
  lemma JoinedGrows(head: string, ss: seq<string>, line: string, sep: string)
    ensures head + Joined(ss + [line], sep) == if ss == [] then head + line else head + Joined(ss, sep) + sep + line
  {
    assert (ss + [line])[..|ss|] == ss;
    if ss != [] {
      assert head + (Joined(ss, sep) + sep + line) == head + Joined(ss, sep) + sep + line;
    }
  }

  lemma LinesGrow(xs: seq<Element>, e: Element)
    ensures FailureLines(xs + [e]) ==
              FailureLines(xs) + [e.name + " failed," + e.status.reason + ": " + e.status.message]
    ensures NamesOf(xs + [e]) == NamesOf(xs) + [e.name]
  {
  }

  /** Worker by worker: each failed one adds a line of its own, in the order listed, and no other adds any. */
  lemma FailureMessageGrows(workers: seq<Worker>, w: Worker)
    ensures var job := JobStatusOf(w.conditions);
            var line := w.name + " failed," + job.reason + ": " + job.message;
            FailureMessage(workers + [w]) ==
            if job.kind != Failed then FailureMessage(workers)
            else if !SomeWorker(workers, Failed) then "Some jobs failed\n" + line
            else FailureMessage(workers) + "\n" + line
  {
    var xs, e := OfKind(Elements(workers), Failed), Element(w.name, JobStatusOf(w.conditions));
    ElementsGrow(workers, w, Failed);
    NothingOfKind(workers, Failed);
    if e.status.kind == Failed {
      LinesGrow(xs, e);
      JoinedGrows("Some jobs failed\n", FailureLines(xs),
                  w.name + " failed," + e.status.reason + ": " + e.status.message, "\n");
    } else {
      assert xs + [] == xs;
    }
  }

  /** Likewise each progressing one adds its name. */
  lemma ProgressMessageGrows(workers: seq<Worker>, w: Worker)
    ensures ProgressMessage(workers + [w]) ==
            if JobStatusOf(w.conditions).kind != Progressing then ProgressMessage(workers)
            else if !SomeWorker(workers, Progressing) then "Some jobs are progressing: " + w.name
            else ProgressMessage(workers) + ", " + w.name
  {
    var xs, e := OfKind(Elements(workers), Progressing), Element(w.name, JobStatusOf(w.conditions));
    ElementsGrow(workers, w, Progressing);
    NothingOfKind(workers, Progressing);
    if e.status.kind == Progressing {
      LinesGrow(xs, e);
      JoinedGrows("Some jobs are progressing: ", NamesOf(xs), w.name, ", ");
    } else {
      assert xs + [] == xs;
    }
  }

  /** A failed broadcast says why, and each pod that said something adds a line; so no pods, pods that cannot be
      listed and silent pods come to the same. */
  lemma BroadcastFailureGrows(job: JobStatus, pods: seq<Pod>, p: Pod)
    ensures BroadcastFailure(job, None) == BroadcastFailure(job, Some([])) == job.reason + ": " + job.message
    ensures BroadcastFailure(job, Some(pods + [p])) ==
            BroadcastFailure(job, Some(pods)) + if p.log == "" then "" else "\n" + p.name + ": " + p.log
  {
    assert (pods + [p])[..|pods|] == pods;
    var head, lines, line := job.reason + ": " + job.message, PodLines(pods), p.name + ": " + p.log;
    if p.log == "" {
      assert PodLines(pods + [p]) == lines;
    } else {
      assert PodLines(pods + [p]) == lines + [line];
      JoinedGrows(head + "\n", lines, line, "\n");
      assert "\n" + p.name + ": " + p.log == "\n" + line;
    }
  }

  /** The pair says failed, for that reason and with that message. */
  predicate SaysDegraded(cs: seq<Condition>, reason: string, message: string) {
    HasOnly(cs, Condition("Degraded", True, reason, message)) && HasOnly(cs, Condition("Complete", False, reason, ""))
  }

  lemma NotFoundSays(cs: seq<Condition>, name: string, message: string)
    requires UniqueKinds(cs) && message == name + " is not found"
    ensures UniqueKinds(NotFound(cs, Absent, name)) && SaysDegraded(NotFound(cs, Absent, name), "Reconciling", message)
  {
    PairSays(cs, COMPLETE, DEGRADED, false, REASON_RECONCILING, message);
    PairEffect(cs, COMPLETE, DEGRADED, false, REASON_RECONCILING, message);
  }

  /** Of two missing resources the later one is named. */
  lemma ResourcesSay(cs: seq<Condition>, o: Observation)
    requires UniqueKinds(cs)
    ensures var r := ResourcesChecked(cs, o);
            && UniqueKinds(r)
            && (o.clusterRoleBinding.Absent? ==>
                  SaysDegraded(r, "Reconciling", "ClusterRoleBinding is not found"))
            && (!o.clusterRoleBinding.Absent? && o.serviceAccount.Absent? ==>
                  SaysDegraded(r, "Reconciling", "ServiceAccount is not found"))
            && (!o.clusterRoleBinding.Absent? && !o.serviceAccount.Absent? ==> r == cs)
  {
    var c1 := NotFound(cs, o.serviceAccount, "ServiceAccount");
    assert "ServiceAccount" + " is not found" == "ServiceAccount is not found";
    NotFoundSays(cs, "ServiceAccount", "ServiceAccount is not found");
    assert "ClusterRoleBinding" + " is not found" == "ClusterRoleBinding is not found";
    NotFoundSays(c1, "ClusterRoleBinding", "ClusterRoleBinding is not found");
  }

  /** What the workers make it say; progress leaves the verdict alone. */
  lemma JudgeSays(cs: seq<Condition>, workers: seq<Worker>)
    requires UniqueKinds(cs)
    ensures var r := Judge(cs, workers);
            if exists i | 0 <= i < |workers| :: JobStatusOf(workers[i].conditions).kind == Failed then
              SaysDegraded(r, "Failed", FailureMessage(workers))
            else if exists i | 0 <= i < |workers| :: JobStatusOf(workers[i].conditions).kind == Progressing then
              ReportsProgress(cs, r, "Progressing", ProgressMessage(workers))
            else HasOnly(r, Condition("Complete", True, "OK", "All jobs are completed"))
                 && HasOnly(r, Condition("Degraded", False, "OK", ""))
  {
    if SomeWorker(workers, Failed) {
      PairSays(cs, COMPLETE, DEGRADED, false, "Failed", FailureMessage(workers));
    } else if SomeWorker(workers, Progressing) {
      UpsertHolds(cs, Condition(PROGRESSING, True, "Progressing", ProgressMessage(workers)));
    } else {
      PairSays(cs, COMPLETE, DEGRADED, true, "OK", "All jobs are completed");
    }
  }

  /** What the broadcast Job makes it say until it is Complete. */
  lemma BroadcastSays(cs: seq<Condition>, o: Observation)
    requires UniqueKinds(cs) && o.job.Present? && BroadcastChecked(cs, o).Some?
    ensures var r, job := BroadcastChecked(cs, o).value, JobStatusOf(o.broadcast.value);
            match job.kind
            case Failed => SaysDegraded(r, "Failed", BroadcastFailure(job, o.pods))
            case Progressing => ReportsProgress(cs, r, "Broadcasting", "Broadcast is running")
            case Complete => r == Judge(cs, o.workers.value)
  {
    var job := JobStatusOf(o.broadcast.value);
    match job.kind {
      case Failed => PairSays(cs, COMPLETE, DEGRADED, false, "Failed", BroadcastFailure(job, o.pods));
      case Progressing => UpsertHolds(cs, Condition(PROGRESSING, True, "Broadcasting", "Broadcast is running"));
      case Complete =>
    }
  }

  ghost predicate ReportsProgress(cs: seq<Condition>, r: seq<Condition>, reason: string, message: string) {
    && HasOnly(r, Condition("Progressing", True, reason, message))
    && forall d: Condition | d.kind != "Progressing" :: d in r <==> d in cs
  }

  lemma ProgressKeepsVerdict(cs: seq<Condition>, r: seq<Condition>, reason: string, message: string,
                             reason': string, message': string)
    requires ReportsProgress(cs, r, reason, message) && SaysDegraded(cs, reason', message')
    ensures SaysDegraded(r, reason', message')
  {
    assert "Progressing" != "Degraded" && "Progressing" != "Complete";
  }

  /** A missing Job is named before all. */
  lemma MissingJobSays(cs: seq<Condition>, o: Observation)
    requires UniqueKinds(cs) && Decide(cs, o).Some? && o.job.Absent?
    ensures SaysDegraded(Decide(cs, o).value, "Reconciling", "Job is not found")
  {
    ResourcesSay(cs, o);
    assert "Job" + " is not found" == "Job is not found";
    NotFoundSays(ResourcesChecked(cs, o), "Job", "Job is not found");
  }

  /** While there is only progress, a missing resource is what the verdict names. */
  lemma RunningSays(cs: seq<Condition>, o: Observation)
    requires UniqueKinds(cs) && Decide(cs, o).Some? && o.job.Present?
    requires var kind := JobStatusOf(o.broadcast.value).kind;
             kind == Progressing || (kind == Complete && !SomeWorker(o.workers.value, Failed)
                                     && SomeWorker(o.workers.value, Progressing))
    ensures var r := Decide(cs, o).value;
            && (if JobStatusOf(o.broadcast.value).kind == Progressing
                then HasOnly(r, Condition("Progressing", True, "Broadcasting", "Broadcast is running"))
                else HasOnly(r, Condition("Progressing", True, "Progressing", ProgressMessage(o.workers.value))))
            && (o.clusterRoleBinding.Absent? ==> SaysDegraded(r, "Reconciling", "ClusterRoleBinding is not found"))
            && (o.clusterRoleBinding.Present? && o.serviceAccount.Absent? ==>
                  SaysDegraded(r, "Reconciling", "ServiceAccount is not found"))
  {
    var c2, r := ResourcesChecked(cs, o), Decide(cs, o).value;
    ResourcesSay(cs, o);
    BroadcastSays(c2, o);
    if JobStatusOf(o.broadcast.value).kind == Complete {
      JudgeSays(c2, o.workers.value);
    }
    var running := JobStatusOf(o.broadcast.value).kind == Progressing;
    var reason := if running then "Broadcasting" else "Progressing";
    var message := if running then "Broadcast is running" else ProgressMessage(o.workers.value);
    if o.clusterRoleBinding.Absent? {
      ProgressKeepsVerdict(c2, r, reason, message, "Reconciling", "ClusterRoleBinding is not found");
    } else if o.serviceAccount.Absent? {
      ProgressKeepsVerdict(c2, r, reason, message, "Reconciling", "ServiceAccount is not found");
    }
  }

  /** Otherwise the Jobs decide, and what is missing is not mentioned. */
  lemma JobsSay(cs: seq<Condition>, o: Observation)
    requires UniqueKinds(cs) && Decide(cs, o).Some? && o.job.Present?
    ensures var r, job := Decide(cs, o).value, JobStatusOf(o.broadcast.value);
            && (job.kind == Failed ==> SaysDegraded(r, "Failed", BroadcastFailure(job, o.pods)))
            && (job.kind == Complete && SomeWorker(o.workers.value, Failed) ==>
                  SaysDegraded(r, "Failed", FailureMessage(o.workers.value)))
            && (Proven(o) ==> HasOnly(r, Condition("Complete", True, "OK", "All jobs are completed"))
                              && HasOnly(r, Condition("Degraded", False, "OK", "")))
  {
    ResourcesSay(cs, o);
    BroadcastSays(ResourcesChecked(cs, o), o);
    if JobStatusOf(o.broadcast.value).kind == Complete {
      JudgeSays(ResourcesChecked(cs, o), o.workers.value);
    }
  }

  /** The call fails before the write exactly when a read it needs fails; a missing resource is no failure. */
  lemma DecideFails(cs: seq<Condition>, o: Observation)
    ensures Decide(cs, o).None? <==>
              || o.serviceAccount.ReadFailed? || o.clusterRoleBinding.ReadFailed? || o.job.ReadFailed?
              || (o.job.Present? && o.broadcast.None?)
              || (o.job.Present? && JobStatusOf(o.broadcast.value).kind == Complete && o.workers.None?)
  {
  }

  lemma {:induction false} ConsistentAlongRun(st: Stored, run: seq<Observation>)
    requires Consistent(st.conditions)
    ensures Consistent(After(st, run).conditions)
  {
    if run != [] {
      var prev := After(st, run[..|run| - 1]);
      ConsistentAlongRun(st, run[..|run| - 1]);
      if Decide(prev.conditions, run[|run| - 1]).Some? {
        DecideMeaning(prev.conditions, run[|run| - 1]);
      }
    }
  }

  /** A successful update always leaves a known state, and which one is decided by what is true. */
  lemma StateNeverUnknown(st: Stored, o: Observation)
    requires Consistent(st.conditions)
    requires Decide(st.conditions, o).Some? && o.written
    ensures var r := Step(st, o);
            && r.state in {COMPLETE, DEGRADED, PROGRESSING}
            && (r.state == COMPLETE <==> IsTrue(r.conditions, COMPLETE))
            && (r.state == DEGRADED <==> IsTrue(r.conditions, DEGRADED))
            && (r.state == PROGRESSING <==> !Paired(r.conditions))
  {
    DecideMeaning(st.conditions, o);
    FirstVerdictMeaning(Step(st, o).conditions, COMPLETE, DEGRADED);
  }

  /** Of everything that is true the state names Complete or Degraded before Progressing. */
  lemma StateSays(cs: seq<Condition>)
    requires Consistent(cs)
    ensures StateName(cs) == if IsTrue(cs, "Complete") then "Complete" else if IsTrue(cs, "Degraded") then "Degraded"
                             else if IsTrue(cs, "Progressing") then "Progressing" else "Unknown"
  {
    FirstVerdictMeaning(cs, COMPLETE, DEGRADED);
  }

  /** Complete turns true only in an update that saw the broadcast Job and every listed worker Complete. */
  lemma {:induction false} CompleteHasProof(st: Stored, run: seq<Observation>)
    requires Consistent(st.conditions)
    requires !IsTrue(st.conditions, COMPLETE) && IsTrue(After(st, run).conditions, COMPLETE)
    ensures exists i | 0 <= i < |run| :: Proven(run[i]) && run[i].written
  {
    var n := |run| - 1;
    var prev := After(st, run[..n]);
    ConsistentAlongRun(st, run[..n]);
    if IsTrue(prev.conditions, COMPLETE) {
      CompleteHasProof(st, run[..n]);
      var i :| 0 <= i < n && Proven(run[..n][i]) && run[..n][i].written;
      assert run[i] == run[..n][i];
    } else {
      DecideMeaning(prev.conditions, run[n]);
      assert Proven(run[n]) && run[n].written;
    }
  }

  /** Once a verdict has been written, exactly one of the two is true forever. */
  lemma {:induction false} VerdictForever(st: Stored, run: seq<Observation>, i: nat)
    requires Consistent(st.conditions) && i <= |run|
    requires Paired(After(st, run[..i]).conditions)
    ensures Paired(After(st, run).conditions)
    decreases |run|
  {
    if i == |run| {
      assert run[..i] == run;
    } else {
      var n := |run| - 1;
      assert run[..n][..i] == run[..i];
      VerdictForever(st, run[..n], i);
      ConsistentAlongRun(st, run[..n]);
      if Decide(After(st, run[..n]).conditions, run[n]).Some? {
        DecideMeaning(After(st, run[..n]).conditions, run[n]);
      }
    }
  }

  /** The state reads Progressing only as long as no verdict has ever been written. */
  lemma ProgressingOnlyBeforeVerdict(st: Stored, run: seq<Observation>, i: nat)
    requires Consistent(st.conditions) && i <= |run|
    requires st.state == PROGRESSING ==> !Paired(st.conditions)
    requires After(st, run).state == PROGRESSING
    ensures !Paired(After(st, run[..i]).conditions)
  {
    StateFollowsVerdict(st, run);
    if Paired(After(st, run[..i]).conditions) {
      VerdictForever(st, run, i);
    }
  }

  lemma {:induction false} StateFollowsVerdict(st: Stored, run: seq<Observation>)
    requires Consistent(st.conditions)
    requires st.state == PROGRESSING ==> !Paired(st.conditions)
    ensures After(st, run).state == PROGRESSING ==> !Paired(After(st, run).conditions)
  {
    if run != [] {
      var n := |run| - 1;
      StateFollowsVerdict(st, run[..n]);
      ConsistentAlongRun(st, run[..n]);
      if Decide(After(st, run[..n]).conditions, run[n]).Some? && run[n].written {
        StateNeverUnknown(After(st, run[..n]), run[n]);
      }
    }
  }

  /** No update takes Progressing back. */
  lemma ProgressingStays(cs: seq<Condition>, o: Observation)
    requires Consistent(cs) && Decide(cs, o).Some? && IsTrue(cs, PROGRESSING)
    ensures IsTrue(Decide(cs, o).value, PROGRESSING)
  {
    var c1 := NotFound(cs, o.serviceAccount, "ServiceAccount");
    var c2 := ResourcesChecked(cs, o);
    NotFoundEffect(cs, o.serviceAccount, "ServiceAccount");
    NotFoundEffect(c1, o.clusterRoleBinding, "ClusterRoleBinding");
    NotFoundEffect(c2, Absent, "Job");
    if o.job.Present? {
      BroadcastMeaning(c2, o);
    }
  }

  /** Once true, Progressing is true after every later update. */
  lemma {:induction false} ProgressingForever(st: Stored, run: seq<Observation>)
    requires Consistent(st.conditions) && IsTrue(st.conditions, PROGRESSING)
    ensures IsTrue(After(st, run).conditions, PROGRESSING)
  {
    if run != [] {
      var n := |run| - 1;
      ProgressingForever(st, run[..n]);
      ConsistentAlongRun(st, run[..n]);
      if Decide(After(st, run[..n]).conditions, run[n]).Some? {
        ProgressingStays(After(st, run[..n]).conditions, run[n]);
      }
    }
  }
}
