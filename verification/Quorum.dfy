/** The monitor of internal/util/cond.go: a mutex, a condition variable and an ack counter,
    as interleaved steps of any number of threads. */
module Quorum {
  import opened Kube

  /** Where a thread stands.  The `Ack` states are inside AckAndWait, the `Exec` states inside
      WaitAndExecute; a parked thread is in the wait set of the condition variable, a woken one
      has been notified and must take the mutex again before it goes on. */
  datatype Pc =
    | Idle
    | AckCalled
    | AckLocked
    | AckCounted
    | AckTesting
    | AckParked
    | AckWoken
    | AckLeaving
    | ExecCalled
    | ExecTesting
    | ExecParked
    | ExecWoken
    | ExecReady
    | ExecDone
    | ExecReset
    | ExecLeaving
  {
    predicate Critical() {
      AckLocked? || AckCounted? || AckTesting? || AckLeaving? ||
      ExecTesting? || ExecReady? || ExecDone? || ExecReset? || ExecLeaving?
    }

    predicate WantsLock() {
      AckCalled? || AckWoken? || ExecCalled? || ExecWoken?
    }

    /** The thread has counted its ack in a call of AckAndWait that has not returned. */
    predicate Outstanding() {
      AckCounted? || AckTesting? || AckParked? || AckWoken? || AckLeaving?
    }
  }

  datatype Event = Acked(t: nat) | Executed(t: nat) | Returned(t: nat)

  /** `log` is the history: acks counted, executions of f and returns of AckAndWait. */
  datatype State = State(maxAck: int, ack: int, holder: Option<nat>, threads: seq<Pc>, log: seq<Event>)

  datatype Action = CallAck(t: nat) | CallExec(t: nat) | Advance(t: nat)

  predicate Enabled(s: State, a: Action) {
    && a.t < |s.threads|
    && match a
       case CallAck(t) => s.threads[t].Idle?
       case CallExec(t) => s.threads[t].Idle?
       case Advance(t) => s.threads[t].Critical() || (s.threads[t].WantsLock() && s.holder.None?)
  }

  function Wake(pc: Pc): Pc {
    if pc.AckParked? then AckWoken else if pc.ExecParked? then ExecWoken else pc
  }

  /** Broadcast: everything parked is notified. */
  function WakeAll(threads: seq<Pc>): (woken: seq<Pc>)
    ensures |woken| == |threads|
    ensures forall i | 0 <= i < |threads| :: woken[i] == Wake(threads[i])
  {
    seq(|threads|, i requires 0 <= i < |threads| => Wake(threads[i]))
  }

  function Goto(s: State, t: nat, pc: Pc): State
    requires t < |s.threads|
  {
    s.(threads := s.threads[t := pc])
  }

  function Next(s: State, a: Action): State
    requires Enabled(s, a)
  {
    match a
    case CallAck(t) => Goto(s, t, AckCalled)
    case CallExec(t) => Goto(s, t, ExecCalled)
    case Advance(t) =>
      match s.threads[t]
      // AckAndWait
      case AckCalled => Goto(s.(holder := Some(t)), t, AckLocked)
      case AckLocked => Goto(s.(ack := s.ack + 1, log := s.log + [Acked(t)]), t, AckCounted)
      case AckCounted => Goto(s.(threads := WakeAll(s.threads)), t, AckTesting)
      case AckTesting =>
        if s.ack > 0 then Goto(s.(holder := None), t, AckParked) else Goto(s, t, AckLeaving)
      case AckWoken => Goto(s.(holder := Some(t)), t, AckTesting)
      case AckLeaving => Goto(s.(holder := None, log := s.log + [Returned(t)]), t, Idle)
      // WaitAndExecute
      case ExecCalled => Goto(s.(holder := Some(t)), t, ExecTesting)
      case ExecTesting =>
        if s.ack < s.maxAck then Goto(s.(holder := None), t, ExecParked) else Goto(s, t, ExecReady)
      case ExecWoken => Goto(s.(holder := Some(t)), t, ExecTesting)
      case ExecReady => Goto(s.(log := s.log + [Executed(t)]), t, ExecDone)
      case ExecDone => Goto(s.(ack := 0), t, ExecReset)
      case ExecReset => Goto(s.(threads := WakeAll(s.threads)), t, ExecLeaving)
      case ExecLeaving => Goto(s.(holder := None), t, Idle)
      case Idle => s
      case AckParked => s
      case ExecParked => s
  }

  predicate Init(s: State) {
    && s.ack == 0
    && s.holder.None?
    && s.log == []
    && forall i | 0 <= i < |s.threads| :: s.threads[i].Idle?
  }

  predicate IsRun(s: State, run: seq<Action>)
    decreases |run|
  {
    run == [] || (Enabled(s, run[0]) && IsRun(Next(s, run[0]), run[1..]))
  }

  function Final(s: State, run: seq<Action>): State
    requires IsRun(s, run)
    decreases |run|
  {
    if run == [] then s else Final(Next(s, run[0]), run[1..])
  }

  // ---- What a history says ----

  function AcksSinceExecution(log: seq<Event>): nat {
    if log == [] then 0
    else
      var rest := AcksSinceExecution(log[..|log| - 1]);
      match log[|log| - 1]
      case Acked(_) => rest + 1
      case Executed(_) => 0
      case Returned(_) => rest
  }

  function Acks(log: seq<Event>): nat {
    if log == [] then 0
    else Acks(log[..|log| - 1]) + (if log[|log| - 1].Acked? then 1 else 0)
  }

  function Executions(log: seq<Event>): nat {
    if log == [] then 0
    else Executions(log[..|log| - 1]) + (if log[|log| - 1].Executed? then 1 else 0)
  }

  /** Thread t acked in its current call at i, did not return since, and f ran afterwards at k. */
  ghost predicate ServedAt(log: seq<Event>, t: nat, i: nat, k: nat) {
    && i < k < |log|
    && log[i] == Acked(t)
    && log[k].Executed?
    && forall m | i < m < |log| :: log[m] != Returned(t)
  }

  ghost predicate Served(log: seq<Event>, t: nat) {
    exists i: nat, k: nat :: ServedAt(log, t, i, k)
  }

  /** Thread t acked in its current call at i and f has not run since. */
  ghost predicate AwaitsAt(log: seq<Event>, t: nat, i: nat) {
    && i < |log|
    && log[i] == Acked(t)
    && forall m | i < m < |log| :: !log[m].Executed? && log[m] != Returned(t)
  }

  ghost predicate Awaits(log: seq<Event>, t: nat) {
    exists i: nat :: AwaitsAt(log, t, i)
  }

  /** The promise of the type: f runs only after a full quorum of new acks, and a caller of
      AckAndWait returns only when f has run after its own ack. */
  ghost predicate QuorumRespected(log: seq<Event>, maxAck: int) {
    forall j | 0 <= j < |log| ::
      && (log[j].Executed? ==> AcksSinceExecution(log[..j]) >= maxAck)
      && (log[j].Returned? ==> Served(log[..j], log[j].t))
  }

  // ---- Invariant ----

  ghost predicate MutexInv(s: State) {
    && (s.holder.Some? ==> s.holder.value < |s.threads|)
    && forall i: nat | i < |s.threads| :: s.threads[i].Critical() <==> s.holder == Some(i)
  }

  ghost predicate Holds(s: State, pc: Pc) {
    s.holder.Some? && s.holder.value < |s.threads| && s.threads[s.holder.value] == pc
  }

  ghost predicate CountInv(s: State) {
    && s.ack >= 0
    && (Holds(s, ExecReady) || Holds(s, ExecDone) ==> s.ack >= s.maxAck)
    && AcksSinceExecution(s.log) == (if Holds(s, ExecDone) then 0 else s.ack)
  }

  /** What the invariant asks of thread t. */
  ghost predicate Owed(s: State, t: nat)
    requires t < |s.threads|
  {
    && (s.threads[t].Outstanding() ==> Awaits(s.log, t) || Served(s.log, t))
    && (s.threads[t].AckLeaving? ==> Served(s.log, t))
  }

  ghost predicate AckerInv(s: State) {
    && QuorumRespected(s.log, s.maxAck)
    && forall t: nat | t < |s.threads| :: Owed(s, t)
  }

  ghost predicate WakeupInv(s: State) {
    forall t: nat | t < |s.threads| ::
      && (s.threads[t].AckParked? ==> s.ack > 0 || Holds(s, ExecReset))
      && (s.threads[t].ExecParked? ==> s.maxAck > 0 && (s.ack < s.maxAck || Holds(s, AckCounted)))
  }

  ghost predicate Inv(s: State) {
    MutexInv(s) && CountInv(s) && AckerInv(s) && WakeupInv(s)
  }

  // ---- Preservation ----

  lemma MutexInvKept(s: State, a: Action)
    requires MutexInv(s) && Enabled(s, a)
    ensures MutexInv(Next(s, a))
  {
  }

  lemma AppendKeepsPrefix(log: seq<Event>, e: Event)
    ensures (log + [e])[..|log|] == log
    ensures forall j | 0 <= j <= |log| :: (log + [e])[..j] == log[..j]
  {
  }

  lemma CountGrows(log: seq<Event>, e: Event)
    ensures AcksSinceExecution(log + [e]) ==
            match e
            case Acked(_) => AcksSinceExecution(log) + 1
            case Executed(_) => 0
            case Returned(_) => AcksSinceExecution(log)
  {
    AppendKeepsPrefix(log, e);
  }

  lemma CountWhenLogged(s: State, a: nat, e: Event)
    requires MutexInv(s) && CountInv(s) && Enabled(s, Advance(a))
    requires match s.threads[a]
             case AckLocked => e == Acked(a)
             case ExecReady => e == Executed(a)
             case AckLeaving => e == Returned(a)
             case _ => false
    ensures CountInv(Next(s, Advance(a)))
  {
    assert Holds(s, s.threads[a]);
    assert Next(s, Advance(a)).log == s.log + [e];
    CountGrows(s.log, e);
  }

  lemma CountWhenNotLogged(s: State, a: Action)
    requires Enabled(s, a) && MutexInv(s) && MutexInv(Next(s, a)) && CountInv(s)
    requires a.Advance? ==> !s.threads[a.t].AckLocked? && !s.threads[a.t].ExecReady? && !s.threads[a.t].AckLeaving?
    ensures CountInv(Next(s, a))
  {
    if a.Advance? && s.threads[a.t].Critical() {
      assert Holds(s, s.threads[a.t]);
    }
  }

  lemma CountInvKept(s: State, a: Action)
    requires MutexInv(s) && CountInv(s) && Enabled(s, a)
    ensures CountInv(Next(s, a))
  {
    MutexInvKept(s, a);
    if a.Advance? && s.threads[a.t].AckLocked? {
      CountWhenLogged(s, a.t, Acked(a.t));
    } else if a.Advance? && s.threads[a.t].ExecReady? {
      CountWhenLogged(s, a.t, Executed(a.t));
    } else if a.Advance? && s.threads[a.t].AckLeaving? {
      CountWhenLogged(s, a.t, Returned(a.t));
    } else {
      CountWhenNotLogged(s, a);
    }
  }

  lemma WakeupInvKept(s: State, a: Action)
    requires MutexInv(s) && CountInv(s) && WakeupInv(s) && Enabled(s, a)
    ensures WakeupInv(Next(s, a))
  {
    MutexInvKept(s, a);
  }

  /** A thread whose ack is still awaited keeps the count positive. */
  lemma {:induction false} AwaitedAckCounts(log: seq<Event>, t: nat)
    requires Awaits(log, t)
    ensures AcksSinceExecution(log) > 0
  {
    var i: nat :| AwaitsAt(log, t, i);
    if i < |log| - 1 {
      assert AwaitsAt(log[..|log| - 1], t, i);
      AwaitedAckCounts(log[..|log| - 1], t);
    }
  }

  /** One more event keeps or settles what thread t is owed, unless it is t's own return. */
  lemma HistoryGrows(log: seq<Event>, e: Event, t: nat)
    requires e != Returned(t)
    ensures Served(log, t) ==> Served(log + [e], t)
    ensures Awaits(log, t) ==> Awaits(log + [e], t) || Served(log + [e], t)
    ensures e == Acked(t) ==> Awaits(log + [e], t)
  {
    if Served(log, t) {
      var i: nat, k: nat :| ServedAt(log, t, i, k);
      assert ServedAt(log + [e], t, i, k);
    }
    if Awaits(log, t) {
      var i: nat :| AwaitsAt(log, t, i);
      if e.Executed? {
        assert ServedAt(log + [e], t, i, |log|);
      } else {
        assert AwaitsAt(log + [e], t, i);
      }
    }
    if e == Acked(t) {
      assert AwaitsAt(log + [e], t, |log|);
    }
  }

  lemma QuorumRespectedGrows(log: seq<Event>, maxAck: int, e: Event)
    requires QuorumRespected(log, maxAck)
    requires e.Executed? ==> AcksSinceExecution(log) >= maxAck
    requires e.Returned? ==> Served(log, e.t)
    ensures QuorumRespected(log + [e], maxAck)
  {
    AppendKeepsPrefix(log, e);
  }

  /** A step that adds event e to the history keeps what every thread is owed. */
  lemma OwedWhenLogged(s: State, a: nat, e: Event, t: nat)
    requires MutexInv(s) && AckerInv(s) && Enabled(s, Advance(a)) && t < |s.threads|
    requires e == match s.threads[a]
                  case AckLocked => Acked(a)
                  case ExecReady => Executed(a)
                  case _ => Returned(a)
    requires s.threads[a].AckLocked? || s.threads[a].ExecReady? || s.threads[a].AckLeaving?
    ensures Next(s, Advance(a)).log == s.log + [e]
    ensures Owed(Next(s, Advance(a)), t)
  {
    if e != Returned(t) {
      HistoryGrows(s.log, e, t);
    }
    assert Owed(s, t);
  }

  lemma OwedWhenNotLogged(s: State, a: Action, t: nat)
    requires MutexInv(s) && CountInv(s) && AckerInv(s) && Enabled(s, a) && t < |s.threads|
    requires a.Advance? ==> !s.threads[a.t].AckLocked? && !s.threads[a.t].ExecReady? && !s.threads[a.t].AckLeaving?
    ensures Next(s, a).log == s.log
    ensures Owed(Next(s, a), t)
  {
    assert Owed(s, t);
    if t == a.t && s.threads[t].AckTesting? {
      assert Holds(s, AckTesting);
      if Awaits(s.log, t) {
        AwaitedAckCounts(s.log, t);
      }
    }
  }

  lemma AckerInvKept(s: State, a: Action)
    requires MutexInv(s) && CountInv(s) && AckerInv(s) && Enabled(s, a)
    ensures AckerInv(Next(s, a))
  {
    var s' := Next(s, a);
    var pc := s.threads[a.t];
    if a.Advance? && (pc.AckLocked? || pc.ExecReady? || pc.AckLeaving?) {
      var e := match pc case AckLocked => Acked(a.t) case ExecReady => Executed(a.t) case _ => Returned(a.t);
      assert Holds(s, pc) && Owed(s, a.t);
      QuorumRespectedGrows(s.log, s.maxAck, e);
      forall t: nat | t < |s.threads| ensures Owed(s', t) { OwedWhenLogged(s, a.t, e, t); }
      OwedWhenLogged(s, a.t, e, a.t);
    } else {
      forall t: nat | t < |s.threads| ensures Owed(s', t) { OwedWhenNotLogged(s, a, t); }
      OwedWhenNotLogged(s, a, a.t);
    }
  }

  lemma InvKept(s: State, a: Action)
    requires Inv(s) && Enabled(s, a)
    ensures Inv(Next(s, a))
  {
    MutexInvKept(s, a);
    CountInvKept(s, a);
    WakeupInvKept(s, a);
    AckerInvKept(s, a);
  }

  lemma {:induction false} ShapeAlongRun(s: State, run: seq<Action>)
    requires IsRun(s, run)
    ensures Final(s, run).maxAck == s.maxAck && |Final(s, run).threads| == |s.threads|
    decreases |run|
  {
    if run != [] {
      ShapeAlongRun(Next(s, run[0]), run[1..]);
    }
  }

  lemma {:induction false} InvAlongRun(s: State, run: seq<Action>)
    requires Inv(s) && IsRun(s, run)
    ensures Inv(Final(s, run))
    decreases |run|
  {
    if run != [] {
      InvKept(s, run[0]);
      InvAlongRun(Next(s, run[0]), run[1..]);
    }
  }

  // ---- Main results ----

  lemma {:induction false} QuorumBound(log: seq<Event>, maxAck: int)
    requires QuorumRespected(log, maxAck)
    ensures Executions(log) * maxAck + AcksSinceExecution(log) <= Acks(log)
  {
    if log != [] {
      var init := log[..|log| - 1];
      forall j | 0 <= j < |init| ensures init[..j] == log[..j] && init[j] == log[j] {}
      QuorumBound(init, maxAck);
      if log[|init|].Executed? {
        assert AcksSinceExecution(log[..|init|]) >= maxAck;
        assert (Executions(init) + 1) * maxAck == Executions(init) * maxAck + maxAck;
      }
    }
  }

  /** Quorum safety over all interleavings. */
  lemma QuorumSafety(s: State, run: seq<Action>)
    requires Init(s) && IsRun(s, run)
    ensures var log := Final(s, run).log;
            && QuorumRespected(log, s.maxAck)
            && Executions(log) * s.maxAck <= Acks(log)
  {
    InvAlongRun(s, run);
    ShapeAlongRun(s, run);
    QuorumBound(Final(s, run).log, s.maxAck);
  }

  /** No lost wakeup: when the mutex is free, whoever is parked still has a reason to be. */
  lemma NoLostWakeup(s: State, run: seq<Action>)
    requires Init(s) && IsRun(s, run)
    requires Final(s, run).holder.None?
    ensures forall t: nat | t < |Final(s, run).threads| ::
              && (Final(s, run).threads[t].AckParked? ==> Final(s, run).ack > 0)
              && (Final(s, run).threads[t].ExecParked? ==> Final(s, run).ack < s.maxAck)
  {
    InvAlongRun(s, run);
    ShapeAlongRun(s, run);
  }

  // ---- Everybody returns after a reset ----

  /** The count is zero and no call of AckAndWait has yet to count its ack. */
  predicate Quiet(s: State) {
    && s.ack == 0
    && forall t: nat | t < |s.threads| ::
         !s.threads[t].AckCalled? && !s.threads[t].AckLocked? && !s.threads[t].AckCounted?
  }

  /** Steps left to a thread when n threads exist; a pending broadcast outweighs everything it wakes. */
  function Rank(pc: Pc, n: nat): nat {
    match pc
    case AckWoken | ExecWoken | ExecCalled => 3
    case AckTesting | ExecTesting => 2
    case AckLeaving | ExecLeaving => 1
    case ExecReset => 3 * n + 2
    case _ => 0
  }

  function Total(threads: seq<Pc>, n: nat): nat {
    if threads == [] then 0 else Rank(threads[0], n) + Total(threads[1..], n)
  }

  function Measure(s: State): nat {
    Total(s.threads, |s.threads|)
  }

  lemma {:induction false} TotalUpdate(threads: seq<Pc>, n: nat, t: nat, pc: Pc)
    requires t < |threads|
    ensures Total(threads[t := pc], n) == Total(threads, n) - Rank(threads[t], n) + Rank(pc, n)
    decreases t
  {
    if t == 0 {
      assert threads[t := pc][1..] == threads[1..];
    } else {
      assert threads[t := pc][1..] == threads[1..][t - 1 := pc];
      TotalUpdate(threads[1..], n, t - 1, pc);
    }
  }

  lemma {:induction false} TotalWakeAll(threads: seq<Pc>, n: nat)
    ensures Total(WakeAll(threads), n) <= Total(threads, n) + 3 * |threads|
  {
    if threads != [] {
      assert WakeAll(threads)[1..] == WakeAll(threads[1..]);
      TotalWakeAll(threads[1..], n);
    }
  }

  /** The last broadcast pays for everything it wakes. */
  lemma ResetDescends(s: State, t: nat)
    requires t < |s.threads| && s.threads[t].ExecReset?
    ensures Measure(Next(s, Advance(t))) < Measure(s)
  {
    var n := |s.threads|;
    TotalWakeAll(s.threads, n);
    TotalUpdate(WakeAll(s.threads), n, t, ExecLeaving);
  }

  /** While nobody acks anew, every step of a thread strictly shrinks the measure. */
  lemma QuietStepDescends(s: State, t: nat)
    requires Inv(s) && Quiet(s) && s.maxAck >= 1 && Enabled(s, Advance(t))
    ensures Quiet(Next(s, Advance(t)))
    ensures Measure(Next(s, Advance(t))) < Measure(s)
  {
    var pc := s.threads[t];
    assert pc.Critical() ==> Holds(s, pc);
    if pc.ExecReset? {
      ResetDescends(s, t);
    } else {
      var pc' := Next(s, Advance(t)).threads[t];
      assert Next(s, Advance(t)).threads == s.threads[t := pc'];
      TotalUpdate(s.threads, |s.threads|, t, pc');
    }
  }

  ghost predicate Stuck(s: State) {
    forall u: nat :: !Enabled(s, Advance(u))
  }

  /** While nobody acks anew and a caller of AckAndWait is outstanding, some thread can move. */
  lemma QuietNotStuck(s: State, t: nat)
    requires Inv(s) && Quiet(s) && t < |s.threads| && s.threads[t].Outstanding()
    ensures !Stuck(s)
  {
    if s.holder.Some? {
      assert Enabled(s, Advance(s.holder.value));
    } else {
      assert Enabled(s, Advance(t));
    }
  }

  /** A step of a thread pays one; a new call of WaitAndExecute costs three. */
  lemma QuietActionBounded(s: State, a: Action)
    requires Inv(s) && Quiet(s) && s.maxAck >= 1 && Enabled(s, a) && !a.CallAck?
    ensures Quiet(Next(s, a))
    ensures Measure(Next(s, a)) + 1 <= Measure(s) + (if a.CallExec? then 4 else 0)
    ensures Next(s, a).maxAck == s.maxAck && |Next(s, a).threads| == |s.threads|
  {
    if a.Advance? {
      QuietStepDescends(s, a.t);
    } else {
      TotalUpdate(s.threads, |s.threads|, a.t, ExecCalled);
    }
  }

  /** While nobody acks anew, a thread inside WaitAndExecute that has yet to run f never comes out, so
      only these threads can still call it. */
  predicate MayCall(pc: Pc) {
    pc.Idle? || pc.AckTesting? || pc.AckParked? || pc.AckWoken? || pc.AckLeaving? || pc.ExecReset? || pc.ExecLeaving?
  }

  function Callers(threads: seq<Pc>): (n: nat)
    ensures n <= |threads|
  {
    if threads == [] then 0 else Callers(threads[1..]) + (if MayCall(threads[0]) then 1 else 0)
  }

  lemma {:induction false} CallersUpdate(threads: seq<Pc>, t: nat, pc: Pc)
    requires t < |threads|
    ensures Callers(threads[t := pc]) ==
            Callers(threads) - (if MayCall(threads[t]) then 1 else 0) + (if MayCall(pc) then 1 else 0)
    decreases t
  {
    if t == 0 {
      assert threads[t := pc][1..] == threads[1..];
    } else {
      assert threads[t := pc][1..] == threads[1..][t - 1 := pc];
      CallersUpdate(threads[1..], t - 1, pc);
    }
  }

  lemma {:induction false} CallersWakeAll(threads: seq<Pc>)
    ensures Callers(WakeAll(threads)) == Callers(threads)
  {
    if threads != [] {
      assert WakeAll(threads)[1..] == WakeAll(threads[1..]);
      CallersWakeAll(threads[1..]);
    }
  }

  /** Each new call uses up a caller, and no step of a thread makes one. */
  lemma QuietActionSpends(s: State, a: Action)
    requires Inv(s) && Quiet(s) && s.maxAck >= 1 && Enabled(s, a) && !a.CallAck?
    ensures Callers(Next(s, a).threads) + (if a.CallExec? then 1 else 0) <= Callers(s.threads)
  {
    var pc := s.threads[a.t];
    assert pc.Critical() ==> Holds(s, pc);
    if a.Advance? && pc.ExecReset? {
      CallersWakeAll(s.threads);
      CallersUpdate(WakeAll(s.threads), a.t, ExecLeaving);
    } else {
      var pc' := Next(s, a).threads[a.t];
      assert Next(s, a).threads == s.threads[a.t := pc'];
      CallersUpdate(s.threads, a.t, pc');
    }
  }

  predicate NoNewAck(run: seq<Action>) {
    forall i | 0 <= i < |run| :: !run[i].CallAck?
  }

  function NewExecutors(run: seq<Action>): nat {
    if run == [] then 0 else NewExecutors(run[1..]) + (if run[0].CallExec? then 1 else 0)
  }

  lemma {:induction false} FewNewExecutors(s: State, run: seq<Action>)
    requires Inv(s) && Quiet(s) && s.maxAck >= 1 && IsRun(s, run) && NoNewAck(run)
    ensures NewExecutors(run) <= Callers(s.threads)
    ensures |run| <= Measure(s) + 4 * NewExecutors(run)
    decreases |run|
  {
    if run != [] {
      InvKept(s, run[0]);
      QuietActionBounded(s, run[0]);
      QuietActionSpends(s, run[0]);
      FewNewExecutors(Next(s, run[0]), run[1..]);
    }
  }

  lemma {:induction false} QuietAlongRun(s: State, run: seq<Action>)
    requires Inv(s) && Quiet(s) && s.maxAck >= 1 && IsRun(s, run) && NoNewAck(run)
    ensures Inv(Final(s, run)) && Quiet(Final(s, run))
    decreases |run|
  {
    if run != [] {
      InvKept(s, run[0]);
      QuietActionBounded(s, run[0]);
      QuietAlongRun(Next(s, run[0]), run[1..]);
    }
  }

  /** From a reset, with no new AckAndWait, every schedule is over after a number of steps that is known
      beforehand, however many executors arrive, and where it can go no further every caller of
      AckAndWait has returned. */
  lemma AckersReturn(s: State, run: seq<Action>)
    requires Inv(s) && Quiet(s) && s.maxAck >= 1
    requires IsRun(s, run) && NoNewAck(run)
    ensures |run| <= Measure(s) + 4 * |s.threads|
    ensures |Final(s, run).threads| == |s.threads|
    ensures Stuck(Final(s, run)) ==>
              forall t: nat | t < |s.threads| :: !Final(s, run).threads[t].Outstanding()
  {
    FewNewExecutors(s, run);
    ShapeAlongRun(s, run);
    QuietAlongRun(s, run);
    var end := Final(s, run);
    forall t: nat | t < |s.threads| && end.threads[t].Outstanding() ensures !Stuck(end) {
      QuietNotStuck(end, t);
    }
  }

  /** The executor itself: its fields change in place, one atomic statement at a time. */
  class QuorumExecutor {
    const maxAck: int
    var ack: int
    var holder: Option<nat>
    var threads: seq<Pc>
    ghost var log: seq<Event>

    constructor (maxAck: int, n: nat)
      ensures Init(View()) && View().maxAck == maxAck && |View().threads| == n
    {
      this.maxAck := maxAck;
      ack, holder, log := 0, None, [];
      threads := seq(n, _ => Idle);
    }

    ghost function View(): State
      reads this
    {
      State(maxAck, ack, holder, threads, log)
    }

    /** Thread t enters AckAndWait, when acking, or WaitAndExecute. */
    method Call(t: nat, acking: bool)
      requires t < |threads| && threads[t].Idle?
      modifies this
      ensures View() == Next(old(View()), if acking then CallAck(t) else CallExec(t))
    {
      threads := threads[t := if acking then AckCalled else ExecCalled];
    }

    /** Afterwards nobody is parked, who was parked waits for the mutex in the method it was in, and
        nobody else has moved. */
    method Broadcast()
      modifies `threads
      ensures |threads| == |old(threads)|
      ensures forall t | 0 <= t < |threads| :: !threads[t].AckParked? && !threads[t].ExecParked?
      ensures forall t | 0 <= t < |threads| && old(threads)[t].AckParked? :: threads[t].AckWoken?
      ensures forall t | 0 <= t < |threads| && old(threads)[t].ExecParked? :: threads[t].ExecWoken?
      ensures forall t | 0 <= t < |threads| && !old(threads)[t].AckParked? && !old(threads)[t].ExecParked? ::
                threads[t] == old(threads)[t]
    {
      threads := WakeAll(threads);
    }

    /** Thread t executes its next statement. */
    method Run(t: nat)
      requires Enabled(View(), Advance(t))
      modifies this
      ensures View() == Next(old(View()), Advance(t))
    {
      var pc := threads[t];
      match pc {
        case AckCalled | AckWoken | ExecCalled | ExecWoken =>
          holder := Some(t);
          threads := threads[t := if pc.AckCalled? then AckLocked else if pc.AckWoken? then AckTesting
                             else ExecTesting];
        case AckLocked =>
          ack := ack + 1;
          log := log + [Acked(t)];
          threads := threads[t := AckCounted];
        case AckCounted =>
          Broadcast();
          threads := threads[t := AckTesting];
        case AckTesting =>
          if ack > 0 {
            holder := None;
            threads := threads[t := AckParked];
          } else {
            threads := threads[t := AckLeaving];
          }
        case AckLeaving =>
          holder := None;
          log := log + [Returned(t)];
          threads := threads[t := Idle];
        case ExecTesting =>
          if ack < maxAck {
            holder := None;
            threads := threads[t := ExecParked];
          } else {
            threads := threads[t := ExecReady];
          }
        case ExecReady =>
          log := log + [Executed(t)];
          threads := threads[t := ExecDone];
        case ExecDone =>
          ack := 0;
          threads := threads[t := ExecReset];
        case ExecReset =>
          Broadcast();
          threads := threads[t := ExecLeaving];
        case ExecLeaving =>
          holder := None;
          threads := threads[t := Idle];
        case _ =>
      }
    }
  }
}
