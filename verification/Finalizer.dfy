/** The finalizer that guards the cluster-scoped ClusterRoleBinding of a DaemonJob or DaemonCronJob:
    reconciles that may fail or crash anywhere, interleaved with users creating, editing and deleting
    (internal/controller/daemonjob_controller.go and daemoncronjob_controller.go). */
module Finalizer {
  import opened Kube
  import opened BroadcastJobs
  import opened Selectors

  datatype Key = Key(kind: Kind, ns: string, name: string)

  /** An object as stored.  `others` says whether it has finalizers of somebody else. */
  datatype Object = Object(version: nat, finalizer: bool, others: bool, terminating: bool)

  /** Where a reconcile stands, with the object it read if it is still going to use it. */
  datatype Pc =
    | Started
    | Adding(o: Object)
    | Ready
    | Creating
    | Listing(o: Object)
    | Removing(o: Object, todo: set<string>)
    | Finalizing(o: Object)

  datatype State = State(objects: map<Key, Object>, bindings: map<string, Labels>, active: map<Key, Pc>, clock: nat)

  datatype Action =
    | Create(key: Key, others: bool)
    | Edit(key: Key)
    | Delete(key: Key)
    | DropOthers(key: Key)
    | AddBinding(binding: string, labels: Labels)
    | DropBinding(binding: string)
    | Start(key: Key)
    | Stop(key: Key)
    | Crash
    | Work(key: Key)
    | RemoveOne(key: Key, binding: string)

  function Selector(key: Key): Labels {
    ClusterRoleBindingSelector(key.kind, key.ns, key.name)
  }

  function BindingName(key: Key): string {
    ClusterRoleBindingName(key.kind, key.ns, key.name)
  }

  function BindingLabels(key: Key): Labels {
    ClusterRoleBindingLabels(key.kind, key.ns, key.name)
  }

  /** The bindings labelled for the object. */
  function BindingsOf(bindings: map<string, Labels>, key: Key): set<string> {
    set b | b in bindings && Matches(Selector(key), bindings[b])
  }

  // ---- Steps ----

  function Goto(s: State, key: Key, pc: Pc): State {
    s.(active := s.active[key := pc])
  }

  function End(s: State, key: Key): State {
    s.(active := s.active - {key})
  }

  /** Every write gives the object a version it never had. */
  function Write(s: State, key: Key, o: Object): State {
    s.(objects := s.objects[key := o.(version := s.clock)], clock := s.clock + 1)
  }

  /** An object that is being deleted goes away with its last finalizer. */
  function WriteOrVanish(s: State, key: Key, o: Object): State {
    if o.terminating && !o.finalizer && !o.others then s.(objects := s.objects - {key}) else Write(s, key, o)
  }

  /** An update is accepted only if the object is still the one that was read. */
  predicate Unchanged(s: State, key: Key, o: Object) {
    key in s.objects && s.objects[key].version == o.version
  }

  predicate Enabled(s: State, a: Action) {
    match a
    case Create(key, _) => key !in s.objects
    case Edit(key) => key in s.objects
    case Delete(key) => key in s.objects
    case DropOthers(key) => key in s.objects
    case AddBinding(b, labels) => b !in s.bindings && !Has(labels, Role, ROLE_BROADCAST)
    case DropBinding(b) => b in s.bindings
    case Start(key) => key !in s.active
    case Stop(key) => key in s.active
    case Crash => true
    case Work(key) => key in s.active && (s.active[key].Removing? ==> s.active[key].todo == {})
    case RemoveOne(key, b) => key in s.active && s.active[key].Removing? && b in s.active[key].todo
  }

  /** One call of a reconcile: Get, the update that adds the finalizer, the lookup and the create of
      the binding, the list of bindings, and the update that removes the finalizer. */
  function Worked(s: State, key: Key): State
    requires Enabled(s, Work(key))
  {
    match s.active[key]
    case Started =>
      if key !in s.objects then End(s, key)
      else
        var o := s.objects[key];
        if o.terminating then (if o.finalizer then Goto(s, key, Listing(o)) else End(s, key))
        else if o.finalizer then Goto(s, key, Ready)
        else Goto(s, key, Adding(o))
    case Adding(o) =>
      if Unchanged(s, key, o) then Goto(Write(s, key, o.(finalizer := true)), key, Ready) else End(s, key)
    case Ready =>
      if BindingName(key) in s.bindings then End(s, key) else Goto(s, key, Creating)
    case Creating =>
      if BindingName(key) in s.bindings then End(s, key)
      else End(s.(bindings := s.bindings[BindingName(key) := BindingLabels(key)]), key)
    case Listing(o) => Goto(s, key, Removing(o, BindingsOf(s.bindings, key)))
    case Removing(o, _) => Goto(s, key, Finalizing(o))
    case Finalizing(o) =>
      if Unchanged(s, key, o) then End(WriteOrVanish(s, key, o.(finalizer := false)), key) else End(s, key)
  }

  /** Deleting a binding that is already gone is an error and ends the reconcile. */
  function Removed(s: State, key: Key, b: string): State
    requires Enabled(s, RemoveOne(key, b))
  {
    if b in s.bindings then
      Goto(s, key, s.active[key].(todo := s.active[key].todo - {b})).(bindings := s.bindings - {b})
    else End(s, key)
  }

  function Deleted(s: State, key: Key): State
    requires key in s.objects
  {
    WriteOrVanish(s, key, s.objects[key].(terminating := true))
  }

  function Next(s: State, a: Action): State
    requires Enabled(s, a)
  {
    match a
    case Create(key, others) => Write(s, key, Object(0, false, others, false))
    case Edit(key) => Write(s, key, s.objects[key])
    case Delete(key) => Deleted(s, key)
    case DropOthers(key) => WriteOrVanish(s, key, s.objects[key].(others := false))
    case AddBinding(b, labels) => s.(bindings := s.bindings[b := labels])
    case DropBinding(b) => s.(bindings := s.bindings - {b})
    case Start(key) => Goto(s, key, Started)
    case Stop(key) => End(s, key)
    case Crash => s.(active := map[])
    case Work(key) => Worked(s, key)
    case RemoveOne(key, b) => Removed(s, key, b)
  }

  predicate IsRun(s: State, run: seq<Action>)
    decreases |run|
  {
    run == [] || (Enabled(s, run[0]) && IsRun(Next(s, run[0]), run[1..]))
  }

  function Final(s: State, run: seq<Action>): State
    requires IsRun(s, run)
    decreases |run|
  {
    if run == [] then s else Final(Next(s, run[0]), run[1..])
  }

  // ---- Invariant ----

  predicate Guarded(s: State, key: Key) {
    key in s.objects && s.objects[key].finalizer
  }

  /** A binding labelled for the object exists only under the guard of its finalizer. */
  predicate NoLeak(s: State, key: Key) {
    BindingsOf(s.bindings, key) != {} ==> Guarded(s, key)
  }

  /** What the object looks like if it still has the version that was read. */
  predicate Remembers(s: State, key: Key, o: Object) {
    && o.version < s.clock
    && (Unchanged(s, key, o) ==> s.objects[key] == o)
  }

  predicate PcInv(s: State, key: Key)
    requires key in s.active
  {
    match s.active[key]
    case Started => true
    case Adding(o) => Remembers(s, key, o) && !o.terminating
    case Ready => Guarded(s, key)
    case Creating => Guarded(s, key)
    case Listing(o) => Remembers(s, key, o) && o.terminating
    case Removing(o, todo) => Remembers(s, key, o) && o.terminating && BindingsOf(s.bindings, key) <= todo
    case Finalizing(o) => Remembers(s, key, o) && o.terminating && BindingsOf(s.bindings, key) == {}
  }

  /** Everything the invariant asks about one object. */
  predicate KeyInv(s: State, key: Key) {
    && NoLeak(s, key)
    && (key in s.objects ==> s.objects[key].version < s.clock)
    && (key in s.active ==> PcInv(s, key))
  }

  ghost predicate Inv(s: State) {
    forall key :: KeyInv(s, key)
  }

  // ---- Preservation ----

  /** The new binding is found under its own object and under no other. */
  lemma BindingAdded(bindings: map<string, Labels>, owner: Key, key: Key)
    requires BindingName(owner) !in bindings
    ensures var r := bindings[BindingName(owner) := BindingLabels(owner)];
            BindingsOf(r, key) == BindingsOf(bindings, key) + (if key == owner then {BindingName(owner)} else {})
  {
    ClusterRoleBindingIsolation(owner.kind, owner.ns, owner.name, key.kind, key.ns, key.name);
  }

  lemma ForeignBindingAdded(bindings: map<string, Labels>, b: string, labels: Labels, key: Key)
    requires b !in bindings && !Has(labels, Role, ROLE_BROADCAST)
    ensures BindingsOf(bindings[b := labels], key) == BindingsOf(bindings, key)
  {
    MatchesThree(NameKey(key.kind), key.name, Role, ROLE_BROADCAST, Namespace, key.ns, labels);
  }

  lemma BindingDropped(bindings: map<string, Labels>, b: string, key: Key)
    ensures BindingsOf(bindings - {b}, key) == BindingsOf(bindings, key) - {b}
  {
  }

  lemma UserStepKeeps(s: State, a: Action, key: Key)
    requires KeyInv(s, key) && Enabled(s, a)
    requires !a.Work? && !a.RemoveOne?
    ensures KeyInv(Next(s, a), key)
  {
    if a.AddBinding? {
      ForeignBindingAdded(s.bindings, a.binding, a.labels, key);
    } else if a.DropBinding? {
      BindingDropped(s.bindings, a.binding, key);
    }
  }

  lemma RemoveStepKeeps(s: State, k: Key, b: string, key: Key)
    requires KeyInv(s, key) && Enabled(s, RemoveOne(k, b))
    ensures KeyInv(Next(s, RemoveOne(k, b)), key)
  {
    BindingDropped(s.bindings, b, key);
  }

  /** A step of one reconcile, as seen by the others. */
  lemma OtherWorkKeeps(s: State, k: Key, key: Key)
    requires KeyInv(s, key) && k != key && Enabled(s, Work(k))
    ensures KeyInv(Worked(s, k), key)
  {
    if s.active[k].Creating? && BindingName(k) !in s.bindings {
      BindingAdded(s.bindings, k, key);
    }
  }

  lemma OwnWorkKeeps(s: State, key: Key)
    requires KeyInv(s, key) && Enabled(s, Work(key))
    ensures KeyInv(Worked(s, key), key)
  {
  }

  lemma InvKept(s: State, a: Action)
    requires Inv(s) && Enabled(s, a)
    ensures Inv(Next(s, a))
  {
    forall key ensures KeyInv(Next(s, a), key) {
      assert KeyInv(s, key);
      match a
      case Work(k) => if k == key { OwnWorkKeeps(s, key); } else { OtherWorkKeeps(s, k, key); }
      case RemoveOne(k, b) => RemoveStepKeeps(s, k, b, key);
      case _ => UserStepKeeps(s, a, key);
    }
  }

  lemma {:induction false} InvAlongRun(s: State, run: seq<Action>)
    requires Inv(s) && IsRun(s, run)
    ensures Inv(Final(s, run))
    decreases |run|
  {
    if run != [] {
      InvKept(s, run[0]);
      InvAlongRun(Next(s, run[0]), run[1..]);
    }
  }

  // ---- Main results ----

  /** Nothing is being reconciled, and no binding has leaked so far. */
  ghost predicate Init(s: State) {
    && s.active == map[]
    && forall key :: NoLeak(s, key) && (key in s.objects ==> s.objects[key].version < s.clock)
  }

  /** In every run a binding labelled for an object exists only while that object is present with the finalizer. */
  lemma NoLeakedBinding(s: State, run: seq<Action>, b: string, key: Key)
    requires Init(s) && IsRun(s, run)
    requires b in Final(s, run).bindings && Matches(Selector(key), Final(s, run).bindings[b])
    ensures Guarded(Final(s, run), key)
  {
    InvAlongRun(s, run);
    assert KeyInv(Final(s, run), key);
    assert b in BindingsOf(Final(s, run).bindings, key);
  }

  /** Once the object is gone, none of its bindings is left. */
  lemma GoneMeansUnbound(s: State, run: seq<Action>, key: Key)
    requires Init(s) && IsRun(s, run) && key !in Final(s, run).objects
    ensures BindingsOf(Final(s, run).bindings, key) == {}
  {
    InvAlongRun(s, run);
    assert KeyInv(Final(s, run), key);
  }

  /** A deletion is never undone: a reconcile that read the object before cannot overwrite it. */
  lemma DeletionIsFinal(s: State, run: seq<Action>, a: Action, key: Key)
    requires Init(s) && IsRun(s, run) && Enabled(Final(s, run), a)
    requires key in Final(s, run).objects && Final(s, run).objects[key].terminating
    ensures var next := Next(Final(s, run), a);
            key in next.objects ==> next.objects[key].terminating
  {
    InvAlongRun(s, run);
    assert KeyInv(Final(s, run), key);
  }

  lemma {:induction false} RunExtended(s: State, run: seq<Action>, a: Action)
    requires IsRun(s, run) && Enabled(Final(s, run), a)
    ensures IsRun(s, run + [a]) && Final(s, run + [a]) == Next(Final(s, run), a)
    decreases |run|
  {
    if run == [] {
      assert [a][1..] == [];
    } else {
      RunExtended(Next(s, run[0]), run[1..], a);
      assert (run + [a])[1..] == run[1..] + [a];
    }
  }

  /** An object that is being deleted is there only as long as some finalizer holds it. */
  ghost predicate NoneLingers(s: State) {
    forall key | key in s.objects && s.objects[key].terminating :: s.objects[key].finalizer || s.objects[key].others
  }

  lemma {:induction false} NoneLingersAlongRun(s: State, run: seq<Action>)
    requires NoneLingers(s) && IsRun(s, run)
    ensures NoneLingers(Final(s, run))
    decreases |run|
  {
    if run != [] {
      NoneLingersAlongRun(Next(s, run[0]), run[1..]);
    }
  }

  /** A write by a user is noticed: whoever read the object before it is refused.  Creating and editing leave the
      object there, deleting and dropping the last other finalizer only if something still holds it. */
  lemma UserWrites(s: State, a: Action, read: Object)
    requires Enabled(s, a) && (a.Create? || a.Edit? || a.Delete? || a.DropOthers?) && read.version < s.clock
    ensures var next := Next(s, a);
            && !Unchanged(next, a.key, read)
            && (a.Create? ==> At(next, a.key) == Some((false, a.others, false)))
            && (a.Edit? ==> At(next, a.key) == At(s, a.key))
            && (a.Delete? ==> At(next, a.key) == var o := s.objects[a.key];
                                if o.finalizer || o.others then Some((o.finalizer, o.others, true)) else None)
            && (a.DropOthers? ==> At(next, a.key) == var o := s.objects[a.key];
                                    if o.terminating && !o.finalizer then None
                                    else Some((o.finalizer, false, o.terminating)))
  {
  }

  /** Finalizers and deletion mark of an object, if it is there. */
  function At(s: State, key: Key): Option<(bool, bool, bool)> {
    if key in s.objects then Some((s.objects[key].finalizer, s.objects[key].others, s.objects[key].terminating))
    else None
  }

  /** At any time the controller may crash, and loses nothing that is stored. */
  lemma CrashLosesNothing(s: State)
    ensures Enabled(s, Crash) && Next(s, Crash) == s.(active := map[])
  {
  }

  /** A binding that a user removes first makes the reconcile stop there, with the object as it was. */
  lemma MissingBindingStops(s: State, key: Key, b: string)
    requires Enabled(s, RemoveOne(key, b)) && b in s.bindings
    ensures var dropped := Next(s, DropBinding(b));
            Enabled(dropped, RemoveOne(key, b)) && Next(dropped, RemoveOne(key, b)) ==
              s.(bindings := s.bindings - {b}, active := s.active - {key})
  {
  }

  /** Two objects lay claim to one binding name exactly when they are of one kind and their namespaces
      and names join to the same text. */
  lemma BindingNamesCollide(key: Key, key': Key)
    ensures BindingName(key) == BindingName(key') <==>
            key.kind == key'.kind && JoinAlike(key.ns, key.name, key'.ns, key'.name)
  {
    var joined, joined' := key.ns + "-" + key.name, key'.ns + "-" + key'.name;
    assert BindingName(key) == joined + (if key.kind.DaemonJobKind? then "-dj" else "-dcj");
    assert BindingName(key') == joined' + (if key'.kind.DaemonJobKind? then "-dj" else "-dcj");
    if key.kind == key'.kind {
      SameEnding(joined, joined', if key.kind.DaemonJobKind? then "-dj" else "-dcj");
      JoinedEqual(key.ns, key.name, key'.ns, key'.name);
    } else {
      assert BindingName(key)[|BindingName(key)| - 3] != BindingName(key')[|BindingName(key')| - 3];
    }
  }

  /** CreateOrUpdate gives the object a binding of its own exactly when the name is free or the object
      has one already. */
  lemma BoundExactly(bindings: map<string, Labels>, key: Key)
    ensures BindingsOf(Bound(bindings, key), key) != {} <==>
            BindingName(key) !in bindings || BindingsOf(bindings, key) != {}
    ensures BindingName(key) in bindings ==> Bound(bindings, key) == bindings
  {
    if BindingName(key) !in bindings {
      BindingAdded(bindings, key, key);
    }
  }

  /** The binding is one a controller makes for that object. */
  predicate MadeFor(b: string, labels: Labels, key: Key) {
    b == BindingName(key) && labels == BindingLabels(key)
  }

  /** All bindings are made by the controllers. */
  ghost predicate OwnMade(bindings: map<string, Labels>) {
    forall b | b in bindings :: exists key: Key :: MadeFor(b, bindings[b], key)
  }

  predicate NoStrangers(run: seq<Action>) {
    forall i | 0 <= i < |run| :: !run[i].AddBinding?
  }

  lemma WorkBinds(s: State, key: Key)
    requires Enabled(s, Work(key))
    ensures Worked(s, key).bindings == if s.active[key].Creating? then Bound(s.bindings, key) else s.bindings
  {
  }

  lemma OwnMadeKept(s: State, a: Action)
    requires OwnMade(s.bindings) && Enabled(s, a) && !a.AddBinding?
    ensures OwnMade(Next(s, a).bindings)
  {
    if a.Work? {
      WorkBinds(s, a.key);
      assert MadeFor(BindingName(a.key), BindingLabels(a.key), a.key);
    } else {
      assert forall b | b in Next(s, a).bindings :: b in s.bindings && Next(s, a).bindings[b] == s.bindings[b];
    }
  }

  lemma {:induction false} OwnMadeAlongRun(s: State, run: seq<Action>)
    requires OwnMade(s.bindings) && IsRun(s, run) && NoStrangers(run)
    ensures OwnMade(Final(s, run).bindings)
    decreases |run|
  {
    if run != [] {
      OwnMadeKept(s, run[0]);
      OwnMadeAlongRun(Next(s, run[0]), run[1..]);
    }
  }

  /** Then the only binding found for an object is the one under its own name. */
  lemma FoundUnderName(bindings: map<string, Labels>, key: Key)
    requires OwnMade(bindings)
    ensures BindingsOf(bindings, key) <= {BindingName(key)}
  {
    forall b | b in BindingsOf(bindings, key) ensures b == BindingName(key) {
      var h :| MadeFor(b, bindings[b], h);
      ClusterRoleBindingIsolation(h.kind, h.ns, h.name, key.kind, key.ns, key.name);
    }
  }

  /** Somebody's binding has the name that the object's would have. */
  predicate HeldBy(bindings: map<string, Labels>, key: Key, holder: Key) {
    BindingName(key) in bindings && MadeFor(BindingName(key), bindings[BindingName(key)], holder)
  }

  /** In every run in which only the controllers make bindings, CreateOrUpdate leaves an object without
      one exactly when the name is held by a different object, and holders are only objects of its kind
      whose namespace and name join to the same text. */
  lemma UnboundExactly(s: State, run: seq<Action>, key: Key)
    requires OwnMade(s.bindings) && IsRun(s, run) && NoStrangers(run)
    ensures var bindings := Final(s, run).bindings;
            && (BindingsOf(Bound(bindings, key), key) == {} <==>
                exists holder :: HeldBy(bindings, key, holder) && holder != key)
            && forall holder | HeldBy(bindings, key, holder) ::
                 key.kind == holder.kind && JoinAlike(key.ns, key.name, holder.ns, holder.name)
  {
    OwnMadeAlongRun(s, run);
    var bindings := Final(s, run).bindings;
    BoundExactly(bindings, key);
    FoundUnderName(bindings, key);
    forall holder | HeldBy(bindings, key, holder)
      ensures key.kind == holder.kind && JoinAlike(key.ns, key.name, holder.ns, holder.name)
      ensures BindingName(key) in BindingsOf(bindings, key) <==> holder == key
    {
      BindingNamesCollide(key, holder);
      ClusterRoleBindingIsolation(holder.kind, holder.ns, holder.name, key.kind, key.ns, key.name);
    }
    if BindingName(key) in bindings {
      var holder :| MadeFor(BindingName(key), bindings[BindingName(key)], holder);
      assert HeldBy(bindings, key, holder);
    }
  }

  /** CreateOrUpdate without a mutation: what exists under the name is left as it is. */
  function Bound(bindings: map<string, Labels>, key: Key): map<string, Labels> {
    if BindingName(key) in bindings then bindings else bindings[BindingName(key) := BindingLabels(key)]
  }

  // ---- The reconciler ----

  /** Calls that fail: the Get, the update of the object, the list of bindings, the delete after so
      many that went through, and the lookup and create of the binding. */
  datatype Faults = Faults(get: bool, update: bool, list: bool, deletes: Option<nat>, lookup: bool, create: bool)

  /** The reconciler working on the stored objects in place.  The ghost fields say which run of the
      state machine it has been. */
  class Reconciler {
    const kind: Kind
    var objects: map<Key, Object>
    var bindings: map<string, Labels>
    var clock: nat
    ghost var active: map<Key, Pc>
    ghost var start: State
    ghost var run: seq<Action>

    constructor (kind: Kind, objects: map<Key, Object>, bindings: map<string, Labels>, clock: nat)
      ensures Valid() && this.kind == kind && View() == start == State(objects, bindings, map[], clock)
    {
      this.kind, this.objects, this.bindings, this.clock := kind, objects, bindings, clock;
      active, run, start := map[], [], State(objects, bindings, map[], clock);
    }

    ghost function View(): State
      reads this
    {
      State(objects, bindings, active, clock)
    }

    /** What happened so far is a run of the state machine. */
    ghost predicate Valid()
      reads this
    {
      IsRun(start, run) && Final(start, run) == View()
    }

    ghost method Take(a: Action, before: State)
      requires IsRun(start, run) && Final(start, run) == before && Enabled(before, a)
      modifies `active, `run
      ensures active == Next(before, a).active
      ensures IsRun(start, run) && Final(start, run) == Next(before, a)
    {
      RunExtended(start, run, a);
      run := run + [a];
      active := Next(before, a).active;
    }

    /** Client.Update: refused unless the object is still the one that was read. */
    method Update(key: Key, read: Object, o: Object, fault: bool) returns (err: bool)
      modifies `objects, `clock
      ensures err <==> fault || !Unchanged(old(View()), key, read)
      ensures View() == if err then old(View()) else WriteOrVanish(old(View()), key, o)
    {
      if fault || key !in objects || objects[key].version != read.version {
        return true;
      }
      if o.terminating && !o.finalizer && !o.others {
        objects := objects - {key};
      } else {
        objects := objects[key := o.(version := clock)];
        clock := clock + 1;
      }
      return false;
    }

    /** Deletes the bindings labelled for the object, giving up at the first error. */
    method OnDelete(key: Key, ghost o: Object, f: Faults) returns (err: bool)
      requires Valid() && key in active && active[key] == Listing(o)
      modifies `bindings, `active, `run
      ensures Valid()
      ensures err <==> f.list || (f.deletes.Some? && f.deletes.value < |BindingsOf(old(bindings), key)|)
      ensures !err ==>
                && active == old(active)[key := Finalizing(o)]
                && bindings == old(bindings) - BindingsOf(old(bindings), key)
      ensures err ==> active == old(active) - {key} && Trimmed(old(bindings), bindings, BindingsOf(old(bindings), key))
    {
      if f.list {
        Take(Stop(key), View());
        return true;
      }
      var crbs := Enumerate(BindingsOf(bindings, key));
      EnumeratesAll(crbs, BindingsOf(bindings, key));
      Take(Work(key), View());
      err := DeleteListed(key, o, crbs, f.deletes);
    }

    method DeleteListed(key: Key, ghost o: Object, crbs: seq<string>, fault: Option<nat>) returns (err: bool)
      requires Valid() && key in active && active[key] == Removing(o, Named(crbs))
      requires Distinct(crbs) && Named(crbs) <= bindings.Keys
      modifies `bindings, `active, `run
      ensures Valid()
      ensures err <==> fault.Some? && fault.value < |crbs|
      ensures !err ==> active == old(active)[key := Finalizing(o)] && bindings == old(bindings) - Named(crbs)
      ensures err ==> active == old(active) - {key} && Trimmed(old(bindings), bindings, Named(crbs))
    {
      assert crbs[..|crbs|] == crbs;
      assert Named(crbs) - Named([]) == Named(crbs) && bindings - Named([]) == bindings;
      for i := 0 to |crbs|
        invariant Valid()
        invariant fault.Some? ==> i <= fault.value
        invariant active == old(active)[key := Removing(o, Named(crbs) - Named(crbs[..i]))]
        invariant bindings == old(bindings) - Named(crbs[..i])
      {
        if fault == Some(i) {
          Take(Stop(key), View());
          return true;
        }
        NextNamed(crbs, i);
        DeleteBinding(key, o, Named(crbs) - Named(crbs[..i]), crbs[i]);
        assert Named(crbs) - Named(crbs[..i]) - {crbs[i]} == Named(crbs) - Named(crbs[..i + 1]);
      }
      Take(Work(key), View());
      return false;
    }

    method DeleteBinding(key: Key, ghost o: Object, ghost todo: set<string>, b: string)
      requires Valid() && key in active && active[key] == Removing(o, todo)
      requires b in todo && b in bindings
      modifies `bindings, `active, `run
      ensures Valid()
      ensures active == old(active)[key := Removing(o, todo - {b})] && bindings == old(bindings) - {b}
    {
      ghost var before := View();
      bindings := bindings - {b};
      Take(RemoveOne(key, b), before);
    }

    method RemoveFinalizer(key: Key, o: Object, fault: bool) returns (err: bool)
      requires Valid() && key in active && active[key] == Finalizing(o)
      requires o.terminating && key in objects && objects[key] == o
      modifies `objects, `clock, `active, `run
      ensures Valid() && active == old(active) - {key}
      ensures err <==> fault
      ensures objects - {key} == old(objects) - {key}
      ensures !err ==> !Guarded(View(), key) && (key in objects <==> o.others)
    {
      ghost var before := View();
      err := Update(key, o, o.(finalizer := false), fault);
      if err {
        Take(Stop(key), before);
      } else {
        Take(Work(key), before);
      }
    }

    method AddFinalizer(key: Key, o: Object, fault: bool) returns (err: bool)
      requires Valid() && key in active && active[key] == Adding(o)
      requires !o.terminating && key in objects && objects[key] == o
      modifies `objects, `clock, `active, `run
      ensures Valid()
      ensures err <==> fault
      ensures err ==> active == old(active) - {key} && objects == old(objects)
      ensures objects - {key} == old(objects) - {key}
      ensures !err ==> active == old(active)[key := Ready] && Guarded(View(), key)
    {
      ghost var before := View();
      err := Update(key, o, o.(finalizer := true), fault);
      if err {
        Take(Stop(key), before);
      } else {
        Take(Work(key), before);
      }
    }

    /** Creates the binding unless one of its name exists; an existing one is left as it is. */
    method ApplyBinding(key: Key, f: Faults) returns (err: bool)
      requires Valid() && key in active && active[key] == Ready
      modifies `bindings, `active, `run
      ensures Valid() && active == old(active) - {key}
      ensures err <==> f.lookup || (f.create && BindingName(key) !in old(bindings))
      ensures bindings == if err then old(bindings) else Bound(old(bindings), key)
    {
      if f.lookup {
        Take(Stop(key), View());
        return true;
      }
      Take(Work(key), View());
      if BindingName(key) in bindings {
        return false;
      }
      if f.create {
        Take(Stop(key), View());
        return true;
      }
      ghost var before := View();
      bindings := bindings[BindingName(key) := BindingLabels(key)];
      Take(Work(key), before);
      return false;
    }

    /** The Get, and where it leads. */
    method Begin(key: Key, fault: bool) returns (err: bool)
      requires Valid() && key !in active
      modifies `active, `run
      ensures Valid() && err == fault
      ensures err || key !in objects ==> active == old(active)
      ensures !err && key in objects ==>
                var o := objects[key];
                active == if o.terminating then (if o.finalizer then old(active)[key := Listing(o)] else old(active))
                          else old(active)[key := if o.finalizer then Ready else Adding(o)]
    {
      Take(Start(key), View());
      assert old(active)[key := Started] - {key} == old(active);
      if fault {
        Take(Stop(key), View());
        return true;
      }
      Take(Work(key), View());
      return false;
    }

    /** An object that is being deleted. */
    method LetGo(key: Key, o: Object, f: Faults) returns (err: bool)
      requires Valid() && key in objects && objects[key] == o && o.terminating && o.finalizer
      requires key in active && active[key] == Listing(o)
      modifies this
      ensures Valid() && start == old(start) && active == old(active) - {key}
      ensures objects - {key} == old(objects) - {key}
      ensures err ==> Trimmed(old(bindings), bindings, BindingsOf(old(bindings), key))
      ensures Guarded(View(), key) || BindingsOf(bindings, key) == {}
      ensures !err ==>
                && bindings == old(bindings) - BindingsOf(old(bindings), key)
                && !Guarded(View(), key) && (key in objects <==> o.others)
      ensures !f.list && f.deletes.None? && !f.update ==> !err
    {
      err := OnDelete(key, o, f);
      if err {
        return true;
      }
      err := RemoveFinalizer(key, o, f.update);
    }

    /** An object that is to stay: first the finalizer, then the binding. */
    method Hold(key: Key, o: Object, f: Faults) returns (err: bool)
      requires Valid() && key in objects && objects[key] == o && !o.terminating
      requires key in active && active[key] == if o.finalizer then Ready else Adding(o)
      modifies this
      ensures Valid() && start == old(start) && active == old(active) - {key}
      ensures objects - {key} == old(objects) - {key}
      ensures bindings == if err then old(bindings) else Bound(old(bindings), key)
      ensures !err ==> Guarded(View(), key)
      ensures !err ==> (BindingsOf(bindings, key) != {} <==>
                        BindingName(key) !in old(bindings) || BindingsOf(old(bindings), key) != {})
      ensures !f.update && !f.lookup && !f.create ==> !err
    {
      if !o.finalizer {
        err := AddFinalizer(key, o, f.update);
        if err {
          return true;
        }
      }
      BoundExactly(bindings, key);
      err := ApplyBinding(key, f);
    }

    /** One reconcile.  Whatever fails, it is a run of the state machine; when nothing fails, an object
        that is being deleted is let go with all its bindings, and any other is guarded, and bound
        unless it was unbound and another object holds the name. */
    method Reconcile(ns: string, name: string, f: Faults) returns (err: bool)
      requires Valid() && Key(kind, ns, name) !in active
      modifies this
      ensures Valid() && start == old(start) && active == old(active)
      ensures objects - {Key(kind, ns, name)} == old(objects) - {Key(kind, ns, name)}
      ensures Outcome(old(View()), View(), Key(kind, ns, name), err)
      ensures f == Faults(false, false, false, None, false, false) ==> !err
    {
      var key := Key(kind, ns, name);
      err := Begin(key, f.get);
      if err || key !in objects {
        return;
      }
      var o := objects[key];
      if !o.terminating {
        err := Hold(key, o, f);
      } else if o.finalizer {
        err := LetGo(key, o, f);
      } else {
        err := false;
      }
    }
  }

  /** What one reconcile does to its object and to the bindings, failed or not. */
  predicate Outcome(before: State, after: State, key: Key, err: bool) {
    if key !in before.objects || (before.objects[key].terminating && !before.objects[key].finalizer) then
      after.objects == before.objects && after.bindings == before.bindings
    else if before.objects[key].terminating then
      && Trimmed(before.bindings, after.bindings, BindingsOf(before.bindings, key))
      && (Guarded(after, key) || BindingsOf(after.bindings, key) == {})
      && (!err ==> BindingsOf(after.bindings, key) == {} && !Guarded(after, key))
      && (!err ==> (key in after.objects <==> before.objects[key].others))
    else
      && after.bindings == (if err then before.bindings else Bound(before.bindings, key))
      && (!err ==> Guarded(after, key))
      && (!err ==> (BindingsOf(after.bindings, key) != {} <==>
                    BindingName(key) !in before.bindings || BindingsOf(before.bindings, key) != {}))
  }

  /** Nothing but some of the given part is gone. */
  predicate Trimmed(before: map<string, Labels>, after: map<string, Labels>, part: set<string>) {
    && after.Keys <= before.Keys && before.Keys - after.Keys <= part
    && forall b | b in after :: after[b] == before[b]
  }

  function Named(xs: seq<string>): set<string> {
    set x | x in xs
  }

  lemma EnumeratesAll(xs: seq<string>, all: set<string>)
    requires Distinct(xs) && forall x :: x in xs <==> x in all
    ensures Named(xs) == all && |xs| == |all|
  {
    DistinctSize(xs);
  }

  lemma {:induction false} DistinctSize(xs: seq<string>)
    requires Distinct(xs)
    ensures |Named(xs)| == |xs|
  {
    if xs != [] {
      DistinctSize(xs[1..]);
      assert xs == [xs[0]] + xs[1..];
      assert Named(xs) == Named(xs[1..]) + {xs[0]};
    }
  }

  lemma NextNamed(xs: seq<string>, i: nat)
    requires i < |xs| && Distinct(xs)
    ensures Named(xs[..i + 1]) == Named(xs[..i]) + {xs[i]} && xs[i] !in Named(xs[..i])
  {
  }
}
