/**
  The finalizer helper as a protocol: any number of controllers, each with any number of
  invocations in flight, work from possibly stale snapshots of one object incarnation while
  users edit and delete it. The API server stores the object and runs JSON patches atomically.
 */
module Finalizer {
  import opened Common
  import opened JsonPatch

  // ---------- One invocation ----------

  /** What the helper reads of the object it is given. */
  datatype Snapshot = Snapshot(named: bool, finalizers: seq<Name>, deleting: bool)

  function FindIndex(l: seq<Name>, name: Name): (r: Option<nat>)
    ensures r.None? <==> name !in l
    ensures r.Some? ==> r.value < |l| && l[r.value] == name && name !in l[..r.value]
  {
    if l == [] then None
    else if l[0] == name then Some(0)
    else
      var rest := FindIndex(l[1..], name);
      if rest.None? then None
      else
        assert l[..rest.value + 1] == [l[0]] + l[1..][..rest.value];
        Some(rest.value + 1)
  }

  datatype Decision =
    | RunApply
    | RunCleanup(removal: seq<Op>) // the patch to send once the cleanup has succeeded
    | SendAdd(addition: seq<Op>)
    | AwaitChange
    | UnnamedObject

  function RemovalPatch(i: nat, name: Name): seq<Op> {
    [Test(IndexPath(i), Str(name)), Remove(IndexPath(i))]
  }

  function AdditionPatch(seen: seq<Name>, name: Name): seq<Op> {
    if seen == [] then [Test(ListPath, Null), Add(ListPath, List([name]))]
    else [Test(ListPath, List(seen)), Add(EndPath, Str(name))]
  }

  /** The four-way match on whether our finalizer is present and whether the object is being deleted. */
  function Decide(obj: Snapshot, name: Name): Decision {
    var index := FindIndex(obj.finalizers, name);
    if index.Some? && !obj.deleting then RunApply
    else if index.Some? then
      if obj.named then RunCleanup(RemovalPatch(index.value, name)) else UnnamedObject
    else if !obj.deleting then
      if obj.named then SendAdd(AdditionPatch(obj.finalizers, name)) else UnnamedObject
    else AwaitChange
  }

  // ---------- What a patch does to the stored list ----------

  /** A removal, from any snapshot and on any list, takes out one occurrence of `name` or fails. */
  lemma RemovalEffect(l: seq<Name>, i: nat, name: Name, absentIsNull: bool)
    ensures PatchList(l, RemovalPatch(i, name), absentIsNull)
            == if i < |l| && l[i] == name then Some(RemoveAt(l, i)) else None
  {
    TwoStepPatch(ToDoc(l), Test(IndexPath(i), Str(name)), Remove(IndexPath(i)), absentIsNull);
  }

  /** An addition appends `name` exactly when the list is still the one in the snapshot. */
  lemma AdditionEffect(l: seq<Name>, seen: seq<Name>, name: Name, absentIsNull: bool)
    ensures PatchList(l, AdditionPatch(seen, name), absentIsNull)
            == if l == seen && (l != [] || absentIsNull) then Some(l + [name]) else None
  {
    var p := AdditionPatch(seen, name);
    TwoStepPatch(ToDoc(l), p[0], p[1], absentIsNull);
    assert p == [p[0], p[1]];
    if l == [] {
      assert l + [name] == [name];
    }
  }

  /** The patch that a decision sends to the server, if it sends one. */
  function PatchOf(d: Decision): Option<seq<Op>> {
    match d
    case RunCleanup(p) => Some(p)
    case SendAdd(p) => Some(p)
    case _ => None
  }

  /**
    Which objects a patch is sent for: named ones that are to be kept and lack the name, or are to go and
    still have it. Without a name for the object that is an error; in all other cases nothing is sent.
   */
  lemma SendsIff(obj: Snapshot, name: Name)
    ensures PatchOf(Decide(obj, name)).Some? <==> obj.named && (obj.deleting <==> name in obj.finalizers)
    ensures Decide(obj, name).RunCleanup? ==> obj.deleting
    ensures Decide(obj, name) == UnnamedObject <==> !obj.named && (obj.deleting <==> name in obj.finalizers)
    ensures Decide(obj, name) == RunApply <==> !obj.deleting && name in obj.finalizers
    ensures Decide(obj, name) == AwaitChange <==> obj.deleting && name !in obj.finalizers
  {
  }

  lemma {:induction false} DistinctAfterRemoveAt(l: seq<Name>, i: nat)
    requires i < |l| && Distinct(l)
    ensures Distinct(RemoveAt(l, i)) && l[i] !in RemoveAt(l, i)
  {
    var r := RemoveAt(l, i);
    assert forall k :: 0 <= k < |r| ==> r[k] == if k < i then l[k] else l[k + 1];
  }

  /**
    List safety. From any snapshot, however stale, the patch fails or touches only `name`: the other
    names keep order and multiplicity, a duplicate-free list stays duplicate-free, an addition never
    adds a second copy and a removal removes exactly one.
   */
  lemma PatchTouchesOnlyOwnName(obj: Snapshot, name: Name, l: seq<Name>, absentIsNull: bool)
    requires PatchOf(Decide(obj, name)).Some?
    ensures var after := PatchList(l, PatchOf(Decide(obj, name)).value, absentIsNull);
            after.Some? ==>
              && Others(after.value, name) == Others(l, name)
              && (Distinct(l) ==> Distinct(after.value))
              && (Decide(obj, name).SendAdd? ==> name !in l && after.value == l + [name])
              && (Decide(obj, name).RunCleanup? ==>
                    name in l && |after.value| == |l| - 1 && (Distinct(l) ==> name !in after.value))
  {
    match Decide(obj, name)
    case SendAdd(_) =>
      AdditionEffect(l, obj.finalizers, name, absentIsNull);
      OthersConcat(l, [name], name);
      assert Others([name], name) == [];
    case RunCleanup(_) =>
      var i := FindIndex(obj.finalizers, name).value;
      RemovalEffect(l, i, name, absentIsNull);
      if i < |l| && l[i] == name {
        assert l == l[..i] + ([name] + l[i + 1..]);
        OthersConcat(l[..i], [name] + l[i + 1..], name);
        OthersConcat([name], l[i + 1..], name);
        assert Others([name], name) == [];
        OthersConcat(l[..i], l[i + 1..], name);
        if Distinct(l) {
          DistinctAfterRemoveAt(l, i);
        }
      }
  }

  /**
    A patch built from a fresh snapshot passes, except in one case: the very first finalizer of an
    object, on a server that follows section 4.6 of RFC 6902 to the letter and refuses to test an
    absent member. The Kubernetes API server is not such a server.
   */
  lemma FreshPatchPasses(obj: Snapshot, name: Name, absentIsNull: bool)
    requires PatchOf(Decide(obj, name)).Some?
    ensures PatchList(obj.finalizers, PatchOf(Decide(obj, name)).value, absentIsNull).Some?
            <==> obj.finalizers != [] || absentIsNull
  {
    match Decide(obj, name)
    case SendAdd(_) => AdditionEffect(obj.finalizers, obj.finalizers, name, absentIsNull);
    case RunCleanup(_) =>
      RemovalEffect(obj.finalizers, FindIndex(obj.finalizers, name).value, name, absentIsNull);
  }

  // ---------- The protocol ----------

  /** Where one invocation of the helper is. A removal is only in flight after a successful cleanup. */
  datatype Phase =
    | Applying
    | Cleaning(removal: seq<Op>)
    | Patching(patch: seq<Op>)

  datatype Invocation = Invocation(ctrl: nat, phase: Phase)

  datatype LogEntry = ApplyStarted(ctrl: nat) | CleanupSucceeded(ctrl: nat) | Gone

  /**
    `versions` holds every version of the object the server has stored, oldest first; a controller
    may be looking at any of them. `latest[c]` is the newest version controller `c` has acted on.
   */
  datatype State = State(
    server: Option<Snapshot>,
    versions: seq<Snapshot>,
    inflight: map<nat, Invocation>,
    latest: seq<nat>,
    log: seq<LogEntry>)

  datatype Step =
    | Begin(id: nat, ctrl: nat, version: nat) // `finalizer` is called on some version of the object
    | CleanupDone(id: nat)                    // the reconciler's cleanup returned Ok
    | Drop(id: nat)                           // finished, failed, cancelled, or the request was refused
    | PatchArrives(id: nat, absentIsNull: bool)
    | UserEdit(finalizers: seq<Name>)
    | UserDelete

  ghost predicate Init(names: seq<Name>, s: State) {
    && s.server.Some?
    && !s.server.value.deleting
    && s.versions == [s.server.value]
    && s.inflight == map[]
    && |s.latest| == |names| && (forall c :: 0 <= c < |names| ==> s.latest[c] == 0)
    && s.log == []
  }

  /** Store a new version; an object being deleted goes away once its last finalizer is gone. */
  function Write(s: State, obj: Snapshot): State {
    if obj.deleting && obj.finalizers == [] then
      s.(server := None, log := s.log + [Gone])
    else
      s.(server := Some(obj), versions := s.versions + [obj])
  }

  function BeginInvocation(names: seq<Name>, s: State, id: nat, ctrl: nat, version: nat): State
    requires ctrl < |names| == |s.latest| && version < |s.versions|
  {
    var t := s.(latest := s.latest[ctrl := version]);
    match Decide(s.versions[version], names[ctrl])
    case RunApply =>
      t.(inflight := s.inflight[id := Invocation(ctrl, Applying)], log := s.log + [ApplyStarted(ctrl)])
    case RunCleanup(p) => t.(inflight := s.inflight[id := Invocation(ctrl, Cleaning(p))])
    case SendAdd(p) => t.(inflight := s.inflight[id := Invocation(ctrl, Patching(p))])
    case _ => t
  }

  /** Users may do anything to the list except strip the name of a controller. */
  ghost predicate KeepsControllers(names: seq<Name>, before: seq<Name>, after: seq<Name>) {
    forall c :: 0 <= c < |names| && names[c] in before ==> names[c] in after
  }

  ghost predicate NextStep(names: seq<Name>, s: State, t: State, step: Step) {
    match step
    case Begin(id, ctrl, version) =>
      && ctrl < |names| == |s.latest| && version < |s.versions| && id !in s.inflight
      && t == BeginInvocation(names, s, id, ctrl, version)
    case CleanupDone(id) =>
      && id in s.inflight && s.inflight[id].phase.Cleaning?
      && var inv := s.inflight[id];
         t == s.(inflight := s.inflight[id := inv.(phase := Patching(inv.phase.removal))],
                 log := s.log + [CleanupSucceeded(inv.ctrl)])
    case Drop(id) =>
      && id in s.inflight
      && t == s.(inflight := s.inflight - {id})
    case PatchArrives(id, absentIsNull) =>
      && id in s.inflight && s.inflight[id].phase.Patching?
      && s.server.Some?
      && var after := PatchList(s.server.value.finalizers, s.inflight[id].phase.patch, absentIsNull);
         && after.Some?
         && t == Write(s.(inflight := s.inflight - {id}), s.server.value.(finalizers := after.value))
    case UserEdit(finalizers) =>
      && s.server.Some?
      && KeepsControllers(names, s.server.value.finalizers, finalizers)
      && t == Write(s, s.server.value.(finalizers := finalizers))
    case UserDelete =>
      && s.server.Some?
      && t == Write(s, s.server.value.(deleting := true))
  }

  ghost predicate Next(names: seq<Name>, s: State, t: State) {
    exists step :: NextStep(names, s, t, step)
  }

  ghost predicate Run(names: seq<Name>, run: seq<State>) {
    && |run| > 0
    && Init(names, run[0])
    && forall k :: 0 <= k < |run| - 1 ==> Next(names, run[k], run[k + 1])
  }

  // ---------- The invariant ----------

  ghost predicate Present(names: seq<Name>, s: State, c: nat)
    requires c < |names|
  {
    s.server.Some? && names[c] in s.server.value.finalizers
  }

  /** Controller `c`'s name has been on some stored version of the object. */
  ghost predicate Seen(names: seq<Name>, s: State, c: nat)
    requires c < |names|
  {
    exists v :: 0 <= v < |s.versions| && names[c] in s.versions[v].finalizers
  }

  /** A request in flight that can take a controller's name off the list belongs to that controller,
      which has cleaned up. */
  ghost predicate InvocationOk(names: seq<Name>, s: State, inv: Invocation) {
    && inv.ctrl < |names|
    && match inv.phase
       case Applying => true
       case Cleaning(p) => exists i: nat :: p == RemovalPatch(i, names[inv.ctrl])
       case Patching(p) =>
         || (exists seen :: p == AdditionPatch(seen, names[inv.ctrl]))
         || (CleanupSucceeded(inv.ctrl) in s.log && exists i: nat :: p == RemovalPatch(i, names[inv.ctrl]))
  }

  ghost predicate Invariant(names: seq<Name>, s: State) {
    && |s.latest| == |names|
    && (forall c :: 0 <= c < |names| && Seen(names, s, c) ==>
          Present(names, s, c) || CleanupSucceeded(c) in s.log)
    && (forall c: nat :: ApplyStarted(c) in s.log ==> c < |names| && Seen(names, s, c))
    && (s.server.Some? ==> s.server.value in s.versions)
    && (forall id :: id in s.inflight ==> InvocationOk(names, s, s.inflight[id]))
    && (s.server.Some? <==> Gone !in s.log)
    && (forall k, c :: 0 <= k < |s.log| && s.log[k] == Gone && 0 <= c < |names| && Seen(names, s, c) ==>
          CleanupSucceeded(c) in s.log[..k])
  }

  /** Storing a version that drops only names already cleaned up for keeps the invariant. */
  lemma WriteKeepsInvariant(names: seq<Name>, s: State, obj: Snapshot)
    requires Invariant(names, s) && s.server.Some?
    requires forall c :: 0 <= c < |names| && names[c] in s.server.value.finalizers ==>
               names[c] in obj.finalizers || CleanupSucceeded(c) in s.log
    ensures Invariant(names, Write(s, obj))
  {
    var t := Write(s, obj);
    forall c | 0 <= c < |names| && Seen(names, t, c)
      ensures Present(names, t, c) || CleanupSucceeded(c) in s.log
    {
      assert Seen(names, s, c) || names[c] in obj.finalizers;
    }
    forall c: nat | ApplyStarted(c) in t.log ensures c < |names| && Seen(names, t, c) {
      assert ApplyStarted(c) in s.log;
      var v :| 0 <= v < |s.versions| && names[c] in s.versions[v].finalizers;
      assert s.versions[v] == t.versions[v];
    }
    forall id | id in t.inflight ensures InvocationOk(names, t, t.inflight[id]) {
      assert InvocationOk(names, s, s.inflight[id]);
    }
    if t.server.None? {
      forall k, c | 0 <= k < |t.log| && t.log[k] == Gone && 0 <= c < |names| && Seen(names, t, c)
        ensures CleanupSucceeded(c) in t.log[..k]
      {
        assert k == |s.log| && t.log[..k] == s.log;
      }
    }
  }

  lemma PatchKeepsInvariant(names: seq<Name>, s: State, t: State, id: nat, absentIsNull: bool)
    requires Distinct(names) && Invariant(names, s)
    requires NextStep(names, s, t, PatchArrives(id, absentIsNull))
    ensures Invariant(names, t)
  {
    var inv := s.inflight[id];
    var l := s.server.value.finalizers;
    var p := inv.phase.patch;
    var after := PatchList(l, p, absentIsNull).value;
    assert InvocationOk(names, s, inv);
    if seen :| p == AdditionPatch(seen, names[inv.ctrl]) {
      AdditionEffect(l, seen, names[inv.ctrl], absentIsNull);
    } else {
      var i: nat :| p == RemovalPatch(i, names[inv.ctrl]);
      RemovalEffect(l, i, names[inv.ctrl], absentIsNull);
      assert l == l[..i] + [l[i]] + l[i + 1..];
    }
    WriteKeepsInvariant(names, s.(inflight := s.inflight - {id}), s.server.value.(finalizers := after));
  }

  lemma BeginKeepsInvariant(names: seq<Name>, s: State, t: State, id: nat, ctrl: nat, version: nat)
    requires Invariant(names, s)
    requires NextStep(names, s, t, Begin(id, ctrl, version))
    ensures Invariant(names, t)
  {
    var obj := s.versions[version];
    assert forall c :: 0 <= c < |names| ==> (Seen(names, s, c) <==> Seen(names, t, c));
    assert Decide(obj, names[ctrl]).RunApply? ==> Seen(names, s, ctrl);
    forall i | i in t.inflight ensures InvocationOk(names, t, t.inflight[i]) {
      if i in s.inflight {
        assert InvocationOk(names, s, s.inflight[i]);
      }
    }
    forall k, c | 0 <= k < |t.log| && t.log[k] == Gone && 0 <= c < |names| && Seen(names, t, c)
      ensures CleanupSucceeded(c) in t.log[..k]
    {
      assert t.log[..k] == s.log[..k];
    }
  }

  lemma CleanupDoneKeepsInvariant(names: seq<Name>, s: State, t: State, id: nat)
    requires Invariant(names, s)
    requires NextStep(names, s, t, CleanupDone(id))
    ensures Invariant(names, t)
  {
    assert forall c :: 0 <= c < |names| ==> (Seen(names, s, c) <==> Seen(names, t, c));
    forall i | i in t.inflight ensures InvocationOk(names, t, t.inflight[i]) {
      assert InvocationOk(names, s, s.inflight[i]);
    }
    forall k, c | 0 <= k < |t.log| && t.log[k] == Gone && 0 <= c < |names| && Seen(names, t, c)
      ensures CleanupSucceeded(c) in t.log[..k]
    {
      assert t.log[..k] == s.log[..k];
    }
  }

  lemma NextKeepsInvariant(names: seq<Name>, s: State, t: State)
    requires Distinct(names) && Invariant(names, s) && Next(names, s, t)
    ensures Invariant(names, t)
  {
    var step :| NextStep(names, s, t, step);
    match step
    case Begin(id, ctrl, version) => BeginKeepsInvariant(names, s, t, id, ctrl, version);
    case CleanupDone(id) => CleanupDoneKeepsInvariant(names, s, t, id);
    case Drop(id) =>
      assert forall c :: 0 <= c < |names| ==> (Seen(names, s, c) <==> Seen(names, t, c));
      forall i | i in t.inflight ensures InvocationOk(names, t, t.inflight[i]) {
        assert InvocationOk(names, s, s.inflight[i]);
      }
    case PatchArrives(id, absentIsNull) => PatchKeepsInvariant(names, s, t, id, absentIsNull);
    case UserEdit(finalizers) => WriteKeepsInvariant(names, s, s.server.value.(finalizers := finalizers));
    case UserDelete => WriteKeepsInvariant(names, s, s.server.value.(deleting := true));
  }

  lemma {:induction false} RunKeepsInvariant(names: seq<Name>, run: seq<State>, k: nat)
    requires Distinct(names) && Run(names, run) && k < |run|
    ensures Invariant(names, run[k])
  {
    if k == 0 {
      assert forall c :: 0 <= c < |names| && Seen(names, run[0], c) ==> Present(names, run[0], c);
    } else {
      RunKeepsInvariant(names, run, k - 1);
      assert Next(names, run[k - 1], run[k - 1 + 1]);
      NextKeepsInvariant(names, run[k - 1], run[k]);
    }
  }

  /**
    The documented guarantee. In every run, if the apply of some controller ever starts - even from a
    stale version, even after the object is gone - and the object's deletion completes, then a cleanup
    of that same controller succeeded before the deletion completed.
   */
  lemma CleanupBeforeGone(names: seq<Name>, run: seq<State>, k: nat, i: nat, g: nat)
    requires Distinct(names) && Run(names, run) && k < |run|
    requires i < |run[k].log| && run[k].log[i].ApplyStarted?
    requires g < |run[k].log| && run[k].log[g] == Gone
    ensures exists j :: 0 <= j < g && run[k].log[j] == CleanupSucceeded(run[k].log[i].ctrl)
  {
    RunKeepsInvariant(names, run, k);
    var log := run[k].log;
    var c := log[i].ctrl;
    assert ApplyStarted(c) in log;
    assert CleanupSucceeded(c) in log[..g];
  }

  /** Over a whole run the stored list never holds a name twice, if no user writes such a list. */
  ghost predicate DuplicateFree(s: State) {
    forall v :: 0 <= v < |s.versions| ==> Distinct(s.versions[v].finalizers)
  }

  ghost predicate UsersKeepDistinct(names: seq<Name>, s: State, t: State) {
    exists step :: NextStep(names, s, t, step) && (step.UserEdit? ==> Distinct(step.finalizers))
  }

  /** A request in flight was decided on by its controller, looking at some version. */
  ghost predicate DecidedPatch(names: seq<Name>, inv: Invocation) {
    && inv.ctrl < |names|
    && (inv.phase.Cleaning? ==>
          exists obj :: PatchOf(Decide(obj, names[inv.ctrl])) == Some(inv.phase.removal))
    && (inv.phase.Patching? ==>
          exists obj :: PatchOf(Decide(obj, names[inv.ctrl])) == Some(inv.phase.patch))
  }

  ghost predicate ListInvariant(names: seq<Name>, s: State) {
    && DuplicateFree(s)
    && (s.server.Some? ==> s.server.value in s.versions)
    && (forall id :: id in s.inflight ==> DecidedPatch(names, s.inflight[id]))
  }

  lemma BeginKeepsListInvariant(names: seq<Name>, s: State, t: State, id: nat, ctrl: nat, version: nat)
    requires ListInvariant(names, s) && NextStep(names, s, t, Begin(id, ctrl, version))
    ensures ListInvariant(names, t)
  {
    assert PatchOf(Decide(s.versions[version], names[ctrl])).Some? ==> DecidedPatch(names, t.inflight[id]);
  }

  lemma PatchKeepsListInvariant(names: seq<Name>, s: State, t: State, id: nat, absentIsNull: bool)
    requires ListInvariant(names, s) && NextStep(names, s, t, PatchArrives(id, absentIsNull))
    ensures ListInvariant(names, t)
  {
    var inv := s.inflight[id];
    assert DecidedPatch(names, inv);
    var obj :| PatchOf(Decide(obj, names[inv.ctrl])) == Some(inv.phase.patch);
    PatchTouchesOnlyOwnName(obj, names[inv.ctrl], s.server.value.finalizers, absentIsNull);
  }

  lemma NextKeepsListInvariant(names: seq<Name>, s: State, t: State)
    requires ListInvariant(names, s) && UsersKeepDistinct(names, s, t)
    ensures ListInvariant(names, t)
  {
    var step :| NextStep(names, s, t, step) && (step.UserEdit? ==> Distinct(step.finalizers));
    match step
    case Begin(id, ctrl, version) => BeginKeepsListInvariant(names, s, t, id, ctrl, version);
    case CleanupDone(id) => assert DecidedPatch(names, s.inflight[id]);
    case PatchArrives(id, absentIsNull) => PatchKeepsListInvariant(names, s, t, id, absentIsNull);
    case _ =>
  }

  lemma {:induction false} ListStaysDuplicateFree(names: seq<Name>, run: seq<State>, k: nat)
    requires Run(names, run) && k < |run|
    requires Distinct(run[0].server.value.finalizers)
    requires forall n :: 0 <= n < |run| - 1 ==> UsersKeepDistinct(names, run[n], run[n + 1])
    ensures ListInvariant(names, run[k])
  {
    if k > 0 {
      ListStaysDuplicateFree(names, run, k - 1);
      assert UsersKeepDistinct(names, run[k - 1], run[k - 1 + 1]);
      NextKeepsListInvariant(names, run[k - 1], run[k]);
    }
  }

  // ---------- When an apply can follow a cleanup ----------

  /** A run together with the step taken at each point. */
  ghost predicate RunBy(names: seq<Name>, run: seq<State>, steps: seq<Step>) {
    && Run(names, run) && |run| == |steps| + 1
    && forall k :: 0 <= k < |steps| ==> NextStep(names, run[k], run[k + 1], steps[k])
  }

  /** The step is the end of a successful cleanup by controller `c`. */
  ghost predicate Cleans(s: State, step: Step, c: nat) {
    step.CleanupDone? && step.id in s.inflight && s.inflight[step.id].ctrl == c
  }

  /** The step has controller `c` act on a version that is not being deleted and lists the controller's name. */
  ghost predicate ActsOnLive(names: seq<Name>, s: State, step: Step, c: nat) {
    && step.Begin? && step.ctrl == c < |names| && step.version < |s.versions|
    && !s.versions[step.version].deleting && names[c] in s.versions[step.version].finalizers
  }

  ghost predicate ApplyFollowsCleanup(log: seq<LogEntry>, c: nat) {
    exists j, i :: 0 <= j < i < |log| && log[j] == CleanupSucceeded(c) && log[i] == ApplyStarted(c)
  }

  ghost predicate ActsOnLiveAfterCleanup(names: seq<Name>, run: seq<State>, steps: seq<Step>, n: nat, c: nat)
    requires n <= |steps| < |run|
  {
    exists k, m :: 0 <= k < m < n && Cleans(run[k], steps[k], c) && ActsOnLive(names, run[m], steps[m], c)
  }

  /** A step logs at most one thing; which one is decided by what it acts on. */
  lemma StepLogs(names: seq<Name>, s: State, t: State, step: Step, c: nat)
    requires NextStep(names, s, t, step)
    ensures s.log <= t.log && |t.log| <= |s.log| + 1
    ensures t.log == s.log + [ApplyStarted(c)] <==> ActsOnLive(names, s, step, c)
    ensures t.log == s.log + [CleanupSucceeded(c)] <==> Cleans(s, step, c)
  {
    assert |t.log| > |s.log| ==> t.log == s.log + [t.log[|s.log|]];
  }

  /** The log grows by at most one entry at a time. */
  ghost predicate LogsGrow(run: seq<State>) {
    forall k :: 0 < k < |run| ==> Grows(run[k - 1].log, run[k].log)
  }

  ghost predicate Grows(before: seq<LogEntry>, after: seq<LogEntry>) {
    before <= after && |after| <= |before| + 1
  }

  lemma RunLogsGrow(names: seq<Name>, run: seq<State>, steps: seq<Step>)
    requires RunBy(names, run, steps)
    ensures LogsGrow(run)
  {
    forall k | 0 < k < |run| ensures Grows(run[k - 1].log, run[k].log) {
      assert NextStep(names, run[k - 1], run[k - 1 + 1], steps[k - 1]);
      StepLogs(names, run[k - 1], run[k], steps[k - 1], 0);
    }
  }

  lemma {:induction false} LogOnlyGrows(run: seq<State>, k: nat, m: nat)
    requires LogsGrow(run) && k <= m < |run|
    ensures run[k].log <= run[m].log
  {
    if k < m {
      LogOnlyGrows(run, k, m - 1);
      assert Grows(run[m - 1].log, run[m].log);
    }
  }

  /** The step that logged an entry. */
  lemma {:induction false} LoggedAt(run: seq<State>, n: nat, i: nat) returns (k: nat)
    requires LogsGrow(run) && n < |run| && i < |run[n].log| && run[0].log == []
    ensures k < n && |run[k].log| == i && run[k + 1].log == run[k].log + [run[n].log[i]]
  {
    k := n - 1;
    assert Grows(run[k].log, run[n].log);
    if i < |run[k].log| {
      k := LoggedAt(run, n - 1, i);
    } else {
      assert run[n].log == run[k].log + [run[n].log[i]];
    }
  }

  lemma CleanupThenApply(names: seq<Name>, run: seq<State>, steps: seq<Step>, n: nat, c: nat)
    requires RunBy(names, run, steps) && n < |run| && ApplyFollowsCleanup(run[n].log, c)
    ensures ActsOnLiveAfterCleanup(names, run, steps, n, c)
  {
    var log := run[n].log;
    var j, i :| 0 <= j < i < |log| && log[j] == CleanupSucceeded(c) && log[i] == ApplyStarted(c);
    RunLogsGrow(names, run, steps);
    var k := LoggedAt(run, n, j);
    var m := LoggedAt(run, n, i);
    StepLogs(names, run[k], run[k + 1], steps[k], c);
    StepLogs(names, run[m], run[m + 1], steps[m], c);
    if m <= k {
      LogOnlyGrows(run, m, k);
    }
    assert Cleans(run[k], steps[k], c) && ActsOnLive(names, run[m], steps[m], c);
  }

  lemma ActsThenApplies(names: seq<Name>, run: seq<State>, steps: seq<Step>, n: nat, c: nat)
    requires RunBy(names, run, steps) && n < |run| && ActsOnLiveAfterCleanup(names, run, steps, n, c)
    ensures ApplyFollowsCleanup(run[n].log, c)
  {
    var k, m :| 0 <= k < m < n && Cleans(run[k], steps[k], c) && ActsOnLive(names, run[m], steps[m], c);
    StepLogs(names, run[k], run[k + 1], steps[k], c);
    StepLogs(names, run[m], run[m + 1], steps[m], c);
    RunLogsGrow(names, run, steps);
    LogOnlyGrows(run, k + 1, m);
    LogOnlyGrows(run, m + 1, n);
    var log, j, i := run[n].log, |run[k].log|, |run[m].log|;
    assert log[j] == CleanupSucceeded(c) && log[i] == ApplyStarted(c);
  }

  /**
    Exactly when an apply follows a cleanup: in every run, up to every point, an apply of a controller
    starts after one of its cleanups succeeded if and only if after such a cleanup it acts on a stored
    version that is not being deleted and still lists its name.
   */
  lemma ApplyFollowsCleanupIff(names: seq<Name>, run: seq<State>, steps: seq<Step>, n: nat, c: nat)
    requires RunBy(names, run, steps) && n < |run|
    ensures ApplyFollowsCleanup(run[n].log, c) <==> ActsOnLiveAfterCleanup(names, run, steps, n, c)
  {
    if ApplyFollowsCleanup(run[n].log, c) {
      CleanupThenApply(names, run, steps, n, c);
    }
    if ActsOnLiveAfterCleanup(names, run, steps, n, c) {
      ActsThenApplies(names, run, steps, n, c);
    }
  }

  // ---------- Snapshots taken in order are enough ----------

  /** A controller that never goes back to an older version of the object than it has acted on. */
  ghost predicate InOrder(s: State, step: Step) {
    step.Begin? ==> step.ctrl < |s.latest| && s.latest[step.ctrl] <= step.version
  }

  ghost predicate OrderedRun(names: seq<Name>, run: seq<State>, steps: seq<Step>) {
    RunBy(names, run, steps) && forall k :: 0 <= k < |steps| ==> InOrder(run[k], steps[k])
  }

  ghost predicate HasCleaned(s: State, c: nat) {
    || CleanupSucceeded(c) in s.log
    || exists id :: id in s.inflight && s.inflight[id].ctrl == c && s.inflight[id].phase.Cleaning?
  }

  /** Once a stored version is being deleted, all later ones are; the newest is the server's. */
  ghost predicate DeletionIsFinal(s: State) {
    && |s.versions| > 0
    && (forall v, w :: 0 <= v < w < |s.versions| && s.versions[v].deleting ==> s.versions[w].deleting)
    && (s.server.Some? ==> s.server.value == s.versions[|s.versions| - 1])
  }

  /** A controller that started a cleanup has acted on a version being deleted. */
  ghost predicate CleanersSawDeletion(names: seq<Name>, s: State) {
    && |s.latest| == |names|
    && (forall c :: 0 <= c < |names| ==> s.latest[c] < |s.versions|)
    && (forall id :: id in s.inflight ==> s.inflight[id].ctrl < |names|)
    && (forall c: nat :: HasCleaned(s, c) ==> c < |names| && s.versions[s.latest[c]].deleting)
  }

  ghost predicate OrderInvariant(names: seq<Name>, s: State) {
    DeletionIsFinal(s) && CleanersSawDeletion(names, s)
  }

  lemma BeginKeepsOrder(names: seq<Name>, s: State, t: State, id: nat, ctrl: nat, version: nat)
    requires OrderInvariant(names, s) && NextStep(names, s, t, Begin(id, ctrl, version))
    requires s.latest[ctrl] <= version
    ensures OrderInvariant(names, t)
  {
    var d := Decide(s.versions[version], names[ctrl]);
    forall c: nat | HasCleaned(t, c) ensures c < |names| && t.versions[t.latest[c]].deleting {
      if c != ctrl || !d.RunCleanup? {
        assert HasCleaned(s, c);
      }
    }
  }

  lemma WriteKeepsOrder(names: seq<Name>, s: State, obj: Snapshot)
    requires OrderInvariant(names, s) && s.server.Some? && (s.server.value.deleting ==> obj.deleting)
    ensures OrderInvariant(names, Write(s, obj))
  {
    var t := Write(s, obj);
    forall c: nat | HasCleaned(t, c) ensures c < |names| && t.versions[t.latest[c]].deleting {
      assert HasCleaned(s, c);
      assert t.versions[t.latest[c]] == s.versions[s.latest[c]];
    }
  }

  lemma DropKeepsOrder(names: seq<Name>, s: State, id: nat)
    requires OrderInvariant(names, s)
    ensures OrderInvariant(names, s.(inflight := s.inflight - {id}))
  {
    var t := s.(inflight := s.inflight - {id});
    forall c: nat | HasCleaned(t, c) ensures HasCleaned(s, c) {
    }
  }

  lemma CleanupDoneKeepsOrder(names: seq<Name>, s: State, t: State, id: nat)
    requires OrderInvariant(names, s) && NextStep(names, s, t, CleanupDone(id))
    ensures OrderInvariant(names, t)
  {
    forall c: nat | HasCleaned(t, c) ensures HasCleaned(s, c) {
    }
  }

  lemma OrderedStepKeepsOrder(names: seq<Name>, s: State, t: State, step: Step)
    requires OrderInvariant(names, s) && NextStep(names, s, t, step) && InOrder(s, step)
    ensures OrderInvariant(names, t)
  {
    match step
    case Begin(id, ctrl, version) => BeginKeepsOrder(names, s, t, id, ctrl, version);
    case CleanupDone(id) => CleanupDoneKeepsOrder(names, s, t, id);
    case Drop(id) => DropKeepsOrder(names, s, id);
    case PatchArrives(id, absentIsNull) =>
      var after := PatchList(s.server.value.finalizers, s.inflight[id].phase.patch, absentIsNull);
      DropKeepsOrder(names, s, id);
      WriteKeepsOrder(names, s.(inflight := s.inflight - {id}), s.server.value.(finalizers := after.value));
    case UserEdit(finalizers) => WriteKeepsOrder(names, s, s.server.value.(finalizers := finalizers));
    case UserDelete => WriteKeepsOrder(names, s, s.server.value.(deleting := true));
  }

  lemma {:induction false} OrderedRunKeepsOrder(names: seq<Name>, run: seq<State>, steps: seq<Step>, k: nat)
    requires OrderedRun(names, run, steps) && k < |run|
    ensures OrderInvariant(names, run[k])
  {
    if k > 0 {
      OrderedRunKeepsOrder(names, run, steps, k - 1);
      assert InOrder(run[k - 1], steps[k - 1]) && NextStep(names, run[k - 1], run[k - 1 + 1], steps[k - 1]);
      OrderedStepKeepsOrder(names, run[k - 1], run[k], steps[k - 1]);
    }
  }

  /** Acting in order, a controller that has cleaned up only ever sees versions being deleted. */
  lemma CleanedSeesDeletion(names: seq<Name>, run: seq<State>, steps: seq<Step>, k: nat, m: nat, c: nat)
    requires RunBy(names, run, steps) && k < m < |steps| && Cleans(run[k], steps[k], c)
    requires OrderInvariant(names, run[m]) && InOrder(run[m], steps[m])
    ensures !ActsOnLive(names, run[m], steps[m], c)
  {
    StepLogs(names, run[k], run[k + 1], steps[k], c);
    RunLogsGrow(names, run, steps);
    LogOnlyGrows(run, k + 1, m);
    assert CleanupSucceeded(c) == run[m].log[|run[k].log|];
    assert HasCleaned(run[m], c);
  }

  /** With snapshots taken in order, no apply ever starts after a successful cleanup of the same controller. */
  lemma NoApplyAfterCleanup(names: seq<Name>, run: seq<State>, steps: seq<Step>, n: nat, c: nat)
    requires OrderedRun(names, run, steps) && n < |run|
    ensures !ApplyFollowsCleanup(run[n].log, c)
  {
    forall k, m | 0 <= k < m < n && Cleans(run[k], steps[k], c) ensures !ActsOnLive(names, run[m], steps[m], c) {
      OrderedRunKeepsOrder(names, run, steps, m);
      CleanedSeesDeletion(names, run, steps, k, m, c);
    }
    ApplyFollowsCleanupIff(names, run, steps, n, c);
  }

  lemma Extend(names: seq<Name>, run: seq<State>, t: State, step: Step)
    requires Run(names, run) && NextStep(names, run[|run| - 1], t, step)
    ensures Run(names, run + [t])
  {
    var longer := run + [t];
    forall k | 0 <= k < |longer| - 1 ensures Next(names, longer[k], longer[k + 1]) {
      if k < |run| - 1 {
        assert Next(names, run[k], run[k + 1]);
      }
    }
  }

  // ---------- The documented flow ----------

  /** The newest version is the one the server stores, and every controller has a latest version. */
  ghost predicate Stored(names: seq<Name>, s: State) {
    && |s.latest| == |names| && |s.versions| > 0
    && (s.server.Some? ==> s.server.value == s.versions[|s.versions| - 1])
  }

  lemma {:induction false} RunStores(names: seq<Name>, run: seq<State>, k: nat)
    requires Run(names, run) && k < |run|
    ensures Stored(names, run[k])
  {
    if k > 0 {
      RunStores(names, run, k - 1);
      assert Next(names, run[k - 1], run[k - 1 + 1]);
      NextStores(names, run[k - 1], run[k]);
    }
  }

  lemma NextStores(names: seq<Name>, s: State, t: State)
    requires Stored(names, s) && Next(names, s, t)
    ensures Stored(names, t)
  {
    var step :| NextStep(names, s, t, step);
    match step
    case Begin(id, ctrl, version) => BeginStores(names, s, id, ctrl, version);
    case PatchArrives(id, absentIsNull) => PatchStores(names, s, t, id, absentIsNull);
    case UserEdit(finalizers) => WriteStores(names, s, s.server.value.(finalizers := finalizers));
    case UserDelete => WriteStores(names, s, s.server.value.(deleting := true));
    case _ =>
  }

  lemma BeginStores(names: seq<Name>, s: State, id: nat, ctrl: nat, version: nat)
    requires Stored(names, s) && ctrl < |names| && version < |s.versions|
    ensures Stored(names, BeginInvocation(names, s, id, ctrl, version))
  {
  }

  lemma PatchStores(names: seq<Name>, s: State, t: State, id: nat, absentIsNull: bool)
    requires Stored(names, s) && NextStep(names, s, t, PatchArrives(id, absentIsNull))
    ensures Stored(names, t)
  {
    var after := PatchList(s.server.value.finalizers, s.inflight[id].phase.patch, absentIsNull);
    WriteStores(names, s.(inflight := s.inflight - {id}), s.server.value.(finalizers := after.value));
  }

  lemma WriteStores(names: seq<Name>, s: State, obj: Snapshot)
    requires Stored(names, s)
    ensures Stored(names, Write(s, obj))
  {
  }

  /** The step belongs to controller `c` and its invocation `id`. */
  ghost predicate OwnStep(names: seq<Name>, s: State, t: State, id: nat, c: nat) {
    || (exists version :: NextStep(names, s, t, Begin(id, c, version)))
    || (id in s.inflight && s.inflight[id].ctrl == c &&
        (NextStep(names, s, t, CleanupDone(id)) || NextStep(names, s, t, PatchArrives(id, true))))
  }

  /** `longer` goes on from `run` by steps of one invocation after another of controller `c` alone. */
  ghost predicate ContinuesAlone(names: seq<Name>, run: seq<State>, longer: seq<State>, id: nat, c: nat) {
    && 0 < |run| <= |longer| && run == longer[..|run|] && Run(names, longer)
    && forall k :: |run| <= k < |longer| ==> OwnStep(names, longer[k - 1], longer[k], id, c)
  }

  lemma ExtendAlone(names: seq<Name>, run: seq<State>, longer: seq<State>, t: State, id: nat, c: nat, step: Step)
    requires ContinuesAlone(names, run, longer, id, c)
    requires NextStep(names, longer[|longer| - 1], t, step) && OwnStep(names, longer[|longer| - 1], t, id, c)
    ensures ContinuesAlone(names, run, longer + [t], id, c)
  {
    Extend(names, longer, t, step);
    var more := longer + [t];
    assert more[..|run|] == run;
    forall k | |run| <= k < |more| ensures OwnStep(names, more[k - 1], more[k], id, c) {
      if k < |longer| {
        assert OwnStep(names, longer[k - 1], longer[k], id, c);
      }
    }
  }

  /** The controller looks at the newest version. */
  lemma BeginAlone(names: seq<Name>, run: seq<State>, longer: seq<State>, id: nat, c: nat) returns (t: State)
    requires ContinuesAlone(names, run, longer, id, c) && c < |names|
    requires longer[|longer| - 1].server.Some? && id !in longer[|longer| - 1].inflight
    ensures var s := longer[|longer| - 1];
            && |s.latest| == |names| && |s.versions| > 0 && s.versions[|s.versions| - 1] == s.server.value
            && t == BeginInvocation(names, s, id, c, |s.versions| - 1)
    ensures ContinuesAlone(names, run, longer + [t], id, c)
  {
    var s := longer[|longer| - 1];
    RunStores(names, longer, |longer| - 1);
    t := BeginInvocation(names, s, id, c, |s.versions| - 1);
    assert NextStep(names, s, t, Begin(id, c, |s.versions| - 1));
    ExtendAlone(names, run, longer, t, id, c, Begin(id, c, |s.versions| - 1));
  }

  /** A patch of the controller arrives and is accepted. */
  lemma ArriveAlone(
    names: seq<Name>, run: seq<State>, longer: seq<State>, id: nat, c: nat, finalizers: seq<Name>) returns (t: State)
    requires ContinuesAlone(names, run, longer, id, c)
    requires var s := longer[|longer| - 1];
             && s.server.Some? && id in s.inflight && s.inflight[id].ctrl == c && s.inflight[id].phase.Patching?
             && PatchList(s.server.value.finalizers, s.inflight[id].phase.patch, true) == Some(finalizers)
    ensures var s := longer[|longer| - 1];
            t == Write(s.(inflight := s.inflight - {id}), s.server.value.(finalizers := finalizers))
    ensures ContinuesAlone(names, run, longer + [t], id, c)
  {
    var s := longer[|longer| - 1];
    t := Write(s.(inflight := s.inflight - {id}), s.server.value.(finalizers := finalizers));
    assert NextStep(names, s, t, PatchArrives(id, true));
    ExtendAlone(names, run, longer, t, id, c, PatchArrives(id, true));
  }

  /**
    Steps 2 to 5 of the documented flow. Whatever the run, if the stored object is live and lacks the
    controller's name, then the controller's own steps put the name at the end of the list and start Apply.
   */
  lemma TakesHold(names: seq<Name>, run: seq<State>, id: nat, c: nat) returns (longer: seq<State>)
    requires Run(names, run) && c < |names| && id !in run[|run| - 1].inflight
    requires var server := run[|run| - 1].server;
             server.Some? && server.value.named && !server.value.deleting && names[c] !in server.value.finalizers
    ensures ContinuesAlone(names, run, longer, id, c)
    ensures var s, t := run[|run| - 1], longer[|longer| - 1];
            && t.server == Some(s.server.value.(finalizers := s.server.value.finalizers + [names[c]]))
            && t.log == s.log + [ApplyStarted(c)]
  {
    var s := run[|run| - 1];
    var l := s.server.value.finalizers;
    assert run[..|run|] == run;
    var s1 := BeginAlone(names, run, run, id, c);
    AdditionEffect(l, l, names[c], true);
    var s2 := ArriveAlone(names, run, run + [s1], id, c, l + [names[c]]);
    assert s2.server == Some(s.server.value.(finalizers := l + [names[c]]));
    var s3 := BeginAlone(names, run, run + [s1] + [s2], id, c);
    assert names[c] in l + [names[c]];
    longer := run + [s1] + [s2] + [s3];
  }

  /**
    Steps 10 to 13. If the stored object is being deleted and lists the controller's name, then the
    controller's own steps clean up and take the name's first occurrence off, and with the last name goes the object.
   */
  lemma LetsGo(names: seq<Name>, run: seq<State>, id: nat, c: nat) returns (longer: seq<State>)
    requires Run(names, run) && c < |names| && id !in run[|run| - 1].inflight
    requires var server := run[|run| - 1].server;
             server.Some? && server.value.named && server.value.deleting && names[c] in server.value.finalizers
    ensures ContinuesAlone(names, run, longer, id, c)
    ensures var s, t := run[|run| - 1], longer[|longer| - 1];
            var l := s.server.value.finalizers;
            exists i :: 0 <= i < |l| && l[i] == names[c] && names[c] !in l[..i] &&
              if |l| == 1 then t.server == None && t.log == s.log + [CleanupSucceeded(c), Gone]
              else
                && t.server == Some(s.server.value.(finalizers := RemoveAt(l, i)))
                && t.log == s.log + [CleanupSucceeded(c)]
  {
    var s := run[|run| - 1];
    var l := s.server.value.finalizers;
    var i := FindIndex(l, names[c]).value;
    var p := RemovalPatch(i, names[c]);
    assert run[..|run|] == run;
    var s1 := BeginAlone(names, run, run, id, c);
    assert s1.inflight[id] == Invocation(c, Cleaning(p));
    var s2 := CleanAlone(names, run, run + [s1], id, c);
    RemovalEffect(l, i, names[c], true);
    var s3 := ArriveAlone(names, run, run + [s1] + [s2], id, c, RemoveAt(l, i));
    longer := run + [s1] + [s2] + [s3];
  }

  lemma CleanAlone(names: seq<Name>, run: seq<State>, longer: seq<State>, id: nat, c: nat) returns (t: State)
    requires ContinuesAlone(names, run, longer, id, c)
    requires var s := longer[|longer| - 1];
             id in s.inflight && s.inflight[id].ctrl == c && s.inflight[id].phase.Cleaning?
    ensures var s := longer[|longer| - 1];
            t == s.(inflight := s.inflight[id := Invocation(c, Patching(s.inflight[id].phase.removal))],
                    log := s.log + [CleanupSucceeded(c)])
    ensures ContinuesAlone(names, run, longer + [t], id, c)
  {
    var s := longer[|longer| - 1];
    t := s.(inflight := s.inflight[id := Invocation(c, Patching(s.inflight[id].phase.removal))],
            log := s.log + [CleanupSucceeded(c)]);
    assert NextStep(names, s, t, CleanupDone(id));
    ExtendAlone(names, run, longer, t, id, c, CleanupDone(id));
  }

  // ---------- Runs that show the limits ----------

  /** A controller whose name is the object's only finalizer cleans up an object being deleted. */
  lemma LastCleanup(names: seq<Name>, run: seq<State>, id: nat, ctrl: nat) returns (longer: seq<State>)
    requires Run(names, run) && ctrl < |names| == |run[|run| - 1].latest|
    requires var s := run[|run| - 1];
             && id !in s.inflight && s.server == Some(Snapshot(true, [names[ctrl]], true))
             && |s.versions| > 0 && s.versions[|s.versions| - 1] == s.server.value
    ensures Run(names, longer)
    ensures var s, t := run[|run| - 1], longer[|longer| - 1];
            && t.log == s.log + [CleanupSucceeded(ctrl), Gone]
            && t.versions == s.versions && t.inflight == s.inflight && |t.latest| == |names|
  {
    var s := run[|run| - 1];
    var p := RemovalPatch(0, names[ctrl]);
    var s1 := BeginInvocation(names, s, id, ctrl, |s.versions| - 1);
    assert Decide(s.server.value, names[ctrl]) == RunCleanup(p);
    Extend(names, run, s1, Begin(id, ctrl, |s.versions| - 1));
    var s2 := s1.(inflight := s1.inflight[id := Invocation(ctrl, Patching(p))],
                  log := s1.log + [CleanupSucceeded(ctrl)]);
    Extend(names, run + [s1], s2, CleanupDone(id));
    RemovalEffect([names[ctrl]], 0, names[ctrl], true);
    var s3 := Write(s2.(inflight := s2.inflight - {id}), s.server.value.(finalizers := []));
    Extend(names, run + [s1] + [s2], s3, PatchArrives(id, true));
    longer := run + [s1] + [s2] + [s3];
  }

  /** Without that order an apply can start once everything is over: a run that does it. */
  lemma StaleSnapshotCanApplyAfterGone(name: Name)
    ensures exists run: seq<State> ::
              && Run([name], run)
              && run[|run| - 1].log == [CleanupSucceeded(0), Gone, ApplyStarted(0)]
  {
    var live, dying := Snapshot(true, [name], false), Snapshot(true, [name], true);
    var s0 := State(Some(live), [live], map[], [0], []);
    var s1 := State(Some(dying), [live, dying], map[], [0], []);
    Extend([name], [s0], s1, UserDelete);
    var run := LastCleanup([name], [s0] + [s1], 0, 0);
    var s := run[|run| - 1];
    var t := BeginInvocation([name], s, 1, 0, 0);
    Extend([name], run, t, Begin(1, 0, 0));
    assert (run + [t])[|run + [t]| - 1] == t;
  }

  /** Two controllers that share a name: one of them applies, and only the other ever cleans up. */
  lemma SharedNameLosesCleanup(names: seq<Name>, i: nat, j: nat) returns (run: seq<State>)
    requires i < |names| && j < |names| && i != j && names[i] == names[j]
    ensures Run(names, run) && run[|run| - 1].log == [ApplyStarted(i), CleanupSucceeded(j), Gone]
  {
    var live, dying := Snapshot(true, [names[i]], false), Snapshot(true, [names[i]], true);
    var s0 := State(Some(live), [live], map[], seq(|names|, _ => 0), []);
    var s1 := BeginInvocation(names, s0, 0, i, 0);
    Extend(names, [s0], s1, Begin(0, i, 0));
    var s2 := Write(s1, dying);
    Extend(names, [s0] + [s1], s2, UserDelete);
    run := LastCleanup(names, [s0] + [s1] + [s2], 1, j);
  }

  /** The documented guarantee, at one point of a run. */
  ghost predicate Guaranteed(log: seq<LogEntry>) {
    forall i, g :: 0 <= i < |log| && 0 <= g < |log| && log[i].ApplyStarted? && log[g] == Gone ==>
      CleanupSucceeded(log[i].ctrl) in log[..g]
  }

  lemma DistinctGuarantees(names: seq<Name>, run: seq<State>, k: nat)
    requires Distinct(names) && Run(names, run) && k < |run|
    ensures Guaranteed(run[k].log)
  {
    var log := run[k].log;
    forall i, g | 0 <= i < |log| && 0 <= g < |log| && log[i].ApplyStarted? && log[g] == Gone
      ensures CleanupSucceeded(log[i].ctrl) in log[..g]
    {
      CleanupBeforeGone(names, run, k, i, g);
    }
  }

  /** The uniqueness assumption is exact: the guarantee holds in all runs if and only if all names differ. */
  lemma GuaranteeIffDistinct(names: seq<Name>)
    ensures (forall run: seq<State>, k :: Run(names, run) && 0 <= k < |run| ==> Guaranteed(run[k].log))
       <==> Distinct(names)
  {
    if Distinct(names) {
      forall run: seq<State>, k | Run(names, run) && 0 <= k < |run| ensures Guaranteed(run[k].log) {
        DistinctGuarantees(names, run, k);
      }
    } else {
      var i, j :| 0 <= i < j < |names| && names[i] == names[j];
      var run := SharedNameLosesCleanup(names, i, j);
      LostCleanup(run[|run| - 1].log, i, j);
    }
  }

  lemma LostCleanup(log: seq<LogEntry>, i: nat, j: nat)
    requires i != j && log == [ApplyStarted(i), CleanupSucceeded(j), Gone]
    ensures !Guaranteed(log)
  {
    assert log[0].ApplyStarted? && log[2] == Gone && log[..2] == [ApplyStarted(i), CleanupSucceeded(j)];
  }
}
