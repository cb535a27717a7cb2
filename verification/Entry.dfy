/**
  Get-or-create and get-and-modify through an entry: the object is read, changed locally and committed
  with the resource version it was read at. Any number of clients do this to one object at once.
 */
module Entry {
  import opened Common

  type Version = nat

  datatype Meta = Meta(
    name: Option<string>,
    namespace: Option<string>,
    generateName: Option<string>,
    version: Option<Version>)

  datatype Object = Object(meta: Meta, data: int)

  // ---------- The API server's side of one name ----------

  /** What is stored under the name, and the next version to hand out. */
  datatype Server = Server(stored: Option<Object>, next: Version)

  datatype ApiError = AlreadyExists | NotFound | Conflict | BadRequest

  function Versioned(o: Object, v: Option<Version>): Object {
    o.(meta := o.meta.(version := v))
  }

  /** Duplicate creates are rejected, and so is an object that claims to have a version already. */
  function Create(s: Server, o: Object, dryRun: bool): (Server, Result<Object, ApiError>) {
    if s.stored.Some? then (s, Err(AlreadyExists))
    else if o.meta.version.Some? then (s, Err(BadRequest))
    else if dryRun then (s, Ok(o))
    else
      var created := Versioned(o, Some(s.next));
      (Server(Some(created), s.next + 1), Ok(created))
  }

  /** A replace at a version other than the stored one is rejected; one without a version never is. */
  function Replace(s: Server, o: Object, dryRun: bool): (Server, Result<Object, ApiError>) {
    if s.stored.None? then (s, Err(NotFound))
    else if o.meta.version.Some? && o.meta.version != s.stored.value.meta.version then (s, Err(Conflict))
    else if dryRun then (s, Ok(Versioned(o, s.stored.value.meta.version)))
    else
      var replaced := Versioned(o, Some(s.next));
      (Server(Some(replaced), s.next + 1), Ok(replaced))
  }

  // ---------- The entry ----------

  datatype Dirtiness = Clean | Dirty | New

  datatype CommitError =
    | NameMismatch(objectName: string)
    | NamespaceMismatch(objectNamespace: string)
    | GenerateName(template: string)
    | Save(error: ApiError)

  /** The fields of an occupied entry that commits read and write. */
  datatype Fields = Fields(dirtiness: Dirtiness, obj: Object)

  /** Default the name and namespace; an object that refers to another slot is refused. */
  function Prepare(o: Object, name: string, namespace: Option<string>): (Object, Option<CommitError>) {
    if o.meta.name.Some? && o.meta.name.value != name then (o, Some(NameMismatch(o.meta.name.value)))
    else
      var named := o.(meta := o.meta.(name := Some(name)));
      if o.meta.namespace.Some? && o.meta.namespace != namespace then
        (named, Some(NamespaceMismatch(o.meta.namespace.value)))
      else
        var placed := named.(meta := named.meta.(namespace := namespace));
        if o.meta.generateName.Some? then (placed, Some(GenerateName(o.meta.generateName.value)))
        else (placed, None)
  }

  /** The object refers to this slot, or to none in particular. */
  predicate Fits(o: Object, name: string, namespace: Option<string>) {
    && (o.meta.name.None? || o.meta.name == Some(name))
    && (o.meta.namespace.None? || o.meta.namespace == namespace)
    && o.meta.generateName.None?
  }

  /** Preparing succeeds exactly for objects that fit the slot, and then changes only name and namespace. */
  lemma PrepareFits(o: Object, name: string, namespace: Option<string>)
    ensures var (p, error) := Prepare(o, name, namespace);
            && (error.None? <==> Fits(o, name, namespace))
            && (error.None? ==> p.meta.name == Some(name) && p.meta.namespace == namespace)
            && p.data == o.data && p.meta.version == o.meta.version && p.meta.generateName == o.meta.generateName
  {
  }

  /** Which object is refused for which reason: a foreign name first, then a foreign namespace, then a template. */
  lemma PrepareRefuses(o: Object, name: string, namespace: Option<string>)
    ensures var error := Prepare(o, name, namespace).1;
            var ownName := o.meta.name.None? || o.meta.name == Some(name);
            var ownNamespace := o.meta.namespace.None? || o.meta.namespace == namespace;
            && (forall n :: error == Some(NameMismatch(n)) <==> !ownName && o.meta.name == Some(n))
            && (forall n :: error == Some(NamespaceMismatch(n)) <==>
                  ownName && !ownNamespace && o.meta.namespace == Some(n))
            && (forall t :: error == Some(GenerateName(t)) <==>
                  ownName && ownNamespace && o.meta.generateName == Some(t))
  {
  }

  function Touch(d: Dirtiness): Dirtiness {
    if d.Clean? then Dirty else d
  }

  function CommitResult(s: Server, e: Fields, name: string, namespace: Option<string>, dryRun: bool)
    : (Server, Fields, Option<CommitError>)
  {
    var (p, error) := Prepare(e.obj, name, namespace);
    if error.Some? then (s, e.(obj := p), error)
    else
      match e.dirtiness
      case Clean => (s, Fields(Clean, p), None)
      case _ =>
        var (t, reply) := if e.dirtiness.New? then Create(s, p, dryRun) else Replace(s, p, dryRun);
        if reply.Err? then (t, e.(obj := p), Some(Save(reply.error)))
        else (t, Fields(if dryRun then e.dirtiness else Clean, reply.value), None)
  }

  /** The server behind an `Api` handle. */
  class Api {
    const namespace: Option<string>
    var server: Server

    constructor (namespace: Option<string>, server: Server)
      ensures this.namespace == namespace && this.server == server
    {
      this.namespace, this.server := namespace, server;
    }
  }

  class OccupiedEntry {
    const api: Api
    const name: string
    var dirtiness: Dirtiness
    var obj: Object

    /** From `Api::entry` (clean) or `VacantEntry::insert` (new). */
    constructor (api: Api, name: string, dirtiness: Dirtiness, obj: Object)
      ensures this.api == api && this.name == name
      ensures this.dirtiness == dirtiness && this.obj == obj
    {
      this.api, this.name, this.dirtiness, this.obj := api, name, dirtiness, obj;
    }

    /** `and_modify`: the object is changed through `get_mut`. */
    method AndModify(f: Object -> Object)
      modifies this
      ensures obj == f(old(obj)) && dirtiness == Touch(old(dirtiness))
    {
      dirtiness := match dirtiness { case Clean => Dirty case Dirty => Dirty case New => New };
      obj := f(obj);
    }

    method PrepareForCommit() returns (error: Option<CommitError>)
      modifies this`obj
      ensures (obj, error) == Prepare(old(obj), name, api.namespace)
    {
      if obj.meta.name.None? {
        obj := obj.(meta := obj.meta.(name := Some(name)));
      } else if obj.meta.name.value != name {
        return Some(NameMismatch(obj.meta.name.value));
      }
      if obj.meta.namespace.None? {
        obj := obj.(meta := obj.meta.(namespace := api.namespace));
      } else if obj.meta.namespace != api.namespace {
        return Some(NamespaceMismatch(obj.meta.namespace.value));
      }
      if obj.meta.generateName.Some? {
        return Some(GenerateName(obj.meta.generateName.value));
      }
      error := None;
    }

    method Commit(dryRun: bool) returns (error: Option<CommitError>)
      modifies this, api
      ensures (api.server, Fields(dirtiness, obj), error)
           == CommitResult(old(api.server), old(Fields(dirtiness, obj)), name, api.namespace, dryRun)
    {
      error := PrepareForCommit();
      if error.Some? {
        return;
      }
      match dirtiness {
        case New =>
          var reply := Create(api.server, obj, dryRun);
          api.server := reply.0;
          if reply.1.Err? {
            return Some(Save(reply.1.error));
          }
          obj := reply.1.value;
        case Dirty =>
          var reply := Replace(api.server, obj, dryRun);
          api.server := reply.0;
          if reply.1.Err? {
            return Some(Save(reply.1.error));
          }
          obj := reply.1.value;
        case Clean =>
      }
      if !dryRun {
        dirtiness := Clean;
      }
    }
  }

  // ---------- Many clients ----------

  /**
    An open entry, what it was derived from - the object read or last committed, if there was one - and
    whether its version has been left alone since then.
   */
  datatype Client = Client(fields: Fields, base: Option<Object>, kept: bool)

  /** A successful real write: what it was derived from, what it found, and what it stored. */
  datatype Write = Write(base: Option<Object>, found: Option<Object>, stored: Object, kept: bool)

  datatype System = System(server: Server, clients: map<nat, Client>, log: seq<Write>)

  datatype Step =
    | Open(id: nat)                       // `Api::entry` on an existing object
    | Insert(id: nat, obj: Object)     // `Api::entry` found nothing, `or_insert`
    | Modify(id: nat, obj: Object)
    | Commit(id: nat, dryRun: bool)
    | External(stored: Option<Object>)    // someone else writes or deletes the object

  function AfterCommit(s: System, id: nat, name: string, namespace: Option<string>, dryRun: bool): System
    requires id in s.clients
  {
    var c := s.clients[id];
    var (server, fields, error) := CommitResult(s.server, c.fields, name, namespace, dryRun);
    var wrote := error.None? && !dryRun && !c.fields.dirtiness.Clean?;
    System(
      server,
      s.clients[id := if wrote then Client(fields, Some(fields.obj), true) else c.(fields := fields)],
      if wrote then
        s.log + [Write(c.base, s.server.stored, fields.obj, c.kept)]
      else s.log)
  }

  ghost predicate NextBy(s: System, t: System, name: string, namespace: Option<string>, step: Step) {
    match step
    case Open(id) =>
      && s.server.stored.Some?
      && var o := s.server.stored.value;
         t == s.(clients := s.clients[id := Client(Fields(Clean, o), Some(o), true)])
    case Insert(id, obj) =>
      t == s.(clients := s.clients[id := Client(Fields(New, obj), None, true)])
    case Modify(id, obj) =>
      && id in s.clients
      && var c := s.clients[id];
         t == s.(clients := s.clients[id := Client(Fields(Touch(c.fields.dirtiness), obj), c.base,
                                                    c.kept && obj.meta.version == c.fields.obj.meta.version)])
    case Commit(id, dryRun) => id in s.clients && t == AfterCommit(s, id, name, namespace, dryRun)
    case External(stored) =>
      && (stored.Some? ==> stored.value.meta.version == Some(s.server.next))
      && t == s.(server := Server(stored, s.server.next + 1))
  }

  ghost predicate Next(s: System, t: System, name: string, namespace: Option<string>) {
    exists step :: NextBy(s, t, name, namespace, step)
  }

  /** Any object stored to begin with, and no open entries. */
  ghost predicate Init(s: System) {
    && s.clients == map[] && s.log == []
    && (s.server.stored.Some? ==>
          s.server.stored.value.meta.version.Some? && s.server.stored.value.meta.version.value < s.server.next)
  }

  ghost predicate Run(run: seq<System>, name: string, namespace: Option<string>) {
    && |run| > 0 && Init(run[0])
    && forall k :: 0 <= k < |run| - 1 ==> Next(run[k], run[k + 1], name, namespace)
  }

  // ---------- No lost update ----------

  /** A version left alone is that of the entry's base, and versions identify objects. */
  ghost predicate ClientOk(server: Server, c: Client) {
    && (c.fields.dirtiness.New? <==> c.base.None?)
    && (c.base.Some? ==>
          var b := c.base.value;
          && b.meta.version.Some? && b.meta.version.value < server.next
          && (c.kept ==> c.fields.obj.meta.version == b.meta.version)
          && (server.stored.Some? && server.stored.value.meta.version == b.meta.version ==> server.stored == c.base))
  }

  ghost predicate Invariant(s: System) {
    && (s.server.stored.Some? ==>
          s.server.stored.value.meta.version.Some? && s.server.stored.value.meta.version.value < s.server.next)
    && (forall id :: id in s.clients ==> ClientOk(s.server, s.clients[id]))
    && (forall i :: 0 <= i < |s.log| && s.log[i].kept ==> s.log[i].base == s.log[i].found)
  }

  lemma CommitKeepsInvariant(s: System, id: nat, name: string, namespace: Option<string>, dryRun: bool)
    requires Invariant(s) && id in s.clients
    ensures Invariant(AfterCommit(s, id, name, namespace, dryRun))
  {
    var c := s.clients[id];
    PrepareFits(c.fields.obj, name, namespace);
    var t := AfterCommit(s, id, name, namespace, dryRun);
    assert ClientOk(s.server, c);
    forall i | i in t.clients ensures ClientOk(t.server, t.clients[i]) {
      assert i in s.clients && ClientOk(s.server, s.clients[i]);
    }
  }

  /** Only one entry changes, and the server does not. */
  lemma EntryKeepsInvariant(s: System, id: nat, c: Client)
    requires Invariant(s) && ClientOk(s.server, c)
    ensures Invariant(s.(clients := s.clients[id := c]))
  {
    var t := s.(clients := s.clients[id := c]);
    forall i | i in t.clients ensures ClientOk(t.server, t.clients[i]) {
      assert i != id ==> i in s.clients && ClientOk(s.server, s.clients[i]);
    }
  }

  lemma ExternalKeepsInvariant(s: System, stored: Option<Object>)
    requires Invariant(s) && (stored.Some? ==> stored.value.meta.version == Some(s.server.next))
    ensures Invariant(s.(server := Server(stored, s.server.next + 1)))
  {
    var t := s.(server := Server(stored, s.server.next + 1));
    forall i | i in t.clients ensures ClientOk(t.server, t.clients[i]) {
      assert ClientOk(s.server, s.clients[i]);
    }
  }

  lemma NextKeepsInvariant(s: System, t: System, name: string, namespace: Option<string>)
    requires Invariant(s) && Next(s, t, name, namespace)
    ensures Invariant(t)
  {
    var step :| NextBy(s, t, name, namespace, step);
    match step
    case Open(id) => EntryKeepsInvariant(s, id, t.clients[id]);
    case Insert(id, obj) => EntryKeepsInvariant(s, id, t.clients[id]);
    case Modify(id, obj) =>
      assert ClientOk(s.server, s.clients[id]);
      EntryKeepsInvariant(s, id, t.clients[id]);
    case Commit(id, dryRun) => CommitKeepsInvariant(s, id, name, namespace, dryRun);
    case External(stored) => ExternalKeepsInvariant(s, stored);
  }

  lemma {:induction false} RunKeepsInvariant(run: seq<System>, name: string, namespace: Option<string>, k: nat)
    requires Run(run, name, namespace) && k < |run|
    ensures Invariant(run[k])
  {
    if k > 0 {
      RunKeepsInvariant(run, name, namespace, k - 1);
      assert Next(run[k - 1], run[k - 1 + 1], name, namespace);
      NextKeepsInvariant(run[k - 1], run[k], name, namespace);
    }
  }

  /**
    No lost update. In every interleaving of any number of clients, with dry runs, failed commits and
    outside writers, a successful commit of an entry whose version was left alone was derived
    from exactly what it replaced: the stored object, or nothing for a new one.
   */
  lemma NoLostUpdate(run: seq<System>, name: string, namespace: Option<string>, k: nat, i: nat)
    requires Run(run, name, namespace) && k < |run| && i < |run[k].log| && run[k].log[i].kept
    ensures run[k].log[i].base == run[k].log[i].found
  {
    RunKeepsInvariant(run, name, namespace, k);
  }

  // ---------- A counter ----------

  function Data(o: Option<Object>): int {
    if o.Some? then o.value.data else 0
  }

  /** What a client meant to add. */
  function Delta(w: Write): int {
    w.stored.data - Data(w.base)
  }

  function Sum(log: seq<Write>): int {
    if log == [] then 0 else Sum(log[..|log| - 1]) + Delta(log[|log| - 1])
  }

  /** A step by a client that uses entries, rather than by someone else. */
  ghost predicate ClientNext(s: System, t: System, name: string, namespace: Option<string>) {
    exists step :: NextBy(s, t, name, namespace, step) && !step.External?
  }

  /** A commit that is not logged leaves the server alone; one that is stores what the log says. */
  lemma CommitWrites(s: System, id: nat, name: string, namespace: Option<string>, dryRun: bool)
    requires id in s.clients
    ensures var t := AfterCommit(s, id, name, namespace, dryRun);
            if t.log == s.log then t.server.stored == s.server.stored
            else
              && |t.log| == |s.log| + 1 && t.log[..|s.log|] == s.log
              && t.log[|s.log|].found == s.server.stored && t.server.stored == Some(t.log[|s.log|].stored)
  {
  }

  lemma CommitAddsDelta(s: System, id: nat, name: string, namespace: Option<string>, dryRun: bool)
    requires Invariant(s) && id in s.clients
    requires var t := AfterCommit(s, id, name, namespace, dryRun);
             forall i :: 0 <= i < |t.log| ==> t.log[i].kept
    ensures var t := AfterCommit(s, id, name, namespace, dryRun);
            Data(t.server.stored) - Sum(t.log) == Data(s.server.stored) - Sum(s.log)
  {
    CommitKeepsInvariant(s, id, name, namespace, dryRun);
    CommitWrites(s, id, name, namespace, dryRun);
    AddsDelta(s, AfterCommit(s, id, name, namespace, dryRun));
  }

  lemma AddsDelta(s: System, t: System)
    requires Invariant(t) && forall i :: 0 <= i < |t.log| ==> t.log[i].kept
    requires if t.log == s.log then t.server.stored == s.server.stored
             else
               && |t.log| == |s.log| + 1 && t.log[..|s.log|] == s.log
               && t.log[|s.log|].found == s.server.stored && t.server.stored == Some(t.log[|s.log|].stored)
    ensures Data(t.server.stored) - Sum(t.log) == Data(s.server.stored) - Sum(s.log)
  {
    if t.log != s.log {
      assert t.log[|s.log|].base == t.log[|s.log|].found;
    }
  }

  lemma {:induction false} CounterAddsUp(run: seq<System>, name: string, namespace: Option<string>, k: nat)
    requires Run(run, name, namespace) && k < |run|
    requires forall n :: 0 <= n < |run| - 1 ==> ClientNext(run[n], run[n + 1], name, namespace)
    requires forall i :: 0 <= i < |run[k].log| ==> run[k].log[i].kept
    ensures Data(run[k].server.stored) == Data(run[0].server.stored) + Sum(run[k].log)
  {
    if k > 0 {
      assert ClientNext(run[k - 1], run[k - 1 + 1], name, namespace);
      var step :| NextBy(run[k - 1], run[k], name, namespace, step) && !step.External?;
      assert run[k - 1].log <= run[k].log;
      CounterAddsUp(run, name, namespace, k - 1);
      RunKeepsInvariant(run, name, namespace, k - 1);
      if step.Commit? {
        CommitAddsDelta(run[k - 1], step.id, name, namespace, step.dryRun);
      }
    }
  }

  lemma {:induction false} SumOfOnes(log: seq<Write>)
    requires forall i :: 0 <= i < |log| ==> Delta(log[i]) == 1
    ensures Sum(log) == |log|
  {
    if log != [] {
      SumOfOnes(log[..|log| - 1]);
    }
  }

  /** N successful increments, by any clients in any interleaving, raise a counter by exactly N. */
  lemma IncrementsAddUp(run: seq<System>, name: string, namespace: Option<string>, k: nat)
    requires Run(run, name, namespace) && k < |run|
    requires forall n :: 0 <= n < |run| - 1 ==> ClientNext(run[n], run[n + 1], name, namespace)
    requires forall i :: 0 <= i < |run[k].log| ==> run[k].log[i].kept && Delta(run[k].log[i]) == 1
    ensures Data(run[k].server.stored) == Data(run[0].server.stored) + |run[k].log|
  {
    CounterAddsUp(run, name, namespace, k);
    SumOfOnes(run[k].log);
  }

  // ---------- Why the version must be left alone ----------

  lemma Extend(run: seq<System>, t: System, name: string, namespace: Option<string>, step: Step)
    requires Run(run, name, namespace) && NextBy(run[|run| - 1], t, name, namespace, step)
    ensures Run(run + [t], name, namespace)
  {
    var longer := run + [t];
    forall k | 0 <= k < |longer| - 1 ensures Next(longer[k], longer[k + 1], name, namespace) {
      if k < |run| - 1 {
        assert Next(run[k], run[k + 1], name, namespace);
      }
    }
  }

  /** Two clients have read the counter at zero, and the first has added one. */
  lemma FirstAddition(o: Object, name: string, namespace: Option<string>) returns (run: seq<System>)
    requires o.meta == Meta(Some(name), namespace, None, Some(0)) && o.data == 0
    ensures Run(run, name, namespace) && Data(run[0].server.stored) == 0
    ensures var s, stored := run[|run| - 1], Versioned(o.(data := 1), Some(1));
            && s.server == Server(Some(stored), 2) && s.log == [Write(Some(o), Some(o), stored, true)]
            && 1 in s.clients && s.clients[1] == Client(Fields(Clean, o), Some(o), true)
  {
    var s0 := System(Server(Some(o), 1), map[], []);
    var c := Client(Fields(Clean, o), Some(o), true);
    var s1 := s0.(clients := map[0 := c]);
    Extend([s0], s1, name, namespace, Open(0));
    var s2 := s1.(clients := s1.clients[1 := c]);
    Extend([s0] + [s1], s2, name, namespace, Open(1));
    var s3 := s2.(clients := s2.clients[0 := Client(Fields(Dirty, o.(data := 1)), Some(o), true)]);
    Extend([s0] + [s1] + [s2], s3, name, namespace, Modify(0, o.(data := 1)));
    var s4 := AfterCommit(s3, 0, name, namespace, false);
    Extend([s0] + [s1] + [s2] + [s3], s4, name, namespace, Commit(0, false));
    run := [s0] + [s1] + [s2] + [s3] + [s4];
  }

  /** Two clients each add one; the second has dropped the version, and the first addition is lost. */
  lemma DroppedVersionLosesUpdate(name: string, namespace: Option<string>)
    ensures exists run: seq<System> ::
              && Run(run, name, namespace)
              && var last := run[|run| - 1];
                 && |last.log| == 2 && Delta(last.log[0]) == Delta(last.log[1]) == 1
                 && Data(run[0].server.stored) == 0 && Data(last.server.stored) == 1
  {
    var o := Object(Meta(Some(name), namespace, None, Some(0)), 0);
    var run := FirstAddition(o, name, namespace);
    var s := run[|run| - 1];
    var dropped := Versioned(o.(data := 1), None);
    var t := s.(clients := s.clients[1 := Client(Fields(Dirty, dropped), Some(o), false)]);
    Extend(run, t, name, namespace, Modify(1, dropped));
    var u := AfterCommit(t, 1, name, namespace, false);
    Extend(run + [t], u, name, namespace, Commit(1, false));
    assert u.log == s.log + [Write(Some(o), s.server.stored, Versioned(dropped, Some(2)), false)];
    var whole := run + [t] + [u];
    assert whole[|whole| - 1] == u && whole[0] == run[0];
  }

  // ---------- Exactly when a commit can lose an update ----------

  /** `longer` goes on from `run` without touching entry `id`, and ends with a real commit of it. */
  ghost predicate CommitsUntouched(
    run: seq<System>, longer: seq<System>, id: nat, name: string, namespace: Option<string>)
  {
    && 0 < |run| < |longer| && run == longer[..|run|] && Run(longer, name, namespace)
    && Untouched(run, longer[..|longer| - 1], id)
    && longer[|longer| - 1] == AfterCommit(longer[|longer| - 2], id, name, namespace, false)
  }

  ghost predicate Untouched(run: seq<System>, longer: seq<System>, id: nat) {
    && 0 < |run| <= |longer| && id in run[|run| - 1].clients
    && forall k :: |run| - 1 <= k < |longer| ==>
         id in longer[k].clients && longer[k].clients[id] == run[|run| - 1].clients[id]
  }

  /** The write in the last step of a run, if it was one, followed from what it replaced. */
  ghost predicate LastWriteFollows(run: seq<System>)
    requires |run| > 1
  {
    var s, t := run[|run| - 2], run[|run| - 1];
    |s.log| < |t.log| ==> t.log[|s.log|].base == t.log[|s.log|].found
  }

  /**
    An entry has a version that is not that of the object it was derived from, and that the server will
    or may yet accept: none at all, the one stored now, or one that has not been handed out.
   */
  predicate Exposed(s: Server, c: Client) {
    match c.fields.obj.meta.version
    case None => true
    case Some(v) =>
      && (c.base.None? || c.base.value.meta.version != Some(v))
      && (v >= s.next || (s.stored.Some? && s.stored.value.meta.version == Some(v)))
  }

  /** What a commit of a dirty entry that fits the slot does. */
  lemma DirtyCommit(s: System, id: nat, name: string, namespace: Option<string>)
    requires id in s.clients
    requires var f := s.clients[id].fields; f.dirtiness.Dirty? && Fits(f.obj, name, namespace)
    ensures var c, t, stored := s.clients[id], AfterCommit(s, id, name, namespace, false), s.server.stored;
            var v := c.fields.obj.meta.version;
            if stored.Some? && (v.None? || v == stored.value.meta.version)
            then |t.log| == |s.log| + 1 && t.log[|s.log|].base == c.base && t.log[|s.log|].found == stored
            else t.log == s.log
  {
    PrepareFits(s.clients[id].fields.obj, name, namespace);
  }

  /** `longer` goes on from `run` without touching entry `id`. */
  ghost predicate Continues(run: seq<System>, longer: seq<System>, id: nat, name: string, namespace: Option<string>) {
    0 < |run| <= |longer| && run == longer[..|run|] && Run(longer, name, namespace) && Untouched(run, longer, id)
  }

  /** A commit that the server accepts although it stores something else loses an update. */
  lemma AcceptedCommitLoses(run: seq<System>, longer: seq<System>, id: nat, name: string, namespace: Option<string>)
    returns (whole: seq<System>)
    requires Continues(run, longer, id, name, namespace)
    requires var s, t := run[|run| - 1], longer[|longer| - 1];
             var c, stored := s.clients[id], t.server.stored;
             && c.fields.dirtiness.Dirty? && Fits(c.fields.obj, name, namespace)
             && stored.Some? && stored != c.base
             && (c.fields.obj.meta.version.None? || c.fields.obj.meta.version == stored.value.meta.version)
    ensures CommitsUntouched(run, whole, id, name, namespace) && !LastWriteFollows(whole)
  {
    var t := longer[|longer| - 1];
    var u := AfterCommit(t, id, name, namespace, false);
    Extend(longer, u, name, namespace, Commit(id, false));
    whole := longer + [u];
    DirtyCommit(t, id, name, namespace);
    assert whole[..|whole| - 1] == longer && whole[..|run|] == run;
  }

  /** Someone else can write until the server stores any version not handed out yet. */
  lemma {:induction false} WriteUpTo(
    run: seq<System>, longer: seq<System>, id: nat, name: string, namespace: Option<string>, v: Version)
    returns (further: seq<System>)
    requires Continues(run, longer, id, name, namespace)
    requires longer[|longer| - 1].server.next <= v
    ensures |longer| < |further| && Continues(run, further, id, name, namespace)
    ensures var stored := further[|further| - 1].server.stored; stored.Some? && stored.value.meta.version == Some(v)
    decreases v - longer[|longer| - 1].server.next
  {
    var s := longer[|longer| - 1];
    var x := Object(Meta(Some(name), namespace, None, Some(s.server.next)), 0);
    var t := s.(server := Server(Some(x), s.server.next + 1));
    Extend(longer, t, name, namespace, External(Some(x)));
    further := longer + [t];
    assert further[..|run|] == run;
    if s.server.next < v {
      further := WriteUpTo(run, further, id, name, namespace, v);
    }
  }

  lemma ExposedCanLose(run: seq<System>, id: nat, name: string, namespace: Option<string>) returns (whole: seq<System>)
    requires Run(run, name, namespace) && id in run[|run| - 1].clients
    requires var s := run[|run| - 1];
             var c := s.clients[id];
             c.fields.dirtiness.Dirty? && Fits(c.fields.obj, name, namespace) && Exposed(s.server, c)
    ensures CommitsUntouched(run, whole, id, name, namespace) && !LastWriteFollows(whole)
  {
    var s := run[|run| - 1];
    var c := s.clients[id];
    RunKeepsInvariant(run, name, namespace, |run| - 1);
    assert ClientOk(s.server, c);
    assert run[..|run|] == run;
    var v := c.fields.obj.meta.version;
    var longer := run;
    if v.None? {
      longer := WriteUpTo(run, run, id, name, namespace, s.server.next);
    } else if v.value >= s.server.next {
      longer := WriteUpTo(run, run, id, name, namespace, v.value);
    }
    whole := AcceptedCommitLoses(run, longer, id, name, namespace);
  }

  ghost predicate NeverAgain(server: Server, v: Version) {
    v < server.next && (server.stored.Some? ==> server.stored.value.meta.version != Some(v))
  }

  /** A version that is neither stored nor still to be handed out never comes back. */
  lemma {:induction false} VersionsDoNotReturn(
    run: seq<System>, name: string, namespace: Option<string>, i: nat, k: nat, v: Version)
    requires Run(run, name, namespace) && i <= k < |run| && NeverAgain(run[i].server, v)
    ensures NeverAgain(run[k].server, v)
  {
    if i < k {
      VersionsDoNotReturn(run, name, namespace, i, k - 1, v);
      assert Next(run[k - 1], run[k - 1 + 1], name, namespace);
      var step :| NextBy(run[k - 1], run[k], name, namespace, step);
    }
  }

  /** An entry that is not exposed only ever has the stored version if the stored object is its own base. */
  lemma UnexposedMeetsBase(longer: seq<System>, i: nat, m: nat, c: Client, name: string, namespace: Option<string>)
    requires Run(longer, name, namespace) && i <= m < |longer|
    requires !Exposed(longer[i].server, c) && ClientOk(longer[m].server, c)
    ensures var stored := longer[m].server.stored;
            stored.Some? && stored.value.meta.version == c.fields.obj.meta.version ==> stored == c.base
  {
    var v := c.fields.obj.meta.version.value;
    if c.base.None? || c.base.value.meta.version != Some(v) {
      VersionsDoNotReturn(longer, name, namespace, i, m, v);
    }
  }

  lemma StillUntouched(run: seq<System>, longer: seq<System>, id: nat, name: string, namespace: Option<string>)
    requires CommitsUntouched(run, longer, id, name, namespace)
    ensures longer[|run| - 1] == run[|run| - 1] && id in run[|run| - 1].clients
    ensures id in longer[|longer| - 2].clients && longer[|longer| - 2].clients[id] == run[|run| - 1].clients[id]
  {
    assert longer[..|longer| - 1][|longer| - 2] == longer[|longer| - 2];
  }

  lemma UnexposedIsSafe(run: seq<System>, longer: seq<System>, id: nat, name: string, namespace: Option<string>)
    requires Run(run, name, namespace) && id in run[|run| - 1].clients
    requires var s := run[|run| - 1];
             var c := s.clients[id];
             c.fields.dirtiness.Dirty? && Fits(c.fields.obj, name, namespace) && !Exposed(s.server, c)
    requires CommitsUntouched(run, longer, id, name, namespace)
    ensures LastWriteFollows(longer)
  {
    var s, m := run[|run| - 1], |longer| - 2;
    var c, t := s.clients[id], longer[m];
    StillUntouched(run, longer, id, name, namespace);
    RunKeepsInvariant(longer, name, namespace, m);
    assert ClientOk(t.server, c);
    UnexposedMeetsBase(longer, |run| - 1, m, c, name, namespace);
    DirtyCommit(t, id, name, namespace);
  }

  /**
    Exactly when a dirty entry is safe: in every reachable state, some continuation commits it over a
    change it does not follow from if and only if its version is not that of the object it was derived
    from and is one the server will or may yet accept - above all, no version.
   */
  lemma CommitCanLoseIffExposed(run: seq<System>, id: nat, name: string, namespace: Option<string>)
    requires Run(run, name, namespace) && id in run[|run| - 1].clients
    requires var c := run[|run| - 1].clients[id]; c.fields.dirtiness.Dirty? && Fits(c.fields.obj, name, namespace)
    ensures (exists longer :: CommitsUntouched(run, longer, id, name, namespace) && !LastWriteFollows(longer))
       <==> Exposed(run[|run| - 1].server, run[|run| - 1].clients[id])
  {
    if Exposed(run[|run| - 1].server, run[|run| - 1].clients[id]) {
      var whole := ExposedCanLose(run, id, name, namespace);
    } else {
      forall longer | CommitsUntouched(run, longer, id, name, namespace) ensures LastWriteFollows(longer) {
        UnexposedIsSafe(run, longer, id, name, namespace);
      }
    }
  }

  // ---------- Nothing is forgotten ----------

  /** A clean entry holds what was last read or saved. */
  ghost predicate SavedIfClean(c: Client) {
    c.fields.dirtiness.Clean? ==> c.base.Some? && c.fields.obj.data == c.base.value.data
  }

  lemma CommitSaves(s: System, id: nat, name: string, namespace: Option<string>, dryRun: bool)
    requires id in s.clients && SavedIfClean(s.clients[id])
    ensures SavedIfClean(AfterCommit(s, id, name, namespace, dryRun).clients[id])
  {
    PrepareFits(s.clients[id].fields.obj, name, namespace);
  }

  /** In every reachable state a clean entry has nothing unsaved. */
  lemma {:induction false} CleanHasNothingUnsaved(
    run: seq<System>, name: string, namespace: Option<string>, k: nat, id: nat)
    requires Run(run, name, namespace) && k < |run| && id in run[k].clients
    ensures SavedIfClean(run[k].clients[id])
  {
    if k > 0 {
      assert Next(run[k - 1], run[k - 1 + 1], name, namespace);
      var step :| NextBy(run[k - 1], run[k], name, namespace, step);
      if id in run[k - 1].clients {
        CleanHasNothingUnsaved(run, name, namespace, k - 1, id);
      }
      if step.Commit? && step.id == id {
        CommitSaves(run[k - 1], id, name, namespace, step.dryRun);
      }
    }
  }

  /** The step leaves entry `id` alone, or commits it as a dry run. */
  predicate DryOrElsewhere(step: Step, id: nat) {
    match step
    case Open(i) => i != id
    case Insert(i, _) => i != id
    case Modify(i, _) => i != id
    case Commit(i, dryRun) => i != id || dryRun
    case External(_) => true
  }

  /** The entry has a change to commit. */
  ghost predicate HasChange(s: System, id: nat, data: int) {
    id in s.clients && !s.clients[id].fields.dirtiness.Clean? && s.clients[id].fields.obj.data == data
  }

  lemma DryRunKeepsChange(s: System, t: System, name: string, namespace: Option<string>, step: Step, id: nat, data: int)
    requires NextBy(s, t, name, namespace, step) && DryOrElsewhere(step, id) && HasChange(s, id, data)
    ensures HasChange(t, id, data)
  {
    if step.Commit? {
      PrepareFits(s.clients[step.id].fields.obj, name, namespace);
    }
  }

  /** A run together with the step taken at each point. */
  ghost predicate RunBy(run: seq<System>, steps: seq<Step>, name: string, namespace: Option<string>) {
    && Run(run, name, namespace) && |run| == |steps| + 1
    && forall k :: 0 <= k < |steps| ==> NextBy(run[k], run[k + 1], name, namespace, steps[k])
  }

  lemma {:induction false} ChangeIsKept(
    run: seq<System>, steps: seq<Step>, name: string, namespace: Option<string>, i: nat, j: nat, id: nat, obj: Object)
    requires RunBy(run, steps, name, namespace) && i < j < |run| && steps[i] == Modify(id, obj)
    requires forall k :: i < k < j ==> DryOrElsewhere(steps[k], id)
    ensures HasChange(run[j], id, obj.data)
  {
    assert NextBy(run[j - 1], run[j - 1 + 1], name, namespace, steps[j - 1]);
    if i < j - 1 {
      ChangeIsKept(run, steps, name, namespace, i, j - 1, id, obj);
      DryRunKeepsChange(run[j - 1], run[j], name, namespace, steps[j - 1], id, obj.data);
    }
  }

  /**
    A change is committed: after an entry was modified, however often it was then committed as a dry run
    and whatever others did, a real commit that returns no error writes exactly that change, once.
   */
  lemma ModifiedIsCommitted(
    run: seq<System>, steps: seq<Step>, name: string, namespace: Option<string>, i: nat, j: nat, id: nat, obj: Object)
    requires RunBy(run, steps, name, namespace) && i < j < |steps|
    requires steps[i] == Modify(id, obj) && steps[j] == Commit(id, false)
    requires forall k :: i < k < j ==> DryOrElsewhere(steps[k], id)
    requires && id in run[j].clients
             && CommitResult(run[j].server, run[j].clients[id].fields, name, namespace, false).2.None?
    ensures |run[j + 1].log| == |run[j].log| + 1 && run[j + 1].log[|run[j].log|].stored.data == obj.data
    ensures Data(run[j + 1].server.stored) == obj.data && run[j + 1].server.stored.Some?
  {
    ChangeIsKept(run, steps, name, namespace, i, j, id, obj);
    assert NextBy(run[j], run[j + 1], name, namespace, steps[j]);
    PrepareFits(run[j].clients[id].fields.obj, name, namespace);
  }
}
