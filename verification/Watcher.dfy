/**
  The watcher: a client state machine (empty, listed, watching) that turns list and watch replies
  into events, run against an API server whose log of changes only grows. The server may end a
  stream, send bookmarks, refuse requests and forget old versions at any time.
 */
module Watcher {
  import opened Common

  // ---------- The server's log ----------

  /** A resource version. The client only stores and returns them; only the server compares them. */
  type Version = nat

  datatype Object = Object(name: string, uid: Option<string>, version: Version, data: int)

  datatype Change = Put(obj: Object) | Del(obj: Object)

  /** What is stored after the changes in `log`. */
  function Contents(log: seq<Change>): map<string, Object> {
    if log == [] then map[]
    else
      var before := Contents(log[..|log| - 1]);
      match log[|log| - 1]
      case Put(o) => before[o.name := o]
      case Del(o) => before - {o.name}
  }

  /** How many changes happened at or before version `v`. */
  function Cut(log: seq<Change>, v: Version): (n: nat)
    ensures n <= |log|
  {
    if log == [] || log[|log| - 1].obj.version <= v then |log| else Cut(log[..|log| - 1], v)
  }

  /** The server's contents at version `v`. */
  function ContentsAt(log: seq<Change>, v: Version): map<string, Object> {
    Contents(log[..Cut(log, v)])
  }

  /** Versions grow strictly along the log and never pass the newest one handed out. */
  ghost predicate LogOk(log: seq<Change>, head: Version) {
    && (forall i, j :: 0 <= i < j < |log| ==> log[i].obj.version < log[j].obj.version)
    && (forall i :: 0 <= i < |log| ==> log[i].obj.version <= head)
  }

  // ---------- The client ----------

  datatype Event = Applied(obj: Object) | Deleted(obj: Object) | Restarted(objs: seq<Object>)

  datatype Error =
    | InitialListFailed
    | WatchStartFailed
    | WatchError(code: int)
    | WatchFailed
    | NoResourceVersion
    | TooManyObjects

  datatype ClientState = Empty | InitListed(version: Version) | Watching(version: Version)

  /** Everything the API can answer, to a list call, a watch call, or a poll of the watch stream. */
  datatype Reply =
    | ListOk(items: seq<Object>, listed: Option<Version>)
    | ListErr
    | WatchOk
    | WatchErr // the request could not be sent
    | ItemAdded(obj: Object)
    | ItemModified(obj: Object)
    | ItemDeleted(obj: Object)
    | ItemBookmark(bookmark: Version)
    | ItemError(code: int)
    | StreamErr(status: Option<int>) // with a status: the body was an error response
    | StreamEnd

  predicate Answers(state: ClientState, reply: Reply) {
    match state
    case Empty => reply.ListOk? || reply.ListErr?
    case InitListed(_) => reply.WatchOk? || reply.WatchErr?
    case Watching(_) =>
      !(reply.ListOk? || reply.ListErr? || reply.WatchOk? || reply.WatchErr?)
  }

  type Output = Option<Result<Event, Error>>

  /** One step of the state machine: what to hand to the consumer, if anything, and the next state. */
  function StepTrampolined(state: ClientState, reply: Reply): (Output, ClientState)
    requires Answers(state, reply)
  {
    match reply
    case ListOk(items, Some(v)) => (Some(Ok(Restarted(items))), InitListed(v))
    case ListOk(_, None) => (Some(Err(NoResourceVersion)), Empty)
    case ListErr => (Some(Err(InitialListFailed)), Empty)
    case WatchOk => (None, Watching(state.version))
    case WatchErr => (Some(Err(WatchStartFailed)), InitListed(state.version))
    case ItemAdded(o) => (Some(Ok(Applied(o))), Watching(o.version))
    case ItemModified(o) => (Some(Ok(Applied(o))), Watching(o.version))
    case ItemDeleted(o) => (Some(Ok(Deleted(o))), Watching(o.version))
    case ItemBookmark(v) => (None, Watching(v))
    case ItemError(code) =>
      (Some(Err(WatchError(code))), if code == 410 then Empty else Watching(state.version))
    case StreamErr(_) => (Some(Err(WatchFailed)), Watching(state.version))
    case StreamEnd => (None, InitListed(state.version))
  }

  ghost predicate Script(state: ClientState, replies: seq<Reply>)
    decreases |replies|
  {
    replies == [] ||
    (Answers(state, replies[0]) && Script(StepTrampolined(state, replies[0]).1, replies[1..]))
  }

  /** The first output that a series of replies produces, the state after it, and how many it took. */
  ghost function FirstOutput(state: ClientState, replies: seq<Reply>): (Output, ClientState, nat)
    requires Script(state, replies)
    decreases |replies|
  {
    if replies == [] then (None, state, 0)
    else
      var (output, next) := StepTrampolined(state, replies[0]);
      if output.Some? then (output, next, 1)
      else
        var (o, n, used) := FirstOutput(next, replies[1..]);
        (o, n, used + 1)
  }

  /** `step`: keep stepping until there is something to hand over, or the replies run out. */
  method Step(state: ClientState, replies: seq<Reply>) returns (output: Output, next: ClientState, used: nat)
    requires Script(state, replies)
    ensures (output, next, used) == FirstOutput(state, replies)
    ensures output.None? ==> used == |replies|
    ensures used <= |replies| && Script(next, replies[used..])
  {
    output, next, used := None, state, 0;
    while used < |replies| && output.None?
      invariant used <= |replies|
      invariant Script(next, replies[used..])
      invariant output.None? ==>
          var (o, n, u) := FirstOutput(next, replies[used..]);
          FirstOutput(state, replies) == (o, n, used + u)
      invariant output.Some? ==> FirstOutput(state, replies) == (output, next, used)
      decreases |replies| - used, output.None?
    {
      assert replies[used..][1..] == replies[used + 1..];
      var step := StepTrampolined(next, replies[used]);
      output, next, used := step.0, step.1, used + 1;
    }
  }

  // ---------- The consumer's replica ----------

  function ToMap(objs: seq<Object>): map<string, Object> {
    if objs == [] then map[] else ToMap(objs[..|objs| - 1])[objs[|objs| - 1].name := objs[|objs| - 1]]
  }

  /** The store as documented on the events: apply inserts, delete removes, restart replaces. */
  function Replica(events: seq<Event>): map<string, Object> {
    if events == [] then map[]
    else
      var before := Replica(events[..|events| - 1]);
      match events[|events| - 1]
      case Applied(o) => before[o.name := o]
      case Deleted(o) => before - {o.name}
      case Restarted(objs) => ToMap(objs)
  }

  /** The events among the results handed to the consumer. */
  function Events(outputs: seq<Result<Event, Error>>): seq<Event> {
    if outputs == [] then []
    else
      Events(outputs[..|outputs| - 1]) +
      (if outputs[|outputs| - 1].Ok? then [outputs[|outputs| - 1].value] else [])
  }

  // ---------- Client and server together ----------

  /** How a list call reads: a quorum read, or any cached version. */
  datatype ListSemantic = MostRecent | Any

  /**
    `cursor` is how far the open watch stream has delivered. For the k-th event, `marks[k]` records the
    length of the log prefix that the event brings the consumer up to, and `versions[k]` the version
    that came with it: that of the list reply, or that of the changed object.
   */
  datatype System = System(
    log: seq<Change>,
    head: Version,
    client: ClientState,
    cursor: nat,
    outputs: seq<Result<Event, Error>>,
    marks: seq<nat>,
    versions: seq<Version>)

  /** A list reply is faithful when it names each stored object once. */
  ghost predicate Lists(items: seq<Object>, m: map<string, Object>) {
    && ToMap(items) == m
    && forall i, j :: 0 <= i < j < |items| ==> items[i].name != items[j].name
  }

  /**
    The replies a correct server may give. A stream delivers the changes after the version it was
    opened at, in order; a bookmark names a version with no undelivered change at or before it;
    errors consume no change.
   */
  ghost predicate ServerMayReply(s: System, semantic: ListSemantic, reply: Reply) {
    && Answers(s.client, reply)
    && match reply
       case ListOk(items, Some(v)) =>
         && v <= s.head
         && (semantic == MostRecent ==> v == s.head)
         && Lists(items, ContentsAt(s.log, v))
       case ItemAdded(o) => s.cursor < |s.log| && s.log[s.cursor] == Put(o)
       case ItemModified(o) => s.cursor < |s.log| && s.log[s.cursor] == Put(o)
       case ItemDeleted(o) => s.cursor < |s.log| && s.log[s.cursor] == Del(o)
       case ItemBookmark(v) => v <= s.head && Cut(s.log, v) == s.cursor
       case _ => true
  }

  function AfterReply(s: System, reply: Reply): System
    requires Answers(s.client, reply)
  {
    var (output, next) := StepTrampolined(s.client, reply);
    var cursor :=
      if reply.WatchOk? then Cut(s.log, s.client.version)
      else if reply.ItemAdded? || reply.ItemModified? || reply.ItemDeleted? then s.cursor + 1
      else s.cursor;
    var outputs := if output.Some? then s.outputs + [output.value] else s.outputs;
    match reply
    case ListOk(_, Some(v)) =>
      System(s.log, s.head, next, cursor, outputs, s.marks + [Cut(s.log, v)], s.versions + [v])
    case ItemAdded(o) => System(s.log, s.head, next, cursor, outputs, s.marks + [cursor], s.versions + [o.version])
    case ItemModified(o) => System(s.log, s.head, next, cursor, outputs, s.marks + [cursor], s.versions + [o.version])
    case ItemDeleted(o) => System(s.log, s.head, next, cursor, outputs, s.marks + [cursor], s.versions + [o.version])
    case _ => System(s.log, s.head, next, cursor, outputs, s.marks, s.versions)
  }

  datatype Action = Receive(reply: Reply) | Append(change: Change) | Advance(head: Version)

  ghost predicate NextBy(s: System, t: System, semantic: ListSemantic, action: Action) {
    match action
    case Receive(reply) => ServerMayReply(s, semantic, reply) && t == AfterReply(s, reply)
    case Append(change) =>
      && s.head < change.obj.version
      && t == s.(log := s.log + [change], head := change.obj.version)
    case Advance(head) => s.head <= head && t == s.(head := head)
  }

  ghost predicate Next(s: System, t: System, semantic: ListSemantic) {
    exists action :: NextBy(s, t, semantic, action)
  }

  /** Watching starts with no events handed over, on a server with any past. */
  ghost predicate Init(s: System) {
    s.client == Empty && s.outputs == [] && s.marks == [] && s.versions == [] && LogOk(s.log, s.head)
  }

  ghost predicate Run(run: seq<System>, semantic: ListSemantic) {
    && |run| > 0 && Init(run[0])
    && forall k :: 0 <= k < |run| - 1 ==> Next(run[k], run[k + 1], semantic)
  }

  // ---------- The invariant ----------

  function ToEvent(change: Change): Event {
    match change
    case Put(o) => Applied(o)
    case Del(o) => Deleted(o)
  }

  /** Each event brings the consumer from the prefix of the previous event to its own. */
  ghost predicate Chained(log: seq<Change>, events: seq<Event>, marks: seq<nat>) {
    && |marks| == |events|
    && (forall k :: 0 <= k < |events| ==> marks[k] <= |log|)
    && (forall k :: 0 <= k < |events| && events[k].Restarted? ==>
          Lists(events[k].objs, Contents(log[..marks[k]])))
    && (forall k :: 0 <= k < |events| && !events[k].Restarted? ==>
          && k > 0 && marks[k - 1] + 1 == marks[k]
          && events[k] == ToEvent(log[marks[k] - 1]))
  }

  /** The prefix of each event ends right at the version that came with it. */
  ghost predicate Dated(log: seq<Change>, head: Version, marks: seq<nat>, versions: seq<Version>) {
    && |versions| == |marks|
    && (forall k :: 0 <= k < |marks| ==> versions[k] <= head && marks[k] == Cut(log, versions[k]))
  }

  ghost predicate Invariant(s: System) {
    var events := Events(s.outputs);
    && LogOk(s.log, s.head)
    && Dated(s.log, s.head, s.marks, s.versions)
    && Chained(s.log, events, s.marks)
    && (!s.client.Empty? ==>
          && events != [] && s.client.version <= s.head
          && Cut(s.log, s.client.version) == s.marks[|s.marks| - 1])
    && (s.client.Watching? ==> s.cursor == s.marks[|s.marks| - 1])
  }

  lemma EventsAppend(outputs: seq<Result<Event, Error>>, r: Result<Event, Error>)
    ensures Events(outputs + [r]) == Events(outputs) + if r.Ok? then [r.value] else []
  {
    assert (outputs + [r])[..|outputs|] == outputs;
  }

  /** A version in a well-formed log is the cut right after its own change. */
  lemma {:induction false} CutAtOwnVersion(log: seq<Change>, head: Version, n: nat)
    requires LogOk(log, head) && n < |log|
    ensures Cut(log, log[n].obj.version) == n + 1
  {
    if n < |log| - 1 {
      CutAtOwnVersion(log[..|log| - 1], head, n);
    }
  }

  lemma AppendKeepsCut(log: seq<Change>, change: Change, v: Version)
    requires v < change.obj.version
    ensures Cut(log + [change], v) == Cut(log, v)
  {
    assert (log + [change])[..|log|] == log;
  }

  lemma AppendKeepsChain(log: seq<Change>, change: Change, events: seq<Event>, marks: seq<nat>)
    requires Chained(log, events, marks)
    ensures Chained(log + [change], events, marks)
  {
    var longer := log + [change];
    assert forall n :: 0 <= n <= |log| ==> longer[..n] == log[..n];
  }

  lemma AppendKeepsDates(log: seq<Change>, head: Version, change: Change, marks: seq<nat>, versions: seq<Version>)
    requires Dated(log, head, marks, versions) && head < change.obj.version
    ensures Dated(log + [change], change.obj.version, marks, versions)
  {
    forall k | 0 <= k < |marks| ensures marks[k] == Cut(log + [change], versions[k]) {
      AppendKeepsCut(log, change, versions[k]);
    }
  }

  lemma RestartExtendsChain(log: seq<Change>, events: seq<Event>, marks: seq<nat>, items: seq<Object>, n: nat)
    requires Chained(log, events, marks) && n <= |log| && Lists(items, Contents(log[..n]))
    ensures Chained(log, events + [Restarted(items)], marks + [n])
  {
  }

  lemma ChangeExtendsChain(log: seq<Change>, events: seq<Event>, marks: seq<nat>)
    requires Chained(log, events, marks) && events != [] && marks[|marks| - 1] < |log|
    ensures var n := marks[|marks| - 1];
            Chained(log, events + [ToEvent(log[n])], marks + [n + 1])
  {
  }

  lemma ListKeepsInvariant(s: System, semantic: ListSemantic, items: seq<Object>, v: Version)
    requires Invariant(s) && ServerMayReply(s, semantic, ListOk(items, Some(v)))
    ensures Invariant(AfterReply(s, ListOk(items, Some(v))))
  {
    EventsAppend(s.outputs, Ok(Restarted(items)));
    RestartExtendsChain(s.log, Events(s.outputs), s.marks, items, Cut(s.log, v));
  }

  /** The system once the next change of the stream has been handed over. */
  function AfterChange(s: System): System
    requires s.cursor < |s.log|
  {
    var change := s.log[s.cursor];
    System(s.log, s.head, Watching(change.obj.version), s.cursor + 1,
           s.outputs + [Ok(ToEvent(change))], s.marks + [s.cursor + 1], s.versions + [change.obj.version])
  }

  lemma ItemEffect(s: System, semantic: ListSemantic, reply: Reply)
    requires ServerMayReply(s, semantic, reply)
    requires reply.ItemAdded? || reply.ItemModified? || reply.ItemDeleted?
    ensures s.client.Watching? && s.cursor < |s.log| && AfterReply(s, reply) == AfterChange(s)
  {
  }

  lemma ChangeKeepsInvariant(s: System)
    requires Invariant(s) && s.client.Watching? && s.cursor < |s.log|
    ensures Invariant(AfterChange(s))
  {
    EventsAppend(s.outputs, Ok(ToEvent(s.log[s.cursor])));
    ChangeExtendsChain(s.log, Events(s.outputs), s.marks);
    CutAtOwnVersion(s.log, s.head, s.cursor);
  }

  lemma QuietReplyAddsNoEvent(s: System, reply: Reply)
    requires Answers(s.client, reply)
    requires !(reply.ListOk? && reply.listed.Some?)
    requires !(reply.ItemAdded? || reply.ItemModified? || reply.ItemDeleted?)
    ensures var t := AfterReply(s, reply);
            && t.log == s.log && t.head == s.head && t.marks == s.marks && t.versions == s.versions
            && Events(t.outputs) == Events(s.outputs)
  {
    var (output, _) := StepTrampolined(s.client, reply);
    if output.Some? {
      EventsAppend(s.outputs, output.value);
    }
  }

  /** Replies without an event keep the tracked version, move it within the same cut, or drop it. */
  lemma QuietReplyKeepsPlace(s: System, semantic: ListSemantic, reply: Reply)
    requires Invariant(s) && ServerMayReply(s, semantic, reply)
    requires !(reply.ListOk? && reply.listed.Some?)
    requires !(reply.ItemAdded? || reply.ItemModified? || reply.ItemDeleted?)
    ensures var t := AfterReply(s, reply);
            && (!t.client.Empty? ==>
                  && !s.client.Empty? && t.client.version <= s.head
                  && Cut(s.log, t.client.version) == s.marks[|s.marks| - 1])
            && (t.client.Watching? ==> t.cursor == s.marks[|s.marks| - 1])
  {
  }

  lemma QuietReplyKeepsInvariant(s: System, semantic: ListSemantic, reply: Reply)
    requires Invariant(s) && ServerMayReply(s, semantic, reply)
    requires !(reply.ListOk? && reply.listed.Some?)
    requires !(reply.ItemAdded? || reply.ItemModified? || reply.ItemDeleted?)
    ensures Invariant(AfterReply(s, reply))
  {
    QuietReplyAddsNoEvent(s, reply);
    QuietReplyKeepsPlace(s, semantic, reply);
  }

  lemma ReceiveKeepsInvariant(s: System, semantic: ListSemantic, reply: Reply)
    requires Invariant(s) && ServerMayReply(s, semantic, reply)
    ensures Invariant(AfterReply(s, reply))
  {
    if reply.ListOk? && reply.listed.Some? {
      ListKeepsInvariant(s, semantic, reply.items, reply.listed.value);
    } else if reply.ItemAdded? || reply.ItemModified? || reply.ItemDeleted? {
      ItemEffect(s, semantic, reply);
      ChangeKeepsInvariant(s);
    } else {
      QuietReplyKeepsInvariant(s, semantic, reply);
    }
  }

  lemma AppendKeepsInvariant(s: System, change: Change)
    requires Invariant(s) && s.head < change.obj.version
    ensures Invariant(s.(log := s.log + [change], head := change.obj.version))
  {
    AppendKeepsChain(s.log, change, Events(s.outputs), s.marks);
    AppendKeepsDates(s.log, s.head, change, s.marks, s.versions);
    if !s.client.Empty? {
      AppendKeepsCut(s.log, change, s.client.version);
    }
  }

  lemma NextKeepsInvariant(s: System, t: System, semantic: ListSemantic)
    requires Invariant(s) && Next(s, t, semantic)
    ensures Invariant(t)
  {
    var action :| NextBy(s, t, semantic, action);
    match action
    case Receive(reply) => ReceiveKeepsInvariant(s, semantic, reply);
    case Append(change) => AppendKeepsInvariant(s, change);
    case Advance(_) =>
  }

  lemma RunStep(run: seq<System>, semantic: ListSemantic, k: nat)
    requires Run(run, semantic) && 0 < k < |run|
    ensures Next(run[k - 1], run[k], semantic)
  {
    assert Next(run[k - 1], run[k - 1 + 1], semantic);
  }

  lemma {:induction false} RunKeepsInvariant(run: seq<System>, semantic: ListSemantic, k: nat)
    requires Run(run, semantic) && k < |run|
    ensures Invariant(run[k])
  {
    if k > 0 {
      RunKeepsInvariant(run, semantic, k - 1);
      RunStep(run, semantic, k);
      NextKeepsInvariant(run[k - 1], run[k], semantic);
    }
  }

  // ---------- Results ----------

  /** Folding a chain of events gives the server's contents at the last event's prefix. */
  lemma {:induction false} ReplicaOfChain(log: seq<Change>, events: seq<Event>, marks: seq<nat>)
    requires Chained(log, events, marks) && events != []
    ensures Replica(events) == Contents(log[..marks[|marks| - 1]])
  {
    var n := |events| - 1;
    if !events[n].Restarted? {
      ReplicaOfChain(log, events[..n], marks[..n]);
      assert log[..marks[n]][..marks[n] - 1] == log[..marks[n - 1]];
      assert log[..marks[n]][marks[n] - 1] == log[marks[n] - 1];
    }
  }

  /**
    The replica is always a real snapshot: in the listed and watching states it is exactly the
    server's contents at the version the client tracks, and after falling back to the empty state it
    is still what the server held at one single moment, never a mixture.
   */
  lemma ReplicaIsSnapshot(run: seq<System>, semantic: ListSemantic, k: nat)
    requires Run(run, semantic) && k < |run|
    ensures var s := run[k];
            var replica := Replica(Events(s.outputs));
            && (!s.client.Empty? ==> replica == ContentsAt(s.log, s.client.version))
            && (s.client.Empty? ==> exists n :: 0 <= n <= |s.log| && replica == Contents(s.log[..n]))
  {
    RunKeepsInvariant(run, semantic, k);
    var s := run[k];
    var events := Events(s.outputs);
    if events == [] {
      assert Contents(s.log[..0]) == map[];
    } else {
      ReplicaOfChain(s.log, events, s.marks);
    }
  }

  function ToEvents(changes: seq<Change>): seq<Event> {
    if changes == [] then [] else ToEvents(changes[..|changes| - 1]) + [ToEvent(changes[|changes| - 1])]
  }

  lemma {:induction false} ChainIsSegment(log: seq<Change>, events: seq<Event>, marks: seq<nat>, i: nat, j: nat)
    requires Chained(log, events, marks) && i <= j < |events|
    requires forall k :: i < k <= j ==> !events[k].Restarted?
    ensures marks[i] <= marks[j] <= |log|
    ensures events[i + 1..j + 1] == ToEvents(log[marks[i]..marks[j]])
  {
    if i < j {
      ChainIsSegment(log, events, marks, i, j - 1);
      assert events[i + 1..j + 1] == events[i + 1..j] + [events[j]];
      var segment := log[marks[i]..marks[j]];
      assert segment[..|segment| - 1] == log[marks[i]..marks[j - 1]];
    }
  }

  /**
    Exactness. Take any restart and any later event with no restart in between: the restart lists the
    server's contents at the version that its list reply carried, and the events since are exactly the
    changes after that version - every change once, in order, whatever streams ended or failed on the
    way - up to the version of the last of them. While the client tracks a version, the last event
    brings the consumer exactly up to it.
   */
  lemma EventsAreLogSegment(run: seq<System>, semantic: ListSemantic, n: nat, i: nat, j: nat)
    requires Run(run, semantic) && n < |run|
    requires i <= j < |Events(run[n].outputs)|
    requires Events(run[n].outputs)[i].Restarted?
    requires forall k :: i < k <= j ==> !Events(run[n].outputs)[k].Restarted?
    ensures var s, events := run[n], Events(run[n].outputs);
            && |s.versions| == |events|
            && var from, upto := Cut(s.log, s.versions[i]), Cut(s.log, s.versions[j]);
               && from <= upto
               && Lists(events[i].objs, Contents(s.log[..from]))
               && events[i + 1..j + 1] == ToEvents(s.log[from..upto])
               && (j == |events| - 1 && !s.client.Empty? ==> upto == Cut(s.log, s.client.version))
  {
    RunKeepsInvariant(run, semantic, n);
    var s := run[n];
    ChainIsSegment(s.log, Events(s.outputs), s.marks, i, j);
  }

  /** Every event stream opens with a restart, so the previous result covers every event. */
  lemma {:induction false} RestartBefore(run: seq<System>, semantic: ListSemantic, n: nat, j: nat) returns (i: nat)
    requires Run(run, semantic) && n < |run| && j < |Events(run[n].outputs)|
    ensures i <= j && Events(run[n].outputs)[i].Restarted?
    ensures forall k :: i < k <= j ==> !Events(run[n].outputs)[k].Restarted?
  {
    RunKeepsInvariant(run, semantic, n);
    if Events(run[n].outputs)[j].Restarted? {
      i := j;
    } else {
      i := RestartBefore(run, semantic, n, j - 1);
    }
  }

  // ---------- Quorum lists never go back in time ----------

  ghost predicate Forward(s: System, floor: nat) {
    && (forall k :: 0 <= k < |s.marks| ==> floor <= s.marks[k] <= |s.log|)
    && (forall k, l :: 0 <= k < l < |s.marks| ==> s.marks[k] <= s.marks[l])
    && floor <= |s.log|
  }

  lemma {:induction false} CutAtHead(log: seq<Change>, head: Version)
    requires LogOk(log, head)
    ensures Cut(log, head) == |log|
  {
  }

  lemma MarkForward(s: System, t: System, mark: nat, floor: nat)
    requires Forward(s, floor) && t.log == s.log && t.marks == s.marks + [mark]
    requires floor <= mark <= |s.log| && (s.marks != [] ==> s.marks[|s.marks| - 1] <= mark)
    ensures Forward(t, floor)
  {
  }

  lemma ReceiveKeepsForward(s: System, reply: Reply, floor: nat)
    requires Invariant(s) && Forward(s, floor) && ServerMayReply(s, MostRecent, reply)
    ensures Forward(AfterReply(s, reply), floor)
  {
    if reply.ListOk? && reply.listed.Some? {
      CutAtHead(s.log, s.head);
      MarkForward(s, AfterReply(s, reply), |s.log|, floor);
    } else if reply.ItemAdded? || reply.ItemModified? || reply.ItemDeleted? {
      ItemEffect(s, MostRecent, reply);
      MarkForward(s, AfterReply(s, reply), s.cursor + 1, floor);
    } else {
      QuietReplyAddsNoEvent(s, reply);
    }
  }

  lemma NextKeepsForward(s: System, t: System, floor: nat)
    requires Invariant(s) && Forward(s, floor) && Next(s, t, MostRecent)
    ensures Forward(t, floor)
  {
    var action :| NextBy(s, t, MostRecent, action);
    if action.Receive? {
      ReceiveKeepsForward(s, action.reply, floor);
    }
  }

  /** With quorum lists, events only ever move the consumer forward, from the log at the start on. */
  lemma {:induction false} QuorumListsNeverGoBack(run: seq<System>, k: nat)
    requires Run(run, MostRecent) && k < |run|
    ensures Forward(run[k], |run[0].log|)
  {
    if k > 0 {
      QuorumListsNeverGoBack(run, k - 1);
      RunKeepsInvariant(run, MostRecent, k - 1);
      RunStep(run, MostRecent, k);
      NextKeepsForward(run[k - 1], run[k], |run[0].log|);
    }
  }

  // ---------- When the client lists again ----------

  /** A run together with what happened at each step. */
  ghost predicate RunBy(run: seq<System>, actions: seq<Action>, semantic: ListSemantic) {
    && Run(run, semantic) && |run| == |actions| + 1
    && forall k :: 0 <= k < |actions| ==> NextBy(run[k], run[k + 1], semantic, actions[k])
  }

  lemma {:induction false} ActionsUpTo(run: seq<System>, semantic: ListSemantic, n: nat) returns (actions: seq<Action>)
    requires Run(run, semantic) && n < |run|
    ensures |actions| == n && forall k :: 0 <= k < n ==> NextBy(run[k], run[k + 1], semantic, actions[k])
  {
    actions := [];
    if n > 0 {
      var before := ActionsUpTo(run, semantic, n - 1);
      RunStep(run, semantic, n);
      var action :| NextBy(run[n - 1], run[n], semantic, action);
      actions := before + [action];
    }
  }

  /** Every run has such actions. */
  lemma ActionsOf(run: seq<System>, semantic: ListSemantic) returns (actions: seq<Action>)
    requires Run(run, semantic)
    ensures RunBy(run, actions, semantic)
  {
    actions := ActionsUpTo(run, semantic, |run| - 1);
  }

  /** The step received the listing that the given restart reports, and the version recorded for it. */
  ghost predicate ReceivedListing(action: Action, event: Event, v: Version) {
    event.Restarted? && action == Receive(ListOk(event.objs, Some(v)))
  }

  /** What a step does to the events and their versions. */
  lemma StepEvents(s: System, t: System, semantic: ListSemantic, action: Action)
    requires NextBy(s, t, semantic, action)
    ensures var before, after := Events(s.outputs), Events(t.outputs);
            || (after == before && t.versions == s.versions)
            || exists e, v ::
                 && after == before + [e] && t.versions == s.versions + [v]
                 && (e.Restarted? ==> ReceivedListing(action, e, v))
  {
    if action.Receive? {
      var (output, _) := StepTrampolined(s.client, action.reply);
      if output.Some? {
        EventsAppend(s.outputs, output.value);
      }
      if output.Some? && output.value.Ok? {
        assert Events(t.outputs) == Events(s.outputs) + [output.value.value];
        assert t.versions == s.versions + [t.versions[|s.versions|]];
      }
    }
  }

  lemma VersionPerEvent(run: seq<System>, semantic: ListSemantic, n: nat)
    requires Run(run, semantic) && n < |run|
    ensures |run[n].versions| == |Events(run[n].outputs)|
  {
    RunKeepsInvariant(run, semantic, n);
  }

  /** A restart is older than the step, or the step received its listing. */
  lemma RestartStep(s: System, t: System, semantic: ListSemantic, action: Action, i: nat)
    requires NextBy(s, t, semantic, action) && |s.versions| == |Events(s.outputs)|
    requires i < |Events(t.outputs)| && Events(t.outputs)[i].Restarted?
    ensures |t.versions| == |Events(t.outputs)|
    ensures if i < |Events(s.outputs)|
            then Events(s.outputs)[i] == Events(t.outputs)[i] && s.versions[i] == t.versions[i]
            else ReceivedListing(action, Events(t.outputs)[i], t.versions[i])
  {
    StepEvents(s, t, semantic, action);
  }

  /**
    Every restart was made from a list reply: the step that received it carried exactly the restart's
    objects and the version that is recorded for it.
   */
  lemma {:induction false} RestartsComeFromLists(
    run: seq<System>, actions: seq<Action>, semantic: ListSemantic, n: nat, i: nat) returns (k: nat)
    requires RunBy(run, actions, semantic) && n < |run|
    requires i < |Events(run[n].outputs)| && Events(run[n].outputs)[i].Restarted?
    ensures |run[n].versions| == |Events(run[n].outputs)|
    ensures k < n && ReceivedListing(actions[k], Events(run[n].outputs)[i], run[n].versions[i])
  {
    VersionPerEvent(run, semantic, n);
    k := n - 1;
    VersionPerEvent(run, semantic, k);
    ActionTaken(run, actions, semantic, k);
    RestartStep(run[k], run[n], semantic, actions[k], i);
    if i < |Events(run[k].outputs)| {
      k := RestartsComeFromLists(run, actions, semantic, n - 1, i);
    }
  }

  lemma ActionTaken(run: seq<System>, actions: seq<Action>, semantic: ListSemantic, k: nat)
    requires RunBy(run, actions, semantic) && k < |actions|
    ensures NextBy(run[k], run[k + 1], semantic, actions[k])
  {
  }

  const EXPIRED := ItemError(410)

  lemma FallsBackOnExpiry(s: System, t: System, semantic: ListSemantic, action: Action)
    requires NextBy(s, t, semantic, action) && !s.client.Empty?
    ensures t.client.Empty? <==> action == Receive(EXPIRED)
  {
  }

  /**
    A client that tracks a version goes back to listing, at any later time, if and only if an open
    stream delivers an error item with code 410.
   */
  lemma {:induction false} RelistsOnlyOnExpiry(
    run: seq<System>, actions: seq<Action>, semantic: ListSemantic, i: nat, j: nat)
    requires RunBy(run, actions, semantic) && i <= j < |run| && !run[i].client.Empty?
    ensures (exists k :: i <= k <= j && run[k].client.Empty?) <==>
            (exists k :: i <= k < j && actions[k] == Receive(EXPIRED))
  {
    if i < j {
      RelistsOnlyOnExpiry(run, actions, semantic, i, j - 1);
      assert NextBy(run[j - 1], run[j - 1 + 1], semantic, actions[j - 1]);
      if !run[j - 1].client.Empty? {
        FallsBackOnExpiry(run[j - 1], run[j], semantic, actions[j - 1]);
      } else {
        assert exists k :: i <= k <= j - 1 && run[k].client.Empty?;
      }
    }
  }

  /** A reply without an event that is not the error item with code 410. */
  predicate IsSetback(reply: Reply) {
    reply.WatchErr? || reply.WatchOk? || reply.StreamErr? || reply.StreamEnd? || (reply.ItemError? && reply.code != 410)
  }

  /**
    A watch start that the server refuses is no such item, also when the status is 410: the stream opens,
    gives the error response as a stream error and ends. As long as the client gets only that, failed
    requests and other errors, it goes on with the same version and hands over no event.
   */
  lemma {:induction false} RefusalsNeverRelist(
    run: seq<System>, actions: seq<Action>, semantic: ListSemantic, i: nat, j: nat)
    requires RunBy(run, actions, semantic) && i <= j < |run| && !run[i].client.Empty?
    requires forall k :: i <= k < j && actions[k].Receive? ==> IsSetback(actions[k].reply)
    ensures !run[j].client.Empty? && run[j].client.version == run[i].client.version
    ensures Events(run[j].outputs) == Events(run[i].outputs)
  {
    if i < j {
      RefusalsNeverRelist(run, actions, semantic, i, j - 1);
      assert NextBy(run[j - 1], run[j - 1 + 1], semantic, actions[j - 1]);
      SetbackKeepsVersion(run[j - 1], run[j], semantic, actions[j - 1]);
    }
  }

  lemma SetbackKeepsVersion(s: System, t: System, semantic: ListSemantic, action: Action)
    requires NextBy(s, t, semantic, action) && !s.client.Empty?
    requires action.Receive? ==> IsSetback(action.reply)
    ensures !t.client.Empty? && t.client.version == s.client.version && Events(t.outputs) == Events(s.outputs)
  {
    if action.Receive? {
      QuietReplyAddsNoEvent(s, action.reply);
    }
  }

  // ---------- Streams are opened before they are read ----------

  /** A reply that only an open stream gives. */
  predicate IsStreamReply(reply: Reply) {
    !(reply.ListOk? || reply.ListErr? || reply.WatchOk? || reply.WatchErr?)
  }

  /** A stream reply after which the stream is still open. */
  predicate KeepsStreamOpen(action: Action) {
    action.Receive? ==> IsStreamReply(action.reply) && action.reply != StreamEnd && action.reply != EXPIRED
  }

  /** A client that is watching after a step was watching before it, or has just opened a stream. */
  lemma WatchingStep(s: System, t: System, semantic: ListSemantic, action: Action)
    requires NextBy(s, t, semantic, action) && t.client.Watching?
    ensures action == Receive(WatchOk) || (s.client.Watching? && KeepsStreamOpen(action))
  {
  }

  /** A client that is watching opened a stream at some step, and that stream has not ended since. */
  lemma {:induction false} WatchWasOpened(run: seq<System>, actions: seq<Action>, semantic: ListSemantic, m: nat)
    returns (j: nat)
    requires RunBy(run, actions, semantic) && m < |run| && run[m].client.Watching?
    ensures j < m && actions[j] == Receive(WatchOk)
    ensures forall i :: j < i < m ==> KeepsStreamOpen(actions[i])
  {
    assert m > 0;
    j := m - 1;
    ActionTaken(run, actions, semantic, j);
    WatchingStep(run[j], run[m], semantic, actions[j]);
    if actions[j] != Receive(WatchOk) {
      j := WatchWasOpened(run, actions, semantic, m - 1);
    }
  }

  /**
    Every stream reply comes from a stream that was opened and has not ended since. So after a stream
    has ended or its version has expired nothing more comes in until the client has opened a new one.
   */
  lemma StreamRepliesNeedAWatch(run: seq<System>, actions: seq<Action>, semantic: ListSemantic, m: nat)
    returns (j: nat)
    requires RunBy(run, actions, semantic) && m < |actions|
    requires actions[m].Receive? && IsStreamReply(actions[m].reply)
    ensures j < m && actions[j] == Receive(WatchOk)
    ensures forall i :: j < i < m ==> KeepsStreamOpen(actions[i])
    ensures forall k :: 0 <= k < m && actions[k] == Receive(StreamEnd) ==> k < j
  {
    ActionTaken(run, actions, semantic, m);
    j := WatchWasOpened(run, actions, semantic, m);
  }

  // ---------- Every failure is handed over ----------

  /** The failure that a reply stands for. */
  function FailureOf(action: Action): seq<Error> {
    match action
    case Receive(ListErr) => [InitialListFailed]
    case Receive(ListOk(_, None)) => [NoResourceVersion]
    case Receive(WatchErr) => [WatchStartFailed]
    case Receive(StreamErr(_)) => [WatchFailed]
    case Receive(ItemError(code)) => [WatchError(code)]
    case _ => []
  }

  function Failures(actions: seq<Action>): seq<Error> {
    if actions == [] then [] else Failures(actions[..|actions| - 1]) + FailureOf(actions[|actions| - 1])
  }

  /** The errors among the results handed to the consumer. */
  function Errors(outputs: seq<Result<Event, Error>>): seq<Error> {
    if outputs == [] then []
    else
      Errors(outputs[..|outputs| - 1]) +
      (if outputs[|outputs| - 1].Err? then [outputs[|outputs| - 1].error] else [])
  }

  lemma ErrorsAppend(outputs: seq<Result<Event, Error>>, r: Result<Event, Error>)
    ensures Errors(outputs + [r]) == Errors(outputs) + if r.Err? then [r.error] else []
  {
    assert (outputs + [r])[..|outputs|] == outputs;
  }

  lemma StepErrors(s: System, t: System, semantic: ListSemantic, action: Action)
    requires NextBy(s, t, semantic, action)
    ensures Errors(t.outputs) == Errors(s.outputs) + FailureOf(action)
  {
    if action.Receive? {
      var (output, _) := StepTrampolined(s.client, action.reply);
      if output.Some? {
        ErrorsAppend(s.outputs, output.value);
      }
    }
  }

  /** The consumer gets exactly the failures that happened, each under its own kind, in order. */
  lemma {:induction false} ErrorsAreFailures(
    run: seq<System>, actions: seq<Action>, semantic: ListSemantic, n: nat)
    requires RunBy(run, actions, semantic) && n < |run|
    ensures Errors(run[n].outputs) == Failures(actions[..n])
  {
    if n > 0 {
      ErrorsAreFailures(run, actions, semantic, n - 1);
      ActionTaken(run, actions, semantic, n - 1);
      StepErrors(run[n - 1], run[n], semantic, actions[n - 1]);
      assert actions[..n][..n - 1] == actions[..n - 1];
    }
  }

  // ---------- The version that is tracked ----------

  /** The version that came with a reply, if any. */
  function VersionOf(action: Action): Option<Version> {
    match action
    case Receive(ListOk(_, listed)) => listed
    case Receive(ItemAdded(o)) => Some(o.version)
    case Receive(ItemModified(o)) => Some(o.version)
    case Receive(ItemDeleted(o)) => Some(o.version)
    case Receive(ItemBookmark(v)) => Some(v)
    case _ => None
  }

  lemma StepTracks(s: System, t: System, semantic: ListSemantic, action: Action)
    requires NextBy(s, t, semantic, action) && !t.client.Empty?
    ensures VersionOf(action).Some? ==> t.client.version == VersionOf(action).value
    ensures VersionOf(action).None? ==> !s.client.Empty? && t.client.version == s.client.version
  {
  }

  /** A client tracks the version that came last, with a listing, a change or a bookmark. */
  lemma {:induction false} TracksLatestVersion(
    run: seq<System>, actions: seq<Action>, semantic: ListSemantic, n: nat) returns (k: nat)
    requires RunBy(run, actions, semantic) && n < |run| && !run[n].client.Empty?
    ensures k < n && VersionOf(actions[k]) == Some(run[n].client.version)
    ensures forall i :: k < i < n ==> VersionOf(actions[i]).None?
  {
    assert n > 0;
    k := n - 1;
    ActionTaken(run, actions, semantic, k);
    StepTracks(run[k], run[n], semantic, actions[k]);
    if VersionOf(actions[k]).None? {
      k := TracksLatestVersion(run, actions, semantic, n - 1);
    }
  }
}
