/**
  Waiting on one object through the watcher, and deleting an object and waiting until it is gone.
  The log here is the part of the server's log that the field selector `metadata.name={name}` lets through.
 */
module Wait {
  import opened Common
  import opened Watcher

  /** `watch_object`: what one watcher result says about the single watched object. */
  function WatchObject(r: Result<Event, Error>): Result<Option<Object>, Error> {
    match r
    case Err(e) => Err(e)
    case Ok(Deleted(_)) => Ok(None)
    case Ok(Restarted(objs)) =>
      if |objs| > 1 then Err(TooManyObjects)
      else if objs == [] then Ok(None)
      else Ok(Some(objs[|objs| - 1]))
    case Ok(Applied(o)) => Ok(Some(o))
  }

  /**
    `await_condition`: the first observation that satisfies `cond`, or the first error, whichever
    comes first; `None` while neither has arrived.
   */
  function AwaitCondition(stream: seq<Result<Event, Error>>, cond: Option<Object> -> bool)
    : Option<Result<Option<Object>, Error>>
  {
    if stream == [] then None
    else
      match WatchObject(stream[0])
      case Err(e) => Some(Err(e))
      case Ok(o) => if cond(o) then Some(Ok(o)) else AwaitCondition(stream[1..], cond)
  }

  function IsDeleted(uid: string): Option<Object> -> bool {
    (o: Option<Object>) => o.None? || o.value.uid != Some(uid)
  }

  /** The delete call answers with the object being deleted, or with a status once it is gone. */
  datatype DeleteReply =
    | DeleteFailed
    | DeletedObject(uid: Option<string>)
    | DeletedStatus(detailsUid: Option<string>)

  datatype DeleteError = Delete | NoUid | Await(error: Error)

  function ReplyUid(reply: DeleteReply): Option<string> {
    match reply
    case DeleteFailed => None
    case DeletedObject(uid) => uid
    case DeletedStatus(uid) => uid
  }

  function DeleteAndFinalize(reply: DeleteReply, stream: seq<Result<Event, Error>>)
    : Option<Result<(), DeleteError>>
  {
    if reply.DeleteFailed? then Some(Err(Delete))
    else if ReplyUid(reply).None? then Some(Err(NoUid))
    else
      match AwaitCondition(stream, IsDeleted(ReplyUid(reply).value))
      case None => None
      case Some(Err(e)) => Some(Err(Await(e)))
      case Some(Ok(_)) => Some(Ok(()))
  }

  // ---------- Server facts ----------

  ghost predicate HasUid(m: map<string, Object>, uid: string) {
    exists n :: n in m && m[n].uid == Some(uid)
  }

  /** An update keeps the uid; a new object gets a uid that no earlier object has had. */
  ghost predicate UidsNotReused(log: seq<Change>) {
    forall i :: 0 <= i < |log| && log[i].Put? ==>
      var o, m := log[i].obj, Contents(log[..i]);
      if o.name in m then m[o.name].uid == o.uid
      else forall k :: 0 <= k < i && log[k].Put? ==> log[k].obj.uid != o.uid
  }

  ghost predicate Named(log: seq<Change>, name: string) {
    forall i :: 0 <= i < |log| ==> log[i].obj.name == name
  }

  /** Whatever is stored was put. */
  lemma {:induction false} StoredWasPut(log: seq<Change>, n: string)
    requires n in Contents(log)
    ensures exists k :: 0 <= k < |log| && log[k] == Put(Contents(log)[n])
  {
    var last := |log| - 1;
    if log[last] == Put(Contents(log)[n]) {
    } else {
      StoredWasPut(log[..last], n);
      var k :| 0 <= k < last && log[..last][k] == Put(Contents(log)[n]);
      assert log[k] == Put(Contents(log)[n]);
    }
  }

  lemma UidWasPut(log: seq<Change>, uid: string, a: nat) returns (k: nat)
    requires a <= |log| && HasUid(Contents(log[..a]), uid)
    ensures k < a && log[k].Put? && log[k].obj.uid == Some(uid)
  {
    var n :| n in Contents(log[..a]) && Contents(log[..a])[n].uid == Some(uid);
    StoredWasPut(log[..a], n);
    k :| 0 <= k < a && log[..a][k] == Put(Contents(log[..a])[n]);
  }

  /** Once an object with a given uid is gone, no object has that uid again. */
  lemma {:induction false} GoneForever(log: seq<Change>, uid: string, a: nat, b: nat, c: nat)
    requires UidsNotReused(log) && a <= b <= c <= |log|
    requires HasUid(Contents(log[..a]), uid) && !HasUid(Contents(log[..b]), uid)
    ensures !HasUid(Contents(log[..c]), uid)
  {
    if c > b {
      GoneForever(log, uid, a, b, c - 1);
      assert log[..c][..c - 1] == log[..c - 1] && log[..c][c - 1] == log[c - 1];
      var k := UidWasPut(log, uid, a);
      assert !(log[c - 1].Put? && log[c - 1].obj.uid == Some(uid));
    }
  }

  lemma {:induction false} OnlyOneName(log: seq<Change>, name: string)
    requires Named(log, name)
    ensures Contents(log).Keys <= {name}
  {
    if log != [] {
      OnlyOneName(log[..|log| - 1], name);
    }
  }

  // ---------- Waiting ----------

  /** A wait that ends well ended on the first observation to satisfy the condition, with no error before it. */
  lemma {:induction false} AwaitFinds(stream: seq<Result<Event, Error>>, cond: Option<Object> -> bool) returns (k: nat)
    requires AwaitCondition(stream, cond).Some? && AwaitCondition(stream, cond).value.Ok?
    ensures k < |stream| && forall i :: 0 <= i <= k ==> stream[i].Ok? && WatchObject(stream[i]).Ok?
    ensures forall i :: 0 <= i < k ==> !cond(WatchObject(stream[i]).value)
    ensures WatchObject(stream[k]) == AwaitCondition(stream, cond).value
    ensures cond(AwaitCondition(stream, cond).value.value)
  {
    if cond(WatchObject(stream[0]).value) {
      k := 0;
    } else {
      k := AwaitFinds(stream[1..], cond);
      k := k + 1;
    }
  }

  /** A wait that fails failed on the first error, with nothing before it to satisfy the condition. */
  lemma {:induction false} AwaitFails(stream: seq<Result<Event, Error>>, cond: Option<Object> -> bool) returns (k: nat)
    requires AwaitCondition(stream, cond).Some? && AwaitCondition(stream, cond).value.Err?
    ensures k < |stream| && WatchObject(stream[k]) == AwaitCondition(stream, cond).value
    ensures forall i :: 0 <= i < k ==> WatchObject(stream[i]).Ok? && !cond(WatchObject(stream[i]).value)
  {
    if WatchObject(stream[0]).Err? {
      k := 0;
    } else {
      k := AwaitFails(stream[1..], cond);
      k := k + 1;
    }
  }

  /** A wait goes on exactly as long as there was neither an error nor an observation that satisfies it. */
  lemma {:induction false} AwaitGoesOn(stream: seq<Result<Event, Error>>, cond: Option<Object> -> bool)
    ensures AwaitCondition(stream, cond).None? <==>
              forall i :: 0 <= i < |stream| ==> WatchObject(stream[i]).Ok? && !cond(WatchObject(stream[i]).value)
  {
    if stream != [] {
      AwaitGoesOn(stream[1..], cond);
      assert forall i :: 1 <= i < |stream| ==> stream[i] == stream[1..][i - 1];
    }
  }

  /**
    What each outcome of deleting and waiting means. Success comes from a reply with a uid and an
    observation without it; a failed call, a reply without a uid and a failed wait have their own errors.
   */
  lemma DeleteOutcomes(reply: DeleteReply, stream: seq<Result<Event, Error>>)
    ensures var r := DeleteAndFinalize(reply, stream);
            && (r == Some(Err(Delete)) <==> reply == DeleteFailed)
            && (r == Some(Err(NoUid)) <==> reply == DeletedObject(None) || reply == DeletedStatus(None))
            && (r.Some? && r.value.Err? && r.value.error.Await? ==>
                  exists k :: 0 <= k < |stream| && WatchObject(stream[k]) == Err(r.value.error.error))
            && (r.None? <==>
                  exists uid ::
                    && (reply == DeletedObject(Some(uid)) || reply == DeletedStatus(Some(uid)))
                    && forall i :: 0 <= i < |stream| ==> StillThere(stream[i], uid))
            && (r == Some(Ok(())) ==>
                  exists uid, k ::
                    && (reply == DeletedObject(Some(uid)) || reply == DeletedStatus(Some(uid)))
                    && 0 <= k < |stream| && stream[k].Ok? && ObservesOther(stream[k], uid)
                    && forall i :: 0 <= i < k ==> stream[i].Ok?)
  {
    if ReplyUid(reply).Some? {
      var uid := ReplyUid(reply).value;
      var awaited := AwaitCondition(stream, IsDeleted(uid));
      AwaitGoesOn(stream, IsDeleted(uid));
      assert awaited.None? <==> forall i :: 0 <= i < |stream| ==> StillThere(stream[i], uid);
      if awaited.Some? && awaited.value.Ok? {
        var k := AwaitFinds(stream, IsDeleted(uid));
        assert ObservesOther(stream[k], uid);
      } else if awaited.Some? {
        var k := AwaitFails(stream, IsDeleted(uid));
      }
    }
  }

  /** The object with the uid was seen under the name. */
  predicate StillThere(r: Result<Event, Error>, uid: string) {
    WatchObject(r).Ok? && WatchObject(r).value.Some? && WatchObject(r).value.value.uid == Some(uid)
  }

  /** Nothing was seen under the name, or an object with another uid. */
  predicate ObservesOther(r: Result<Event, Error>, uid: string) {
    && WatchObject(r).Ok?
    && (WatchObject(r).value.None? || WatchObject(r).value.value.uid != Some(uid))
  }

  lemma {:induction false} EventsOfOks(stream: seq<Result<Event, Error>>, k: nat)
    requires k < |stream| && forall i :: 0 <= i <= k ==> stream[i].Ok?
    ensures k < |Events(stream)| && Events(stream)[k] == stream[k].value
    ensures k == |stream| - 1 ==> |Events(stream)| == |stream|
  {
    if k == |stream| - 1 {
      if k > 0 {
        EventsOfOks(stream[..k], k - 1);
      }
    } else {
      EventsOfOks(stream[..|stream| - 1], k);
    }
  }

  /** A listing of one name has at most one object. */
  lemma OneListed(objs: seq<Object>, m: map<string, Object>, name: string)
    requires Lists(objs, m) && m.Keys <= {name}
    ensures |objs| <= 1 && m == if objs == [] then map[] else map[name := objs[0]]
  {
    ListedNames(objs);
    if |objs| > 1 {
      FirstTwoNames(objs, name);
      assert false;
    }
    if |objs| == 1 {
      assert objs[..0] == [];
      assert ToMap(objs) == map[objs[0].name := objs[0]];
    }
  }

  lemma FirstTwoNames(objs: seq<Object>, name: string)
    requires |objs| > 1 && forall i :: 0 <= i < |objs| ==> objs[i].name == name
    ensures objs[0].name == objs[1].name
  {
  }

  lemma {:induction false} ListedNames(objs: seq<Object>)
    ensures forall i :: 0 <= i < |objs| ==> objs[i].name in ToMap(objs)
  {
    if objs != [] {
      ListedNames(objs[..|objs| - 1]);
    }
  }

  /**
    Every event of the watch on one name is an observation, and the observation is what the server
    stored under the name at the event's place in the log.
   */
  lemma ObservedIsStored(log: seq<Change>, name: string, events: seq<Event>, marks: seq<nat>, k: nat)
    requires Chained(log, events, marks) && Named(log, name) && k < |events|
    ensures WatchObject(Ok(events[k])).Ok?
    ensures var o := WatchObject(Ok(events[k])).value;
            Contents(log[..marks[k]]) == if o.None? then map[] else map[name := o.value]
  {
    var m := marks[k];
    OnlyOneName(log[..m], name);
    if events[k].Restarted? {
      OneListed(events[k].objs, Contents(log[..m]), name);
    } else {
      assert marks[k - 1] + 1 == m;
      OnlyOneName(log[..m][..m - 1], name);
    }
  }

  lemma {:induction false} LogGrows(run: seq<System>, semantic: ListSemantic, k: nat, j: nat)
    requires Run(run, semantic) && k <= j < |run|
    ensures run[k].log <= run[j].log
  {
    if k < j {
      LogGrows(run, semantic, k, j - 1);
      RunStep(run, semantic, j);
      var action :| NextBy(run[j - 1], run[j], semantic, action);
    }
  }

  /**
    Deletion is real. The delete call answered with the uid of an object that had been stored by then,
    and the watch started afterwards with quorum lists. If the whole call returns Ok, then neither at
    that moment nor at any later one does the server store an object with that uid.
   */
  lemma DeletionIsReal(name: string, uid: string, run: seq<System>, reply: DeleteReply, d: nat, k: nat, j: nat)
    requires Run(run, MostRecent) && k <= j < |run|
    requires Named(run[j].log, name) && UidsNotReused(run[j].log)
    requires d <= |run[0].log| && HasUid(Contents(run[0].log[..d]), uid)
    requires ReplyUid(reply) == Some(uid)
    requires DeleteAndFinalize(reply, run[k].outputs) == Some(Ok(()))
    ensures !HasUid(Contents(run[j].log), uid)
  {
    var s := run[k];
    RunKeepsInvariant(run, MostRecent, k);
    QuorumListsNeverGoBack(run, k);
    LogGrows(run, MostRecent, 0, k);
    LogGrows(run, MostRecent, k, j);
    var n := AwaitFinds(s.outputs, IsDeleted(uid));
    EventsOfOks(s.outputs, n);
    ObservedIsStored(s.log, name, Events(s.outputs), s.marks, n);
    var seen := s.marks[n];
    var log := run[j].log;
    assert log[..seen] == s.log[..seen] && log[..d] == run[0].log[..d] && log[..|log|] == log;
    assert !HasUid(Contents(log[..seen]), uid);
    GoneForever(log, uid, d, seen, |log|);
  }

  /** Quorum lists are needed: with cached lists the call can return Ok while the object is still stored. */
  lemma CachedListMissesObject(name: string, uid: string)
    ensures exists run: seq<System> ::
              && Run(run, Any)
              && var last := run[|run| - 1];
                 && DeleteAndFinalize(DeletedObject(Some(uid)), last.outputs) == Some(Ok(()))
                 && HasUid(Contents(run[0].log), uid) && HasUid(Contents(last.log), uid)
  {
    var o := Object(name, Some(uid), 1, 0);
    var s := System([Put(o)], 1, Empty, 0, [], [], []);
    var reply := ListOk([], Some(0));
    assert s.log[..0] == [];
    assert Cut(s.log, 0) == 0;
    var t := AfterReply(s, reply);
    assert NextBy(s, t, Any, Receive(reply));
    assert Contents(s.log) == map[name := o];
    assert t.outputs == [Ok(Restarted([]))];
    assert AwaitCondition(t.outputs, IsDeleted(uid)) == Some(Ok(None));
    assert name in Contents(t.log);
    assert Run([s, t], Any);
  }
}
