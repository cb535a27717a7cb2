/**
  The delay-and-deduplicate scheduler. Its three structures - a delay queue, metadata per message and
  a set of messages held back - together implement one map: what has been requested of each message
  since it was last emitted.
 */
module Scheduling {
  import opened Common

  type Instant = int

  /** A reconcile request. Two requests are equal when their keys are; the reason is not compared. */
  datatype Message = Message(key: string, reason: string)

  datatype Request = Request(message: Message, runAt: Instant)

  // ---------- The specification ----------

  /** What has happened to the scheduler. */
  datatype Op = Requested(request: Request) | Emitted(message: Message, at: Instant)

  /** One scheduler slot: the first-submitted message and the earliest instant it was asked for. */
  datatype Want = Want(message: Message, earliest: Instant)

  function Min(a: Instant, b: Instant): Instant {
    if a < b then a else b
  }

  function WithRequest(wanted: map<string, Want>, r: Request): map<string, Want> {
    var k := r.message.key;
    wanted[k := if k in wanted then wanted[k].(earliest := Min(wanted[k].earliest, r.runAt))
                else Want(r.message, r.runAt)]
  }

  /** The one-map specification. */
  function Wanted(history: seq<Op>): map<string, Want> {
    if history == [] then map[]
    else
      var before := Wanted(history[..|history| - 1]);
      match history[|history| - 1]
      case Requested(r) => WithRequest(before, r)
      case Emitted(m, _) => before - {m.key}
  }

  /** The requests for a key since it was last emitted. */
  function Since(history: seq<Op>, key: string): seq<Request> {
    if history == [] then []
    else
      var before := Since(history[..|history| - 1], key);
      match history[|history| - 1]
      case Requested(r) => if r.message.key == key then before + [r] else before
      case Emitted(m, _) => if m.key == key then [] else before
  }

  function Earliest(requests: seq<Request>): Instant
    requires requests != []
  {
    if |requests| == 1 then requests[0].runAt
    else Min(Earliest(requests[..|requests| - 1]), requests[|requests| - 1].runAt)
  }

  lemma {:induction false} EarliestIsLeast(requests: seq<Request>)
    requires requests != []
    ensures forall i :: 0 <= i < |requests| ==> Earliest(requests) <= requests[i].runAt
    ensures exists i :: 0 <= i < |requests| && Earliest(requests) == requests[i].runAt
  {
    if |requests| == 1 {
      assert Earliest(requests) == requests[0].runAt;
    } else {
      var init, last := requests[..|requests| - 1], requests[|requests| - 1];
      EarliestIsLeast(init);
      var i :| 0 <= i < |init| && Earliest(init) == init[i].runAt;
      assert Earliest(requests) == requests[i].runAt || Earliest(requests) == requests[|requests| - 1].runAt;
    }
  }

  /**
    The map says what it should: a key is in it when it was requested since its last emission, with
    the first message submitted since then and the earliest instant asked for since then.
   */
  lemma {:induction false} WantedIsSince(history: seq<Op>, key: string)
    ensures key in Wanted(history) <==> Since(history, key) != []
    ensures key in Wanted(history) ==>
              && Wanted(history)[key].message == Since(history, key)[0].message
              && Wanted(history)[key].earliest == Earliest(Since(history, key))
              && Wanted(history)[key].message.key == key
  {
    if history != [] {
      var init, last := history[..|history| - 1], history[|history| - 1];
      WantedIsSince(init, key);
      if last.Requested? && last.request.message.key == key {
        var before := Since(init, key);
        assert (before + [last.request])[..|before|] == before;
      }
    }
  }

  /** Each emission hands out a wanted message, with its first-submitted reason, and never early. */
  ghost predicate Sound(history: seq<Op>) {
    forall i :: 0 <= i < |history| ==> SoundAt(history, i)
  }

  ghost predicate SoundAt(history: seq<Op>, i: nat)
    requires i < |history|
  {
    history[i].Emitted? ==>
      var m, wanted := history[i].message, Wanted(history[..i]);
      m.key in wanted && wanted[m.key].message == m && wanted[m.key].earliest <= history[i].at
  }

  lemma SoundAppend(history: seq<Op>, op: Op)
    requires Sound(history)
    requires op.Emitted? ==>
               && op.message.key in Wanted(history)
               && Wanted(history)[op.message.key].message == op.message
               && Wanted(history)[op.message.key].earliest <= op.at
    ensures Sound(history + [op])
  {
    var longer := history + [op];
    assert longer[..|history|] == history;
    forall i | 0 <= i < |longer| ensures SoundAt(longer, i) {
      if i < |history| {
        assert longer[..i] == history[..i] && SoundAt(history, i);
      }
    }
  }

  lemma WantedAppend(history: seq<Op>, op: Op)
    ensures op.Requested? ==>
              Wanted(history + [op]) == WithRequest(Wanted(history), op.request)
    ensures op.Emitted? ==> Wanted(history + [op]) == Wanted(history) - {op.message.key}
  {
    assert (history + [op])[..|history|] == history;
  }

  /** The operations that draining a batch of requests adds. */
  function Requests(batch: seq<Request>): seq<Op> {
    seq(|batch|, i requires 0 <= i < |batch| => Requested(batch[i]))
  }

  /** Nothing requested is lost: after a request, its key is wanted or has been emitted since. */
  lemma {:induction false} RequestedIsWantedOrEmitted(history: seq<Op>, i: nat)
    requires i < |history| && history[i].Requested?
    ensures var k := history[i].request.message.key;
            || k in Wanted(history)
            || exists j :: i < j < |history| && history[j].Emitted? && history[j].message.key == k
  {
    var n := |history| - 1;
    if i < n {
      RequestedIsWantedOrEmitted(history[..n], i);
      var k := history[i].request.message.key;
      if j :| i < j < n && history[..n][j].Emitted? && history[..n][j].message.key == k {
        assert history[j].Emitted?;
      }
    }
  }

  lemma RemovalShrinks<V>(m: map<nat, V>, q: nat)
    requires q in m
    ensures |m - {q}| < |m|
  {
    assert (m - {q}).Keys == m.Keys - {q};
    assert |m.Keys| == |(m - {q}).Keys| + 1;
  }

  /** No wanted message is both due and allowed. */
  ghost predicate NothingDue(wanted: map<string, Want>, now: Instant, canTake: Message -> bool) {
    forall k :: k in wanted && wanted[k].earliest <= now ==> !canTake(wanted[k].message)
  }

  // ---------- The scheduler ----------

  /** An entry of the delay queue. */
  datatype Delayed = Delayed(message: Message, deadline: Instant)

  datatype ScheduledEntry = ScheduledEntry(runAt: Instant, queueKey: nat)

  datatype Poll = Ready(message: Message) | Ended | Pending

  class Scheduler {
    var queue: map<nat, Delayed>
    var scheduled: map<string, ScheduledEntry>
    var pending: map<string, Message>
    ghost var history: seq<Op>
    ghost var clock: Instant

    /** Queue and metadata are in bijection, with equal deadlines. */
    ghost predicate Agree()
      reads this
    {
      && (forall k :: k in scheduled ==>
            && scheduled[k].queueKey in queue
            && queue[scheduled[k].queueKey].message.key == k
            && queue[scheduled[k].queueKey].deadline == scheduled[k].runAt)
      && (forall q :: q in queue ==>
            queue[q].message.key in scheduled && scheduled[queue[q].message.key].queueKey == q)
    }

    /** The three structures hold exactly what the specification wants. */
    ghost predicate Implements(wanted: map<string, Want>)
      requires Agree()
      reads this
    {
      && scheduled.Keys !! pending.Keys
      && wanted.Keys == scheduled.Keys + pending.Keys
      && (forall k :: k in scheduled ==>
            wanted[k] == Want(queue[scheduled[k].queueKey].message, scheduled[k].runAt))
      && (forall k :: k in pending ==>
            pending[k].key == k && wanted[k].message == pending[k] && wanted[k].earliest <= clock)
    }

    ghost predicate Valid()
      reads this
    {
      Agree() && Implements(Wanted(history)) && Sound(history)
    }

    constructor (ghost start: Instant)
      ensures Valid() && history == [] && clock == start
    {
      queue, scheduled, pending := map[], map[], map[];
      history := [];
      clock := start;
    }

    /** The delay queue hands out a key that is not in use. */
    method InsertAt(message: Message, deadline: Instant) returns (q: nat)
      modifies this`queue
      ensures q !in old(queue) && queue == old(queue)[q := Delayed(message, deadline)]
    {
      q := 0;
      var free := queue.Keys;
      while q in queue
        invariant free <= queue.Keys
        invariant forall k :: k in queue && k !in free ==> k < q
        invariant forall k :: k in free ==> q <= k
        decreases |free|
      {
        free := free - {q};
        q := q + 1;
      }
      queue := queue[q := Delayed(message, deadline)];
    }

    /** Bring a scheduled message forward. */
    method Expedite(request: Request, ghost wanted: map<string, Want>)
      requires Agree() && Implements(wanted) && request.message.key in scheduled
      requires scheduled[request.message.key].runAt >= request.runAt
      modifies this`queue, this`scheduled
      ensures Agree() && Implements(WithRequest(wanted, request))
    {
      var k := request.message.key;
      var q := scheduled[k].queueKey;
      queue := queue[q := queue[q].(deadline := request.runAt)];
      scheduled := scheduled[k := scheduled[k].(runAt := request.runAt)];
    }

    /** Schedule a message that is not there yet. */
    method Enqueue(request: Request, ghost wanted: map<string, Want>)
      requires Agree() && Implements(wanted) && request.message.key !in wanted
      modifies this`queue, this`scheduled
      ensures Agree() && Implements(WithRequest(wanted, request))
    {
      var q := InsertAt(request.message, request.runAt);
      scheduled := scheduled[request.message.key := ScheduledEntry(request.runAt, q)];
    }

    method ScheduleMessage(request: Request)
      requires Valid()
      modifies this
      ensures Valid() && clock == old(clock)
      ensures history == old(history) + [Requested(request)]
    {
      ghost var wanted := Wanted(history);
      WantedAppend(history, Requested(request));
      SoundAppend(history, Requested(request));
      history := history + [Requested(request)];
      var k := request.message.key;
      if k in pending {
        return;
      }
      if k in scheduled {
        if scheduled[k].runAt >= request.runAt {
          Expedite(request, wanted);
        }
      } else {
        Enqueue(request, wanted);
      }
    }

    /** Take an entry off the queue, together with its metadata. */
    method RemoveExpired(q: nat, ghost wanted: map<string, Want>) returns (message: Message)
      requires Agree() && Implements(wanted) && q in queue
      modifies this`queue, this`scheduled
      ensures message == old(queue[q]).message && message.key in wanted && message.key !in pending
      ensures wanted[message.key] == Want(message, old(queue[q]).deadline)
      ensures Agree() && Implements(wanted - {message.key})
      ensures queue == old(queue) - {q}
    {
      message := queue[q].message;
      queue := queue - {q};
      // The metadata that the caller insists on finding is always there.
      assert message.key in scheduled;
      scheduled := scheduled - {message.key};
    }

    /** Hold back a message that is due. */
    method Hold(message: Message, ghost wanted: map<string, Want>)
      requires Agree() && message.key in wanted && Implements(wanted - {message.key})
      requires wanted[message.key].message == message && wanted[message.key].earliest <= clock
      modifies this`pending
      ensures Agree() && Implements(wanted) && pending == old(pending)[message.key := message]
    {
      pending := pending[message.key := message];
    }

    /** Record that a message has been handed out. */
    ghost method Emit(message: Message)
      requires Agree() && Sound(history) && message.key in Wanted(history)
      requires Wanted(history)[message.key].message == message && Wanted(history)[message.key].earliest <= clock
      requires Implements(Wanted(history) - {message.key})
      modifies this`history
      ensures Valid() && history == old(history) + [Emitted(message, clock)]
    {
      WantedAppend(history, Emitted(message, clock));
      SoundAppend(history, Emitted(message, clock));
      history := history + [Emitted(message, clock)];
    }

    /** Hand out a message that was held back, if one may be taken now. */
    method TakeHeld(canTake: Message -> bool) returns (r: Option<Message>)
      requires Valid()
      modifies this`pending, this`history
      ensures Valid()
      ensures r.Some? ==> canTake(r.value) && history == old(history) + [Emitted(r.value, clock)]
      ensures r.None? ==> history == old(history) && HeldMayNotGo(canTake)
    {
      if k :| k in pending && canTake(pending[k]) {
        r := Some(pending[k]);
        pending := pending - {k};
        Emit(r.value);
      } else {
        r := None;
      }
    }

    /** A due message that was taken off the queue is handed out or held back. */
    method Settle(message: Message, canTake: Message -> bool) returns (r: Option<Message>)
      requires Agree() && Sound(history) && message.key in Wanted(history) && HeldMayNotGo(canTake)
      requires Wanted(history)[message.key].message == message && Wanted(history)[message.key].earliest <= clock
      requires Implements(Wanted(history) - {message.key})
      modifies this`pending, this`history
      ensures Valid()
      ensures r.Some? ==> canTake(r.value) && history == old(history) + [Emitted(r.value, clock)]
      ensures r.None? ==> history == old(history) && HeldMayNotGo(canTake)
    {
      if canTake(message) {
        Emit(message);
        r := Some(message);
      } else {
        Hold(message, Wanted(history));
        r := None;
      }
    }

    method PopExpired(q: nat, canTake: Message -> bool) returns (r: Option<Message>)
      requires Valid() && HeldMayNotGo(canTake) && q in queue && queue[q].deadline <= clock
      modifies this`queue, this`scheduled, this`pending, this`history
      ensures Valid() && |queue| < |old(queue)|
      ensures r.Some? ==> canTake(r.value) && history == old(history) + [Emitted(r.value, clock)]
      ensures r.None? ==> history == old(history) && HeldMayNotGo(canTake)
    {
      RemovalShrinks(queue, q);
      var message := RemoveExpired(q, Wanted(history));
      r := Settle(message, canTake);
    }

    /** One expired entry is handed out or held back; `more` says whether there was one. */
    method PopOne(now: Instant, canTake: Message -> bool) returns (more: bool, r: Option<Message>)
      requires Valid() && clock == now && HeldMayNotGo(canTake)
      modifies this`queue, this`scheduled, this`pending, this`history
      ensures Valid()
      ensures r.Some? ==> more && canTake(r.value) && history == old(history) + [Emitted(r.value, now)]
      ensures r.None? ==> history == old(history) && HeldMayNotGo(canTake)
      ensures r.None? && more ==> |queue| < |old(queue)|
      ensures !more ==> r.None? && forall q :: q in queue ==> now < queue[q].deadline
    {
      if q :| q in queue && queue[q].deadline <= now {
        more := true;
        r := PopExpired(q, canTake);
      } else {
        more, r := false, None;
      }
    }

    ghost predicate HeldMayNotGo(canTake: Message -> bool)
      reads this
    {
      forall k :: k in pending ==> !canTake(pending[k])
    }

    /** The pop loop: it ends because the queue shrinks. */
    method TakeDue(now: Instant, canTake: Message -> bool) returns (r: Option<Message>)
      requires Valid() && clock == now && HeldMayNotGo(canTake)
      modifies this`queue, this`scheduled, this`pending, this`history
      ensures Valid()
      ensures r.Some? ==> canTake(r.value) && history == old(history) + [Emitted(r.value, now)]
      ensures r.None? ==>
                && history == old(history) && HeldMayNotGo(canTake)
                && (forall q :: q in queue ==> now < queue[q].deadline)
    {
      var more := true;
      r := None;
      while more && r.None?
        invariant Valid()
        invariant r.Some? ==> canTake(r.value) && history == old(history) + [Emitted(r.value, now)]
        invariant r.None? ==> history == old(history) && HeldMayNotGo(canTake)
        invariant !more ==> r.None? && forall q :: q in queue ==> now < queue[q].deadline
        decreases r.None?, more, |queue|
      {
        more, r := PopOne(now, canTake);
      }
    }

    /**
      Hand out a held or due message that may be taken. Messages that are due but may not be taken are
      held back. `None` means that no message at all is both due and allowed.
     */
    method PopQueueMessage(now: Instant, canTake: Message -> bool) returns (r: Option<Message>)
      requires Valid() && clock <= now
      modifies this
      ensures Valid() && clock == now
      ensures r.Some? ==> canTake(r.value) && history == old(history) + [Emitted(r.value, now)]
      ensures r.None? ==> history == old(history) && NothingDue(Wanted(history), now, canTake)
    {
      clock := now;
      assert Valid();
      r := TakeHeld(canTake);
      if r.None? {
        r := TakeDue(now, canTake);
        if r.None? {
          NoneDue(now, canTake);
        }
      }
    }

    lemma NoneDue(now: Instant, canTake: Message -> bool)
      requires Valid() && clock == now
      requires HeldMayNotGo(canTake)
      requires forall q :: q in queue ==> now < queue[q].deadline
      ensures NothingDue(Wanted(history), now, canTake)
    {
    }

    /** `HoldUnless::poll_next`: take in all requests that have arrived, then pop. */
    method PollNext(arrived: seq<Request>, ended: bool, now: Instant, canTake: Message -> bool) returns (p: Poll)
      requires Valid() && clock <= now
      modifies this
      ensures Valid() && clock <= now
      ensures p.Ended? <==> ended
      ensures p.Ready? ==>
                && canTake(p.message)
                && history == old(history) + Requests(arrived) + [Emitted(p.message, now)]
      ensures !p.Ready? ==> history == old(history) + Requests(arrived)
      ensures p.Pending? ==> NothingDue(Wanted(history), now, canTake)
    {
      assert Requests(arrived[..0]) == [];
      for i := 0 to |arrived|
        invariant Valid() && clock <= now
        invariant history == old(history) + Requests(arrived[..i])
      {
        assert Requests(arrived[..i + 1]) == Requests(arrived[..i]) + [Requested(arrived[i])];
        ScheduleMessage(arrived[i]);
      }
      assert arrived[..|arrived|] == arrived;
      if ended {
        return Ended;
      }
      var popped := PopQueueMessage(now, canTake);
      p := if popped.Some? then Ready(popped.value) else Pending;
    }
  }
}
