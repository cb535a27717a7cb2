/**
  The runner: it pulls messages from a scheduler and runs one future per message, never two at once
  for equal messages.
 */
module Running {
  import opened Common
  import opened Scheduling

  /** A running future, known by a number. */
  type Future = nat

  datatype FuturesPoll = Completed(key: string) | NoFutures | AllRunning

  class FutureHashMap {
    var futures: map<string, Future>

    constructor ()
      ensures futures == map[]
    {
      futures := map[];
    }

    method Insert(key: string, future: Future) returns (displaced: Option<Future>)
      modifies this
      ensures futures == old(futures)[key := future]
      ensures displaced == if key in old(futures) then Some(old(futures)[key]) else None
    {
      displaced := if key in futures then Some(futures[key]) else None;
      futures := futures[key := future];
    }

    predicate ContainsKey(key: string)
      reads this
    {
      key in futures
    }

    /** Poll the futures in any order; the first that `done` says has finished is removed. */
    method PollNext(done: Future -> bool) returns (p: FuturesPoll)
      modifies this
      ensures p.Completed? ==>
                && p.key in old(futures) && done(old(futures)[p.key])
                && futures == old(futures) - {p.key}
      ensures !p.Completed? ==>
                futures == old(futures) && forall k :: k in futures ==> !done(futures[k])
      ensures p.NoFutures? <==> old(futures) == map[]
    {
      var todo := futures.Keys;
      while todo != {}
        invariant todo <= futures.Keys && futures == old(futures)
        invariant forall k :: k in futures && k !in todo ==> !done(futures[k])
        decreases |todo|
      {
        var k :| k in todo;
        if done(futures[k]) {
          futures := futures - {k};
          return Completed(k);
        }
        todo := todo - {k};
      }
      p := if futures == map[] then NoFutures else AllRunning;
    }
  }

  // ---------- What has been started ----------

  /** The keys that the scheduler has handed out, in order. */
  function Started(history: seq<Op>): seq<string> {
    if history == [] then []
    else
      Started(history[..|history| - 1])
      + if history[|history| - 1].Emitted? then [history[|history| - 1].message.key] else []
  }

  lemma StartedAppend(history: seq<Op>, op: Op)
    ensures Started(history + [op]) == Started(history) + if op.Emitted? then [op.message.key] else []
  {
    assert (history + [op])[..|history|] == history;
  }

  lemma {:induction false} StartedAfterRequests(history: seq<Op>, batch: seq<Request>)
    ensures Started(history + Requests(batch)) == Started(history)
  {
    if batch == [] {
      assert history + Requests(batch) == history;
    } else {
      var init := batch[..|batch| - 1];
      StartedAfterRequests(history, init);
      assert history + Requests(batch) == (history + Requests(init)) + [Requested(batch[|batch| - 1])];
      StartedAppend(history + Requests(init), Requested(batch[|batch| - 1]));
    }
  }

  /** Every message started is running now or has completed, as often as it was started. */
  ghost predicate Accounted(history: seq<Op>, completed: multiset<string>, running: map<string, Future>) {
    multiset(Started(history)) == completed + multiset(running.Keys)
  }

  lemma {:induction false} StartedGrows(history: seq<Op>, i: nat, j: nat)
    requires i <= j < |history| && history[j].Emitted?
    ensures var k := history[j].message.key;
            multiset(Started(history[..i]))[k] < multiset(Started(history))[k]
    decreases |history|
  {
    var n := |history| - 1;
    var init := history[..n];
    assert history == init + [history[n]];
    StartedAppend(init, history[n]);
    if j < n {
      StartedGrows(init, i, j);
      assert init[..i] == history[..i];
    } else {
      StartedMonotone(init, i);
      assert init[..i] == history[..i];
    }
  }

  lemma {:induction false} StartedMonotone(history: seq<Op>, i: nat)
    requires i <= |history|
    ensures multiset(Started(history[..i])) <= multiset(Started(history))
  {
    if i == |history| {
      assert history[..i] == history;
    } else {
      var n := |history| - 1;
      StartedMonotone(history[..n], i);
      assert history[..n][..i] == history[..i] && history == history[..n] + [history[n]];
      StartedAppend(history[..n], history[n]);
    }
  }

  /**
    Nothing is lost: every message ever requested is wanted by the scheduler (scheduled or held back)
    or running, or has completed since: it completed more often than it had been started by then.
   */
  lemma NothingIsLost(history: seq<Op>, completed: multiset<string>, running: map<string, Future>, i: nat)
    requires Accounted(history, completed, running) && i < |history| && history[i].Requested?
    ensures var k := history[i].request.message.key;
            k in Wanted(history) || k in running || completed[k] > multiset(Started(history[..i]))[k]
  {
    var k := history[i].request.message.key;
    RequestedIsWantedOrEmitted(history, i);
    if j :| i < j < |history| && history[j].Emitted? && history[j].message.key == k {
      StartedGrows(history, i, j);
      assert multiset(Started(history))[k] == completed[k] + multiset(running.Keys)[k];
    }
  }

  lemma KeysWithout(m: map<string, Future>, k: string)
    requires k in m
    ensures multiset(m.Keys) == multiset((m - {k}).Keys) + multiset{k}
  {
    assert m.Keys == (m - {k}).Keys + {k};
  }

  lemma KeysWith(m: map<string, Future>, k: string, f: Future)
    requires k !in m
    ensures m[k := f].Keys == m.Keys + {k}
    ensures multiset(m[k := f].Keys) == multiset(m.Keys) + multiset{k}
  {
    assert m[k := f].Keys == m.Keys + {k};
  }

  lemma StartKeepsAccount(
    before: seq<Op>, message: Message, now: Instant,
    completed: multiset<string>, running: map<string, Future>, f: Future)
    requires Accounted(before, completed, running) && message.key !in running
    ensures Accounted(before + [Emitted(message, now)], completed, running[message.key := f])
  {
    StartedAppend(before, Emitted(message, now));
    KeysWith(running, message.key, f);
  }

  lemma RequestsKeepAccount(
    history: seq<Op>, batch: seq<Request>, completed: multiset<string>, running: map<string, Future>)
    requires Accounted(history, completed, running)
    ensures Accounted(history + Requests(batch), completed, running)
    ensures Started(history + Requests(batch)) == Started(history)
  {
    StartedAfterRequests(history, batch);
  }

  /** As many messages were started as have completed or are running. */
  lemma StartedCount(history: seq<Op>, completed: multiset<string>, running: map<string, Future>)
    requires Accounted(history, completed, running)
    ensures |Started(history)| == |completed| + |running|
  {
    assert |multiset(Started(history))| == |completed| + |multiset(running.Keys)|;
    assert |multiset(running.Keys)| == |running.Keys| == |running|;
  }

  /** Some message is due whose key is not running, and messages may be started. */
  ghost predicate CanStart(history: seq<Op>, running: map<string, Future>, ready: bool, now: Instant) {
    && ready
    && exists k :: k in Wanted(history)
         && Wanted(history)[k].earliest <= now && Wanted(history)[k].message.key !in running
  }

  lemma RequestCanStart(request: Request, now: Instant)
    requires request.runAt <= now
    ensures CanStart([] + Requests([request]), map[], true, now)
  {
    assert [] + Requests([request]) == [] + [Requested(request)];
    WantedAppend([], Requested(request));
    assert request.message.key in Wanted([] + Requests([request]));
  }

  // ---------- The runner ----------

  /** What polling the readiness future gives, as long as it has not resolved. */
  datatype Gate = GateOpen | GateFailed | GateWaiting

  /** What the request stream gives when it is polled: what has arrived, and whether it ended. */
  datatype Arrival = Arrival(requests: seq<Request>, ended: bool)

  const NOTHING_ARRIVED := Arrival([], false)

  /** There is something to start when the first requests are in, and the stream ends right after them. */
  ghost predicate EndsAfterStart(
    history: seq<Op>, running: map<string, Future>, arrivals: seq<Arrival>, ready: bool, now: Instant)
  {
    && |arrivals| >= 2 && arrivals[1].ended
    && CanStart(history + Requests(arrivals[0].requests), running, ready, now)
  }

  datatype RunnerPoll = Finished | Item(key: string) | ReadinessError | NotReady

  /** Running futures stay, under their keys. */
  ghost predicate Keeps(before: map<string, Future>, after: map<string, Future>) {
    forall k :: k in before ==> k in after && after[k] == before[k]
  }

  class Runner {
    const scheduler: Scheduler
    const slots: FutureHashMap
    var isReady: bool
    var stopped: bool
    var nextFuture: Future
    ghost var completed: multiset<string>

    /** Nothing is started before the gate has opened, and the runner only stops if it never opens. */
    ghost predicate Valid()
      reads this, scheduler, slots
    {
      && scheduler.Valid() && Accounted(scheduler.history, completed, slots.futures)
      && (!isReady ==> Started(scheduler.history) == [])
      && (stopped ==> !isReady)
    }

    constructor (scheduler: Scheduler)
      requires scheduler.Valid() && scheduler.history == []
      ensures Valid() && this.scheduler == scheduler && fresh(slots) && slots.futures == map[]
      ensures completed == multiset{} && !isReady && !stopped
    {
      this.scheduler := scheduler;
      slots := new FutureHashMap();
      isReady, stopped, nextFuture := false, false, 0;
      completed := multiset{};
    }

    /** Start the future of a message that was just taken from the scheduler. */
    method StartMessage(message: Message, now: Instant, ghost before: seq<Op>)
      requires scheduler.Valid() && Accounted(before, completed, slots.futures)
      requires scheduler.history == before + [Emitted(message, now)]
      requires !slots.ContainsKey(message.key) && isReady && !stopped
      modifies slots, this`nextFuture
      ensures Valid() && slots.futures.Keys == old(slots.futures).Keys + {message.key}
      ensures Keeps(old(slots.futures), slots.futures)
    {
      StartKeepsAccount(before, message, now, completed, slots.futures, nextFuture);
      KeysWith(slots.futures, message.key, nextFuture);
      var displaced := slots.Insert(message.key, nextFuture);
      // The runner never replaces a running future.
      assert displaced.None?;
      nextFuture := nextFuture + 1;
    }

    /** One poll of the scheduler for a message whose key is not running. */
    method PollScheduler(arrival: Arrival, now: Instant) returns (next: Poll)
      requires scheduler.Valid() && scheduler.clock <= now
      modifies scheduler
      ensures scheduler.Valid() && scheduler.clock <= now
      ensures next.Ended? <==> arrival.ended
      ensures next.Ready? ==>
                && isReady && !slots.ContainsKey(next.message.key)
                && scheduler.history
                   == old(scheduler.history) + Requests(arrival.requests) + [Emitted(next.message, now)]
      ensures !next.Ready? ==> scheduler.history == old(scheduler.history) + Requests(arrival.requests)
      ensures next.Pending? ==> !CanStart(scheduler.history, slots.futures, isReady, now)
    {
      var ready, busy := isReady, slots.futures.Keys;
      next := scheduler.PollNext(arrival.requests, arrival.ended, now, (m: Message) => ready && m.key !in busy);
    }

    /** Try to take one message whose key is not running, and start it. */
    method PullOne(arrival: Arrival, now: Instant) returns (next: Poll)
      requires Valid() && !stopped && scheduler.clock <= now
      modifies scheduler, slots, this`nextFuture
      ensures Valid() && !stopped && isReady == old(isReady)
      ensures scheduler.clock <= now && Keeps(old(slots.futures), slots.futures)
      ensures if next.Ready? then slots.futures != map[] else slots.futures == old(slots.futures)
      ensures arrival.requests == [] ==>
                if next.Ready? then |Wanted(scheduler.history)| < |Wanted(old(scheduler.history))|
                else scheduler.history == old(scheduler.history)
      ensures next.Ended? <==> arrival.ended
      ensures next.Pending? ==> !CanStart(scheduler.history, slots.futures, isReady, now)
      ensures CanStart(old(scheduler.history) + Requests(arrival.requests), old(slots.futures), isReady, now) ==>
                !next.Pending?
    {
      ghost var before := scheduler.history;
      ghost var drained := before + Requests(arrival.requests);
      RequestsKeepAccount(before, arrival.requests, completed, slots.futures);
      next := PollScheduler(arrival, now);
      if next.Ready? {
        EmissionShrinks(scheduler.history, drained, next.message, now);
        StartMessage(next.message, now, drained);
      }
      assert arrival.requests == [] ==> drained == before;
    }

    /** The loop after a message has been started: take messages until there is nothing to take. */
    method PullRest(arrivals: seq<Arrival>, now: Instant) returns (ended: bool)
      requires Valid() && !stopped && scheduler.clock <= now
      modifies scheduler, slots, this`nextFuture
      ensures Valid() && !stopped && isReady == old(isReady)
      ensures scheduler.clock <= now && Keeps(old(slots.futures), slots.futures)
      ensures ended ==> exists i :: 0 <= i < |arrivals| && arrivals[i].ended
      ensures arrivals != [] && arrivals[0].ended ==> ended
      ensures old(slots.futures) != map[] ==> slots.futures != map[]
      ensures !ended ==> !CanStart(scheduler.history, slots.futures, isReady, now)
    {
      var i := 0;
      var next := PullOne(if arrivals != [] then arrivals[0] else NOTHING_ARRIVED, now);
      while next.Ready?
        invariant Valid() && !stopped && isReady == old(isReady)
        invariant scheduler.clock <= now && Keeps(old(slots.futures), slots.futures) && i <= |arrivals|
        invariant next.Ended? ==> i < |arrivals| && arrivals[i].ended
        invariant old(slots.futures) != map[] || next.Ready? ==> slots.futures != map[]
        invariant arrivals != [] && arrivals[0].ended ==> next.Ended?
        invariant next.Pending? ==> !CanStart(scheduler.history, slots.futures, isReady, now)
        decreases |arrivals| - i, |Wanted(scheduler.history)|, next.Ready?
      {
        i := if i < |arrivals| then i + 1 else i;
        next := PullOne(if i < |arrivals| then arrivals[i] else NOTHING_ARRIVED, now);
      }
      ended := next.Ended?;
    }

    /** The whole loop, its first poll apart; says whether the request stream ended. */
    method PullAll(arrivals: seq<Arrival>, now: Instant) returns (ended: bool)
      requires Valid() && !stopped && scheduler.clock <= now
      modifies scheduler, slots, this`nextFuture
      ensures Valid() && !stopped && isReady == old(isReady)
      ensures scheduler.clock <= now && Keeps(old(slots.futures), slots.futures)
      ensures ended ==> exists i :: 0 <= i < |arrivals| && arrivals[i].ended
      ensures !ended ==> !CanStart(scheduler.history, slots.futures, isReady, now)
      ensures ended && !arrivals[0].ended ==> slots.futures != map[]
      ensures arrivals != [] && arrivals[0].ended ==> ended && slots.futures == old(slots.futures)
      ensures EndsAfterStart(old(scheduler.history), old(slots.futures), arrivals, isReady, now) ==> ended
    {
      var first := if arrivals != [] then arrivals[0] else NOTHING_ARRIVED;
      var rest := if arrivals != [] then arrivals[1..] else [];
      assert forall i :: 0 <= i < |rest| ==> rest[i] == arrivals[i + 1];
      ghost var startsFirst := CanStart(scheduler.history + Requests(first.requests), slots.futures, isReady, now);
      assert EndsAfterStart(scheduler.history, slots.futures, arrivals, isReady, now) ==> startsFirst && rest[0].ended;
      var next := PullOne(first, now);
      if next.Ready? {
        ended := PullRest(rest, now);
      } else {
        ended := next.Ended?;
      }
    }

    /** See whether a running future has completed. */
    method PollSlots(done: Future -> bool) returns (polled: FuturesPoll)
      requires Valid()
      modifies slots, this`completed
      ensures Valid() && isReady == old(isReady) && stopped == old(stopped)
      ensures scheduler.history == old(scheduler.history) && scheduler.clock == old(scheduler.clock)
      ensures polled.Completed? ==>
                && polled.key in old(slots.futures) && slots.futures == old(slots.futures) - {polled.key}
                && completed == old(completed) + multiset{polled.key}
      ensures !polled.Completed? ==> completed == old(completed) && slots.futures == old(slots.futures)
      ensures polled.NoFutures? <==> old(slots.futures) == map[]
    {
      polled := slots.PollNext(done);
      if polled.Completed? {
        completed := completed + multiset{polled.key};
        KeysWithout(old(slots.futures), polled.key);
      }
    }

    /** The readiness future is asked until it resolves, and never again. */
    method PollGate(gate: Gate) returns (failed: bool)
      requires Valid() && !stopped
      modifies this`isReady, this`stopped
      ensures Valid() && stopped == failed
      ensures isReady == (old(isReady) || gate.GateOpen?)
      ensures failed <==> !old(isReady) && gate.GateFailed?
      ensures failed ==> slots.futures == map[] && Started(scheduler.history) == []
    {
      StartedCount(scheduler.history, completed, slots.futures);
      failed := false;
      if !isReady {
        match gate {
          case GateOpen => isReady := true;
          case GateFailed => stopped, failed := true, true;
          case GateWaiting =>
        }
      }
    }

    /** The part of a poll that comes after no future was found to have completed. */
    method StartNew(gate: Gate, arrivals: seq<Arrival>, now: Instant, hasActiveSlots: bool) returns (p: RunnerPoll)
      requires Valid() && !stopped && scheduler.clock <= now
      requires hasActiveSlots <==> slots.futures != map[]
      modifies this`isReady, this`stopped, this`nextFuture, scheduler, slots
      ensures Valid() && scheduler.clock <= now && !p.Item? && completed == old(completed)
      ensures Keeps(old(slots.futures), slots.futures)
      ensures p.Finished? ==> !hasActiveSlots && arrivals != [] && (slots.futures == map[] <==> arrivals[0].ended)
      ensures p.Finished? ==>
                (slots.futures != map[] <==> |Started(scheduler.history)| > |Started(old(scheduler.history))|)
      ensures stopped ==> slots.futures == map[] && Started(scheduler.history) == []
      ensures p.NotReady? && (forall i :: 0 <= i < |arrivals| ==> !arrivals[i].ended) ==>
                !CanStart(scheduler.history, slots.futures, isReady, now)
      ensures var ready := old(isReady) || gate.GateOpen?;
              EndsAfterStart(old(scheduler.history), old(slots.futures), arrivals, ready, now) ==>
                p == if hasActiveSlots then NotReady else Finished
    {
      var failed := PollGate(gate);
      if failed {
        return ReadinessError;
      }
      StartedCount(scheduler.history, completed, slots.futures);
      var ended := PullAll(arrivals, now);
      StartedCount(scheduler.history, completed, slots.futures);
      p := if ended && !hasActiveSlots then Finished else NotReady;
    }

    /**
      `poll_next`. No future is displaced or dropped: a running future stays, under its key, until its
      completion is reported. `arrivals[i]` is what the request stream gives the i-th time it is polled
      here; afterwards it is silent. While the request stream is open the runner waits only if no due
      message could be started.

      What it means that the runner has finished: nothing was running when the poll began. That nothing
      runs when it ends holds exactly if the request stream had already ended when it was first polled;
      otherwise futures were started in this very poll and are left running.
     */
    method PollNext(done: Future -> bool, gate: Gate, arrivals: seq<Arrival>, now: Instant) returns (p: RunnerPoll)
      requires Valid() && scheduler.clock <= now
      modifies this, scheduler, slots
      ensures Valid() && scheduler.clock <= now
      ensures p.Item? ==>
                && p.key in old(slots.futures) && slots.futures == old(slots.futures) - {p.key}
                && completed == old(completed) + multiset{p.key}
      ensures !p.Item? ==> completed == old(completed) && Keeps(old(slots.futures), slots.futures)
      ensures p.Finished? ==> old(slots.futures) == map[]
      ensures p.Finished? && !old(stopped) ==>
                arrivals != [] && (slots.futures == map[] <==> arrivals[0].ended)
      ensures p.Finished? ==>
                (slots.futures != map[] <==> |Started(scheduler.history)| > |Started(old(scheduler.history))|)
      ensures old(stopped) || stopped ==> slots.futures == map[] && Started(scheduler.history) == []
      ensures p.NotReady? && (forall i :: 0 <= i < |arrivals| ==> !arrivals[i].ended) ==>
                !CanStart(scheduler.history, slots.futures, isReady, now)
      ensures var ready := old(isReady) || gate.GateOpen?;
              !old(stopped) && old(slots.futures) == map[] ==>
                (EndsAfterStart(old(scheduler.history), map[], arrivals, ready, now) ==> p.Finished?)
    {
      if stopped {
        StartedCount(scheduler.history, completed, slots.futures);
        return Finished;
      }
      var polled := PollSlots(done);
      if polled.Completed? {
        return Item(polled.key);
      }
      p := StartNew(gate, arrivals, now, !polled.NoFutures?);
    }
  }

  /** The runner can report that it has finished while a future it has just started runs: for any message. */
  method FinishesWhileRunning(message: Message, now: Instant) returns (runner: Runner, p: RunnerPoll)
    ensures p.Finished? && runner.slots.futures != map[]
  {
    var scheduler := new Scheduler(now);
    runner := new Runner(scheduler);
    RequestCanStart(Request(message, now), now);
    var arrivals := [Arrival([Request(message, now)], false), Arrival([], true)];
    assert EndsAfterStart([], map[], arrivals, true, now);
    p := runner.PollNext(_ => false, GateOpen, arrivals, now);
  }

  lemma EmissionShrinks(history: seq<Op>, before: seq<Op>, message: Message, now: Instant)
    requires Sound(history) && history == before + [Emitted(message, now)]
    ensures |Wanted(history)| < |Wanted(before)|
  {
    WantedAppend(before, Emitted(message, now));
    assert history[..|before|] == before;
    assert SoundAt(history, |before|);
    assert Wanted(history).Keys == Wanted(before).Keys - {message.key};
    assert |Wanted(before).Keys| == |Wanted(history).Keys| + 1;
  }
}
