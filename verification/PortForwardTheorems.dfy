/** What every interleaving of the port forwarding loops guarantees. */
module PortForwardTheorems {
  import opened Common
  import opened PortForward

  // ---------- From interleavings to message order ----------

  /** Channels of ports only; nothing from a reader after its close, nothing from the socket after its close. */
  ghost predicate WellSent(n: nat, queue: seq<Delivery>) {
    && (forall k :: 0 <= k < |queue| && (queue[k].msg.ToPod? || queue[k].msg.ToPodClose?) ==>
          queue[k].msg.ch % 2 == 0 && queue[k].msg.ch < 2 * n)
    && (forall a, b | 0 <= a < b < |queue| && queue[a].msg.ToPodClose? ::
          queue[b].msg != queue[a].msg && (queue[b].msg.ToPod? ==> queue[b].msg.ch != queue[a].msg.ch))
    && (forall a, b | 0 <= a < b < |queue| && queue[a].msg.FromPodClose? :: !queue[b].msg.FromPod?)
  }

  lemma {:induction false} ToPodProgramShape(ch: Byte, chunks: seq<seq<Byte>>)
    ensures var p := ToPodProgram(ch, chunks);
            && |p| > 0 && p[|p| - 1] == ToPodClose(ch)
            && (forall k :: 0 <= k < |p| - 1 ==> p[k].ToPod? && p[k].ch == ch && p[k].bytes != [])
  {
    if chunks != [] {
      ToPodProgramShape(ch, chunks[1..]);
    }
  }

  /** Messages from the pod, and at most one close, at the end. */
  ghost predicate SocketShape(p: seq<Message>) {
    && (forall k :: 0 <= k < |p| ==> p[k].FromPod? || p[k].FromPodClose?)
    && (forall k :: 0 <= k < |p| - 1 ==> p[k].FromPod?)
  }

  lemma {:induction false} FromPodProgramShape(received: seq<SocketMessage>)
    ensures SocketShape(FromPodProgram(received))
  {
    if received != [] {
      var rest := FromPodProgram(received[1..]);
      FromPodProgramShape(received[1..]);
      if received[0].Binary? && |received[0].data| > 1 {
        assert FromPodProgram(received)[0].FromPod?;
        assert FromPodProgram(received)[1..] == rest;
      } else if received[0].Binary? {
        assert FromPodProgram(received) == [] + rest == rest;
      }
    }
  }

  lemma {:induction false} SentByGrows(queue: seq<Delivery>, a: nat, b: nat, sender: Sender)
    requires a <= b <= |queue|
    ensures SentBy(queue[..a], sender) <= SentBy(queue[..b], sender)
    ensures a < b && queue[a].sender == sender ==> SentBy(queue[..a], sender) < SentBy(queue[..b], sender)
  {
    if a < b {
      SentByGrows(queue, a, b - 1, sender);
      assert queue[..b][..b - 1] == queue[..b - 1];
      if a == b - 1 {
        assert queue[..b][b - 1] == queue[a];
      }
    }
  }

  /** Where in the program of its sender an entry of the queue comes from. */
  lemma EntryShape(p: Programs, queue: seq<Delivery>, k: nat)
    requires Interleaving(p, queue) && k < |queue| && |p.chunks| <= 128
    ensures var d, at := queue[k], SentBy(queue[..k], queue[k].sender);
            match d.sender
            case Socket => d.msg.FromPod? || (d.msg.FromPodClose? && at == |ProgramOf(p, Socket)| - 1)
            case Reader(i) =>
              && i < |p.chunks|
              && (|| (d.msg.ToPod? && d.msg.ch == 2 * i)
                  || (d.msg == ToPodClose(2 * i) && at == |ProgramOf(p, d.sender)| - 1))
  {
    var d := queue[k];
    assert IsNext(p, queue, k);
    match d.sender
    case Socket =>
      FromPodProgramShape(p.socket);
      assert ProgramOf(p, Socket) == FromPodProgram(p.socket);
    case Reader(i) =>
      ToPodProgramShape(DataChannel(i), p.chunks[i]);
      ChannelsDoNotCollide(|p.chunks|, i, i);
  }

  lemma EntryChannel(p: Programs, queue: seq<Delivery>, k: nat)
    requires Interleaving(p, queue) && k < |queue| && |p.chunks| <= 128
    requires queue[k].msg.ToPod? || queue[k].msg.ToPodClose?
    ensures queue[k].msg.ch % 2 == 0 && queue[k].msg.ch < 2 * |p.chunks|
  {
    EntryShape(p, queue, k);
  }

  lemma EntryOrder(p: Programs, queue: seq<Delivery>, a: nat, b: nat)
    requires Interleaving(p, queue) && a < b < |queue| && |p.chunks| <= 128
    ensures queue[a].msg.ToPodClose? ==>
              queue[b].msg != queue[a].msg && (queue[b].msg.ToPod? ==> queue[b].msg.ch != queue[a].msg.ch)
    ensures queue[a].msg.FromPodClose? ==> !queue[b].msg.FromPod?
  {
    EntryShape(p, queue, a);
    EntryShape(p, queue, b);
    assert IsNext(p, queue, a) && IsNext(p, queue, b);
    if queue[a].sender == queue[b].sender {
      SentByGrows(queue, a, b, queue[a].sender);
    }
  }

  /** Every interleaving has the order that the results below rest on. */
  lemma InterleavingIsWellSent(p: Programs, queue: seq<Delivery>)
    requires Interleaving(p, queue) && |p.chunks| <= 128
    ensures WellSent(|p.chunks|, queue)
  {
    forall k | 0 <= k < |queue| && (queue[k].msg.ToPod? || queue[k].msg.ToPodClose?)
      ensures queue[k].msg.ch % 2 == 0 && queue[k].msg.ch < 2 * |p.chunks|
    {
      EntryChannel(p, queue, k);
    }
    forall a, b | 0 <= a < b < |queue|
      ensures queue[a].msg.ToPodClose? ==>
                queue[b].msg != queue[a].msg && (queue[b].msg.ToPod? ==> queue[b].msg.ch != queue[a].msg.ch)
      ensures queue[a].msg.FromPodClose? ==> !queue[b].msg.FromPod?
    {
      EntryOrder(p, queue, a, b);
    }
  }

  lemma WellSentPrefix(n: nat, queue: seq<Delivery>)
    requires WellSent(n, queue) && queue != []
    ensures WellSent(n, queue[..|queue| - 1])
  {
  }

  // ---------- Closing ----------

  /** A port's reader has said that it is done. */
  predicate Closed(queue: seq<Delivery>, ch: int) {
    exists k :: 0 <= k < |queue| && queue[k].msg.ToPodClose? && queue[k].msg.ch == ch
  }

  /** The number of ports among the first `n` whose data channel is shut. */
  function CountShut(chans: seq<Channel>, n: nat): nat
    requires 2 * n <= |chans|
  {
    if n == 0 then 0 else CountShut(chans, n - 1) + if chans[2 * (n - 1)].shutdown then 1 else 0
  }

  lemma {:induction false} CountShutAll(chans: seq<Channel>, n: nat)
    requires 2 * n <= |chans|
    ensures CountShut(chans, n) <= n
    ensures CountShut(chans, n) == n <==> forall i :: 0 <= i < n ==> chans[2 * i].shutdown
  {
    if n > 0 {
      CountShutAll(chans, n - 1);
    }
  }

  lemma {:induction false} CountShutNone(chans: seq<Channel>, n: nat)
    requires 2 * n <= |chans| && forall i :: 0 <= i < n ==> !chans[2 * i].shutdown
    ensures CountShut(chans, n) == 0
  {
    if n > 0 {
      CountShutNone(chans, n - 1);
    }
  }

  /** Setting one channel changes the count by what it changes at that port. */
  lemma {:induction false} CountShutUpdate(chans: seq<Channel>, n: nat, ch: nat, c: Channel)
    requires 2 * n <= |chans| && ch < |chans|
    ensures CountShut(chans[ch := c], n)
         == CountShut(chans, n)
            + (if ch < 2 * n && ch % 2 == 0 then
                 (if c.shutdown then 1 else 0) - (if chans[ch].shutdown then 1 else 0)
               else 0)
  {
    if n > 0 {
      CountShutUpdate(chans, n - 1, ch, c);
    }
  }

  /** What holds of the frames whether or not the loop has failed. */
  ghost predicate FramesOk(f: Forwarder) {
    && (Close in f.frames <==> f.socketShutdown)
    && (forall k :: 0 <= k < |f.frames| && f.frames[k] == Close ==> k == |f.frames| - 1)
  }

  ghost predicate CloseInvariant(n: nat, queue: seq<Delivery>, f: Forwarder) {
    && Sized(n, f)
    && (forall i :: 0 <= i < n ==> (f.chans[2 * i].shutdown <==> Closed(queue, 2 * i)))
    && f.closedPorts == CountShut(f.chans, n)
    && (f.socketShutdown <==> f.closedPorts == n)
    && FramesOk(f)
  }

  lemma ClosedAppend(queue: seq<Delivery>, ch: int)
    requires queue != []
    ensures var last := queue[|queue| - 1].msg;
            Closed(queue, ch) <==>
              Closed(queue[..|queue| - 1], ch) || (last.ToPodClose? && last.ch == ch)
  {
    var init := queue[..|queue| - 1];
    if k :| 0 <= k < |init| && init[k].msg.ToPodClose? && init[k].msg.ch == ch {
      assert queue[k].msg.ToPodClose?;
    }
    if k :| 0 <= k < |queue| && queue[k].msg.ToPodClose? && queue[k].msg.ch == ch {
      assert k < |init| ==> init[k].msg.ToPodClose?;
    }
  }

  lemma ClosedReaderIsQuiet(n: nat, queue: seq<Delivery>, ch: int)
    requires WellSent(n, queue) && queue != [] && Closed(queue[..|queue| - 1], ch)
    ensures var last := queue[|queue| - 1].msg;
            !((last.ToPod? || last.ToPodClose?) && last.ch == ch)
  {
    var init := queue[..|queue| - 1];
    var k :| 0 <= k < |init| && init[k].msg.ToPodClose? && init[k].msg.ch == ch;
    assert queue[k].msg.ToPodClose?;
  }

  /** Once the Close frame is out every reader has said it is done, so no reader sends again. */
  lemma NoToPodAfterShutdown(n: nat, queue: seq<Delivery>, f: Forwarder)
    requires WellSent(n, queue) && queue != [] && CloseInvariant(n, queue[..|queue| - 1], f) && f.socketShutdown
    ensures !queue[|queue| - 1].msg.ToPod?
  {
    var last := queue[|queue| - 1].msg;
    if last.ToPod? {
      CountShutAll(f.chans, n);
      assert last.ch == 2 * (last.ch / 2);
      ClosedReaderIsQuiet(n, queue, last.ch);
    }
  }

  /** What one turn of the loop does to the flags and the frames, before the check for closed ports. */
  lemma HandleEffect(ports: seq<Port>, f: Forwarder, d: Delivery)
    requires Sized(|ports|, f)
    ensures var o := Handle(ports, f, d);
            && Sized(|ports|, o.f) && o.f.socketShutdown == f.socketShutdown
            && (o.error.Some? || !d.msg.ToPod? ==> o.f.frames == f.frames)
            && (d.msg.ToPod? && o.error.None? ==> o.f.frames == f.frames + [Data([d.msg.ch] + d.msg.bytes)])
            && (!d.msg.ToPodClose? ==> o.f.closedPorts == f.closedPorts)
            && (d.msg.ToPod? || d.msg.FromPodClose? ==> o.f.chans == f.chans)
  {
  }

  /** The same counts and flags as before, on a channel list that may have been introduced further. */
  lemma FromPodKeepsShut(ports: seq<Port>, f: Forwarder, ch: Byte, bytes: seq<Byte>, io: Io)
    requires Sized(|ports|, f) && HandleFromPod(ports, f, ch, bytes, io).error.None?
    ensures var chans := HandleFromPod(ports, f, ch, bytes, io).f.chans;
            && |chans| == |f.chans| && CountShut(chans, |ports|) == CountShut(f.chans, |ports|)
            && forall c :: 0 <= c < |chans| ==> chans[c].shutdown == f.chans[c].shutdown
  {
    CountShutUpdate(f.chans, |ports|, ch, f.chans[ch].(initialized := true));
  }

  lemma ToPodCloseCounts(ports: seq<Port>, f: Forwarder, ch: Byte, io: Io)
    requires Sized(|ports|, f) && ch % 2 == 0 && ch < |f.chans| && f.closedPorts == CountShut(f.chans, |ports|)
    requires HandleToPodClose(ports, f, ch, io).error.None?
    ensures var g := HandleToPodClose(ports, f, ch, io).f;
            && |g.chans| == |f.chans| && g.closedPorts == CountShut(g.chans, |ports|)
            && forall c :: 0 <= c < |g.chans| ==> (g.chans[c].shutdown <==> c == ch || f.chans[c].shutdown)
  {
    CountShutUpdate(f.chans, |ports|, ch, f.chans[ch].(shutdown := true));
  }

  /** Everything but the link between the flag and the count, which the check after the match restores. */
  ghost predicate Counted(n: nat, queue: seq<Delivery>, f: Forwarder) {
    && Sized(n, f)
    && (forall i :: 0 <= i < n ==> (f.chans[2 * i].shutdown <==> Closed(queue, 2 * i)))
    && f.closedPorts == CountShut(f.chans, n)
    && (f.socketShutdown ==> f.closedPorts == n)
    && FramesOk(f)
  }

  lemma ClosedAppendAll(queue: seq<Delivery>, n: nat)
    requires queue != []
    ensures var last := queue[|queue| - 1].msg;
            forall i :: 0 <= i < n ==>
              (Closed(queue, 2 * i) <==> Closed(queue[..|queue| - 1], 2 * i) || (last.ToPodClose? && last.ch == 2 * i))
  {
    forall i | 0 <= i < n
      ensures var last := queue[|queue| - 1].msg;
              Closed(queue, 2 * i) <==> Closed(queue[..|queue| - 1], 2 * i) || (last.ToPodClose? && last.ch == 2 * i)
    {
      ClosedAppend(queue, 2 * i);
    }
  }

  lemma HandleKeepsCount(ports: seq<Port>, queue: seq<Delivery>, f: Forwarder)
    requires WellSent(|ports|, queue) && queue != []
    requires CloseInvariant(|ports|, queue[..|queue| - 1], f)
    requires Handle(ports, f, queue[|queue| - 1]).error.None?
    ensures Counted(|ports|, queue, Handle(ports, f, queue[|queue| - 1]).f)
  {
    var d := queue[|queue| - 1];
    HandleEffect(ports, f, d);
    ClosedAppendAll(queue, |ports|);
    match d.msg
    case FromPod(ch, bytes) => FromPodKeepsShut(ports, f, ch, bytes, d.io);
    case ToPod(_, _) =>
      if f.socketShutdown {
        NoToPodAfterShutdown(|ports|, queue, f);
      }
    case ToPodClose(ch) =>
      ToPodCloseCounts(ports, f, ch, d.io);
      CountShutAll(f.chans, |ports|);
      CountShutAll(Handle(ports, f, d).f.chans, |ports|);
    case FromPodClose =>
  }

  lemma CloseStep(ports: seq<Port>, queue: seq<Delivery>, f: Forwarder)
    requires |ports| > 0 && WellSent(|ports|, queue) && queue != []
    requires CloseInvariant(|ports|, queue[..|queue| - 1], f)
    ensures var o := Iterate(ports, f, queue[|queue| - 1]);
            && (o.error.None? ==> CloseInvariant(|ports|, queue, o.f))
            && (o.error.Some? ==> o.f.frames == f.frames && o.f.socketShutdown == f.socketShutdown)
  {
    var d := queue[|queue| - 1];
    HandleEffect(ports, f, d);
    if Handle(ports, f, d).error.None? {
      HandleKeepsCount(ports, queue, f);
      assert d.msg.ToPod? ==> Handle(ports, f, d).f.chans == f.chans;
    }
  }

  lemma {:induction false} CloseHolds(ports: seq<Port>, queue: seq<Delivery>)
    requires |ports| > 0 && WellSent(|ports|, queue)
    ensures var o := RunForwarder(ports, queue);
            && FramesOk(o.f)
            && (o.error.None? ==> CloseInvariant(|ports|, queue, o.f))
  {
    if queue == [] {
      CountShutNone(Start(|ports|).chans, |ports|);
    } else {
      WellSentPrefix(|ports|, queue);
      CloseHolds(ports, queue[..|queue| - 1]);
      var o := RunForwarder(ports, queue[..|queue| - 1]);
      if o.error.None? {
        CloseStep(ports, queue, o.f);
      }
    }
  }

  /** The Close frame is out only once every port is closed, also if the loop has ended in an error. */
  lemma {:induction false} CloseComesAfterAll(ports: seq<Port>, queue: seq<Delivery>)
    requires |ports| > 0 && WellSent(|ports|, queue)
    ensures Close in RunForwarder(ports, queue).f.frames ==> forall i :: 0 <= i < |ports| ==> Closed(queue, 2 * i)
  {
    if queue != [] {
      var init, d := queue[..|queue| - 1], queue[|queue| - 1];
      WellSentPrefix(|ports|, queue);
      CloseComesAfterAll(ports, init);
      ClosedAppendAll(queue, |ports|);
      CloseHolds(ports, init);
      var o := RunForwarder(ports, init);
      if o.error.None? {
        CloseStep(ports, queue, o.f);
        CountShutAll(RunForwarder(ports, queue).f.chans, |ports|);
      }
    }
  }

  /**
    Closing, over all interleavings. While the loop runs, `closed_ports` is the number of shut data
    channels, a data channel is shut exactly when its reader's close has been handled, and the Close
    frame is out exactly when all of them are. Also when the loop ends in an error it is the last frame -
    so there is at most one, and no data frame follows it - and it is only out if every port was closed.
   */
  lemma CloseIsLastAndComplete(ports: seq<Port>, p: Programs, queue: seq<Delivery>)
    requires 0 < |ports| <= 128 && |p.chunks| == |ports| && Interleaving(p, queue)
    ensures var o := RunForwarder(ports, queue);
            && (forall k :: 0 <= k < |o.f.frames| && o.f.frames[k] == Close ==> k == |o.f.frames| - 1)
            && (Close in o.f.frames ==> forall i :: 0 <= i < |ports| ==> Closed(queue, 2 * i))
            && (o.error.None? ==>
                  && o.f.closedPorts == CountShut(o.f.chans, |ports|)
                  && (forall i :: 0 <= i < |ports| ==> (o.f.chans[2 * i].shutdown <==> Closed(queue, 2 * i)))
                  && (Close in o.f.frames <==> forall i :: 0 <= i < |ports| ==> Closed(queue, 2 * i)))
  {
    InterleavingIsWellSent(p, queue);
    CloseHolds(ports, queue);
    CloseComesAfterAll(ports, queue);
    CountShutAll(RunForwarder(ports, queue).f.chans, |ports|);
  }

  // ---------- Isolation and conservation ----------

  /** The payloads the pod sent on a channel, in order. */
  function Incoming(queue: seq<Delivery>, ch: int): seq<seq<Byte>> {
    if queue == [] then []
    else
      var last := queue[|queue| - 1].msg;
      Incoming(queue[..|queue| - 1], ch) + if last.FromPod? && last.ch == ch then [last.bytes] else []
  }

  /** Those of them that came before the channel's reader said it was done. */
  function Accepted(queue: seq<Delivery>, ch: int): seq<seq<Byte>> {
    if queue == [] then []
    else
      var init, last := queue[..|queue| - 1], queue[|queue| - 1].msg;
      Accepted(init, ch) + if last.FromPod? && last.ch == ch && !Closed(init, ch) then [last.bytes] else []
  }

  /** The payloads a port's reader sent, in order. */
  function Outgoing(queue: seq<Delivery>, ch: int): seq<seq<Byte>> {
    if queue == [] then []
    else
      var last := queue[|queue| - 1].msg;
      Outgoing(queue[..|queue| - 1], ch) + if last.ToPod? && last.ch == ch then [last.bytes] else []
  }

  /** The payloads of the data frames that carry a channel's prefix, in order. */
  function FramePayloads(frames: seq<Frame>, ch: int): seq<seq<Byte>> {
    if frames == [] then []
    else
      var last := frames[|frames| - 1];
      FramePayloads(frames[..|frames| - 1], ch)
      + if last.Data? && last.bytes != [] && last.bytes[0] == ch then [last.bytes[1..]] else []
  }

  function Flatten(parts: seq<seq<Byte>>): seq<Byte> {
    if parts == [] then [] else Flatten(parts[..|parts| - 1]) + parts[|parts| - 1]
  }

  /** All but the introduction of a channel. */
  function Tail(parts: seq<seq<Byte>>): seq<seq<Byte>> {
    if parts == [] then [] else parts[1..]
  }

  predicate PodClosed(queue: seq<Delivery>) {
    exists k :: 0 <= k < |queue| && queue[k].msg.FromPodClose?
  }

  /** The first frame on a channel, after its prefix: the port, low byte first. */
  function Introduction(port: Port): seq<Byte> {
    [port % 256, port / 256]
  }

  lemma IntroductionReads(bytes: seq<Byte>, port: Port)
    requires |bytes| == 2
    ensures LittleEndian(bytes) == (bytes[0] as int) + 256 * (bytes[1] as int)
    ensures LittleEndian(bytes) == port <==> bytes == Introduction(port)
  {
    var n := (bytes[0] as int) + 256 * (bytes[1] as int);
    assert n % 256 == bytes[0] && n / 256 == bytes[1];
    assert bytes == [bytes[0], bytes[1]];
  }

  /** A channel is open once introduced, and its introduction named its port. */
  ghost predicate ChannelOk(ports: seq<Port>, queue: seq<Delivery>, f: Forwarder, ch: nat)
    requires Sized(|ports|, f) && ch < 2 * |ports|
  {
    var incoming := Incoming(queue, ch);
    && (f.chans[ch].initialized <==> incoming != [])
    && (incoming != [] ==> incoming[0] == Introduction(ports[ch / 2]))
  }

  ghost predicate StreamOk(queue: seq<Delivery>, w: Writer, ch: int) {
    && w.written == Flatten(Tail(Accepted(queue, ch)))
    && (w.shut <==> Closed(queue, ch) || PodClosed(queue))
    && !w.late
  }

  ghost predicate WriterOk(ports: seq<Port>, queue: seq<Delivery>, f: Forwarder, i: nat)
    requires Sized(|ports|, f) && i < |ports|
  {
    StreamOk(queue, f.writers[i], 2 * i)
  }

  ghost predicate ErrorOk(ports: seq<Port>, queue: seq<Delivery>, f: Forwarder, i: nat)
    requires Sized(|ports|, f) && i < |ports|
  {
    var errors := Incoming(queue, 2 * i + 1);
    && (f.errorSender[i] <==> |errors| < 2)
    && f.errorSent[i] == if |errors| < 2 then None else Some(errors[1])
  }

  ghost predicate DataInvariant(ports: seq<Port>, queue: seq<Delivery>, f: Forwarder) {
    && Sized(|ports|, f)
    && (forall ch :: 0 <= ch < 2 * |ports| ==> ChannelOk(ports, queue, f, ch))
    && (forall i :: 0 <= i < |ports| ==> WriterOk(ports, queue, f, i))
    && (forall i :: 0 <= i < |ports| ==> ErrorOk(ports, queue, f, i))
    && (forall ch :: FramePayloads(f.frames, ch) == Outgoing(queue, ch))
  }

  lemma PodClosedAppend(queue: seq<Delivery>)
    requires queue != []
    ensures PodClosed(queue) <==> PodClosed(queue[..|queue| - 1]) || queue[|queue| - 1].msg.FromPodClose?
  {
    var init := queue[..|queue| - 1];
    if k :| 0 <= k < |init| && init[k].msg.FromPodClose? {
      assert queue[k].msg.FromPodClose?;
    }
    if k :| 0 <= k < |queue| && queue[k].msg.FromPodClose? {
      assert k < |init| ==> init[k].msg.FromPodClose?;
    }
  }

  lemma ChannelStep(ports: seq<Port>, queue: seq<Delivery>, f: Forwarder, ch: nat)
    requires queue != [] && Sized(|ports|, f) && ch < 2 * |ports|
    requires ChannelOk(ports, queue[..|queue| - 1], f, ch)
    requires Iterate(ports, f, queue[|queue| - 1]).error.None?
    ensures Sized(|ports|, Iterate(ports, f, queue[|queue| - 1]).f)
    ensures ChannelOk(ports, queue, Iterate(ports, f, queue[|queue| - 1]).f, ch)
  {
    var d := queue[|queue| - 1];
    var incoming := Incoming(queue[..|queue| - 1], ch);
    if d.msg.FromPod? && d.msg.ch == ch {
      assert Incoming(queue, ch) == incoming + [d.msg.bytes];
      if |d.msg.bytes| == 2 {
        IntroductionReads(d.msg.bytes, ports[ch / 2]);
      }
    }
  }

  /** What one turn of the loop does to one port's error message. */
  lemma IterateErrors(ports: seq<Port>, f: Forwarder, d: Delivery, i: nat)
    requires Sized(|ports|, f) && i < |ports| && Iterate(ports, f, d).error.None?
    ensures Sized(|ports|, Iterate(ports, f, d).f)
    ensures var g := Iterate(ports, f, d).f;
            if d.msg.FromPod? && d.msg.ch == 2 * i + 1 && f.chans[2 * i + 1].initialized && f.errorSender[i]
            then !g.errorSender[i] && g.errorSent[i] == Some(d.msg.bytes)
            else g.errorSender[i] == f.errorSender[i] && g.errorSent[i] == f.errorSent[i]
  {
    if d.msg.FromPod? && d.msg.ch % 2 != 0 {
      assert d.msg.ch / 2 == i <==> d.msg.ch == 2 * i + 1;
    }
  }

  lemma ErrorStep(ports: seq<Port>, queue: seq<Delivery>, f: Forwarder, i: nat)
    requires queue != [] && Sized(|ports|, f) && i < |ports|
    requires ErrorOk(ports, queue[..|queue| - 1], f, i)
    requires ChannelOk(ports, queue[..|queue| - 1], f, 2 * i + 1)
    requires Iterate(ports, f, queue[|queue| - 1]).error.None?
    ensures Sized(|ports|, Iterate(ports, f, queue[|queue| - 1]).f)
    ensures ErrorOk(ports, queue, Iterate(ports, f, queue[|queue| - 1]).f, i)
  {
    var d := queue[|queue| - 1];
    var errors := Incoming(queue[..|queue| - 1], 2 * i + 1);
    IterateErrors(ports, f, d, i);
    if d.msg.FromPod? && d.msg.ch == 2 * i + 1 {
      assert Incoming(queue, 2 * i + 1) == errors + [d.msg.bytes];
    }
  }

  /** What one turn of the loop does to one port's stream. */
  lemma IterateWriter(ports: seq<Port>, f: Forwarder, d: Delivery, i: nat)
    requires Sized(|ports|, f) && i < |ports| && Iterate(ports, f, d).error.None?
    ensures Sized(|ports|, Iterate(ports, f, d).f)
    ensures Iterate(ports, f, d).f.writers[i]
         == if d.msg.FromPod? && d.msg.ch == 2 * i && f.chans[2 * i].initialized && !f.chans[2 * i].shutdown then
              Write(f.writers[i], d.msg.bytes)
            else if d.msg.FromPodClose? || (d.msg.ToPodClose? && d.msg.ch / 2 == i && !f.chans[d.msg.ch].shutdown) then
              f.writers[i].(shut := true)
            else f.writers[i]
  {
  }

  lemma FlattenTailAppend(parts: seq<seq<Byte>>, part: seq<Byte>)
    ensures Flatten(Tail(parts + [part])) == if parts == [] then [] else Flatten(Tail(parts)) + part
  {
    if parts != [] {
      var tail := Tail(parts);
      assert Tail(parts + [part]) == tail + [part];
      assert (tail + [part])[..|tail|] == tail;
    }
  }

  /** A payload for an open port: the introduction is swallowed, anything after it is written. */
  lemma PayloadStep(n: nat, queue: seq<Delivery>, w: Writer, ch: int)
    requires queue != [] && WellSent(n, queue)
    requires var d := queue[|queue| - 1].msg; d.FromPod? && d.ch == ch
    requires StreamOk(queue[..|queue| - 1], w, ch) && !Closed(queue[..|queue| - 1], ch)
    ensures var init, d := queue[..|queue| - 1], queue[|queue| - 1].msg;
            StreamOk(queue, if Incoming(init, ch) == [] then w else Write(w, d.bytes), ch)
  {
    var init, d := queue[..|queue| - 1], queue[|queue| - 1].msg;
    assert forall k :: 0 <= k < |init| ==> init[k] == queue[k];
    assert !PodClosed(init);
    ClosedAppend(queue, ch);
    PodClosedAppend(queue);
    AcceptedPrefix(init, ch);
    assert Accepted(queue, ch) == Accepted(init, ch) + [d.bytes];
    FlattenTailAppend(Accepted(init, ch), d.bytes);
  }

  lemma OtherStep(queue: seq<Delivery>, w: Writer, ch: int, shut: bool)
    requires queue != [] && StreamOk(queue[..|queue| - 1], w, ch)
    requires var d := queue[|queue| - 1].msg; d.FromPod? && d.ch == ch ==> Closed(queue[..|queue| - 1], ch)
    requires var d := queue[|queue| - 1].msg; shut ==> d.FromPodClose? || (d.ToPodClose? && d.ch == ch)
    requires var d := queue[|queue| - 1].msg;
             d.FromPodClose? || (d.ToPodClose? && d.ch == ch) ==> shut || Closed(queue[..|queue| - 1], ch)
    ensures StreamOk(queue, if shut then w.(shut := true) else w, ch)
  {
    ClosedAppend(queue, ch);
    PodClosedAppend(queue);
    var accepted := Accepted(queue[..|queue| - 1], ch);
    assert Accepted(queue, ch) == accepted + [] == accepted;
  }

  lemma WriterStep(ports: seq<Port>, queue: seq<Delivery>, f: Forwarder, i: nat)
    requires queue != [] && WellSent(|ports|, queue) && i < |ports| && Sized(|ports|, f)
    requires f.chans[2 * i].shutdown <==> Closed(queue[..|queue| - 1], 2 * i)
    requires WriterOk(ports, queue[..|queue| - 1], f, i) && ChannelOk(ports, queue[..|queue| - 1], f, 2 * i)
    requires Iterate(ports, f, queue[|queue| - 1]).error.None?
    ensures Sized(|ports|, Iterate(ports, f, queue[|queue| - 1]).f)
    ensures WriterOk(ports, queue, Iterate(ports, f, queue[|queue| - 1]).f, i)
  {
    var d := queue[|queue| - 1];
    IterateWriter(ports, f, d, i);
    if d.msg.FromPod? && d.msg.ch == 2 * i && !f.chans[2 * i].shutdown {
      PayloadStep(|ports|, queue, f.writers[i], 2 * i);
    } else {
      assert d.msg.ToPodClose? && d.msg.ch / 2 == i ==> d.msg.ch == 2 * i;
      OtherStep(queue, f.writers[i], 2 * i,
                d.msg.FromPodClose? || (d.msg.ToPodClose? && d.msg.ch / 2 == i && !f.chans[d.msg.ch].shutdown));
    }
  }

  /** Before the close everything that came in was accepted. */
  lemma {:induction false} AcceptedPrefix(queue: seq<Delivery>, ch: int)
    ensures Accepted(queue, ch) <= Incoming(queue, ch)
    ensures !Closed(queue, ch) ==> Accepted(queue, ch) == Incoming(queue, ch)
  {
    if queue != [] {
      AcceptedPrefix(queue[..|queue| - 1], ch);
      ClosedAppend(queue, ch);
    }
  }

  function FramesFor(msg: Message): seq<Frame> {
    if msg.ToPod? then [Data([msg.ch] + msg.bytes)] else []
  }

  /** What one turn of the loop sends. */
  lemma IterateFrames(ports: seq<Port>, f: Forwarder, d: Delivery)
    requires Sized(|ports|, f) && Iterate(ports, f, d).error.None?
    ensures var frames := Iterate(ports, f, d).f.frames;
            frames == f.frames + FramesFor(d.msg) || frames == f.frames + FramesFor(d.msg) + [Close]
  {
    assert f.frames + [] == f.frames;
  }

  lemma FrameStep(queue: seq<Delivery>, frames: seq<Frame>, ch: int)
    requires queue != [] && FramePayloads(frames, ch) == Outgoing(queue[..|queue| - 1], ch)
    ensures var more := frames + FramesFor(queue[|queue| - 1].msg);
            FramePayloads(more, ch) == FramePayloads(more + [Close], ch) == Outgoing(queue, ch)
  {
    var msg := queue[|queue| - 1].msg;
    if msg.ToPod? {
      var frame := Data([msg.ch] + msg.bytes);
      FramePayloadsAppend(frames, frame, ch);
      assert frame.bytes[1..] == msg.bytes;
    } else {
      assert frames + [] == frames;
    }
    FramePayloadsAppend(frames + FramesFor(msg), Close, ch);
  }

  lemma FramePayloadsAppend(frames: seq<Frame>, frame: Frame, ch: int)
    ensures FramePayloads(frames + [frame], ch)
         == FramePayloads(frames, ch)
            + if frame.Data? && frame.bytes != [] && frame.bytes[0] == ch then [frame.bytes[1..]] else []
  {
    assert (frames + [frame])[..|frames|] == frames;
  }

  lemma {:induction false} DataHolds(ports: seq<Port>, queue: seq<Delivery>)
    requires |ports| > 0 && WellSent(|ports|, queue) && RunForwarder(ports, queue).error.None?
    ensures DataInvariant(ports, queue, RunForwarder(ports, queue).f)
  {
    if queue != [] {
      var init, d := queue[..|queue| - 1], queue[|queue| - 1];
      WellSentPrefix(|ports|, queue);
      var f := RunForwarder(ports, init).f;
      DataHolds(ports, init);
      CloseHolds(ports, init);
      var g := RunForwarder(ports, queue).f;
      assert g == Iterate(ports, f, d).f;
      forall ch | 0 <= ch < 2 * |ports| ensures ChannelOk(ports, queue, g, ch) {
        ChannelStep(ports, queue, f, ch);
      }
      forall i | 0 <= i < |ports| ensures WriterOk(ports, queue, g, i) && ErrorOk(ports, queue, g, i) {
        assert ChannelOk(ports, init, f, 2 * i) && ChannelOk(ports, init, f, 2 * i + 1);
        WriterStep(ports, queue, f, i);
        ErrorStep(ports, queue, f, i);
      }
      IterateFrames(ports, f, d);
      forall ch ensures FramePayloads(g.frames, ch) == Outgoing(queue, ch) {
        FrameStep(queue, f.frames, ch);
      }
    }
  }

  /** The non-empty chunks of a stream. */
  function NonEmpty(chunks: seq<seq<Byte>>): seq<seq<Byte>> {
    if chunks == [] then [] else (if chunks[0] == [] then [] else [chunks[0]]) + NonEmpty(chunks[1..])
  }

  /** The payload messages of a program, in order. */
  function Payloads(msgs: seq<Message>): seq<seq<Byte>> {
    if msgs == [] then []
    else Payloads(msgs[..|msgs| - 1]) + if msgs[|msgs| - 1].ToPod? then [msgs[|msgs| - 1].bytes] else []
  }

  lemma {:induction false} PayloadsConcat(a: seq<Message>, b: seq<Message>)
    ensures Payloads(a + b) == Payloads(a) + Payloads(b)
  {
    if b == [] {
      assert a + b == a;
    } else {
      assert (a + b)[..|a + b| - 1] == a + b[..|b| - 1];
      PayloadsConcat(a, b[..|b| - 1]);
    }
  }

  lemma {:induction false} ProgramPayloads(ch: Byte, chunks: seq<seq<Byte>>)
    ensures Payloads(ToPodProgram(ch, chunks)) == NonEmpty(chunks)
  {
    if chunks == [] {
      assert [ToPodClose(ch)][..0] == [];
    } else {
      var rest := ToPodProgram(ch, chunks[1..]);
      ProgramPayloads(ch, chunks[1..]);
      if chunks[0] == [] {
        assert ToPodProgram(ch, chunks) == [] + rest == rest;
      } else {
        var first := [ToPod(ch, chunks[0])];
        PayloadsConcat(first, rest);
        assert first[..0] == [];
        assert Payloads(first) == [chunks[0]];
      }
    }
  }

  lemma PayloadsAt(program: seq<Message>, n: nat)
    requires n < |program|
    ensures Payloads(program[..n + 1]) == Payloads(program[..n]) + if program[n].ToPod? then [program[n].bytes] else []
  {
    assert program[..n + 1][..n] == program[..n];
  }

  lemma InterleavingPrefix(p: Programs, queue: seq<Delivery>)
    requires Interleaving(p, queue) && queue != []
    ensures Interleaving(p, queue[..|queue| - 1])
  {
    var init := queue[..|queue| - 1];
    forall k | 0 <= k < |init| ensures IsNext(p, init, k) {
      assert init[..k] == queue[..k] && IsNext(p, queue, k);
    }
  }

  /** What a reader has put in the queue is the beginning of its program. */
  lemma {:induction false} OutgoingIsProgram(p: Programs, queue: seq<Delivery>, i: nat)
    requires Interleaving(p, queue) && |p.chunks| <= 128 && i < |p.chunks|
    ensures SentBy(queue, Reader(i)) <= |ProgramOf(p, Reader(i))|
    ensures Outgoing(queue, 2 * i) == Payloads(ProgramOf(p, Reader(i))[..SentBy(queue, Reader(i))])
  {
    if queue != [] {
      var init, d := queue[..|queue| - 1], queue[|queue| - 1];
      InterleavingPrefix(p, queue);
      OutgoingIsProgram(p, init, i);
      EntryShape(p, queue, |queue| - 1);
      assert IsNext(p, queue, |queue| - 1);
      if d.sender == Reader(i) {
        PayloadsAt(ProgramOf(p, Reader(i)), SentBy(init, Reader(i)));
      }
    }
  }

  /** What a reader has put in the queue is the beginning of what it read, and all of it once it is done. */
  lemma OutgoingIsRead(p: Programs, queue: seq<Delivery>, i: nat)
    requires Interleaving(p, queue) && |p.chunks| <= 128 && i < |p.chunks|
    ensures Outgoing(queue, 2 * i) <= NonEmpty(p.chunks[i])
    ensures Closed(queue, 2 * i) ==> Outgoing(queue, 2 * i) == NonEmpty(p.chunks[i])
  {
    OutgoingIsProgram(p, queue, i);
    var program, n := ProgramOf(p, Reader(i)), SentBy(queue, Reader(i));
    ProgramPayloads(DataChannel(i), p.chunks[i]);
    PayloadsConcat(program[..n], program[n..]);
    assert program[..n] + program[n..] == program;
    if Closed(queue, 2 * i) {
      DoneReaderSentAll(p, queue, i);
      assert program[n..] == [];
    }
  }

  /** The payloads that the socket received on a channel before it was closed, in order. */
  function Received(socket: seq<SocketMessage>, ch: int): seq<seq<Byte>> {
    if socket == [] || socket[0].CloseFrame? then []
    else
      (if socket[0].Binary? && |socket[0].data| > 1 && socket[0].data[0] == ch then [socket[0].data[1..]] else [])
      + Received(socket[1..], ch)
  }

  /** The payloads on a channel among the messages of the socket's reader. */
  function PodPayloads(msgs: seq<Message>, ch: int): seq<seq<Byte>> {
    if msgs == [] then []
    else
      var last := msgs[|msgs| - 1];
      PodPayloads(msgs[..|msgs| - 1], ch) + if last.FromPod? && last.ch == ch then [last.bytes] else []
  }

  lemma {:induction false} PodPayloadsConcat(a: seq<Message>, b: seq<Message>, ch: int)
    ensures PodPayloads(a + b, ch) == PodPayloads(a, ch) + PodPayloads(b, ch)
  {
    if b == [] {
      assert a + b == a;
    } else {
      assert (a + b)[..|a + b| - 1] == a + b[..|b| - 1];
      PodPayloadsConcat(a, b[..|b| - 1], ch);
    }
  }

  lemma OnePodPayload(m: Message, ch: int)
    ensures PodPayloads([m], ch) == if m.FromPod? && m.ch == ch then [m.bytes] else []
  {
    assert [m][..0] == [];
  }

  /** The socket's reader passes on exactly what was received. */
  lemma {:induction false} ProgramIsReceived(socket: seq<SocketMessage>, ch: int)
    ensures PodPayloads(FromPodProgram(socket), ch) == Received(socket, ch)
  {
    if socket != [] {
      var rest := FromPodProgram(socket[1..]);
      if socket[0].CloseFrame? {
        OnePodPayload(FromPodClose, ch);
      } else {
        ProgramIsReceived(socket[1..], ch);
        if socket[0].Binary? && |socket[0].data| > 1 {
          var first := FromPod(socket[0].data[0], socket[0].data[1..]);
          OnePodPayload(first, ch);
          PodPayloadsConcat([first], rest, ch);
        } else {
          assert FromPodProgram(socket) == rest;
        }
      }
    }
  }

  lemma PodPayloadsAt(program: seq<Message>, n: nat, ch: int)
    requires n < |program|
    ensures PodPayloads(program[..n + 1], ch)
         == PodPayloads(program[..n], ch)
            + if program[n].FromPod? && program[n].ch == ch then [program[n].bytes] else []
  {
    assert program[..n + 1][..n] == program[..n];
  }

  /** What the socket's reader has put in the queue is the beginning of its program. */
  lemma {:induction false} IncomingIsProgram(p: Programs, queue: seq<Delivery>, ch: int)
    requires Interleaving(p, queue) && |p.chunks| <= 128
    ensures SentBy(queue, Socket) <= |ProgramOf(p, Socket)|
    ensures Incoming(queue, ch) == PodPayloads(ProgramOf(p, Socket)[..SentBy(queue, Socket)], ch)
  {
    if queue != [] {
      var init, d := queue[..|queue| - 1], queue[|queue| - 1];
      InterleavingPrefix(p, queue);
      IncomingIsProgram(p, init, ch);
      EntryShape(p, queue, |queue| - 1);
      assert IsNext(p, queue, |queue| - 1);
      if d.sender == Socket {
        PodPayloadsAt(ProgramOf(p, Socket), SentBy(init, Socket), ch);
      }
    }
  }

  /** What came in on a channel is the beginning of what the socket received on it. */
  lemma IncomingIsReceived(p: Programs, queue: seq<Delivery>, ch: int)
    requires Interleaving(p, queue) && |p.chunks| <= 128
    ensures Incoming(queue, ch) <= Received(p.socket, ch)
  {
    IncomingIsProgram(p, queue, ch);
    var program, n := ProgramOf(p, Socket), SentBy(queue, Socket);
    ProgramIsReceived(p.socket, ch);
    PodPayloadsConcat(program[..n], program[n..], ch);
    assert program[..n] + program[n..] == program;
  }

  /** A port's introduction names the port. */
  lemma IntroductionHolds(ports: seq<Port>, queue: seq<Delivery>, f: Forwarder, i: nat)
    requires i < |ports| && Sized(|ports|, f) && ChannelOk(ports, queue, f, 2 * i)
    ensures var incoming := Incoming(queue, 2 * i);
            incoming != [] ==> incoming[0] == [ports[i] % 256, ports[i] / 256]
  {
    assert (2 * i) / 2 == i;
  }

  /** What holds of the forwarder holds of each port. */
  lemma PortHolds(ports: seq<Port>, queue: seq<Delivery>, f: Forwarder, i: nat)
    requires i < |ports| && DataInvariant(ports, queue, f)
    ensures WriterOk(ports, queue, f, i) && ErrorOk(ports, queue, f, i) && ChannelOk(ports, queue, f, 2 * i)
    ensures FramePayloads(f.frames, 2 * i) == Outgoing(queue, 2 * i)
  {
  }

  /**
    Isolation and conservation, for every interleaving and at every moment before an error. What came in
    on port `i`'s channels is the beginning of what the socket received on them. The port's stream got
    exactly the payloads of its own channel, in order, without the introduction and up to its close, and
    never a byte after it was shut, and it is shut exactly once its reader is done or the pod has closed the
    socket. Its error channel passed on the first message after
    the introduction and no other. And the frames under its prefix are the beginning of what its reader
    read - all of it, once the reader is done.
   */
  lemma PortsAreIsolated(ports: seq<Port>, p: Programs, queue: seq<Delivery>, i: nat)
    requires 0 < |ports| <= 128 && |p.chunks| == |ports| && i < |ports|
    requires Interleaving(p, queue) && RunForwarder(ports, queue).error.None?
    ensures var f := RunForwarder(ports, queue).f;
            && Incoming(queue, 2 * i) <= Received(p.socket, 2 * i)
            && Incoming(queue, 2 * i + 1) <= Received(p.socket, 2 * i + 1)
            && Accepted(queue, 2 * i) <= Incoming(queue, 2 * i)
            && (!Closed(queue, 2 * i) ==> Accepted(queue, 2 * i) == Incoming(queue, 2 * i))
            && f.writers[i].written == Flatten(Tail(Accepted(queue, 2 * i))) && !f.writers[i].late
            && (f.writers[i].shut <==> Closed(queue, 2 * i) || PodClosed(queue))
            && (Incoming(queue, 2 * i) != [] ==> Incoming(queue, 2 * i)[0] == [ports[i] % 256, ports[i] / 256])
            && f.errorSent[i]
               == (if |Incoming(queue, 2 * i + 1)| < 2 then None else Some(Incoming(queue, 2 * i + 1)[1]))
            && FramePayloads(f.frames, 2 * i) <= NonEmpty(p.chunks[i])
            && (Closed(queue, 2 * i) ==> FramePayloads(f.frames, 2 * i) == NonEmpty(p.chunks[i]))
  {
    InterleavingIsWellSent(p, queue);
    DataHolds(ports, queue);
    var f := RunForwarder(ports, queue).f;
    IncomingIsReceived(p, queue, 2 * i);
    IncomingIsReceived(p, queue, 2 * i + 1);
    AcceptedPrefix(queue, 2 * i);
    PortHolds(ports, queue, f, i);
    IntroductionHolds(ports, queue, f, i);
    OutgoingIsRead(p, queue, i);
  }

  lemma DoneReaderSentAll(p: Programs, queue: seq<Delivery>, i: nat)
    requires Interleaving(p, queue) && |p.chunks| <= 128 && i < |p.chunks| && Closed(queue, 2 * i)
    ensures SentBy(queue, Reader(i)) == |ProgramOf(p, Reader(i))|
  {
    var k :| 0 <= k < |queue| && queue[k].msg.ToPodClose? && queue[k].msg.ch == 2 * i;
    EntryShape(p, queue, k);
    SentByGrows(queue, k, |queue|, Reader(i));
    assert queue[..|queue|] == queue && queue[k].sender == Reader(i);
    OutgoingIsProgram(p, queue, i);
  }

  // ---------- The pod closing the socket ----------

  /** The socket's reader reports the close exactly if the socket was closed. */
  lemma {:induction false} ProgramReportsClose(socket: seq<SocketMessage>)
    ensures FromPodClose in FromPodProgram(socket) <==> CloseFrame in socket
  {
    if socket != [] {
      ProgramReportsClose(socket[1..]);
      assert socket == [socket[0]] + socket[1..];
    }
  }

  lemma {:induction false} QueuedFromSocket(p: Programs, queue: seq<Delivery>, n: nat)
    requires Interleaving(p, queue) && n < SentBy(queue, Socket)
    ensures n < |ProgramOf(p, Socket)| && exists k :: 0 <= k < |queue| && queue[k].msg == ProgramOf(p, Socket)[n]
  {
    var init, last := queue[..|queue| - 1], |queue| - 1;
    InterleavingPrefix(p, queue);
    assert IsNext(p, queue, last);
    if n < SentBy(init, Socket) {
      QueuedFromSocket(p, init, n);
      var k :| 0 <= k < |init| && init[k].msg == ProgramOf(p, Socket)[n];
      assert queue[k] == init[k];
    } else {
      assert queue[last].msg == ProgramOf(p, Socket)[n];
    }
  }

  /**
    A close of the pod is in the queue only if the socket received one, and it is there once the
    socket's reader has put in everything.
   */
  lemma PodCloseIsPassedOn(p: Programs, queue: seq<Delivery>)
    requires Interleaving(p, queue) && |p.chunks| <= 128
    ensures PodClosed(queue) ==> CloseFrame in p.socket
    ensures SentBy(queue, Socket) == |ProgramOf(p, Socket)| && CloseFrame in p.socket ==> PodClosed(queue)
  {
    ProgramReportsClose(p.socket);
    var program := ProgramOf(p, Socket);
    if PodClosed(queue) {
      var k :| 0 <= k < |queue| && queue[k].msg.FromPodClose?;
      EntryShape(p, queue, k);
      assert IsNext(p, queue, k);
    }
    if SentBy(queue, Socket) == |program| && FromPodClose in program {
      var n :| 0 <= n < |program| && program[n] == FromPodClose;
      QueuedFromSocket(p, queue, n);
    }
  }

  // ---------- When the forwarder fails ----------

  /**
    What is wrong with entry `k`, said of the queue alone: a channel no port has, a first payload that
    does not introduce the port, or input or output that fails where the entry calls for it.
   */
  function Failure(ports: seq<Port>, queue: seq<Delivery>, k: nat): Option<Error>
    requires k < |queue|
  {
    var before, io := queue[..k], queue[k].io;
    match queue[k].msg
    case FromPod(ch, bytes) =>
      if ch >= 2 * |ports| then Some(InvalidChannel(ch))
      else if Incoming(before, ch) == [] then
        if |bytes| != 2 then Some(InvalidInitialFrameSize)
        else if bytes != Introduction(ports[ch / 2]) then
          Some(InvalidPortMapping((bytes[0] as int) + 256 * (bytes[1] as int), ports[ch / 2]))
        else None
      else if ch % 2 == 0 then
        if !Closed(before, ch) && !io.written then Some(WriteBytesFromPod) else None
      else if |Incoming(before, ch)| > 1 then None
      else if !io.utf8 then Some(InvalidErrorMessage)
      else if !io.written then Some(ForwardErrorMessage)
      else None
    case ToPod(_, _) => if io.written then None else Some(SendWebSocketMessage)
    case FromPodClose => if io.written then None else Some(Shutdown)
    case ToPodClose(_) =>
      if !io.written then Some(Shutdown)
      else if AllClosed(ports, queue[..k + 1]) && !io.closed then Some(SendWebSocketMessage)
      else None
  }

  predicate AllClosed(ports: seq<Port>, queue: seq<Delivery>) {
    forall i :: 0 <= i < |ports| ==> Closed(queue, 2 * i)
  }

  function FirstFailure(ports: seq<Port>, queue: seq<Delivery>): Option<Error> {
    if queue == [] then None
    else
      var earlier := FirstFailure(ports, queue[..|queue| - 1]);
      if earlier.Some? then earlier else Failure(ports, queue, |queue| - 1)
  }

  lemma FromPodFails(ports: seq<Port>, queue: seq<Delivery>, f: Forwarder)
    requires queue != [] && queue[|queue| - 1].msg.FromPod?
    requires var init := queue[..|queue| - 1];
             CloseInvariant(|ports|, init, f) && DataInvariant(ports, init, f)
    ensures var d := queue[|queue| - 1];
            HandleFromPod(ports, f, d.msg.ch, d.msg.bytes, d.io).error == Failure(ports, queue, |queue| - 1)
  {
    var init, d := queue[..|queue| - 1], queue[|queue| - 1];
    var ch, bytes := d.msg.ch, d.msg.bytes;
    if ch < 2 * |ports| {
      assert ChannelOk(ports, init, f, ch);
      if |bytes| == 2 {
        IntroductionReads(bytes, ports[ch / 2]);
      }
      if ch % 2 == 0 {
        assert ch == 2 * (ch / 2);
      } else {
        assert ch == 2 * (ch / 2) + 1 && ErrorOk(ports, init, f, ch / 2);
      }
    }
  }

  lemma ToPodCloseFails(ports: seq<Port>, queue: seq<Delivery>, f: Forwarder)
    requires |ports| > 0 && WellSent(|ports|, queue) && queue != [] && queue[|queue| - 1].msg.ToPodClose?
    requires CloseInvariant(|ports|, queue[..|queue| - 1], f)
    ensures Iterate(ports, f, queue[|queue| - 1]).error == Failure(ports, queue, |queue| - 1)
  {
    var init, d := queue[..|queue| - 1], queue[|queue| - 1];
    var ch := d.msg.ch;
    assert ch == 2 * (ch / 2) && queue[..|queue| - 1 + 1] == queue;
    if Closed(init, ch) {
      ClosedReaderIsQuiet(|ports|, queue, ch);
    }
    if d.io.written {
      HandleKeepsCount(ports, queue, f);
      CountShutAll(Handle(ports, f, d).f.chans, |ports|);
      HandleEffect(ports, f, d);
    }
  }

  lemma OtherFails(ports: seq<Port>, queue: seq<Delivery>, f: Forwarder)
    requires queue != [] && CloseInvariant(|ports|, queue[..|queue| - 1], f) && |ports| > 0
    requires var d := queue[|queue| - 1]; !d.msg.ToPodClose?
    ensures var d := queue[|queue| - 1]; Iterate(ports, f, d).error == Handle(ports, f, d).error
  {
    HandleEffect(ports, f, queue[|queue| - 1]);
  }

  /**
    The forwarder fails exactly when an entry of the queue is wrong, and with the error of the first
    that is. In particular channels and introductions are refused only if they are wrong.
   */
  lemma {:induction false} ErrorIsFirstFailure(ports: seq<Port>, queue: seq<Delivery>)
    requires |ports| > 0 && WellSent(|ports|, queue)
    ensures RunForwarder(ports, queue).error == FirstFailure(ports, queue)
  {
    if queue != [] {
      var init, d := queue[..|queue| - 1], queue[|queue| - 1];
      WellSentPrefix(|ports|, queue);
      ErrorIsFirstFailure(ports, init);
      var o := RunForwarder(ports, init);
      if o.error.None? {
        CloseHolds(ports, init);
        if d.msg.ToPodClose? {
          ToPodCloseFails(ports, queue, o.f);
        } else {
          OtherFails(ports, queue, o.f);
          if d.msg.FromPod? {
            DataHolds(ports, init);
            FromPodFails(ports, queue, o.f);
          }
        }
      }
    }
  }

  /** The channel exists, and the first payload on it is the port's two bytes. */
  predicate WellIntroduced(ports: seq<Port>, queue: seq<Delivery>, k: nat)
    requires k < |queue|
  {
    queue[k].msg.FromPod? ==>
      var ch := queue[k].msg.ch;
      ch < 2 * |ports| && (Incoming(queue[..k], ch) == [] ==> queue[k].msg.bytes == Introduction(ports[ch / 2]))
  }

  lemma {:induction false} NoFailureIff(ports: seq<Port>, queue: seq<Delivery>)
    requires forall k :: 0 <= k < |queue| ==> queue[k].io == Io(true, true, true)
    ensures FirstFailure(ports, queue).None? <==> forall k :: 0 <= k < |queue| ==> WellIntroduced(ports, queue, k)
  {
    if queue != [] {
      var init := queue[..|queue| - 1];
      NoFailureIff(ports, init);
      forall k | 0 <= k < |init| ensures WellIntroduced(ports, init, k) <==> WellIntroduced(ports, queue, k) {
        assert init[..k] == queue[..k];
      }
      LastFailure(ports, queue);
    }
  }

  lemma LastFailure(ports: seq<Port>, queue: seq<Delivery>)
    requires queue != [] && queue[|queue| - 1].io == Io(true, true, true)
    ensures Failure(ports, queue, |queue| - 1).None? <==> WellIntroduced(ports, queue, |queue| - 1)
  {
  }

  /**
    As long as input and output work, every interleaving is forwarded without an error if and only if
    the pod uses only the ports' channels and introduces each of them with its port's two bytes.
   */
  lemma ForwardsIffWellIntroduced(ports: seq<Port>, p: Programs, queue: seq<Delivery>)
    requires 0 < |ports| <= 128 && |p.chunks| == |ports| && Interleaving(p, queue)
    requires forall k :: 0 <= k < |queue| ==> queue[k].io == Io(true, true, true)
    ensures RunForwarder(ports, queue).error.None? <==> forall k :: 0 <= k < |queue| ==> WellIntroduced(ports, queue, k)
  {
    InterleavingIsWellSent(p, queue);
    ErrorIsFirstFailure(ports, queue);
    NoFailureIff(ports, queue);
  }
}
