/**
  Port forwarding over one WebSocket: a reader loop per port and one for the socket feed a single
  forwarder through a queue that keeps each sender's order and nothing else.
 */
module PortForward {
  import opened Common

  type Byte = b: int | 0 <= b < 256
  type Port = p: int | 0 <= p < 65536

  // ---------- The request ----------

  datatype PortsError = NoPorts | TooManyPorts | DuplicatePort(port: Port)

  /** `Request::portforward`'s checks. */
  method CheckPorts(ports: seq<Port>) returns (r: Result<(), PortsError>)
    ensures r.Ok? <==> 0 < |ports| <= 128 && Distinct(ports)
    ensures r == Err(NoPorts) <==> ports == []
    ensures r == Err(TooManyPorts) <==> |ports| > 128
    ensures r.Err? && r.error.DuplicatePort? ==>
              exists i, j :: 0 <= i < j < |ports| && ports[i] == ports[j] == r.error.port
  {
    if |ports| == 0 {
      return Err(NoPorts);
    }
    if |ports| > 128 {
      return Err(TooManyPorts);
    }
    if |ports| > 1 {
      var seen: set<Port> := {};
      for i := 0 to |ports|
        invariant Distinct(ports[..i])
        invariant forall p :: p in seen <==> p in ports[..i]
      {
        assert ports[..i + 1] == ports[..i] + [ports[i]];
        if ports[i] in seen {
          assert ports[i] in ports[..i];
          return Err(DuplicatePort(ports[i]));
        }
        seen := seen + {ports[i]};
      }
      assert ports[..|ports|] == ports;
    }
    r := Ok(());
  }

  // ---------- The senders ----------

  datatype Message =
    | FromPod(ch: Byte, bytes: seq<Byte>)
    | ToPod(ch: Byte, bytes: seq<Byte>)
    | FromPodClose
    | ToPodClose(ch: Byte)

  /** `2 * (i as u8)`, in machine arithmetic. */
  function DataChannel(i: nat): Byte {
    (2 * (i % 256)) % 256
  }

  /** With at most 128 ports no channel number wraps around, so channel and port determine each other. */
  lemma ChannelsDoNotCollide(n: nat, i: nat, j: nat)
    requires n <= 128 && i < n && j < n
    ensures DataChannel(i) == 2 * i && DataChannel(i) / 2 == i && DataChannel(i) % 2 == 0
    ensures DataChannel(i) == DataChannel(j) <==> i == j
  {
  }

  /** What `to_pod_loop` sends for a port whose stream yields `chunks` and then ends. */
  function ToPodProgram(ch: Byte, chunks: seq<seq<Byte>>): seq<Message> {
    if chunks == [] then [ToPodClose(ch)]
    else (if chunks[0] == [] then [] else [ToPod(ch, chunks[0])]) + ToPodProgram(ch, chunks[1..])
  }

  lemma ToPodNext(ch: Byte, sent: seq<Message>, chunks: seq<seq<Byte>>, i: nat)
    requires i < |chunks|
    ensures sent + ToPodProgram(ch, chunks[i..])
         == (if chunks[i] == [] then sent else sent + [ToPod(ch, chunks[i])]) + ToPodProgram(ch, chunks[i + 1..])
  {
    var rest := ToPodProgram(ch, chunks[i + 1..]);
    assert chunks[i..][1..] == chunks[i + 1..];
    if chunks[i] == [] {
      assert [] + rest == rest;
    } else {
      assert sent + ([ToPod(ch, chunks[i])] + rest) == (sent + [ToPod(ch, chunks[i])]) + rest;
    }
  }

  method ToPodLoop(ch: Byte, chunks: seq<seq<Byte>>) returns (sent: seq<Message>)
    ensures sent == ToPodProgram(ch, chunks)
  {
    sent := [];
    assert chunks[0..] == chunks;
    for i := 0 to |chunks|
      invariant sent + ToPodProgram(ch, chunks[i..]) == ToPodProgram(ch, chunks)
    {
      ToPodNext(ch, sent, chunks, i);
      if chunks[i] != [] {
        sent := sent + [ToPod(ch, chunks[i])];
      }
    }
    sent := sent + [ToPodClose(ch)];
  }

  datatype SocketMessage = Binary(data: seq<Byte>) | CloseFrame | Other

  /** What `from_pod_loop` sends for the messages that the socket yields. */
  function FromPodProgram(received: seq<SocketMessage>): seq<Message> {
    if received == [] then []
    else
      match received[0]
      case Binary(data) =>
        (if |data| > 1 then [FromPod(data[0], data[1..])] else []) + FromPodProgram(received[1..])
      case CloseFrame => [FromPodClose]
      case Other => FromPodProgram(received[1..])
  }

  method FromPodLoop(received: seq<SocketMessage>) returns (sent: seq<Message>)
    ensures sent == FromPodProgram(received)
  {
    sent := [];
    var i := 0;
    assert received[0..] == received;
    while i < |received|
      invariant i <= |received|
      invariant sent + FromPodProgram(received[i..]) == FromPodProgram(received)
    {
      assert received[i..][1..] == received[i + 1..];
      match received[i] {
        case Binary(data) =>
          if |data| > 1 {
            sent := sent + [FromPod(data[0], data[1..])];
          }
        case CloseFrame =>
          sent := sent + [FromPodClose];
          return;
        case Other =>
      }
      i := i + 1;
    }
  }

  // ---------- The queue ----------

  datatype Sender = Socket | Reader(i: nat)

  /** How the input and output of one forwarder iteration turn out. */
  datatype Io = Io(written: bool, utf8: bool, closed: bool)

  datatype Delivery = Delivery(sender: Sender, msg: Message, io: Io)

  /** How many messages of `sender` are in the queue. */
  function SentBy(queue: seq<Delivery>, sender: Sender): nat {
    if queue == [] then 0
    else SentBy(queue[..|queue| - 1], sender) + if queue[|queue| - 1].sender == sender then 1 else 0
  }

  /** What every sender would send if left to run. */
  datatype Programs = Programs(socket: seq<SocketMessage>, chunks: seq<seq<seq<Byte>>>)

  function ProgramOf(p: Programs, sender: Sender): seq<Message> {
    match sender
    case Socket => FromPodProgram(p.socket)
    case Reader(i) => if i < |p.chunks| then ToPodProgram(DataChannel(i), p.chunks[i]) else []
  }

  /** Any interleaving: each entry is the next message of its sender. */
  ghost predicate Interleaving(p: Programs, queue: seq<Delivery>) {
    forall k :: 0 <= k < |queue| ==> IsNext(p, queue, k)
  }

  /** Entry `k` is the next message of its sender after those before it. */
  ghost predicate IsNext(p: Programs, queue: seq<Delivery>, k: nat)
    requires k < |queue|
  {
    var sender := queue[k].sender;
    var at := SentBy(queue[..k], sender);
    at < |ProgramOf(p, sender)| && queue[k].msg == ProgramOf(p, sender)[at]
  }

  // ---------- The forwarder ----------

  datatype Error =
    | InvalidChannel(ch: int)
    | InvalidInitialFrameSize
    | InvalidPortMapping(actual: Port, expected: Port)
    | WriteBytesFromPod
    | InvalidErrorMessage
    | ForwardErrorMessage
    | SendWebSocketMessage
    | Shutdown

  datatype Channel = Channel(initialized: bool, shutdown: bool)

  datatype Frame = Data(bytes: seq<Byte>) | Close

  /** A port's stream: what was written, whether it was shut, and whether a write came after that. */
  datatype Writer = Writer(written: seq<Byte>, shut: bool, late: bool)

  /** `errorSender[i]` is still there until the port's one error message has been handed over. */
  datatype Forwarder = Forwarder(
    chans: seq<Channel>,
    closedPorts: nat,
    socketShutdown: bool,
    writers: seq<Writer>,
    errorSender: seq<bool>,
    errorSent: seq<Option<seq<Byte>>>,
    frames: seq<Frame>)

  datatype Outcome = Outcome(f: Forwarder, error: Option<Error>)

  function Start(n: nat): Forwarder {
    Forwarder(seq(2 * n, _ => Channel(false, false)), 0, false,
              seq(n, _ => Writer([], false, false)), seq(n, _ => true), seq(n, _ => None), [])
  }

  ghost predicate Sized(n: nat, f: Forwarder) {
    |f.chans| == 2 * n && |f.writers| == |f.errorSender| == |f.errorSent| == n
  }

  function LittleEndian(bytes: seq<Byte>): Port
    requires |bytes| == 2
  {
    (bytes[0] as int) + 256 * (bytes[1] as int)
  }

  function Write(w: Writer, bytes: seq<Byte>): Writer {
    Writer(w.written + bytes, w.shut, w.late || w.shut)
  }

  function ShutAll(ws: seq<Writer>): seq<Writer> {
    seq(|ws|, i requires 0 <= i < |ws| => ws[i].(shut := true))
  }

  /** A message from the socket: the first on a channel introduces it, later ones carry data or an error. */
  function HandleFromPod(ports: seq<Port>, f: Forwarder, ch: Byte, bytes: seq<Byte>, io: Io): Outcome
    requires Sized(|ports|, f)
  {
    if ch >= |f.chans| then Outcome(f, Some(InvalidChannel(ch)))
    else
      var i := ch / 2;
      if !f.chans[ch].initialized then
        if |bytes| != 2 then Outcome(f, Some(InvalidInitialFrameSize))
        else if LittleEndian(bytes) != ports[i] then
          Outcome(f, Some(InvalidPortMapping(LittleEndian(bytes), ports[i])))
        else Outcome(f.(chans := f.chans[ch := f.chans[ch].(initialized := true)]), None)
      else if ch % 2 != 0 then
        if !f.errorSender[i] then Outcome(f, None)
        else
          var g := f.(errorSender := f.errorSender[i := false]);
          if !io.utf8 then Outcome(g, Some(InvalidErrorMessage))
          else if !io.written then Outcome(g, Some(ForwardErrorMessage))
          else Outcome(g.(errorSent := g.errorSent[i := Some(bytes)]), None)
      else if f.chans[ch].shutdown then Outcome(f, None)
      else if !io.written then Outcome(f, Some(WriteBytesFromPod))
      else Outcome(f.(writers := f.writers[i := Write(f.writers[i], bytes)]), None)
  }

  function HandleToPodClose(ports: seq<Port>, f: Forwarder, ch: Byte, io: Io): Outcome
    requires Sized(|ports|, f)
  {
    if ch >= |f.chans| then Outcome(f, Some(InvalidChannel(ch)))
    else if f.chans[ch].shutdown then Outcome(f, None)
    else if !io.written then Outcome(f, Some(Shutdown))
    else
      Outcome(f.(writers := f.writers[ch / 2 := f.writers[ch / 2].(shut := true)],
                 chans := f.chans[ch := f.chans[ch].(shutdown := true)],
                 closedPorts := f.closedPorts + 1), None)
  }

  function Handle(ports: seq<Port>, f: Forwarder, d: Delivery): Outcome
    requires Sized(|ports|, f)
  {
    match d.msg
    case FromPod(ch, bytes) => HandleFromPod(ports, f, ch, bytes, d.io)
    case ToPod(ch, bytes) =>
      if d.io.written then Outcome(f.(frames := f.frames + [Data([ch] + bytes)]), None)
      else Outcome(f, Some(SendWebSocketMessage))
    case ToPodClose(ch) => HandleToPodClose(ports, f, ch, d.io)
    case FromPodClose =>
      if d.io.written then Outcome(f.(writers := ShutAll(f.writers)), None) else Outcome(f, Some(Shutdown))
  }

  /** One turn of the loop. The introduction of a channel skips the check for closed ports. */
  function Iterate(ports: seq<Port>, f: Forwarder, d: Delivery): Outcome
    requires Sized(|ports|, f)
  {
    var o := Handle(ports, f, d);
    if o.error.Some? then o
    else if d.msg.FromPod? && !f.chans[d.msg.ch].initialized then o
    else if o.f.closedPorts == |ports| && !o.f.socketShutdown then
      if d.io.closed then Outcome(o.f.(frames := o.f.frames + [Close], socketShutdown := true), None)
      else Outcome(o.f, Some(SendWebSocketMessage))
    else o
  }

  lemma IterateSized(ports: seq<Port>, f: Forwarder, d: Delivery)
    requires Sized(|ports|, f)
    ensures Sized(|ports|, Iterate(ports, f, d).f)
  {
  }

  /** The loop, up to its first error. */
  function RunForwarder(ports: seq<Port>, queue: seq<Delivery>): (o: Outcome)
    ensures Sized(|ports|, o.f)
  {
    if queue == [] then Outcome(Start(|ports|), None)
    else
      var o := RunForwarder(ports, queue[..|queue| - 1]);
      if o.error.Some? then o
      else
        IterateSized(ports, o.f, queue[|queue| - 1]);
        Iterate(ports, o.f, queue[|queue| - 1])
  }

  lemma {:induction false} ErrorEndsLoop(ports: seq<Port>, queue: seq<Delivery>, k: nat)
    requires k <= |queue| && RunForwarder(ports, queue[..k]).error.Some?
    ensures RunForwarder(ports, queue) == RunForwarder(ports, queue[..k])
  {
    if k == |queue| {
      assert queue[..k] == queue;
    } else {
      assert queue[..|queue| - 1][..k] == queue[..k];
      ErrorEndsLoop(ports, queue[..|queue| - 1], k);
    }
  }

  /** `forwarder_loop`, its local variables updated message by message. */
  method ForwarderLoop(ports: seq<Port>, queue: seq<Delivery>) returns (o: Outcome)
    ensures o == RunForwarder(ports, queue)
  {
    var chans := seq(2 * |ports|, _ => Channel(false, false));
    var closedPorts, socketShutdown := 0, false;
    var writers := seq(|ports|, _ => Writer([], false, false));
    var errorSender := seq(|ports|, _ => true);
    var errorSent: seq<Option<seq<Byte>>> := seq(|ports|, _ => None);
    var frames: seq<Frame> := [];
    var k := 0;
    while k < |queue|
      invariant k <= |queue|
      invariant RunForwarder(ports, queue[..k])
             == Outcome(Forwarder(chans, closedPorts, socketShutdown, writers, errorSender, errorSent, frames), None)
    {
      var d := queue[k];
      ghost var f := Forwarder(chans, closedPorts, socketShutdown, writers, errorSender, errorSent, frames);
      assert queue[..k + 1][..k] == queue[..k];
      assert RunForwarder(ports, queue[..k + 1]) == Iterate(ports, f, d);
      k := k + 1;
      var skip := false;
      var error: Option<Error> := None;
      match d.msg {
        case FromPod(ch, bytes) =>
          if ch >= |chans| {
            error := Some(InvalidChannel(ch));
          } else if !chans[ch].initialized {
            if |bytes| != 2 {
              error := Some(InvalidInitialFrameSize);
            } else if LittleEndian(bytes) != ports[ch / 2] {
              error := Some(InvalidPortMapping(LittleEndian(bytes), ports[ch / 2]));
            } else {
              chans := chans[ch := chans[ch].(initialized := true)];
              skip := true;
            }
          } else if ch % 2 != 0 {
            if errorSender[ch / 2] {
              errorSender := errorSender[ch / 2 := false];
              if !d.io.utf8 {
                error := Some(InvalidErrorMessage);
              } else if !d.io.written {
                error := Some(ForwardErrorMessage);
              } else {
                errorSent := errorSent[ch / 2 := Some(bytes)];
              }
            }
          } else if !chans[ch].shutdown {
            if !d.io.written {
              error := Some(WriteBytesFromPod);
            } else {
              writers := writers[ch / 2 := Write(writers[ch / 2], bytes)];
            }
          }
        case ToPod(ch, bytes) =>
          if d.io.written {
            frames := frames + [Data([ch] + bytes)];
          } else {
            error := Some(SendWebSocketMessage);
          }
        case ToPodClose(ch) =>
          if ch >= |chans| {
            error := Some(InvalidChannel(ch));
          } else if !chans[ch].shutdown {
            if !d.io.written {
              error := Some(Shutdown);
            } else {
              writers := writers[ch / 2 := writers[ch / 2].(shut := true)];
              chans := chans[ch := chans[ch].(shutdown := true)];
              closedPorts := closedPorts + 1;
            }
          }
        case FromPodClose =>
          if d.io.written {
            writers := ShutAll(writers);
          } else {
            error := Some(Shutdown);
          }
      }
      if error.None? && !skip && closedPorts == |ports| && !socketShutdown {
        if d.io.closed {
          frames := frames + [Close];
          socketShutdown := true;
        } else {
          error := Some(SendWebSocketMessage);
        }
      }
      if error.Some? {
        o := Outcome(Forwarder(chans, closedPorts, socketShutdown, writers, errorSender, errorSent, frames), error);
        ErrorEndsLoop(ports, queue, k);
        return;
      }
    }
    assert queue[..k] == queue;
    o := Outcome(Forwarder(chans, closedPorts, socketShutdown, writers, errorSender, errorSent, frames), None);
  }
}
