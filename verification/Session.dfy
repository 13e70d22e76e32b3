/** Session life cycle, output queues and the output stream of the server: which frames are
    committed, with which sequence numbers, and what the transport gets to see of them. */
module Session {
  import opened Bytes
  import opened Frame
  import opened Rings

  const OP_HELLO: u16 := 0x0001
  const OP_GOODBYE: u16 := 0x0007
  const OP_DEVICE_STATE: u16 := 0x0183
  const KIND_RESPONSE: byte := 2
  const KIND_EVENT: byte := 3
  const CTL_FLUSH_BURST := 4

  /** A frame waiting in a queue; its sequence number is assigned when it is committed. */
  datatype Item = Item(header: Header, payload: seq<byte>, order: nat)

  datatype Sent = Sent(header: Header, payload: seq<byte>)

  datatype Queues = Queues(ctl: seq<Item>, keys: seq<Item>, media: seq<Item>)

  /** The output ring, what the transport has taken, and the frames these octets are made of. */
  datatype Port = Port(out: seq<byte>, taken: seq<byte>, frames: seq<Sent>)

  datatype State = State(
    active: bool, sessionId: u32, counter: u32, txSeq: u32, order: nat, q: Queues, port: Port)

  datatype Limits = Limits(ring: nat, slots: nat, ctlBytes: nat)

  function Octets(f: Sent): seq<byte>
  {
    Wire(f.header, f.payload)
  }

  function Images(fs: seq<Sent>): (r: seq<seq<byte>>)
    ensures |r| == |fs|
    decreases |fs|
  {
    if fs == [] then [] else [Octets(fs[0])] + Images(fs[1..])
  }

  function Join(cs: seq<seq<byte>>): seq<byte>
  {
    if cs == [] then [] else cs[0] + Join(cs[1..])
  }

  // ----- output -----

  /** `out_drain`: the transport takes any number of octets. */
  function Drain(p: Port, n: nat): Port
  {
    var k := if n < |p.out| then n else |p.out|;
    p.(out := p.out[k..], taken := p.taken + p.out[..k])
  }

  /** How many frames survive when the ring is cut after its first delimiter: those already
      handed over at least in part, and the one after them. */
  function Survivors(cs: seq<seq<byte>>, taken: nat): (n: nat)
    ensures n <= |cs|
    decreases |cs|
  {
    if cs == [] then 0
    else if taken >= |cs[0]| then 1 + Survivors(cs[1..], taken - |cs[0]|)
    else 1
  }

  /** The ring part of `session_teardown`. */
  function Truncated(p: Port): Port
  {
    p.(out := ThroughZero(p.out), frames := p.frames[..Survivors(Images(p.frames), |p.taken|)])
  }

  datatype Try = Try(s: State, ok: bool)

  /** `out_try_frame`. */
  function TryFrame(l: Limits, s: State, header: Header, payload: seq<byte>): Try
  {
    if s.txSeq == 0 || s.txSeq == U32_MAX then Try(Teardown(s), false)
    else if |s.port.out| + HEADER_SIZE + |payload| + 6 > l.ring || |payload| > MAX_PAYLOAD then Try(s, false)
    else
      var f := Sent(Complete(header, s.txSeq, |payload|), payload);
      if |s.port.out| + |Octets(f)| > l.ring then Try(s, false)
      else Try(s.(txSeq := s.txSeq + 1, port := Committed(s.port, f)), true)
  }

  function Committed(p: Port, f: Sent): Port
  {
    p.(out := p.out + Octets(f), frames := p.frames + [f])
  }

  /** `session_teardown`, backend callbacks aside. */
  function Teardown(s: State): State
  {
    s.(active := false, sessionId := 0, q := Queues([], [], []), port := Truncated(s.port))
  }

  // ----- scheduling -----

  datatype Pick = Ctl | Key | Media | Nothing

  predicate Offers(q: Queues, p: Pick)
  {
    (p == Ctl ==> q.ctl != []) && (p == Key ==> q.keys != []) && (p == Media ==> q.media != [])
  }

  /** The choice `rbp_server_flush_output` makes: the oldest head, unless four control frames
      have gone out in this call and a key or media item waits. */
  function Choose(q: Queues, ctlSent: nat): (p: Pick)
    ensures Offers(q, p)
  {
    if q.ctl == [] && q.keys == [] && q.media == [] then Nothing
    else
      var min1 := if q.ctl != [] then q.ctl[0].order else 0;
      var keyFirst := q.keys != [] && (min1 == 0 || q.keys[0].order < min1);
      var min2 := if keyFirst then q.keys[0].order else min1;
      var mediaFirst := q.media != [] && (min2 == 0 || q.media[0].order < min2);
      if mediaFirst then Media
      else if keyFirst then Key
      else if q.ctl == [] then Nothing
      else if ctlSent >= CTL_FLUSH_BURST && (q.keys != [] || q.media != []) then
        if q.keys != [] && (q.media == [] || q.keys[0].order <= q.media[0].order) then Key else Media
      else Ctl
  }

  /** The chosen head is committed and leaves its queue; a refused frame stays. */
  function SendOne(l: Limits, s: State, pick: Pick): Try
    requires Offers(s.q, pick) && pick != Nothing
  {
    match pick
    case Ctl =>
      var t := TryFrame(l, s, s.q.ctl[0].header, s.q.ctl[0].payload);
      if t.ok then Try(t.s.(q := s.q.(ctl := s.q.ctl[1..])), true) else t
    case Key =>
      var t := TryFrame(l, s, s.q.keys[0].header.(sessionId := s.sessionId), s.q.keys[0].payload);
      if t.ok then Try(t.s.(q := s.q.(keys := s.q.keys[1..])), true) else t
    case Media =>
      if !s.active then Try(s, false)
      else
        var t := TryFrame(l, s, s.q.media[0].header.(sessionId := s.sessionId), s.q.media[0].payload);
        if t.ok then Try(t.s.(q := s.q.(media := s.q.media[1..])), true) else t
  }

  function Waiting(q: Queues): nat
  {
    |q.ctl| + |q.keys| + |q.media|
  }

  function FlushLoop(l: Limits, s: State, ctlSent: nat): State
    decreases Waiting(s.q)
  {
    var pick := Choose(s.q, ctlSent);
    if pick == Nothing then s
    else
      var t := SendOne(l, s, pick);
      if !t.ok then t.s else FlushLoop(l, t.s, if pick == Ctl then ctlSent + 1 else ctlSent)
  }

  /** `rbp_server_flush_output`. */
  function Flush(l: Limits, s: State, before: nat, after: nat): State
  {
    var s1 := FlushLoop(l, s.(port := Drain(s.port, before)), 0);
    s1.(port := Drain(s1.port, after))
  }

  // ----- events -----

  function CtlUsed(q: seq<Item>): nat
  {
    if q == [] then 0 else |q[0].payload| + CtlUsed(q[1..])
  }

  /** `ctl_enqueue`: no slot, too long or no room tears the session down. */
  function CtlEnqueue(l: Limits, s: State, header: Header, payload: seq<byte>): State
  {
    if |s.q.ctl| >= l.slots || |payload| > MAX_PAYLOAD || CtlUsed(s.q.ctl) + |payload| > l.ctlBytes then Teardown(s)
    else Pushed(s, header, payload)
  }

  function Pushed(s: State, header: Header, payload: seq<byte>): State
  {
    s.(order := s.order + 1,
       q := s.q.(ctl := s.q.ctl + [Item(header.(sessionId := s.sessionId), payload, s.order + 1)]))
  }

  /** What backend callbacks enqueue from inside a teardown: product events, never responses. */
  function Callbacks(l: Limits, s: State, calls: seq<Sent>): State
    decreases |calls|
  {
    if calls == [] then s
    else Callbacks(l, CtlEnqueue(l, s, calls[0].header.(kind := KIND_EVENT), calls[0].payload), calls[1..])
  }

  datatype Event =
    | Reply(header: Header, payload: seq<byte>)      // any response or product event
    | KeyState(header: Header, payload: seq<byte>)
    | KeysCleared
    | MediaRecord(header: Header, payload: seq<byte>)
    | MediaDiscard(keep: seq<bool>)
    | Flushed(before: nat, after: nat)
    | Drained(count: nat)
    | Lost(calls: seq<Sent>)                         // heartbeat, protocol error, exhaustion
    | Hello(calls: seq<Sent>, header: Header, payload: seq<byte>)
    | HelloMismatch(header: Header, payload: seq<byte>)
    | Goodbye(calls: seq<Sent>, header: Header)

  function Filtered(q: seq<Item>, keep: seq<bool>): seq<Item>
    decreases |q|
  {
    if q == [] || keep == [] then q
    else (if keep[0] then [q[0]] else []) + Filtered(q[1..], keep[1..])
  }

  function HelloReply(header: Header): Header
  {
    header.(kind := KIND_RESPONSE, opcode := OP_HELLO)
  }

  /** The rest of `session_create` after its teardown: a fresh identity, sequence numbers from 1. */
  function Created(s: State): State
  {
    if s.counter == U32_MAX then s
    else s.(active := true, sessionId := s.counter + 1, counter := s.counter + 1, txSeq := 1)
  }

  /** `session_create`, then the reply. */
  function OnHello(l: Limits, s: State, calls: seq<Sent>, header: Header, payload: seq<byte>): State
  {
    CtlEnqueue(l, Created(Callbacks(l, Teardown(s), calls)), HelloReply(header), payload)
  }

  /** The version mismatch reply bypasses the queues; it is dropped when it does not fit. */
  function OnMismatch(l: Limits, s: State, header: Header, payload: seq<byte>): State
  {
    if |payload| > MAX_PAYLOAD then s
    else
      var f := Sent(Complete(header.(sessionId := 0), 1, |payload|), payload);
      if |s.port.out| + |Octets(f)| > l.ring then s
      else s.(port := Committed(s.port, f))
  }

  /** GOODBYE: the ring gets its committed length back and the reply keeps the session. */
  function OnGoodbye(l: Limits, s: State, calls: seq<Sent>, header: Header): State
  {
    var s1 := Callbacks(l, Teardown(s), calls).(port := s.port);
    var s2 := CtlEnqueue(l, s1, header.(kind := KIND_RESPONSE, opcode := OP_GOODBYE), []);
    if s2.q.ctl == [] then s2
    else s2.(q := s2.q.(ctl := [s2.q.ctl[0].(header := s2.q.ctl[0].header.(sessionId := s.sessionId))] + s2.q.ctl[1..]))
  }

  function Step(l: Limits, s: State, ev: Event): State
  {
    match ev
    case Reply(h, p) => CtlEnqueue(l, s, h, p)
    case KeyState(h, p) =>
      if !s.active then s
      else s.(order := s.order + 1, q := s.q.(keys := s.q.keys + [Item(h, p, s.order + 1)]))
    case KeysCleared => s.(q := s.q.(keys := []))
    case MediaRecord(h, p) =>
      if !s.active then s
      else s.(order := s.order + 1, q := s.q.(media := s.q.media + [Item(h, p, s.order + 1)]))
    case MediaDiscard(keep) => s.(q := s.q.(media := Filtered(s.q.media, keep)))
    case Flushed(before, after) => Flush(l, s, before, after)
    case Drained(n) => s.(port := Drain(s.port, n))
    case Lost(calls) => Callbacks(l, Teardown(s), calls)
    case Hello(calls, h, p) => OnHello(l, s, calls, h, p)
    case HelloMismatch(h, p) => OnMismatch(l, s, h, p)
    case Goodbye(calls, h) => if s.active then OnGoodbye(l, s, calls, h) else s
  }

  function Run(l: Limits, s: State, evs: seq<Event>): State
    decreases |evs|
  {
    if evs == [] then s else Run(l, Step(l, s, evs[0]), evs[1..])
  }

  /** After power-up: no session has existed and the sequence number is not initialised. */
  const BOOT := State(false, 0, 0, 0, 0, Queues([], [], []), Port([], [], []))
}
