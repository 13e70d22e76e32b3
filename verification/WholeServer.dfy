/** The server as one: the voice half calls the scheduler, the control queue and the teardown of
    the session half, and their outcome is what its own transitions go on with. */
module WholeServer {
  import opened Bytes
  import opened Frame
  import opened HostAudio
  import V = Voice
  import VP = VoiceProof
  import opened VoiceMoves
  import opened Session
  import opened WireRun

  /** What comes from outside at one point of a voice event: how many octets the transport
      takes before and after a flush, the connection of the stream, the device state to
      publish, and what the backend reports should the session be torn down. */
  datatype World = World(before: nat, after: nat, connection: u32, state: Sent, calls: seq<Sent>)

  type Worlds = nat -> World

  predicate Mild(w: World)
  {
    w.state.header.flags == 0 && NoMediaSent(w.calls)
  }

  /** `send_device_state`. */
  function Publishing(w: World): Doing
  {
    Other(Reply(w.state.header.(kind := KIND_EVENT, opcode := OP_DEVICE_STATE), w.state.payload))
  }

  // ----- what a call does to the session, and what it answers -----

  datatype Acts = Acts(f: V.Flush, ds: seq<Doing>)

  const CALM := V.Flush(0, false, false)

  /** The answer of the scheduler to a flush now. */
  function Flushing(l: Limits, t: State, before: nat, after: nat): V.Flush
  {
    V.Flush(MediaSent(l, t.(port := Drain(t.port, before)), 0), !Flush(l, t, before, after).active, false)
  }

  /** `media_enqueue`. */
  function EnqueueActs(c: V.Config, l: Limits, s: V.State, b: Both, r: Record, w: World): Acts
  {
    var f := Flushing(l, b.session, w.before, w.after);
    var s' := if V.Full(c, s, r) then V.FlushOutput(s, f) else s;
    Acts(f, (if V.Full(c, s, r) && s.active then [Other(Flushed(w.before, w.after))] else [])
            + if V.Enqueue(c, s, r, f).ok then [Queue(w.connection, s'.pipe.streamId, r)] else [])
  }

  /** An END is queued, or the session goes. */
  function EndActs(c: V.Config, l: Limits, s: V.State, b: Both, r: Record, w: World): Acts
  {
    var a := EnqueueActs(c, l, s, b, r, w);
    if V.Enqueue(c, s, r, a.f).ok then a else Acts(a.f, a.ds + [Other(Lost(w.calls))])
  }

  function CutActs(c: V.Config, l: Limits, s: V.State, b: Both, reason: nat, w: World): Acts
  {
    var d := Discard(s.pipe.streamId);
    var a := EndActs(c, l, s.(pipe := V.Discarded(s.pipe)), BothStep(l, b, d), V.EndRecord(s, reason, s.pipe.delivered), w);
    Acts(a.f, [d] + a.ds)
  }

  /** `voice_finish_stream`. */
  function FinishActs(c: V.Config, l: Limits, s: V.State, b: Both, reason: nat, clear: bool, w: World): Acts
  {
    if !s.delivering then Acts(CALM, [])
    else if clear then CutActs(c, l, s, b, reason, w)
    else if s.progress.offset != 0 then CutActs(c, l, s, b, V.END_INVALID_ENCODED_DATA, w)
    else if s.ending then Acts(CALM, [])
    else EndActs(c, l, s, b, V.EndRecord(s, reason, s.source), w)
  }

  /** `voice_fault`: the device state finds the control queue as the end of the stream left it. */
  function FaultActs(c: V.Config, l: Limits, s: V.State, b: Both, reason: nat, w: World): Acts
  {
    var a := FinishActs(c, l, s, b, reason, true, w);
    if reason == V.END_UNSUPPORTED_FORMAT || !s.delivering then
      var b1 := BothRun(l, b, a.ds);
      Acts(a.f.(lost := !BothStep(l, b1, Publishing(w)).session.active), a.ds + [Publishing(w)])
    else a
  }

  function FormatRecord(s: V.State, f: V.SourceFormat, start: bool): Record
  {
    var fmt := V.FormatOf(s, f, if start then 1 else s.source.epoch + 1, start);
    if start then Started(fmt) else Reformat(fmt)
  }

  /** `queue_format`. */
  function FormatActs(c: V.Config, l: Limits, s: V.State, b: Both, f: V.SourceFormat, start: bool, w: World): Acts
  {
    if !V.Accepted(c, s, f) then FaultActs(c, l, s, b, V.END_UNSUPPORTED_FORMAT, w)
    else if s.progress.offset != 0 || s.source.epoch == U32_MAX then FaultActs(c, l, s, b, V.END_SOURCE_DATA_LOST, w)
    else
      EnqueueActs(c, l, s, b, FormatRecord(s, f, start), w)
  }

  // ----- the answers to a whole voice event -----

  datatype Plan = Plan(o: V.Oracle, ds: seq<Doing>)

  const UNTOUCHED := Plan((k: nat) => CALM, [])

  function Single(a: Acts): Plan
  {
    Plan((k: nat) => a.f, a.ds)
  }

  /** The START case once the source is known and wanted. */
  function StartPlan(c: V.Config, l: Limits, s: V.State, b: Both, f: V.SourceFormat, ws: Worlds): Plan
  {
    var a := if s.delivering then FinishActs(c, l, s, b, V.END_BUFFER_OVERRUN, true, ws(2)) else Acts(CALM, []);
    var s1 := if s.delivering then V.FinishStream(c, s, V.END_BUFFER_OVERRUN, true, a.f) else s;
    var rest := AdmitPlan(c, l, s1, BothRun(l, b, a.ds), f, ws);
    Plan((k: nat) => if k == 2 then a.f else rest.o(k), a.ds + rest.ds)
  }

  function AdmitPlan(c: V.Config, l: Limits, s: V.State, b: Both, f: V.SourceFormat, ws: Worlds): Plan
  {
    if !V.Accepted(c, s, f) then Single(FaultActs(c, l, s, b, V.END_UNSUPPORTED_FORMAT, ws(3)))
    else if s.nextStreamId == U32_MAX then Plan((k: nat) => CALM, [Other(Lost(ws(3).calls))])
    else
      var a := FormatActs(c, l, V.Opened(s), b, f, true, ws(0));
      var t := V.QueueFormat(c, V.Opened(s), f, true, (k: nat) => a.f);
      if t.ok then Single(a)
      else
        var a2 := FaultActs(c, l, V.Closed(t.s), BothRun(l, b, a.ds), V.END_BUFFER_OVERRUN, ws(4));
        Plan((k: nat) => if k == 0 then a.f else a2.f, a.ds + a2.ds)
  }

  function FormatPlan(c: V.Config, l: Limits, s: V.State, b: Both, f: V.SourceFormat, ws: Worlds): Plan
  {
    var a := FormatActs(c, l, s, b, f, false, ws(0));
    var t := V.QueueFormat(c, s, f, false, (k: nat) => a.f);
    if !t.ok && t.s.delivering then
      var a2 := FaultActs(c, l, t.s, BothRun(l, b, a.ds), V.END_BUFFER_OVERRUN, ws(1));
      Plan((k: nat) => if k == 0 then a.f else a2.f, a.ds + a2.ds)
    else Single(a)
  }

  datatype Many = Many(fs: seq<V.Flush>, ds: seq<Doing>)

  /** The fragment loop. */
  function FragmentActs(c: V.Config, l: Limits, s: V.State, b: Both, e: V.Encoded, bytes: seq<byte>, ws: Worlds, k: nat): Many
    decreases |bytes|
  {
    if bytes == [] || !s.delivering then Many([], [])
    else if s.progress.frameSeq == U32_MAX then
      var a := FaultActs(c, l, s, b, V.END_INVALID_ENCODED_DATA, ws(k));
      Many([a.f], a.ds)
    else
      var take := if |bytes| > V.FRAGMENT then V.FRAGMENT else |bytes|;
      var r := V.FragmentOf(s, e, bytes[..take]);
      var a := EnqueueActs(c, l, s, b, r, ws(k));
      var t, b1 := V.Enqueue(c, s, r, a.f), BothRun(l, b, a.ds);
      if !t.ok then
        var a2 := FaultActs(c, l, t.s, b1, V.END_BUFFER_OVERRUN, ws(k + 1));
        Many([a.f, a2.f], a.ds + a2.ds)
      else
        var m := FragmentActs(c, l, V.Counted(t.s, e, take), b1, e, bytes[take..], ws, k + 1);
        Many([a.f] + m.fs, a.ds + m.ds)
  }

  /** The session's answers to a voice event, and what the event does to the session. */
  function StepPlan(c: V.Config, l: Limits, s: V.State, b: Both, ev: V.Event, ws: Worlds): Plan
  {
    match ev
    case Start(f) =>
      if !s.gate.sourceActive then Single(FaultActs(c, l, s, b, V.END_INVALID_ENCODED_DATA, ws(1)))
      else if !s.gate.enabled || !s.active || s.gate.waitingIdle then UNTOUCHED
      else StartPlan(c, l, s, b, f, ws)
    case Reformatted(f) =>
      if !s.delivering || s.ending then UNTOUCHED else FormatPlan(c, l, s, b, f, ws)
    case EncodedData(e) => EncodedPlan(c, l, s, b, e, ws)
    case Faulted(reason) => Single(FaultActs(c, l, s, b, reason, ws(0)))
    case SourceEnd(reason) =>
      var s1 := s.(gate := s.gate.(sourceActive := false, waitingIdle := false));
      var why := V.EndReason(s.gate, reason);
      Single(FinishActs(c, l, s1, b, why, !DrainReason(why), ws(0)))
    case Abort(reason) => Single(FinishActs(c, l, s, b, reason, true, ws(0)))
    case LinkGone => Single(FinishActs(c, l, s, b, V.END_LINK_LOST, true, ws(0)))
    case Disable => Single(FinishActs(c, l, s.(gate := V.GateStep(s, ev)), b, V.END_CONSUMER_DISABLED, true, ws(0)))
    case _ => UNTOUCHED
  }

  function EncodedPlan(c: V.Config, l: Limits, s: V.State, b: Both, e: V.Encoded, ws: Worlds): Plan
  {
    if !s.gate.sourceActive || !s.delivering || s.ending then UNTOUCHED
    else if e.unitSize > s.progress.maxUnit then Single(FaultActs(c, l, s, b, V.END_UNSUPPORTED_FORMAT, ws(0)))
    else if V.Misplaced(s, e) then Single(FaultActs(c, l, s, b, V.END_INVALID_ENCODED_DATA, ws(0)))
    else
      var m := FragmentActs(c, l, s.(progress := s.progress.(unitSize := e.unitSize, unitSamples := e.samples)), b, e, e.data, ws, 0);
      Plan((k: nat) => if k < |m.fs| then m.fs[k] else CALM, m.ds)
  }

  // ----- runs -----

  /** The voice half and the session half of one server. */
  datatype Whole = Whole(voice: V.State, session: State)

  function Halves(x: Whole): Both
  {
    Both(x.session, TapeOf(x.voice))
  }

  /** A voice event with what comes from outside meanwhile, or anything else that happens to
      the session: replies, key states, flushes, drains, HELLO, GOODBYE, loss. */
  datatype Input =
    | Spoken(ev: V.Event, ws: Worlds)
    | Traffic(what: Session.Event)

  /** A flush and the loss of the session are the session's own; other traffic keeps away from
      the media queue and opcodes. */
  ghost predicate Allowed(j: Input)
  {
    match j
    case Spoken(ev, ws) => !ev.Flushed? && !ev.SessionLost? && forall k :: Mild(ws(k))
    case Traffic(ev) => Apart(Other(ev))
  }

  /** What the voice half notices of other traffic. */
  function Noticed(l: Limits, t: State, ev: Session.Event): seq<V.Event>
  {
    if ev.Flushed? then [V.Flushed(Flushing(l, t, ev.before, ev.after))]
    else if Step(l, t, ev).active && !ev.Hello? then []
    else [V.SessionLost]
  }

  function WholeStep(c: V.Config, l: Limits, x: Whole, j: Input): Whole
  {
    match j
    case Spoken(ev, ws) =>
      var p := StepPlan(c, l, x.voice, Halves(x), ev, ws);
      Whole(V.Step(c, x.voice, ev, p.o), BothRun(l, Halves(x), p.ds).session)
    case Traffic(ev) =>
      var evs := Noticed(l, x.session, ev);
      Whole(if evs == [] then x.voice else V.Step(c, x.voice, evs[0], UNTOUCHED.o), Step(l, x.session, ev))
  }

  function Serve(c: V.Config, l: Limits, x: Whole, js: seq<Input>): Whole
    decreases |js|
  {
    if js == [] then x else Serve(c, l, WholeStep(c, l, x, js[0]), js[1..])
  }

  /** Adapter and server report only what they are expected to. */
  ghost predicate Orderly(c: V.Config, l: Limits, x: Whole, js: seq<Input>)
    decreases |js|
  {
    js != [] ==>
      && Allowed(js[0]) && (js[0].Spoken? ==> V.Proper(x.voice, js[0].ev))
      && Orderly(c, l, WholeStep(c, l, x, js[0]), js[1..])
  }
}
