/** Voice delivery of the server: what the source produces, what is queued and what has been
    committed to the output, as one state and its transitions. */
module Voice {
  import opened Bytes
  import opened Options
  import opened HostAudio

  const END_NORMAL := 0
  const END_CONSUMER_DISABLED := 1
  const END_LINK_LOST := 2
  const END_BUFFER_OVERRUN := 3
  const END_INVALID_ENCODED_DATA := 4
  const END_SOURCE_DATA_LOST := 5
  const END_DEVICE_ERROR := 6
  const END_REQUESTED_STOP := 7
  const END_CAPTURE_LIMIT := 8
  const END_UNSUPPORTED_FORMAT := 9

  const DATA_HEADER := 40
  const FRAGMENT := 256

  /** A queued record, the stream its marker names and the octets it occupies. */
  datatype Queued = Queued(stream: nat, record: Record)

  function Size(r: Record): nat
  {
    match r
    case Started(f) => 87 + |f.config|
    case Reformat(f) => 87 + |f.config|
    case Data(c) => DATA_HEADER + |c.data|
    case Ended(_) => 65
  }

  function Occupied(q: seq<Queued>): nat
  {
    if q == [] then 0 else Size(q[0].record) + Occupied(q[1..])
  }

  function Records(q: seq<Queued>): (r: seq<Record>)
    ensures |r| == |q|
  {
    if q == [] then [] else [q[0].record] + Records(q[1..])
  }

  /** Fixed for a session: the negotiated terms, the adapter's capabilities, the capacities. */
  datatype Config = Config(terms: Terms, caps: Option<Terms>, depth: nat, pool: nat)
  {
    predicate Valid()
    {
      terms.maxUnit <= 65536
    }
  }

  /** A format as the adapter announces it. */
  datatype SourceFormat = SourceFormat(codec: Codec, sampleRate: nat, channels: nat, config: seq<byte>, maxUnitBytes: nat)

  /** Octets, whole units, saturating sample position and format epoch: kept once for what
      the source has produced and once for what has been committed. */
  datatype Tally = Tally(bytes: nat, units: nat, samples: nat, epoch: nat)

  /** Where the source stands inside its current unit. */
  datatype Progress = Progress(frameSeq: nat, offset: nat, unitSize: nat, unitSamples: nat, maxUnit: nat)

  /** The flags around delivery, and the clock. */
  datatype Gate = Gate(
    enabled: bool, listed: bool, waitingIdle: bool,
    sourceActive: bool, stopRequested: bool, captureLimited: bool, nowUs: u64, startedUs: u64)

  /** The media path: the current stream, what of it has been committed, what is queued, and
      every record committed so far. */
  datatype Pipe = Pipe(streamId: nat, delivered: Tally, media: seq<Queued>, committed: seq<Record>)

  datatype State = State(
    active: bool, gate: Gate, nextStreamId: nat, delivering: bool, ending: bool,
    source: Tally, progress: Progress, pipe: Pipe)

  /** How the output half answers at one point.  A call of `rbp_server_flush_output` commits up
      to `count` head records and may tear the session down; if a device state is published
      afterwards, `lost` says whether that in turn ends the session. */
  datatype Flush = Flush(count: nat, torn: bool, lost: bool)

  type Oracle = nat -> Flush

  // ----- the transitions -----

  /** The delivered counters after one more record of the current stream. */
  function Delivered(t: Tally, r: Record): Tally
  {
    match r
    case Data(c) =>
      if c.offset + |c.data| == c.unitSize then
        Tally(t.bytes + |c.data|, t.units + 1, Advance(t.samples, c.unitSamples), t.epoch)
      else t.(bytes := t.bytes + |c.data|)
    case Started(f) => t.(epoch := f.epoch)
    case Reformat(f) => t.(epoch := f.epoch)
    case Ended(_) => t
  }

  /** Is the head record the END of the current stream? */
  predicate Finishes(p: Pipe)
    requires p.media != []
  {
    p.media[0].stream == p.streamId && p.media[0].record.Ended?
  }

  function Commit(p: Pipe): Pipe
    requires p.media != []
  {
    var m := p.media[0];
    Pipe(if Finishes(p) then 0 else p.streamId,
         if m.stream == p.streamId then Delivered(p.delivered, m.record) else p.delivered,
         p.media[1..], p.committed + [m.record])
  }

  /** `media_flush_one` once the frame is in the output ring. */
  function CommitOne(s: State): State
    requires s.pipe.media != []
  {
    if Finishes(s.pipe) then s.(pipe := Commit(s.pipe), delivering := false, ending := false)
    else s.(pipe := Commit(s.pipe))
  }

  function CommitSome(s: State, n: nat): State
    decreases n
  {
    if n == 0 || s.pipe.media == [] then s else CommitSome(CommitOne(s), n - 1)
  }

  function Closed(s: State): State
  {
    s.(delivering := false, ending := false, pipe := s.pipe.(streamId := 0))
  }

  /** `session_teardown`, as far as voice is concerned. */
  function Teardown(s: State): State
  {
    s.(active := false, delivering := false, ending := false,
       pipe := s.pipe.(streamId := 0, media := []),
       gate := s.gate.(enabled := false, listed := false, waitingIdle := false, stopRequested := s.gate.sourceActive))
  }

  function FlushOutput(s: State, f: Flush): State
  {
    if !s.active then s
    else
      var s' := CommitSome(s, f.count);
      if f.torn then Teardown(s') else s'
  }

  predicate Full(c: Config, s: State, r: Record)
  {
    |s.pipe.media| >= c.depth || Occupied(s.pipe.media) + Size(r) > c.pool
  }

  datatype Try = Try(s: State, ok: bool)

  /** `media_enqueue`: a flush is attempted first when there is no room. */
  function Enqueue(c: Config, s: State, r: Record, f: Flush): Try
  {
    var s' := if Full(c, s, r) then FlushOutput(s, f) else s;
    if !s'.active || Full(c, s', r) then Try(s', false)
    else Try(s'.(pipe := Append(s'.pipe, r)), true)
  }

  function Append(p: Pipe, r: Record): Pipe
  {
    p.(media := p.media + [Queued(p.streamId, r)])
  }

  function Kept(q: seq<Queued>, stream: nat): seq<Queued>
  {
    if q == [] then []
    else (if q[0].stream == stream && !q[0].record.Started? then [] else [q[0]]) + Kept(q[1..], stream)
  }

  /** `media_discard_current`. */
  function Discarded(p: Pipe): Pipe
  {
    p.(media := Kept(p.media, p.streamId))
  }

  function EndRecord(s: State, reason: nat, t: Tally): Record
  {
    Ended(Ending(s.pipe.streamId, reason, t.bytes, s.gate.nowUs, t.units, t.samples, t.epoch))
  }

  /** `voice_finish_stream`: draining reports what the source produced; cutting discards what
      is still queued and reports what was committed. */
  function FinishStream(c: Config, s: State, reason: nat, clear: bool, f: Flush): State
  {
    if !s.delivering then s
    else if clear then CutStream(c, s, reason, f)
    else if s.progress.offset != 0 then CutStream(c, s, END_INVALID_ENCODED_DATA, f)
    else if s.ending then s
    else
      var t := Enqueue(c, s, EndRecord(s, reason, s.source), f);
      if t.ok then t.s.(ending := true) else Teardown(t.s)
  }

  function CutStream(c: Config, s: State, reason: nat, f: Flush): State
  {
    var t := Enqueue(c, s.(pipe := Discarded(s.pipe)), EndRecord(s, reason, s.pipe.delivered), f);
    if t.ok then Closed(t.s) else Teardown(t.s)
  }

  function StopSource(s: State): State
  {
    s.(gate := s.gate.(stopRequested := true))
  }

  /** `voice_fault`; publishing the device state may end the session after the flush for END
      did not. */
  function Fault(c: Config, s: State, reason: nat, f: Flush): State
  {
    var s1 := FinishStream(c, s, reason, true, f);
    var s2 := if s1.gate.sourceActive then StopSource(s1) else s1;
    if reason == END_UNSUPPORTED_FORMAT || !s.delivering then
      var s3 := s2.(gate := s2.gate.(enabled := false));
      if f.lost && s3.active then Teardown(s3) else s3
    else s2
  }

  /** `codec_accepted`. */
  predicate Accepted(c: Config, s: State, f: SourceFormat)
  {
    && 0 < f.codec.id < 0x8000_0000 && 0 < f.codec.revision <= U16_MAX
    && 1 <= f.sampleRate <= 384000 && 1 <= f.channels <= 8 && |f.config| <= 256
    && 1 <= f.maxUnitBytes && s.gate.listed && f.maxUnitBytes <= c.terms.maxUnit
    && c.caps.Some? && f.maxUnitBytes <= c.caps.value.maxUnit && f.codec in c.caps.value.accepted
    && f.codec in c.terms.accepted
  }

  function FormatOf(s: State, f: SourceFormat, epoch: nat, start: bool): Format
  {
    Format(s.pipe.streamId, epoch, f.codec, f.sampleRate, f.channels, f.config, f.maxUnitBytes,
           s.source.samples, if start then s.gate.startedUs else s.gate.nowUs,
           (s.source.units + 1) % 0x1_0000_0000)
  }

  /** `queue_format`. */
  function QueueFormat(c: Config, s: State, f: SourceFormat, start: bool, o: Oracle): Try
  {
    if !Accepted(c, s, f) then Try(Fault(c, s, END_UNSUPPORTED_FORMAT, o(0)), false)
    else if s.progress.offset != 0 || s.source.epoch == U32_MAX then Try(Fault(c, s, END_SOURCE_DATA_LOST, o(0)), false)
    else
      var epoch := if start then 1 else s.source.epoch + 1;
      var fmt := FormatOf(s, f, epoch, start);
      var t := Enqueue(c, s, if start then Started(fmt) else Reformat(fmt), o(0));
      if t.ok then Try(Adopted(t.s, epoch, f.maxUnitBytes), true) else t
  }

  function Adopted(s: State, epoch: nat, maxUnit: nat): State
  {
    s.(source := s.source.(epoch := epoch), progress := s.progress.(maxUnit := maxUnit))
  }

  /** The START case of `rbp_server_on_voice`. */
  function OnStart(c: Config, s: State, f: SourceFormat, o: Oracle): State
  {
    if !s.gate.sourceActive then Fault(c, s, END_INVALID_ENCODED_DATA, o(1))
    else if !s.gate.enabled || !s.active || s.gate.waitingIdle then StopSource(s)
    else
      var s1 := if s.delivering then FinishStream(c, s, END_BUFFER_OVERRUN, true, o(2)) else s;
      if !Accepted(c, s1, f) then Fault(c, s1, END_UNSUPPORTED_FORMAT, o(3))
      else if s1.nextStreamId == U32_MAX then Teardown(s1)
      else
        var t := QueueFormat(c, Opened(s1), f, true, o);
        if t.ok then t.s
        else Fault(c, Closed(t.s), END_BUFFER_OVERRUN, o(4))
  }

  /** A new stream identity with all its counters at zero. */
  function Opened(s: State): State
  {
    s.(nextStreamId := s.nextStreamId + 1, delivering := true, ending := false,
       source := Tally(0, 0, 0, 0), progress := s.progress.(frameSeq := 0, offset := 0),
       pipe := s.pipe.(streamId := s.nextStreamId + 1, delivered := Tally(0, 0, 0, 1)))
  }

  function OnFormatEvent(c: Config, s: State, f: SourceFormat, o: Oracle): State
  {
    if !s.delivering || s.ending then s
    else
      var t := QueueFormat(c, s, f, false, o);
      if !t.ok && t.s.delivering then Fault(c, t.s, END_BUFFER_OVERRUN, o(1)) else t.s
  }

  datatype Encoded = Encoded(unitSize: u32, offset: u32, samples: u32, data: seq<byte>)

  function FragmentOf(s: State, e: Encoded, bytes: seq<byte>): Record
  {
    Data(Fragment(s.pipe.streamId, s.progress.frameSeq + 1, s.source.epoch, s.source.units + 1, e.unitSize,
                  s.progress.offset, s.source.samples, e.samples, bytes))
  }

  /** The counters after a fragment has been queued. */
  function Counted(s: State, e: Encoded, take: nat): State
  {
    var p := s.progress.(frameSeq := s.progress.frameSeq + 1, offset := s.progress.offset + take);
    if p.offset == e.unitSize then
      s.(progress := p.(offset := 0),
         source := Tally(s.source.bytes + take, s.source.units + 1, Advance(s.source.samples, e.samples), s.source.epoch))
    else s.(progress := p, source := s.source.(bytes := s.source.bytes + take))
  }

  /** The fragment loop: at most 256 octets at a time, until the unit part is queued or the
      stream is gone. */
  function Fragments(c: Config, s: State, e: Encoded, bytes: seq<byte>, o: Oracle, k: nat): State
    decreases |bytes|
  {
    if bytes == [] || !s.delivering then s
    else if s.progress.frameSeq == U32_MAX then Fault(c, s, END_INVALID_ENCODED_DATA, o(k))
    else
      var take := if |bytes| > FRAGMENT then FRAGMENT else |bytes|;
      var t := Enqueue(c, s, FragmentOf(s, e, bytes[..take]), o(k));
      if !t.ok then Fault(c, t.s, END_BUFFER_OVERRUN, o(k + 1))
      else Fragments(c, Counted(t.s, e, take), e, bytes[take..], o, k + 1)
  }

  /** Data that does not continue the current unit, or begins one too many. */
  predicate Misplaced(s: State, e: Encoded)
  {
    || e.data == [] || e.unitSize == 0 || e.offset != s.progress.offset || e.offset + |e.data| > e.unitSize
    || (e.offset != 0 && (e.unitSize != s.progress.unitSize || e.samples != s.progress.unitSamples))
    || s.source.units == U32_MAX
  }

  function OnEncoded(c: Config, s: State, e: Encoded, o: Oracle): State
  {
    if !s.gate.sourceActive || !s.delivering || s.ending then s
    else if e.unitSize > s.progress.maxUnit then Fault(c, s, END_UNSUPPORTED_FORMAT, o(0))
    else if Misplaced(s, e) then Fault(c, s, END_INVALID_ENCODED_DATA, o(0))
    else
      Fragments(c, s.(progress := s.progress.(unitSize := e.unitSize, unitSamples := e.samples)), e, e.data, o, 0)
  }

  /** The reason reported for a normal end that the server itself had asked for. */
  function EndReason(g: Gate, reason: nat): nat
  {
    if reason != END_NORMAL then reason
    else if g.captureLimited then END_CAPTURE_LIMIT
    else if g.stopRequested then END_REQUESTED_STOP
    else END_NORMAL
  }

  function OnSourceEnd(c: Config, s: State, reason: nat, o: Oracle): State
  {
    var s1 := s.(gate := s.gate.(sourceActive := false, waitingIdle := false));
    var why := EndReason(s.gate, reason);
    FinishStream(c, s1, why, !DrainReason(why), o(0))
  }

  datatype Event =
    | SourceBegin
    | Start(format: SourceFormat)
    | Reformatted(format: SourceFormat)
    | EncodedData(unit: Encoded)
    | Faulted(reason: nat)
    | SourceEnd(reason: nat)
    | Abort(reason: nat)         // link lost, source silent, stop overdue
    | LinkGone                   // the link left READY and is down
    | Enable
    | Disable
    | VoiceReady                 // the adapter is ready again: a remembered enable resumes
    | VoiceGone                  // the adapter left its ready state
    | CaptureLimit
    | StopAsked
    | Flushed(flush: Flush)      // tick, received message, any other flush
    | SessionLost
    | Clock(us: u64)

  /** Events that only move the flags around delivery. */
  function GateStep(s: State, ev: Event): Gate
  {
    var g := s.gate;
    match ev
    case SourceBegin => g.(sourceActive := true, startedUs := g.nowUs, stopRequested := false, captureLimited := false)
    case Enable =>
      if !s.active then g
      else if g.enabled then g.(listed := true)
      else g.(listed := true, enabled := true, waitingIdle := g.sourceActive)
    case VoiceReady => if s.active && g.listed then g.(enabled := true, waitingIdle := g.sourceActive) else g
    case VoiceGone => g.(enabled := false)
    case CaptureLimit => if g.sourceActive then g.(captureLimited := true, stopRequested := true) else g
    case StopAsked => if s.delivering then g.(stopRequested := true) else g
    case LinkGone => g.(sourceActive := false, stopRequested := false, waitingIdle := false, enabled := false)
    case Disable => g.(listed := false, enabled := false, waitingIdle := false)
    case Clock(us) => g.(nowUs := us)
    case _ => g
  }

  function Step(c: Config, s: State, ev: Event, o: Oracle): State
  {
    match ev
    case Start(f) => OnStart(c, s, f, o)
    case Reformatted(f) => OnFormatEvent(c, s, f, o)
    case EncodedData(e) => OnEncoded(c, s, e, o)
    case Faulted(reason) => Fault(c, s, reason, o(0))
    case SourceEnd(reason) => OnSourceEnd(c, s, reason, o)
    case Abort(reason) => FinishStream(c, s, reason, true, o(0))
    case LinkGone =>
      var s' := FinishStream(c, s, END_LINK_LOST, true, o(0));
      s'.(gate := GateStep(s', ev))
    case Disable => FinishStream(c, s.(gate := GateStep(s, ev)), END_CONSUMER_DISABLED, true, o(0))
    case Flushed(f) => FlushOutput(s, f)
    case SessionLost => Teardown(s)
    case _ => s.(gate := GateStep(s, ev))
  }

  /** What the adapter and the rest of the server are expected to report. */
  predicate Proper(s: State, ev: Event)
  {
    match ev
    case Faulted(reason) => reason <= 9 && !DrainReason(reason)
    case SourceEnd(reason) => reason <= 9
    case Abort(reason) => reason == END_LINK_LOST || reason == END_DEVICE_ERROR
    case Reformatted(_) => s.source.units < U32_MAX
    case _ => true
  }
}
