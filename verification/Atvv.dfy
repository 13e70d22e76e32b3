/** The ATVV 1.0 voice engine: control messages, the audio stream and the microphone requests. */
module Atvv {
  import opened Bytes
  import opened Clock
  import opened Options

  const STOP := 0x00
  const START := 0x04
  const START_SEARCH := 0x08
  const SYNC := 0x0A
  const CAPS_RESP := 0x0B
  const OPEN_ERROR := 0x0C
  const ERR_BUSY := 0x0F80
  const MAX_FRAME := 512
  const OPEN_WAIT_MS := 5000

  const END_NORMAL := 0
  const END_DEVICE_ERROR := 6
  const END_SOURCE_DATA_LOST := 5
  const END_INVALID_DATA := 4

  datatype Caps = Caps(codecs: nat, interaction: nat, frameSize: nat, dle: bool)

  /** The request for the microphone: asked for, still to be written, to be closed. */
  datatype Mic = Mic(pending: bool, queued: bool, closing: bool, closeQueued: bool, deadline: u32)

  datatype Stream = Stream(
    active: bool, id: byte, frameNo: nat, frameBytes: nat, failed: bool, ready: bool,
    announced: bool, rate: nat, config: seq<byte>)

  /** What goes out: requests to the remote with the answer of the write, and sink calls. */
  datatype Out =
    | MicOpen(window: nat, ok: bool)
    | MicClose(id: byte, ok: bool)
    | MicExtend(id: byte, ok: bool)
    | SourceBegin
    | Started(rate: nat, config: seq<byte>)
    | Format(rate: nat, config: seq<byte>)
    | Encoded(data: seq<byte>)
    | Ended(reason: nat)
    | Fault(reason: nat)

  /** `window` numbers the microphone requests and `forwarded` counts the octets of the stream;
      the engine does not look at either. */
  datatype State = State(
    caps: Option<Caps>, mic: Mic, st: Stream, now: u32, lastExtend: u32, seeded: bool,
    window: nat, forwarded: nat, log: seq<Out>)

  /** Answers during one call: to a write of MIC_OPEN, to any other write, and `want_voice`. */
  datatype Env = Env(open: bool, write: bool, want: bool)

  function Say(s: State, o: Out): State
  {
    s.(log := s.log + [o])
  }

  // ----- capabilities -----

  function Big(hi: byte, lo: byte): nat
  {
    hi * 256 + lo
  }

  /** `atvv_parse_caps`. */
  function ParseCaps(d: seq<byte>): Option<Caps>
  {
    if |d| < 9 || d[0] != CAPS_RESP || d[1] != 1 || d[2] != 0 then None
    else
      var size := Big(d[5], d[6]);
      if d[3] == 0 || d[3] > 3 || (d[4] != 0 && d[4] != 1 && d[4] != 3)
         || size == 0 || size > MAX_FRAME || d[7] > 1 || d[8] != 0 then None
      else Some(Caps(d[3], d[4], size, d[7] == 1))
  }

  function Rate(codec: nat): nat
  {
    if codec == 1 then 8000 else if codec == 2 then 16000 else 0
  }

  /** `codecs & codec`, for the two codecs there are. */
  predicate Offers(c: Caps, codec: nat)
  {
    (codec == 1 && c.codecs % 2 == 1) || (codec == 2 && c.codecs / 2 % 2 == 1)
  }

  // ----- requests -----

  /** `rc003_atvv_request_stop`. */
  function RequestStop(s: State, e: Env): State
  {
    if s.mic.pending && !s.st.active then
      if s.mic.queued then s.(mic := s.mic.(queued := false, pending := false)) else s.(mic := s.mic.(closing := true))
    else if !s.st.active || s.mic.closing then s
    else
      var s1 := Say(s, MicClose(s.st.id, e.write));
      if e.write then s1.(mic := s.mic.(closing := true, closeQueued := false))
      else s1.(mic := s.mic.(closeQueued := true, deadline := if s.mic.closeQueued then s.mic.deadline else Later(s.now, 1000)))
  }

  predicate MayStart(s: State, e: Env)
  {
    s.caps.Some? && !s.st.active && !s.mic.pending && e.want
  }

  /** `rc003_atvv_request_start`. */
  function RequestStart(s: State, e: Env): State
  {
    if !MayStart(s, e) then s
    else
      Say(s, MicOpen(s.window + 1, e.open)).(
        window := s.window + 1,
        mic := s.mic.(pending := true, queued := !e.open, closing := false, deadline := Later(s.now, OPEN_WAIT_MS)))
  }

  function Failed(s: State, reason: nat, e: Env): State
  {
    if s.st.failed then s
    else RequestStop(Say(s, Fault(reason)).(st := s.st.(failed := true, ready := false)), e)
  }

  /** `announce_format`. */
  function Announced(s: State): State
  {
    if s.st.announced then Say(s, Format(s.st.rate, s.st.config))
    else Say(s, Started(s.st.rate, s.st.config)).(st := s.st.(announced := true))
  }

  // ----- control messages -----

  predicate StartOk(s: State, d: seq<byte>)
  {
    && |d| == 4 && s.caps.Some? && Rate(d[2]) != 0 && Offers(s.caps.value, d[2])
    && (d[1] == 0 || d[1] == 1 || d[1] == 3)
    && (if d[1] == 0 then d[3] == 0 else 0 < d[3] <= 0x80)
    && (d[1] != 0 ==> d[1] == s.caps.value.interaction)
  }

  const SEED: seq<byte> := [0, 0, 0, 0]

  /** A fresh stream, its microphone request answered. */
  function Fresh(s: State, d: seq<byte>): State
    requires |d| == 4
  {
    Say(s, SourceBegin).(
      st := Stream(true, d[3], 0, 0, false, false, false, Rate(d[2]), s.st.config),
      mic := s.mic.(pending := false, queued := false, closing := false, closeQueued := false),
      lastExtend := s.now, forwarded := 0)
  }

  function Seeded(s: State): State
  {
    if s.seeded then Announced(s.(st := s.st.(config := SEED, ready := true))) else s
  }

  function OnStart(s: State, d: seq<byte>, e: Env): State
  {
    if s.st.active then Failed(s, END_SOURCE_DATA_LOST, e)
    else if !StartOk(s, d) then s
    else
      var s1 := Seeded(Fresh(s, d));
      if s.mic.closing && s.mic.pending then RequestStop(s1, e) else s1
  }

  predicate SyncFormOk(s: State, d: seq<byte>)
  {
    |d| == 7 && s.caps.Some? && Rate(d[1]) != 0 && Offers(s.caps.value, d[1]) && d[6] <= 88
  }

  function OnSync(s: State, d: seq<byte>, e: Env): State
  {
    if !s.st.active || s.st.failed then s
    else if !SyncFormOk(s, d) then Failed(s, END_INVALID_DATA, e)
    else if Big(d[2], d[3]) != s.st.frameNo || s.st.frameBytes != 0 then Failed(s, END_SOURCE_DATA_LOST, e)
    else Announced(s.(st := s.st.(config := [d[5], d[4], d[6], 0], ready := true, rate := Rate(d[1]))))
  }

  function OnStop(s: State, d: seq<byte>): State
  {
    if |d| != 2 || !s.st.active then s
    else
      Say(s, Ended(if d[1] == 0 || d[1] == 2 || d[1] == 4 then END_NORMAL else END_DEVICE_ERROR)).(
        st := s.st.(active := false, ready := false),
        mic := s.mic.(closing := false, closeQueued := false))
  }

  function OnOpenError(s: State, d: seq<byte>, e: Env): State
  {
    if |d| != 3 then s
    else
      var busy := Big(d[1], d[2]) == ERR_BUSY;
      if s.mic.pending && !s.st.active then
        if busy then s.(mic := s.mic.(queued := false))
        else Say(s, Fault(END_DEVICE_ERROR)).(mic := s.mic.(queued := false, pending := false, closing := false))
      else
        var s1 := s.(mic := s.mic.(pending := false, queued := false, closing := false));
        if s.st.active && !busy then Failed(s1, END_DEVICE_ERROR, e) else s1
  }

  function OnCaps(s: State, d: seq<byte>): State
  {
    if s.st.active || ParseCaps(d).None? then s
    else s.(caps := ParseCaps(d), st := s.st.(rate := if ParseCaps(d).value.codecs >= 2 then 16000 else 8000))
  }

  /** `rc003_atvv_on_control`. */
  function OnControl(s: State, d: seq<byte>, e: Env): State
  {
    if d == [] then s
    else if d[0] == CAPS_RESP then OnCaps(s, d)
    else if d[0] == START then OnStart(s, d, e)
    else if d[0] == SYNC then OnSync(s, d, e)
    else if d[0] == STOP then OnStop(s, d)
    else if d[0] == START_SEARCH then if |d| == 1 then RequestStart(s, e) else s
    else if d[0] == OPEN_ERROR then OnOpenError(s, d, e)
    else s
  }

  // ----- audio and time -----

  /** `rc003_atvv_on_audio`. */
  function OnAudio(s: State, d: seq<byte>, e: Env): State
  {
    if !s.st.active || s.st.failed then s
    else if d == [] || |d| > MAX_FRAME || s.caps.None? || s.caps.value.frameSize == 0 || !s.st.ready then
      Failed(s, END_INVALID_DATA, e)
    else
      var bytes, size := s.st.frameBytes + |d|, s.caps.value.frameSize;
      Say(s, Encoded(d)).(
        st := s.st.(frameNo := (s.st.frameNo + bytes / size) % 0x1_0000, frameBytes := bytes % size),
        forwarded := s.forwarded + |d|)
  }

  /** A request that was not answered in time is given up. */
  function Expired(s: State): State
  {
    if s.mic.pending && Due(s.now, s.mic.deadline)
    then Say(s, Fault(END_DEVICE_ERROR)).(mic := s.mic.(pending := false, queued := false, closing := false))
    else s
  }

  /** A request that could not be written is written now. */
  function Rewritten(s: State, e: Env): State
  {
    if s.mic.queued then Say(s, MicOpen(s.window, e.open)).(mic := s.mic.(queued := !e.open)) else s
  }

  function Kept(s: State, e: Env): State
  {
    if s.mic.closeQueued then
      if Due(s.now, s.mic.deadline) then Failed(s.(mic := s.mic.(closeQueued := false)), END_DEVICE_ERROR, e)
      else RequestStop(s, e)
    else if s.st.failed && s.st.active && !s.mic.closing then RequestStop(s, e)
    else if !s.st.active || s.mic.closing || s.st.failed then s
    else if (s.now - s.lastExtend) % (U32_MAX + 1) >= 5000 then
      Say(s, MicExtend(s.st.id, e.write)).(lastExtend := if e.write then s.now else s.lastExtend)
    else s
  }

  /** `rc003_atvv_tick`. */
  function Tick(s: State, now: u32, e: Env): State
  {
    Kept(Rewritten(Expired(s.(now := now)), e), e)
  }

  // ----- runs -----

  datatype Ev = Control(d: seq<byte>) | Audio(d: seq<byte>) | Clock(now: u32) | WantStart | WantStop

  function Step(s: State, ev: Ev, e: Env): State
  {
    match ev
    case Control(d) => OnControl(s, d, e)
    case Audio(d) => OnAudio(s, d, e)
    case Clock(now) => Tick(s, now, e)
    case WantStart => RequestStart(s, e)
    case WantStop => RequestStop(s, e)
  }

  datatype Input = Input(ev: Ev, env: Env)

  function Run(s: State, inputs: seq<Input>): State
    decreases |inputs|
  {
    if inputs == [] then s else Run(Step(s, inputs[0].ev, inputs[0].env), inputs[1..])
  }

  predicate Initial(s: State)
  {
    && s.caps == None && s.mic == Mic(false, false, false, false, s.mic.deadline)
    && !s.st.active && !s.st.ready && !s.st.failed && s.log == [] && s.window == 0
  }
}
