/** Ownership of the radio: one state variable decides what the controller may be asked for. */
module Central {
  import opened Bytes
  import opened Clock

  datatype Wc = Idle | Scan | Connecting | Connected | Resolve | ScanStopping | ConnectCancel | Disconnecting

  datatype Next = NoNext | NextPair | NextReconnect

  const NO_HANDLE := 0xFFFE
  const CANCEL_TIMEOUT_MS := 5000
  const EARLY_RETRY_LIMIT := 2
  const MAX_CAND := 8

  datatype Link = Link(state: Wc, handle: u16, next: Next, deadline: u32)

  datatype Pairing = Pairing(pending: bool, bonded: bool, passkey: bool, started: bool)

  datatype Recovery = Recovery(active: bool, report: bool, erased: bool, deadline: u32)

  datatype Retry = Retry(backoff: nat, early: nat, at: u32)

  /** What the controller has under way, as its own events tell it. */
  datatype Radio = Free | Discovering | Initiating | Linked(handle: u16)

  /** What the module asked for or noted, with the state it was in. */
  datatype Act =
    | Discover(link: Link, faulted: bool, radio: Radio)
    | Establish(link: Link, faulted: bool, radio: Radio)
    | Erase(link: Link, faulted: bool, radio: Radio)
    | RetryNow
    | ReadySeen

  datatype State = State(
    link: Link, pair: Pairing, rec: Recovery, retry: Retry,
    ready: bool, faulted: bool, blocked: bool, candidates: nat, radio: Radio, log: seq<Act>)

  /** Answers of the SDK, the journal, the adapter and the server during one step. */
  datatype Env = Env(
    now: u32, store: byte, setOk: bool, discoverOk: bool, linkOk: bool, identityOk: bool,
    journalOk: bool, replyOk: bool, eraseOk: bool, noBonds: bool, encrypted: bool,
    adapterReady: bool, stillReady: bool, savedOk: bool, wantReconnect: bool)

  // ----- shared pieces -----

  function SetState(s: State, state: Wc, now: u32, ms: nat): State
  {
    s.(link := s.link.(state := state, deadline := Later(now, ms)))
  }

  function WithNext(s: State, next: Next): State
  {
    s.(link := s.link.(next := next))
  }

  function Delay(backoff: nat): nat
  {
    if backoff == 0 then 1000 else if backoff == 1 then 2000 else 5000
  }

  /** `reconnect_schedule`. */
  function Scheduled(s: State, now: u32): State
  {
    s.(retry := s.retry.(at := Later(now, Delay(s.retry.backoff)), backoff := if s.retry.backoff < 2 then s.retry.backoff + 1 else 2))
  }

  /** `radio_fault`; it is never taken back. */
  function Fault(s: State): State
  {
    WithNext(s, NoNext).(faulted := true)
  }

  /** `disconnected_retry`: a link that failed to establish may be retried at once, twice. */
  function Retried(s: State, early: bool, e: Env): State
  {
    if early && !s.faulted && !s.blocked && !s.rec.active && e.store == 1 && s.retry.early < EARLY_RETRY_LIMIT then
      s.(retry := s.retry.(early := s.retry.early + 1, at := e.now), log := s.log + [RetryNow])
    else Scheduled(s, e.now)
  }

  /** `stop_scan`. */
  function StopScan(s: State, now: u32): State
  {
    if s.link.state == ScanStopping then s else SetState(s, ScanStopping, now, CANCEL_TIMEOUT_MS)
  }

  /** `rb_disconnect`. */
  function Disconnect(s: State, now: u32): State
  {
    var s1 := WithNext(s, NoNext).(pair := s.pair.(passkey := false));
    match s.link.state
    case Scan => StopScan(s1, now)
    case Resolve => StopScan(s1, now)
    case Connecting => SetState(s1, ConnectCancel, now, CANCEL_TIMEOUT_MS)
    case Connected => SetState(s1, Disconnecting, now, CANCEL_TIMEOUT_MS)
    case _ => s1
  }

  /** `fail_pair`. */
  function FailPair(s: State, e: Env): State
  {
    if !s.pair.pending then s
    else Disconnect(s.(pair := s.pair.(pending := false), rec := Recovery(e.store == 3, false, false, 0)), e.now)
  }

  /** The link is asked for ... */
  function Asked(s: State, now: u32): State
  {
    SetState(WithNext(s, NoNext), Connecting, now, 20000)
    .(pair := s.pair.(started := false, bonded := false, passkey := false),
      log := s.log + [Establish(s.link, s.faulted, s.radio)])
  }

  /** ... and the request is accepted or not. */
  function Answered(s: State, e: Env): State
  {
    if e.linkOk then s.(radio := Initiating) else Scheduled(FailPair(SetState(s, Idle, e.now, 0), e), e.now)
  }

  /** `begin_link`. */
  function BeginLink(s: State, e: Env): State
  {
    if s.link.state != Idle || s.faulted || s.rec.active then s
    else if !e.setOk then FailPair(Fault(WithNext(s, NoNext)), e)
    else Answered(Asked(s, e.now), e)
  }

  // ----- controller events -----

  function OnInitDone(s: State, ok: bool, e: Env): State
  {
    if ok && e.setOk then s.(ready := true) else Fault(s.(ready := false))
  }

  predicate Wanted(s: State)
  {
    s.link.state == Connecting && !s.rec.active && !s.faulted && !s.blocked
  }

  function Attached(s: State, handle: u16, now: u32): State
  {
    SetState(s.(link := s.link.(handle := handle)), Connected, now, if s.pair.pending then 60000 else 30000)
    .(pair := s.pair.(started := false))
  }

  function Released(s: State, now: u32): State
  {
    SetState(s.(link := s.link.(handle := NO_HANDLE)), Idle, now, 0).(pair := s.pair.(started := false, passkey := false))
  }

  /** GAP_LINK_ESTABLISHED_EVENT. */
  function OnEstablished(s: State, handle: u16, e: Env): State
  {
    if s.link.handle != NO_HANDLE then s
    else
      var s1 := Attached(s, handle, e.now);
      if !Wanted(s) then Disconnect(s1, e.now)
      else if !s.pair.pending && !e.setOk then Disconnect(Fault(s1), e.now)
      else s1
  }

  function OnEstablishFailed(s: State, lost: bool, e: Env): State
  {
    if s.link.state == Connecting || s.link.state == ConnectCancel then
      var early := s.link.state == Connecting && !s.pair.pending && lost;
      Retried(FailPair(SetState(s, Idle, e.now, 0), e), early, e)
    else s
  }

  function OnTerminated(s: State, handle: u16, lost: bool, e: Env): State
  {
    if s.link.handle == NO_HANDLE || handle != s.link.handle then s
    else
      var early := s.link.state == Connected && !s.pair.pending && !s.pair.started && lost;
      Retried(FailPair(Released(s, e.now), e), early, e)
  }

  /** An advertisement: of the bonded peer while resolving, of a candidate while scanning. */
  function OnAdvert(s: State, hit: bool, e: Env): State
  {
    if s.link.state == Resolve then
      if s.faulted || !hit then s else StopScan(WithNext(s, NextReconnect), e.now)
    else if s.link.state == Scan && hit && s.candidates < MAX_CAND then s.(candidates := s.candidates + 1)
    else s
  }

  /** The radio is free again: the link that was waiting for it may begin. */
  function OnScanStopped(s: State, next: Next, clean: bool, e: Env): State
  {
    if !clean then FailPair(Fault(s), e)
    else if next != NoNext && !s.faulted && !s.rec.active then BeginLink(s, e)
    else Retried(s, false, e)
  }

  function OnDiscoveryDone(s: State, clean: bool, e: Env): State
  {
    match s.link.state
    case ScanStopping => OnScanStopped(SetState(WithNext(s, NoNext), Idle, e.now, 0), s.link.next, clean, e)
    case Scan => SetState(s, Idle, e.now, 0)
    case Resolve => Retried(SetState(s, Idle, e.now, 0), false, e)
    case _ => s
  }

  function OnPasscode(s: State, handle: u16, inputs: bool, e: Env): State
  {
    if handle != s.link.handle || s.link.state != Connected || !s.pair.pending then s
    else if inputs then s.(pair := s.pair.(passkey := true))
    else if e.replyOk then s
    else FailPair(s, e)
  }

  datatype Security = Started | Complete | Bonded | BondSaved

  function Block(s: State, now: u32): State
  {
    Disconnect(s.(blocked := true), now)
  }

  function OnPairState(s: State, handle: u16, what: Security, ok: bool, e: Env): State
  {
    if what == Started && !s.pair.pending
       && (s.link.state == Connecting || (s.link.state == Connected && handle == s.link.handle)) then Block(s, e.now)
    else if handle != s.link.handle || s.link.state != Connected then s
    else
      match what
      case Started => s
      case Complete => if ok then s else if s.pair.pending then FailPair(s, e) else Block(s, e.now)
      case Bonded => if !ok && !s.pair.pending then Block(s, e.now) else s
      case BondSaved =>
        if !s.pair.pending then s
        else if ok then s.(pair := s.pair.(bonded := true))
        else FailPair(s, e)
  }

  // ----- calls from the server -----

  function StartFind(s: State, ms: nat, e: Env): State
  {
    if !s.ready || s.faulted || s.rec.active || s.link.state != Idle then s
    else
      var s1 := s.(candidates := 0);
      if !e.setOk then s1
      else
        var s2 := s1.(log := s1.log + [Discover(s.link, s.faulted, s.radio)]);
        var ticks := if ms * 8 / 5 > 65535 then 65535 else ms * 8 / 5;
        if e.discoverOk then SetState(s2, Scan, e.now, ticks * 5 / 8 + CANCEL_TIMEOUT_MS).(radio := Discovering) else s2
  }

  function StopFind(s: State, e: Env): State
  {
    if s.link.state == Scan then StopScan(WithNext(s, NoNext), e.now) else s
  }

  function PairBegin(s: State, id: nat, e: Env): State
  {
    if !s.ready || s.faulted || s.rec.active || (s.link.state != Idle && s.link.state != ScanStopping)
       || id == 0 || id > s.candidates || !e.noBonds || !e.journalOk then s
    else
      var s1 := s.(pair := s.pair.(pending := true), blocked := false);
      if s.link.state == ScanStopping then WithNext(s1, NextPair) else BeginLink(s1, e)
  }

  function PairReply(s: State, e: Env): State
  {
    if !s.pair.pending || s.link.state != Connected || !s.pair.passkey then s
    else
      var s1 := s.(pair := s.pair.(passkey := false));
      if e.replyOk then s1 else FailPair(s1, e)
  }

  function Forget(s: State, e: Env): State
  {
    if !e.journalOk then s else Disconnect(s.(rec := Recovery(true, true, false, 0)), e.now)
  }

  /** `rb_connect_peer`. */
  function ConnectPeer(s: State, e: Env): State
  {
    if !s.ready || s.faulted || s.blocked || s.rec.active || s.link.state != Idle then s
    else if !e.identityOk then s.(blocked := true)
    else if !e.setOk then Retried(s, false, e)
    else
      var s1 := s.(log := s.log + [Discover(s.link, s.faulted, s.radio)]);
      if e.discoverOk then SetState(s1, Resolve, e.now, 0).(radio := Discovering) else Retried(s1, false, e)
  }

  /** `start_encrypted_adapter`. */
  function StartAdapter(s: State, e: Env): State
  {
    if s.link.state == Connected && !s.pair.started && !s.faulted && !s.blocked && e.encrypted
    then s.(pair := s.pair.(started := true)) else s
  }

  // ----- poll -----

  function FinishPair(s: State, e: Env): State
  {
    if !e.identityOk then FailPair(s, e)
    else
      var s1 := s.(pair := s.pair.(pending := false));
      if e.savedOk then s1 else Disconnect(s1.(rec := Recovery(true, false, false, 0)), e.now)
  }

  predicate Cancelling(w: Wc)
  {
    w == ScanStopping || w == ConnectCancel || w == Disconnecting
  }

  /** A bond transaction is rolled back only on an idle radio that is not at fault. */
  function PollRecovery(s: State, e: Env): State
  {
    if s.faulted then s.(rec := s.rec.(active := false))
    else if s.link.state != Idle then s
    else
      var s1 := if s.rec.deadline == 0 then s.(rec := s.rec.(deadline := Later(e.now, 5000))) else s;
      if Due(e.now, s1.rec.deadline) then s1.(rec := s1.rec.(active := false))
      else if !s1.rec.erased then
        var s2 := s1.(log := s1.log + [Erase(s1.link, s1.faulted, s1.radio)]);
        if e.eraseOk then s2.(rec := s2.rec.(erased := true)) else s2
      else if !e.noBonds then s1
      else s1.(rec := s1.rec.(active := false), blocked := false)
  }

  /** A link that is not encrypted, or not bonded while pairing, by its deadline is given up. */
  function Supervised(s: State, e: Env): State
  {
    if (!s.pair.started || (s.pair.pending && !s.pair.bonded)) && Due(e.now, s.link.deadline)
    then Disconnect(FailPair(s, e), e.now) else s
  }

  function Advanced(s: State, e: Env): State
  {
    var s1 := StartAdapter(s, e);
    if s1.pair.pending && s1.pair.bonded && e.adapterReady then FinishPair(s1, e) else s1
  }

  function PollConnected(s: State, e: Env): State
  {
    var s3 := Supervised(Advanced(s, e), e);
    if e.stillReady then s3.(retry := s3.retry.(backoff := 0, early := 0), log := s3.log + [ReadySeen]) else s3
  }

  /** Waiting for the end of a cancelled operation has a limit. */
  function Watched(s: State, e: Env): State
  {
    if !s.faulted && Cancelling(s.link.state) && Due(e.now, s.link.deadline) then FailPair(Fault(s), e) else s
  }

  function PollIdleOrLink(s: State, e: Env): State
  {
    if s.link.state == Connected then PollConnected(s, e)
    else if s.link.state == Scan && Due(e.now, s.link.deadline) then Disconnect(s, e.now)
    else if s.link.state == Connecting && Due(e.now, s.link.deadline) then Disconnect(FailPair(s, e), e.now)
    else if s.link.state == Idle && !s.blocked && e.wantReconnect && Due(e.now, s.retry.at) then ConnectPeer(s, e)
    else s
  }

  function Poll(s: State, e: Env): State
  {
    if !s.ready then if !s.faulted && Due(e.now, s.link.deadline) then Fault(s) else s
    else
      var s1 := Watched(s, e);
      if s1.rec.active then PollRecovery(s1, e)
      else if s1.faulted then s1
      else PollIdleOrLink(s1, e)
  }

  // ----- events -----

  datatype Ev =
    | InitDone(ok: bool)
    | StartRejected
    | Established(handle: u16)
    | EstablishFailed(lost: bool)
    | Terminated(handle: u16, lost: bool)
    | Advert(hit: bool)
    | DiscoveryDone(clean: bool)
    | Passcode(handle: u16, inputs: bool)
    | PairState(handle: u16, what: Security, ok: bool)
    | CallStartFind(ms: nat)
    | CallStopFind
    | CallPairBegin(id: nat)
    | CallPairReply
    | CallPairCancel
    | CallDisconnect
    | CallForget
    | CallConnect
    | Notification(handle: u16)
    | Tick

  /** What an event says about the controller. */
  function Told(r: Radio, ev: Ev): Radio
  {
    match ev
    case Established(handle) => Linked(handle)
    case EstablishFailed(_) => Free
    case Terminated(_, _) => Free
    case DiscoveryDone(_) => Free
    case _ => r
  }

  function Handle(s: State, ev: Ev, e: Env): State
  {
    match ev
    case InitDone(ok) => OnInitDone(s, ok, e)
    case StartRejected => if s.faulted then s else Fault(s)
    case Established(handle) => OnEstablished(s, handle, e)
    case EstablishFailed(lost) => OnEstablishFailed(s, lost, e)
    case Terminated(handle, lost) => OnTerminated(s, handle, lost, e)
    case Advert(hit) => OnAdvert(s, hit, e)
    case DiscoveryDone(clean) => OnDiscoveryDone(s, clean, e)
    case Passcode(handle, inputs) => OnPasscode(s, handle, inputs, e)
    case PairState(handle, what, ok) => OnPairState(s, handle, what, ok, e)
    case CallStartFind(ms) => StartFind(s, ms, e)
    case CallStopFind => StopFind(s, e)
    case CallPairBegin(id) => PairBegin(s, id, e)
    case CallPairReply => PairReply(s, e)
    case CallPairCancel => FailPair(s, e)
    case CallDisconnect => Disconnect(s, e.now)
    case CallForget => Forget(s, e)
    case CallConnect => ConnectPeer(s, e)
    case Notification(handle) => if handle == s.link.handle then StartAdapter(s, e) else s
    case Tick => Poll(s, e)
  }

  function Step(s: State, ev: Ev, e: Env): State
  {
    Handle(s.(radio := Told(s.radio, ev)), ev, e)
  }

  datatype Input = Input(ev: Ev, env: Env)

  function Run(s: State, inputs: seq<Input>): State
    decreases |inputs|
  {
    if inputs == [] then s else Run(Step(s, inputs[0].ev, inputs[0].env), inputs[1..])
  }

  /** After `wch_central_init`. */
  predicate Booted(s: State)
  {
    && s.link.state == Idle && s.link.handle == NO_HANDLE && s.link.next == NoNext
    && s.retry.early == 0 && s.radio == Free && s.log == [] && !s.ready
  }
}
