/** What radio ownership guarantees over every order of events, calls and polls. */
module CentralProof {
  import opened Bytes
  import opened Central

  /** The handle is real exactly while there is a link to own. */
  predicate HandleMatches(l: Link)
  {
    l.handle != NO_HANDLE <==> l.state == Connected || l.state == Disconnecting
  }

  /** The controller's own view and the state variable agree. */
  predicate RadioMatches(l: Link, r: Radio)
  {
    match l.state
    case Idle => r == Free
    case Scan => r == Discovering
    case Resolve => r == Discovering
    case ScanStopping => r == Discovering
    case Connecting => r == Initiating
    case ConnectCancel => r == Initiating
    case Connected => r == Linked(l.handle)
    case Disconnecting => r == Linked(l.handle)
  }

  /** Requests that start something are made by an idle owner without a radio fault. */
  predicate ActOk(a: Act)
  {
    match a
    case Discover(link, faulted, _) => link.state == Idle && link.handle == NO_HANDLE && !faulted
    case Establish(link, faulted, _) => link.state == Idle && link.handle == NO_HANDLE && !faulted
    case Erase(link, faulted, _) => link.state == Idle && link.handle == NO_HANDLE && !faulted
    case _ => true
  }

  /** ... and, when the controller behaves, on a controller with nothing under way. */
  predicate ActFree(a: Act)
  {
    match a
    case Discover(_, _, radio) => radio == Free
    case Establish(_, _, radio) => radio == Free
    case Erase(_, _, radio) => radio == Free
    case _ => true
  }

  /** Immediate retries since the adapter was last seen ready. */
  function RetriesSince(log: seq<Act>): nat
  {
    if log == [] then 0
    else
      var last := log[|log| - 1];
      if last == ReadySeen then 0
      else RetriesSince(log[..|log| - 1]) + (if last == RetryNow then 1 else 0)
  }

  /** Everywhere in the log. */
  predicate RetriesBounded(log: seq<Act>)
  {
    forall n :: 0 <= n <= |log| ==> RetriesSince(log[..n]) <= EARLY_RETRY_LIMIT
  }

  predicate LogOk(log: seq<Act>)
  {
    forall i :: 0 <= i < |log| ==> ActOk(log[i])
  }

  predicate LogFree(log: seq<Act>)
  {
    forall i :: 0 <= i < |log| ==> ActFree(log[i])
  }

  predicate Inv(s: State)
  {
    && HandleMatches(s.link) && LogOk(s.log)
    && s.retry.early == RetriesSince(s.log) && RetriesBounded(s.log)
  }

  predicate InvFree(s: State)
  {
    RadioMatches(s.link, s.radio) && LogFree(s.log)
  }

  /** `honest` when the controller has reported only what it was doing. */
  predicate Owned(s: State, honest: bool)
  {
    Inv(s) && (honest ==> InvFree(s))
  }

  // ----- the log -----

  lemma LogGrows(log: seq<Act>, a: Act)
    ensures RetriesSince(log + [a]) == if a == ReadySeen then 0 else RetriesSince(log) + (if a == RetryNow then 1 else 0)
    ensures LogOk(log) && ActOk(a) ==> LogOk(log + [a])
    ensures LogFree(log) && ActFree(a) ==> LogFree(log + [a])
  {
    assert (log + [a])[..|log|] == log;
  }

  lemma BoundGrows(log: seq<Act>, a: Act)
    requires RetriesBounded(log) && RetriesSince(log + [a]) <= EARLY_RETRY_LIMIT
    ensures RetriesBounded(log + [a])
  {
    var l := log + [a];
    forall n | 0 <= n <= |l|
      ensures RetriesSince(l[..n]) <= EARLY_RETRY_LIMIT
    {
      if n <= |log| {
        assert l[..n] == log[..n];
      } else {
        assert l[..n] == l;
      }
    }
  }

  /** A request or note is added to the log. */
  function Noted(s: State, a: Act): State
  {
    s.(log := s.log + [a])
  }

  lemma NotedOwned(s: State, a: Act, honest: bool)
    requires Owned(s, honest) && a != RetryNow && a != ReadySeen
    requires ActOk(a) && (honest ==> ActFree(a))
    ensures Owned(Noted(s, a), honest)
  {
    assert s.log[..|s.log|] == s.log;
    LogGrows(s.log, a);
    BoundGrows(s.log, a);
  }

  lemma RetryNoted(s: State, at: u32, honest: bool)
    requires Owned(s, honest) && s.retry.early < EARLY_RETRY_LIMIT
    ensures Owned(Noted(s, RetryNow).(retry := s.retry.(early := s.retry.early + 1, at := at)), honest)
  {
    LogGrows(s.log, RetryNow);
    BoundGrows(s.log, RetryNow);
  }

  lemma ReadyNoted(s: State, honest: bool)
    requires Owned(s, honest)
    ensures Owned(Noted(s, ReadySeen).(retry := s.retry.(backoff := 0, early := 0)), honest)
  {
    LogGrows(s.log, ReadySeen);
    BoundGrows(s.log, ReadySeen);
  }

  // ----- steps that ask for nothing -----

  /** Nothing is noted and ownership still matches. */
  predicate Quiet(s: State, t: State)
  {
    && t.log == s.log && t.retry.early == s.retry.early && t.radio == s.radio
    && (HandleMatches(s.link) ==> HandleMatches(t.link))
    && (RadioMatches(s.link, s.radio) ==> RadioMatches(t.link, s.radio))
  }

  lemma QuietOwned(s: State, t: State, honest: bool)
    requires Quiet(s, t) && Owned(s, honest)
    ensures Owned(t, honest)
  {
  }

  lemma DisconnectQuiet(s: State, now: u32)
    ensures Quiet(s, Disconnect(s, now))
    ensures s.link.state == Idle ==> Disconnect(s, now).link.state == Idle
  {
  }

  lemma FailPairQuiet(s: State, e: Env)
    ensures Quiet(s, FailPair(s, e))
    ensures s.link.state == Idle ==> FailPair(s, e).link.state == Idle
  {
    if s.pair.pending {
      DisconnectQuiet(s.(pair := s.pair.(pending := false), rec := Recovery(e.store == 3, false, false, 0)), e.now);
    }
  }

  lemma FinishPairQuiet(s: State, e: Env)
    ensures Quiet(s, FinishPair(s, e))
  {
    FailPairQuiet(s, e);
    DisconnectQuiet(s.(pair := s.pair.(pending := false), rec := Recovery(true, false, false, 0)), e.now);
  }

  lemma PairStateQuiet(s: State, handle: u16, what: Security, ok: bool, e: Env)
    ensures Quiet(s, OnPairState(s, handle, what, ok, e))
  {
    FailPairQuiet(s, e);
    DisconnectQuiet(s.(blocked := true), e.now);
  }

  lemma PasscodeQuiet(s: State, handle: u16, inputs: bool, e: Env)
    ensures Quiet(s, OnPasscode(s, handle, inputs, e))
  {
    FailPairQuiet(s, e);
  }

  lemma StopFindQuiet(s: State, e: Env)
    ensures Quiet(s, StopFind(s, e))
  {
  }

  lemma PairReplyQuiet(s: State, e: Env)
    ensures Quiet(s, PairReply(s, e))
  {
    FailPairQuiet(s.(pair := s.pair.(passkey := false)), e);
  }

  lemma ForgetQuiet(s: State, e: Env)
    ensures Quiet(s, Forget(s, e))
  {
    DisconnectQuiet(s.(rec := Recovery(true, true, false, 0)), e.now);
  }

  lemma AdvertQuiet(s: State, hit: bool, e: Env)
    ensures Quiet(s, OnAdvert(s, hit, e))
  {
  }

  // ----- steps that ask -----

  lemma RetriedOwned(s: State, early: bool, e: Env, honest: bool)
    requires Owned(s, honest)
    ensures Owned(Retried(s, early, e), honest)
  {
    QuietOwned(s, Scheduled(s, e.now), honest);
    if s.retry.early < EARLY_RETRY_LIMIT {
      RetryNoted(s, e.now, honest);
    }
  }

  lemma BeginLinkOwned(s: State, e: Env, honest: bool)
    requires Owned(s, honest)
    ensures Owned(BeginLink(s, e), honest)
  {
    if s.link.state == Idle && !s.faulted && !s.rec.active {
      if !e.setOk {
        FailPairQuiet(Fault(WithNext(s, NoNext)), e);
        QuietOwned(s, BeginLink(s, e), honest);
      } else {
        EstablishOwned(s, e, honest);
      }
    }
  }

  lemma EstablishOwned(s: State, e: Env, honest: bool)
    requires Owned(s, honest) && s.link.state == Idle && !s.faulted && !s.rec.active && e.setOk
    ensures Owned(BeginLink(s, e), honest)
  {
    var noted := Noted(s, Establish(s.link, s.faulted, s.radio));
    NotedOwned(s, Establish(s.link, s.faulted, s.radio), honest);
    if !e.linkOk {
      var s1 := SetState(Asked(s, e.now), Idle, e.now, 0);
      FailPairQuiet(s1, e);
      assert BeginLink(s, e) == Scheduled(FailPair(s1, e), e.now);
      QuietOwned(noted, BeginLink(s, e), honest);
    }
  }

  lemma ConnectPeerOwned(s: State, e: Env, honest: bool)
    requires Owned(s, honest)
    ensures Owned(ConnectPeer(s, e), honest)
  {
    RetriedOwned(s, false, e, honest);
    if s.link.state == Idle && !s.faulted {
      NotedOwned(s, Discover(s.link, s.faulted, s.radio), honest);
      RetriedOwned(Noted(s, Discover(s.link, s.faulted, s.radio)), false, e, honest);
    }
  }

  lemma StartFindOwned(s: State, ms: nat, e: Env, honest: bool)
    requires Owned(s, honest)
    ensures Owned(StartFind(s, ms, e), honest)
  {
    if s.link.state == Idle && !s.faulted {
      NotedOwned(s.(candidates := 0), Discover(s.link, s.faulted, s.radio), honest);
    }
  }

  lemma PollRecoveryOwned(s: State, e: Env, honest: bool)
    requires Owned(s, honest)
    ensures Owned(PollRecovery(s, e), honest)
  {
    if s.link.state == Idle && !s.faulted {
      NotedOwned(s, Erase(s.link, s.faulted, s.radio), honest);
    }
  }

  lemma SupervisedQuiet(s: State, e: Env)
    ensures Quiet(s, Supervised(s, e))
  {
    FailPairQuiet(s, e);
    DisconnectQuiet(FailPair(s, e), e.now);
  }

  lemma AdvancedQuiet(s: State, e: Env)
    ensures Quiet(s, Advanced(s, e))
  {
    FinishPairQuiet(StartAdapter(s, e), e);
  }

  lemma PollConnectedOwned(s: State, e: Env, honest: bool)
    requires Owned(s, honest)
    ensures Owned(PollConnected(s, e), honest)
  {
    AdvancedQuiet(s, e);
    QuietOwned(s, Advanced(s, e), honest);
    SupervisedQuiet(Advanced(s, e), e);
    QuietOwned(Advanced(s, e), Supervised(Advanced(s, e), e), honest);
    if e.stillReady {
      ReadyNoted(Supervised(Advanced(s, e), e), honest);
    }
  }

  lemma WatchedOwned(s: State, e: Env, honest: bool)
    requires Owned(s, honest)
    ensures Owned(Watched(s, e), honest)
  {
    FailPairQuiet(Fault(s), e);
    QuietOwned(s, Watched(s, e), honest);
  }

  lemma GiveUpOwned(s: State, e: Env, honest: bool)
    requires Owned(s, honest)
    ensures Owned(Disconnect(s, e.now), honest) && Owned(Disconnect(FailPair(s, e), e.now), honest)
  {
    FailPairQuiet(s, e);
    QuietOwned(s, FailPair(s, e), honest);
    DisconnectQuiet(FailPair(s, e), e.now);
    QuietOwned(FailPair(s, e), Disconnect(FailPair(s, e), e.now), honest);
    DisconnectQuiet(s, e.now);
    QuietOwned(s, Disconnect(s, e.now), honest);
  }

  lemma PollOwned(s: State, e: Env, honest: bool)
    requires Owned(s, honest)
    ensures Owned(Poll(s, e), honest)
  {
    if !s.ready {
      QuietOwned(s, Poll(s, e), honest);
    } else {
      var s1 := Watched(s, e);
      WatchedOwned(s, e, honest);
      if s1.rec.active {
        PollRecoveryOwned(s1, e, honest);
      } else if s1.link.state == Connected {
        PollConnectedOwned(s1, e, honest);
      } else if s1.link.state == Idle {
        ConnectPeerOwned(s1, e, honest);
      } else {
        GiveUpOwned(s1, e, honest);
      }
    }
  }

  lemma PairBeginOwned(s: State, id: nat, e: Env, honest: bool)
    requires Owned(s, honest)
    ensures Owned(PairBegin(s, id, e), honest)
  {
    BeginLinkOwned(s.(pair := s.pair.(pending := true), blocked := false), e, honest);
  }

  // ----- events that end or begin something on the controller -----

  /** The controller has reported only what it was doing. */
  predicate Honest(r: Radio, ev: Ev)
  {
    match ev
    case Established(handle) => r == Initiating && handle != NO_HANDLE
    case EstablishFailed(_) => r == Initiating
    case Terminated(handle, _) => r == Linked(handle)
    case DiscoveryDone(_) => r == Discovering
    case _ => true
  }

  /** The controller never hands out the sentinel as a handle. */
  predicate Genuine(ev: Ev)
  {
    ev.Established? ==> ev.handle != NO_HANDLE
  }

  lemma EstablishedOwned(s: State, handle: u16, e: Env, honest: bool)
    requires Owned(s, honest) && handle != NO_HANDLE && (honest ==> s.radio == Initiating)
    ensures Owned(OnEstablished(s.(radio := Linked(handle)), handle, e), honest)
  {
    if s.link.handle == NO_HANDLE {
      var s0 := s.(radio := Linked(handle));
      var s1 := Attached(s0, handle, e.now);
      assert Owned(s1, honest);
      DisconnectQuiet(s1, e.now);
      DisconnectQuiet(Fault(s1), e.now);
      QuietOwned(s1, OnEstablished(s0, handle, e), honest);
    }
  }

  lemma EstablishFailedOwned(s: State, lost: bool, e: Env, honest: bool)
    requires Owned(s, honest) && (honest ==> s.radio == Initiating)
    ensures Owned(OnEstablishFailed(s.(radio := Free), lost, e), honest)
  {
    if s.link.state == Connecting || s.link.state == ConnectCancel {
      var early := s.link.state == Connecting && !s.pair.pending && lost;
      var s1 := SetState(s.(radio := Free), Idle, e.now, 0);
      assert Owned(s1, honest);
      FailPairQuiet(s1, e);
      QuietOwned(s1, FailPair(s1, e), honest);
      RetriedOwned(FailPair(s1, e), early, e, honest);
    }
  }

  lemma TerminatedOwned(s: State, handle: u16, lost: bool, e: Env, honest: bool)
    requires Owned(s, honest) && (honest ==> s.radio == Linked(handle))
    ensures Owned(OnTerminated(s.(radio := Free), handle, lost, e), honest)
  {
    if s.link.handle != NO_HANDLE && handle == s.link.handle {
      var early := s.link.state == Connected && !s.pair.pending && !s.pair.started && lost;
      var s1 := Released(s.(radio := Free), e.now);
      assert Owned(s1, honest);
      FailPairQuiet(s1, e);
      QuietOwned(s1, FailPair(s1, e), honest);
      RetriedOwned(FailPair(s1, e), early, e, honest);
    }
  }

  lemma DiscoveryDoneOwned(s: State, clean: bool, e: Env, honest: bool)
    requires Owned(s, honest) && (honest ==> s.radio == Discovering)
    ensures Owned(OnDiscoveryDone(s.(radio := Free), clean, e), honest)
  {
    var s0 := s.(radio := Free);
    if s.link.state == ScanStopping {
      ScanStoppedOwned(SetState(WithNext(s0, NoNext), Idle, e.now, 0), s.link.next, clean, e, honest);
    } else if s.link.state == Scan || s.link.state == Resolve {
      var s1 := SetState(s0, Idle, e.now, 0);
      assert Owned(s1, honest);
      RetriedOwned(s1, false, e, honest);
    }
  }

  lemma ScanStoppedOwned(s: State, next: Next, clean: bool, e: Env, honest: bool)
    requires Owned(s, honest)
    ensures Owned(OnScanStopped(s, next, clean, e), honest)
  {
    if !clean {
      FailPairQuiet(Fault(s), e);
      QuietOwned(s, FailPair(Fault(s), e), honest);
    } else {
      BeginLinkOwned(s, e, honest);
      RetriedOwned(s, false, e, honest);
    }
  }

  // ----- every run -----

  predicate QuietEvent(ev: Ev)
  {
    ev.InitDone? || ev.StartRejected? || ev.Advert? || ev.Passcode? || ev.PairState? || ev.CallStopFind?
    || ev.CallPairReply? || ev.CallPairCancel? || ev.CallDisconnect? || ev.CallForget? || ev.Notification?
  }

  lemma QuietStep(s: State, ev: Ev, e: Env)
    requires QuietEvent(ev)
    ensures Quiet(s, Step(s, ev, e))
  {
    assert s.(radio := Told(s.radio, ev)) == s;
    match ev
    case InitDone(ok) =>
    case StartRejected =>
    case Advert(hit) => AdvertQuiet(s, hit, e);
    case Passcode(handle, inputs) => PasscodeQuiet(s, handle, inputs, e);
    case PairState(handle, what, ok) => PairStateQuiet(s, handle, what, ok, e);
    case CallStopFind => StopFindQuiet(s, e);
    case CallPairReply => PairReplyQuiet(s, e);
    case CallPairCancel => FailPairQuiet(s, e);
    case CallDisconnect => DisconnectQuiet(s, e.now);
    case CallForget => ForgetQuiet(s, e);
    case Notification(handle) =>
  }

  lemma StepOwned(s: State, ev: Ev, e: Env, honest: bool)
    requires Owned(s, honest) && Genuine(ev) && (honest ==> Honest(s.radio, ev))
    ensures Owned(Step(s, ev, e), honest)
  {
    if QuietEvent(ev) {
      QuietStep(s, ev, e);
      QuietOwned(s, Step(s, ev, e), honest);
    } else {
      match ev
      case Established(handle) => EstablishedOwned(s, handle, e, honest);
      case EstablishFailed(lost) => EstablishFailedOwned(s, lost, e, honest);
      case Terminated(handle, lost) => TerminatedOwned(s, handle, lost, e, honest);
      case DiscoveryDone(clean) => DiscoveryDoneOwned(s, clean, e, honest);
      case CallStartFind(ms) => StartFindOwned(s, ms, e, honest);
      case CallPairBegin(id) => PairBeginOwned(s, id, e, honest);
      case CallConnect => ConnectPeerOwned(s, e, honest);
      case Tick => PollOwned(s, e, honest);
    }
  }

  predicate HonestRun(s: State, inputs: seq<Input>)
    decreases |inputs|
  {
    inputs == [] || (Honest(s.radio, inputs[0].ev) && HonestRun(Step(s, inputs[0].ev, inputs[0].env), inputs[1..]))
  }

  lemma {:induction false} RunOwned(s: State, inputs: seq<Input>, honest: bool)
    requires Owned(s, honest)
    requires forall i :: 0 <= i < |inputs| ==> Genuine(inputs[i].ev)
    requires honest ==> HonestRun(s, inputs)
    ensures Owned(Run(s, inputs), honest)
    decreases |inputs|
  {
    if inputs != [] {
      StepOwned(s, inputs[0].ev, inputs[0].env, honest);
      RunOwned(Step(s, inputs[0].ev, inputs[0].env), inputs[1..], honest);
    }
  }

  /** Over every order of controller events, server calls and polls: the handle is real exactly
      in the two link states; whatever starts something on the radio is asked for by an idle
      owner without a radio fault, and bonds are erased only there; and between two sightings of
      a ready adapter at most two retries are immediate. */
  lemma EveryRunOwnsTheRadio(s: State, inputs: seq<Input>)
    requires Booted(s) && forall i :: 0 <= i < |inputs| ==> Genuine(inputs[i].ev)
    ensures var t := Run(s, inputs);
      HandleMatches(t.link) && LogOk(t.log) && RetriesBounded(t.log)
  {
    RunOwned(s, inputs, false);
  }

  /** With an honest controller, moreover, the controller has nothing under way whenever it is
      asked to start something or bonds are erased: one operation at a time. */
  lemma OneOperationAtATime(s: State, inputs: seq<Input>)
    requires Booted(s) && HonestRun(s, inputs)
    ensures var t := Run(s, inputs);
      RadioMatches(t.link, t.radio) && LogFree(t.log)
  {
    HonestIsGenuine(s, inputs);
    RunOwned(s, inputs, true);
  }

  lemma {:induction false} HonestIsGenuine(s: State, inputs: seq<Input>)
    requires HonestRun(s, inputs)
    ensures forall i :: 0 <= i < |inputs| ==> Genuine(inputs[i].ev)
    decreases |inputs|
  {
    if inputs != [] {
      HonestIsGenuine(Step(s, inputs[0].ev, inputs[0].env), inputs[1..]);
      forall i | 0 <= i < |inputs|
        ensures Genuine(inputs[i].ev)
      {
        if i > 0 {
          assert inputs[i] == inputs[1..][i - 1];
        }
      }
    }
  }
}
