/** What every run of the voice engine keeps. */
module AtvvProof {
  import opened Bytes
  import opened Clock
  import opened Options
  import opened Atvv

  // ----- the sink's view -----

  /** Where a listener of the sink calls stands; `Wrong` when a call made no sense. */
  datatype Phase = Outside | Begun | Running | Wrong

  function Hears(p: Phase, o: Out): Phase
  {
    match o
    case SourceBegin => if p == Outside then Begun else Wrong
    case Started(_, _) => if p == Begun then Running else Wrong
    case Format(_, _) => if p == Running then Running else Wrong
    case Encoded(_) => if p == Running then Running else Wrong
    case Ended(_) => if p == Begun || p == Running then Outside else Wrong
    case _ => p
  }

  function PhaseOf(log: seq<Out>): Phase
  {
    if log == [] then Outside else Hears(PhaseOf(log[..|log| - 1]), log[|log| - 1])
  }

  lemma PhaseGrows(log: seq<Out>, o: Out)
    ensures PhaseOf(log + [o]) == Hears(PhaseOf(log), o)
  {
    assert (log + [o])[..|log|] == log;
  }

  // ----- microphone requests -----

  predicate Accepted(o: Out, w: nat)
  {
    o == MicOpen(w, true)
  }

  /** Nothing in the log was accepted for this request. */
  predicate NoneAccepted(log: seq<Out>, w: nat)
  {
    forall i :: 0 <= i < |log| ==> !Accepted(log[i], w)
  }

  predicate UpTo(log: seq<Out>, w: nat)
  {
    forall i :: 0 <= i < |log| ==> log[i].MicOpen? ==> log[i].window <= w
  }

  /** After a request was accepted it is not written again. */
  predicate NeverResent(log: seq<Out>)
  {
    forall i, j :: 0 <= i < j < |log| && log[j].MicOpen? ==> !Accepted(log[i], log[j].window)
  }

  lemma OpenGrows(log: seq<Out>, o: Out, w: nat)
    requires NeverResent(log) && UpTo(log, w)
    requires o.MicOpen? ==> o.window <= w && NoneAccepted(log, o.window)
    ensures NeverResent(log + [o]) && UpTo(log + [o], w)
    ensures NoneAccepted(log, w) && !Accepted(o, w) ==> NoneAccepted(log + [o], w)
  {
  }

  // ----- the invariant -----

  predicate MicOk(m: Mic, active: bool)
  {
    && (m.queued ==> m.pending) && (m.pending ==> !active) && (m.closeQueued ==> active)
    && (m.closing && !active ==> m.pending) && (m.queued ==> !m.closing)
  }

  predicate Framed(s: State)
  {
    s.st.active ==>
      && s.caps.Some? && 0 < s.caps.value.frameSize
      && s.st.frameNo == FrameNo(s.forwarded, s.caps.value.frameSize)
      && s.st.frameBytes == s.forwarded % s.caps.value.frameSize
  }

  predicate CapsOk(s: State)
  {
    s.caps.Some? ==> 0 < s.caps.value.frameSize <= MAX_FRAME
  }

  predicate PhaseOk(s: State)
  {
    PhaseOf(s.log) == if !s.st.active then Outside else if s.st.announced then Running else Begun
  }

  predicate Counts(s: State)
  {
    CapsOk(s) && Framed(s)
  }

  predicate Shape(s: State)
  {
    && MicOk(s.mic, s.st.active) && PhaseOk(s)
    && (s.st.ready ==> s.st.active && !s.st.failed && s.st.announced)
    && NeverResent(s.log) && UpTo(s.log, s.window) && (s.mic.queued ==> NoneAccepted(s.log, s.window))
  }

  predicate Inv(s: State)
  {
    Counts(s) && Shape(s)
  }

  // ----- pieces -----

  /** A call that neither opens the microphone nor moves the phase. */
  lemma SaidInv(s: State, o: Out)
    requires Inv(s) && (o.MicClose? || o.MicExtend? || o.Fault?)
    ensures Inv(Say(s, o))
  {
    PhaseGrows(s.log, o);
    OpenGrows(s.log, o, s.window);
  }

  lemma StopInv(s: State, e: Env)
    requires Inv(s)
    ensures Inv(RequestStop(s, e))
  {
    SaidInv(s, MicClose(s.st.id, e.write));
  }

  lemma OpenAsked(log: seq<Out>, w: nat, ok: bool)
    requires NeverResent(log) && UpTo(log, w)
    ensures var l := log + [MicOpen(w + 1, ok)];
      NeverResent(l) && UpTo(l, w + 1) && (!ok ==> NoneAccepted(l, w + 1)) && PhaseOf(l) == PhaseOf(log)
  {
    PhaseGrows(log, MicOpen(w + 1, ok));
    NewWindow(log, w);
    OpenGrows(log, MicOpen(w + 1, ok), w + 1);
  }

  lemma StartShape(s: State, e: Env)
    requires Shape(s)
    ensures Shape(RequestStart(s, e))
  {
    if MayStart(s, e) {
      OpenAsked(s.log, s.window, e.open);
      var t := RequestStart(s, e);
      assert t.log == s.log + [MicOpen(s.window + 1, e.open)];
      assert MicOk(t.mic, t.st.active);
    }
  }

  lemma StartInv(s: State, e: Env)
    requires Inv(s)
    ensures Inv(RequestStart(s, e))
  {
    StartShape(s, e);
    assert RequestStart(s, e).st == s.st;
  }

  lemma NewWindow(log: seq<Out>, w: nat)
    requires UpTo(log, w)
    ensures UpTo(log, w + 1) && NoneAccepted(log, w + 1)
  {
  }

  lemma FailedInv(s: State, reason: nat, e: Env)
    requires Inv(s)
    ensures Inv(Failed(s, reason, e))
  {
    if !s.st.failed {
      SaidInv(s, Fault(reason));
      StopInv(Say(s, Fault(reason)).(st := s.st.(failed := true, ready := false)), e);
    }
  }

  /** All but what the phase and readiness say. */
  predicate Base(s: State)
  {
    && MicOk(s.mic, s.st.active) && CapsOk(s) && Framed(s)
    && NeverResent(s.log) && UpTo(s.log, s.window) && (s.mic.queued ==> NoneAccepted(s.log, s.window))
  }

  lemma AnnouncedInv(s: State)
    requires Base(s) && PhaseOk(s) && s.st.active && !s.st.failed
    ensures Inv(Announced(s))
  {
    var o := if s.st.announced then Format(s.st.rate, s.st.config) else Started(s.st.rate, s.st.config);
    PhaseGrows(s.log, o);
    OpenGrows(s.log, o, s.window);
  }

  // ----- control -----

  lemma FreshInv(s: State, d: seq<byte>)
    requires Inv(s) && !s.st.active && StartOk(s, d)
    ensures Inv(Fresh(s, d))
  {
    PhaseGrows(s.log, SourceBegin);
    OpenGrows(s.log, SourceBegin, s.window);
  }

  lemma OnStartInv(s: State, d: seq<byte>, e: Env)
    requires Inv(s)
    ensures Inv(OnStart(s, d, e))
  {
    if s.st.active {
      FailedInv(s, END_SOURCE_DATA_LOST, e);
    } else if StartOk(s, d) {
      FreshInv(s, d);
      var f := Fresh(s, d);
      if s.seeded {
        AnnouncedInv(f.(st := f.st.(config := SEED, ready := true)));
      }
      StopInv(Seeded(f), e);
    }
  }

  lemma OnSyncInv(s: State, d: seq<byte>, e: Env)
    requires Inv(s)
    ensures Inv(OnSync(s, d, e))
  {
    FailedInv(s, END_INVALID_DATA, e);
    FailedInv(s, END_SOURCE_DATA_LOST, e);
    if s.st.active && !s.st.failed && SyncFormOk(s, d) && Big(d[2], d[3]) == s.st.frameNo && s.st.frameBytes == 0 {
      AnnouncedInv(s.(st := s.st.(config := [d[5], d[4], d[6], 0], ready := true, rate := Rate(d[1]))));
    }
  }

  lemma OnStopInv(s: State, d: seq<byte>)
    requires Inv(s)
    ensures Inv(OnStop(s, d))
  {
    if |d| == 2 && s.st.active {
      var o := Ended(if d[1] == 0 || d[1] == 2 || d[1] == 4 then END_NORMAL else END_DEVICE_ERROR);
      PhaseGrows(s.log, o);
      OpenGrows(s.log, o, s.window);
    }
  }

  lemma OnOpenErrorInv(s: State, d: seq<byte>, e: Env)
    requires Inv(s)
    ensures Inv(OnOpenError(s, d, e))
  {
    if |d| == 3 {
      if s.mic.pending && !s.st.active {
        SaidInv(s, Fault(END_DEVICE_ERROR));
      } else {
        FailedInv(s.(mic := s.mic.(pending := false, queued := false, closing := false)), END_DEVICE_ERROR, e);
      }
    }
  }

  lemma OnControlInv(s: State, d: seq<byte>, e: Env)
    requires Inv(s)
    ensures Inv(OnControl(s, d, e))
  {
    if d != [] {
      if d[0] == START {
        OnStartInv(s, d, e);
      } else if d[0] == SYNC {
        OnSyncInv(s, d, e);
      } else if d[0] == STOP {
        OnStopInv(s, d);
      } else if d[0] == START_SEARCH {
        StartInv(s, e);
      } else if d[0] == OPEN_ERROR {
        OnOpenErrorInv(s, d, e);
      }
    }
  }

  // ----- audio and time -----

  /** Counting frames octet group by octet group is the same as dividing the total. */
  lemma FrameCount(total: nat, n: nat, size: nat)
    requires size > 0
    ensures (total + n) / size == total / size + (total % size + n) / size
    ensures (total + n) % size == (total % size + n) % size
  {
    var q, r := total / size, total % size;
    var q2, r2 := (r + n) / size, (r + n) % size;
    Division(total, size);
    Division(r + n, size);
    Distribute(q, q2, size);
    Quotient(total + n, q + q2, r2, size);
  }

  lemma Division(x: nat, size: nat)
    requires size > 0
    ensures x == x / size * size + x % size
  {
  }

  lemma Distribute(a: nat, b: nat, size: nat)
    ensures (a + b) * size == a * size + b * size
  {
  }

  lemma Quotient(x: nat, q: nat, r: nat, size: nat)
    requires size > 0 && x == q * size + r && r < size
    ensures x / size == q && x % size == r
  {
    Monotone(q + 1, x / size, size);
    Monotone(x / size + 1, q, size);
  }

  lemma Monotone(a: nat, b: nat, size: nat)
    ensures a <= b ==> a * size <= b * size
  {
  }

  lemma WrappedCount(q: nat, more: nat)
    ensures (q % 0x1_0000 + more) % 0x1_0000 == (q + more) % 0x1_0000
  {
  }

  function FrameNo(total: nat, size: nat): nat
    requires size > 0
  {
    total / size % 0x1_0000
  }

  lemma CountedOn(total: nat, n: nat, size: nat)
    requires size > 0
    ensures (FrameNo(total, size) + (total % size + n) / size) % 0x1_0000 == FrameNo(total + n, size)
    ensures (total % size + n) % size == (total + n) % size
  {
    FrameCount(total, n, size);
    WrappedCount(total / size, (total % size + n) / size);
  }

  /** The octets are passed on and counted. */
  function Taken(s: State, d: seq<byte>): State
    requires s.caps.Some? && s.caps.value.frameSize > 0
  {
    var bytes, size := s.st.frameBytes + |d|, s.caps.value.frameSize;
    Say(s, Encoded(d)).(
      st := s.st.(frameNo := (s.st.frameNo + bytes / size) % 0x1_0000, frameBytes := bytes % size),
      forwarded := s.forwarded + |d|)
  }

  lemma TakenCounts(s: State, d: seq<byte>)
    requires Counts(s) && s.st.active
    ensures Counts(Taken(s, d))
  {
    CountedOn(s.forwarded, |d|, s.caps.value.frameSize);
  }

  lemma TakenShape(s: State, d: seq<byte>)
    requires Shape(s) && s.st.ready && s.caps.Some? && s.caps.value.frameSize > 0
    ensures Shape(Taken(s, d))
  {
    PhaseGrows(s.log, Encoded(d));
    OpenGrows(s.log, Encoded(d), s.window);
  }

  lemma OnAudioInv(s: State, d: seq<byte>, e: Env)
    requires Inv(s)
    ensures Inv(OnAudio(s, d, e))
  {
    FailedInv(s, END_INVALID_DATA, e);
    if s.st.active && s.st.ready && d != [] && |d| <= MAX_FRAME {
      TakenCounts(s, d);
      TakenShape(s, d);
      assert OnAudio(s, d, e) == Taken(s, d);
    }
  }

  lemma TickInv(s: State, now: u32, e: Env)
    requires Inv(s)
    ensures Inv(Tick(s, now, e))
  {
    var s1 := s.(now := now);
    SaidInv(s1, Fault(END_DEVICE_ERROR));
    var s2 := Expired(s1);
    assert Inv(s2);
    RewrittenInv(s2, e);
    KeptInv(Rewritten(s2, e), e);
  }

  lemma RewrittenInv(s: State, e: Env)
    requires Inv(s)
    ensures Inv(Rewritten(s, e))
  {
    if s.mic.queued {
      PhaseGrows(s.log, MicOpen(s.window, e.open));
      OpenGrows(s.log, MicOpen(s.window, e.open), s.window);
    }
  }

  lemma KeptInv(s: State, e: Env)
    requires Inv(s)
    ensures Inv(Kept(s, e))
  {
    FailedInv(s.(mic := s.mic.(closeQueued := false)), END_DEVICE_ERROR, e);
    StopInv(s, e);
    SaidInv(s, MicExtend(s.st.id, e.write));
  }

  lemma StepInv(s: State, ev: Ev, e: Env)
    requires Inv(s)
    ensures Inv(Step(s, ev, e))
  {
    match ev
    case Control(d) => OnControlInv(s, d, e);
    case Audio(d) => OnAudioInv(s, d, e);
    case Clock(now) => TickInv(s, now, e);
    case WantStart => StartInv(s, e);
    case WantStop => StopInv(s, e);
  }

  lemma {:induction false} RunInv(s: State, inputs: seq<Input>)
    requires Inv(s)
    ensures Inv(Run(s, inputs))
    decreases |inputs|
  {
    if inputs != [] {
      StepInv(s, inputs[0].ev, inputs[0].env);
      RunInv(Step(s, inputs[0].ev, inputs[0].env), inputs[1..]);
    }
  }

  // ----- what follows -----

  /** Over every run: the frame counter and offset are the quotient and remainder of the octets
      forwarded since START, an accepted MIC_OPEN is never written again, and the sink hears
      begin, started, data and formats, end, in that order. */
  lemma EveryRun(s: State, inputs: seq<Input>)
    requires Initial(s)
    ensures var t := Run(s, inputs);
      Framed(t) && NeverResent(t.log) && PhaseOk(t) && PhaseOf(t.log) != Wrong
  {
    assert PhaseOf(s.log) == Outside;
    RunInv(s, inputs);
  }

  /** SYNC was taken: the decoder seed and rate it names are adopted and announced, once. */
  predicate SyncTaken(t: State, u: State, d: seq<byte>)
    requires |d| == 7
  {
    && u.st == t.st.(config := [d[5], d[4], d[6], 0], ready := true, rate := Rate(d[1]), announced := true)
    && u.log == t.log + [if t.st.announced then Format(u.st.rate, u.st.config) else Started(u.st.rate, u.st.config)]
  }

  /** In every run, a well-formed SYNC is taken exactly on a whole-frame boundary of the octets
      forwarded since START that it names; otherwise the stream fails. */
  lemma SyncExactly(s: State, inputs: seq<Input>, d: seq<byte>, e: Env)
    requires Initial(s) && d != [] && d[0] == SYNC
    requires var t := Run(s, inputs); t.st.active && !t.st.failed && SyncFormOk(t, d)
    ensures Run(s, inputs).caps.value.frameSize > 0
    ensures var t := Run(s, inputs);
      var u, size := Step(t, Control(d), e), t.caps.value.frameSize;
      var named := t.forwarded % size == 0 && Big(d[2], d[3]) == t.forwarded / size % 0x1_0000;
      (SyncTaken(t, u, d) <==> named) && (u.st.failed <==> !named)
  {
    assert PhaseOf(s.log) == Outside;
    RunInv(s, inputs);
  }

  // ----- a stop asked for before START -----

  /** The microphone was asked for, and then no longer wanted. */
  predicate Unwanted(s: State)
  {
    s.mic.pending && !s.mic.queued && s.mic.closing && !s.st.active
  }

  /** The last thing done was to write MIC_CLOSE for this stream; a failed write waits to be
      repeated. */
  predicate ClosingStream(s: State)
  {
    && s.st.active && (s.mic.closing || s.mic.closeQueued)
    && s.log != [] && var last := s.log[|s.log| - 1]; last.MicClose? && last.id == s.st.id && (last.ok || s.mic.closeQueued)
  }

  /** A request not yet written is simply withdrawn; one that is out becomes unwanted. */
  lemma StopMakesUnwanted(s: State, e: Env)
    requires Inv(s) && s.mic.pending
    ensures var t := RequestStop(s, e); if s.mic.queued then !t.mic.pending && t.log == s.log else Unwanted(t)
  {
  }

  /** START for an unwanted microphone closes it in the same call. */
  lemma StartCloses(s: State, d: seq<byte>, e: Env)
    requires Inv(s) && Unwanted(s) && StartOk(s, d)
    ensures ClosingStream(OnStart(s, d, e))
  {
    var s1 := Seeded(Fresh(s, d));
    var t := OnStart(s, d, e);
    assert t.log == s1.log + [MicClose(s1.st.id, e.write)];
  }

  /** The wish is not forgotten: it stays until the request is given up or START is answered
      with MIC_CLOSE. */
  lemma UnwantedStays(s: State, ev: Ev, e: Env)
    requires Inv(s) && Unwanted(s)
    ensures var t := Step(s, ev, e);
      Unwanted(t) || (!t.mic.pending && !t.st.active) || ClosingStream(t)
  {
    match ev
    case Control(d) =>
      if d != [] && d[0] == START && StartOk(s, d) {
        StartCloses(s, d, e);
      }
    case Audio(d) =>
    case Clock(now) =>
    case WantStart =>
    case WantStop =>
  }

  /** How an unwanted request can end. */
  predicate Settled(s: State)
  {
    (!s.mic.pending && !s.st.active) || ClosingStream(s)
  }

  /** After `n` inputs the unwanted request has been settled, or all inputs are used up. */
  predicate SettledAt(s: State, inputs: seq<Input>, n: nat)
  {
    && n <= |inputs|
    && (forall k: nat :: k < n ==> Unwanted(Run(s, inputs[..k])))
    && (Settled(Run(s, inputs[..n])) || (n == |inputs| && Unwanted(Run(s, inputs[..n]))))
  }

  /** Over a run: the wish holds until the request is given up or the first START is answered
      with MIC_CLOSE. */
  lemma {:induction false} UnwantedRun(s: State, inputs: seq<Input>) returns (n: nat)
    requires Inv(s) && Unwanted(s)
    ensures SettledAt(s, inputs, n)
    decreases |inputs|
  {
    assert inputs[..0] == [];
    n := 0;
    if inputs != [] {
      var t := Step(s, inputs[0].ev, inputs[0].env);
      StepInv(s, inputs[0].ev, inputs[0].env);
      UnwantedStays(s, inputs[0].ev, inputs[0].env);
      if Unwanted(t) {
        var m := UnwantedRun(t, inputs[1..]);
        SettledLater(s, inputs, m);
        n := m + 1;
      } else {
        RunPrefix(s, inputs, 1);
        assert inputs[1..][..0] == [];
        n := 1;
      }
    }
  }

  lemma SettledLater(s: State, inputs: seq<Input>, m: nat)
    requires inputs != [] && Unwanted(s) && SettledAt(Step(s, inputs[0].ev, inputs[0].env), inputs[1..], m)
    ensures SettledAt(s, inputs, m + 1)
  {
    RunPrefix(s, inputs, m + 1);
    assert inputs[..0] == [];
    forall k: nat | k < m + 1
      ensures Unwanted(Run(s, inputs[..k]))
    {
      if k > 0 {
        RunPrefix(s, inputs, k);
      }
    }
  }

  lemma RunPrefix(s: State, inputs: seq<Input>, n: nat)
    requires 0 < n <= |inputs|
    ensures Run(s, inputs[..n]) == Run(Step(s, inputs[0].ev, inputs[0].env), inputs[1..][..n - 1])
  {
    assert inputs[..n][1..] == inputs[1..][..n - 1];
  }

  /** A stop requested before START, in any run and followed by any inputs: a request that was
      not written yet is withdrawn at once; otherwise the wish holds until the request is given
      up or the first START is answered with MIC_CLOSE. */
  lemma StopBeforeStart(s: State, before: seq<Input>, e: Env, inputs: seq<Input>) returns (n: nat)
    requires Initial(s) && Run(s, before).mic.pending
    ensures var t := Step(Run(s, before), WantStop, e);
      if Run(s, before).mic.queued then !t.mic.pending && !t.st.active else SettledAt(t, inputs, n)
  {
    assert PhaseOf(s.log) == Outside;
    RunInv(s, before);
    var p := Run(s, before);
    StopMakesUnwanted(p, e);
    StepInv(p, WantStop, e);
    n := 0;
    if !p.mic.queued {
      n := UnwantedRun(Step(p, WantStop, e), inputs);
    }
  }
}
