/** Over every run of the whole server its voice half makes a run of the voice model, its session
    half a run of the session model, and the client hears what the voice half committed. */
module WholeRun {
  import opened Bytes
  import opened Options
  import opened HostAudio
  import V = Voice
  import VP = VoiceProof
  import opened VoiceMoves
  import opened Session
  import opened SessionProof
  import opened EndToEnd
  import opened WireRun
  import opened WholeServer
  import opened ClientWire
  import R = Receiver

  // ----- rows of doings -----

  lemma OneDoing(l: Limits, b: Both, d: Doing)
    ensures BothRun(l, b, [d]) == BothStep(l, b, d)
  {
    assert [d][1..] == [];
  }

  lemma {:induction false} BothConcat(l: Limits, b: Both, x: seq<Doing>, y: seq<Doing>)
    ensures BothRun(l, b, x + y) == BothRun(l, BothRun(l, b, x), y)
    decreases |x|
  {
    if x == [] {
      assert x + y == y;
    } else {
      assert (x + y)[1..] == x[1..] + y;
      BothConcat(l, BothStep(l, b, x[0]), x[1..], y);
    }
  }

  lemma OneMore(l: Limits, b: Both, ds: seq<Doing>, d: Doing)
    ensures BothRun(l, b, ds + [d]) == BothStep(l, BothRun(l, b, ds), d)
  {
    BothConcat(l, b, ds, [d]);
    OneDoing(l, BothRun(l, b, ds), d);
  }

  lemma OneFirst(l: Limits, b: Both, d: Doing, ds: seq<Doing>)
    ensures BothRun(l, b, [d] + ds) == BothRun(l, BothStep(l, b, d), ds)
  {
    BothConcat(l, b, [d], ds);
    OneDoing(l, b, d);
  }

  /** A dead session has no media queued. */
  predicate Buried(tape: Tape)
  {
    !tape.live ==> tape.media == []
  }

  /** Both halves speak of the same media path. */
  predicate Joined(s: V.State, b: Both)
  {
    b.tape == TapeOf(s) && Buried(b.tape)
  }

  // ----- each call -----

  /** A flush on the voice side alone. */
  lemma FlushTape(s: V.State, f: V.Flush)
    requires Buried(TapeOf(s))
    ensures TapeOf(V.FlushOutput(s, f)) == Over(Play(TapeOf(s), Take(f.count)), !s.active || !f.torn)
    ensures Buried(TapeOf(V.FlushOutput(s, f)))
  {
    if s.active {
      CommitSomeTape(s, f.count);
    }
  }

  lemma FlushJoins(l: Limits, s: V.State, b: Both, before: nat, after: nat)
    requires Joined(s, b)
    ensures Joined(V.FlushOutput(s, Flushing(l, b.session, before, after)), BothStep(l, b, Other(Flushed(before, after))))
  {
    var f := Flushing(l, b.session, before, after);
    FlushTape(s, f);
    FlushTakes(l, b.session, b.tape, before, after);
    assert BothStep(l, b, Other(Flushed(before, after))).tape == Over(Play(b.tape, Take(f.count)), !f.torn);
  }

  lemma QueueJoins(l: Limits, s: V.State, b: Both, k: u32, r: Record)
    requires Joined(s, b) && s.active
    ensures Joined(s.(pipe := V.Append(s.pipe, r)), BothStep(l, b, Queue(k, s.pipe.streamId, r)))
  {
    var m := Put(V.Queued(s.pipe.streamId, r));
    assert [m][1..] == [] && PlayAll(b.tape, [m]) == Play(b.tape, m);
  }

  lemma EnqueueJoins(c: V.Config, l: Limits, s: V.State, b: Both, r: Record, w: World)
    requires Joined(s, b)
    ensures var a := EnqueueActs(c, l, s, b, r, w); Joined(V.Enqueue(c, s, r, a.f).s, BothRun(l, b, a.ds))
  {
    var f := Flushing(l, b.session, w.before, w.after);
    var room := V.Full(c, s, r) && s.active;
    var d := Other(Flushed(w.before, w.after));
    var s1 := if room then V.FlushOutput(s, f) else s;
    var b1 := if room then BothStep(l, b, d) else b;
    var first: seq<Doing> := if room then [d] else [];
    OneDoing(l, b, d);
    assert BothRun(l, b, first) == b1;
    FlushJoins(l, s, b, w.before, w.after);
    assert Joined(s1, b1);
    if V.Enqueue(c, s, r, f).ok {
      var q := Queue(w.connection, s1.pipe.streamId, r);
      QueueJoins(l, s1, b1, w.connection, r);
      OneMore(l, b, first, q);
    } else {
      assert first + [] == first;
    }
  }

  lemma LostJoins(l: Limits, s: V.State, b: Both, calls: seq<Sent>)
    requires Joined(s, b)
    ensures Joined(V.Teardown(s), BothStep(l, b, Other(Lost(calls))))
  {
    StaysDown(l, Teardown(b.session), calls);
    QuietMoves(l, b, Lost(calls));
  }

  lemma EndJoins(c: V.Config, l: Limits, s: V.State, b: Both, r: Record, w: World)
    requires Joined(s, b)
    ensures var a := EndActs(c, l, s, b, r, w);
      var t := V.Enqueue(c, s, r, a.f);
      Joined(if t.ok then t.s else V.Teardown(t.s), BothRun(l, b, a.ds))
  {
    var a := EnqueueActs(c, l, s, b, r, w);
    var t := V.Enqueue(c, s, r, a.f);
    EnqueueJoins(c, l, s, b, r, w);
    if !t.ok {
      LostJoins(l, t.s, BothRun(l, b, a.ds), w.calls);
      OneMore(l, b, a.ds, Other(Lost(w.calls)));
    }
  }

  lemma DiscardJoins(l: Limits, s: V.State, b: Both)
    requires Joined(s, b)
    ensures Joined(s.(pipe := V.Discarded(s.pipe)), BothStep(l, b, Discard(s.pipe.streamId)))
  {
    var m := Drop(s.pipe.streamId);
    assert [m][1..] == [] && PlayAll(b.tape, [m]) == Play(b.tape, m);
  }

  lemma CutJoins(c: V.Config, l: Limits, s: V.State, b: Both, reason: nat, w: World)
    requires Joined(s, b)
    ensures var a := CutActs(c, l, s, b, reason, w); Joined(V.CutStream(c, s, reason, a.f), BothRun(l, b, a.ds))
  {
    var d := Discard(s.pipe.streamId);
    var s1, b1, r := s.(pipe := V.Discarded(s.pipe)), BothStep(l, b, d), V.EndRecord(s, reason, s.pipe.delivered);
    DiscardJoins(l, s, b);
    EndJoins(c, l, s1, b1, r, w);
    OneFirst(l, b, d, EndActs(c, l, s1, b1, r, w).ds);
  }

  lemma FinishJoins(c: V.Config, l: Limits, s: V.State, b: Both, reason: nat, clear: bool, w: World)
    requires Joined(s, b)
    ensures var a := FinishActs(c, l, s, b, reason, clear, w);
      Joined(V.FinishStream(c, s, reason, clear, a.f), BothRun(l, b, a.ds))
  {
    if s.delivering {
      if clear {
        CutJoins(c, l, s, b, reason, w);
      } else if s.progress.offset != 0 {
        CutJoins(c, l, s, b, V.END_INVALID_ENCODED_DATA, w);
      } else if !s.ending {
        EndJoins(c, l, s, b, V.EndRecord(s, reason, s.source), w);
      }
    }
  }

  /** Publishing the device state ends the session exactly when the answer says so. */
  lemma PublishJoins(l: Limits, s: V.State, b: Both, w: World)
    requires Joined(s, b)
    ensures var b' := BothStep(l, b, Publishing(w));
      Joined(if !b'.session.active && s.active then V.Teardown(s) else s, b')
  {
    QuietMoves(l, b, Publishing(w).ev);
  }

  /** Which answer a finishing stream looks at. */
  lemma LostUnread(c: V.Config, s: V.State, reason: nat, f: V.Flush, lost: bool)
    ensures V.FinishStream(c, s, reason, true, f.(lost := lost)) == V.FinishStream(c, s, reason, true, f)
  {
  }

  lemma FaultJoins(c: V.Config, l: Limits, s: V.State, b: Both, reason: nat, w: World)
    requires Joined(s, b)
    ensures var a := FaultActs(c, l, s, b, reason, w); Joined(V.Fault(c, s, reason, a.f), BothRun(l, b, a.ds))
  {
    var a := FinishActs(c, l, s, b, reason, true, w);
    var s1, b1 := V.FinishStream(c, s, reason, true, a.f), BothRun(l, b, a.ds);
    FinishJoins(c, l, s, b, reason, true, w);
    if reason == V.END_UNSUPPORTED_FORMAT || !s.delivering {
      var s2 := if s1.gate.sourceActive then V.StopSource(s1) else s1;
      var s3 := s2.(gate := s2.gate.(enabled := false));
      LostUnread(c, s, reason, a.f, !BothStep(l, b1, Publishing(w)).session.active);
      PublishJoins(l, s3, b1, w);
      OneMore(l, b, a.ds, Publishing(w));
    }
  }

  predicate Unfit(c: V.Config, s: V.State, f: V.SourceFormat)
  {
    !V.Accepted(c, s, f) || s.progress.offset != 0 || s.source.epoch == U32_MAX
  }

  lemma FormatTape(c: V.Config, s: V.State, f: V.SourceFormat, start: bool, o: V.Oracle)
    requires !Unfit(c, s, f)
    ensures TapeOf(V.QueueFormat(c, s, f, start, o).s) == TapeOf(V.Enqueue(c, s, FormatRecord(s, f, start), o(0)).s)
  {
  }

  lemma UnfitJoins(c: V.Config, l: Limits, s: V.State, b: Both, f: V.SourceFormat, start: bool, w: World, o: V.Oracle)
    requires Joined(s, b) && Unfit(c, s, f) && o(0) == FormatActs(c, l, s, b, f, start, w).f
    ensures Joined(V.QueueFormat(c, s, f, start, o).s, BothRun(l, b, FormatActs(c, l, s, b, f, start, w).ds))
  {
    FaultJoins(c, l, s, b, if V.Accepted(c, s, f) then V.END_SOURCE_DATA_LOST else V.END_UNSUPPORTED_FORMAT, w);
  }

  lemma FormatJoins(c: V.Config, l: Limits, s: V.State, b: Both, f: V.SourceFormat, start: bool, w: World, o: V.Oracle)
    requires Joined(s, b) && o(0) == FormatActs(c, l, s, b, f, start, w).f
    ensures Joined(V.QueueFormat(c, s, f, start, o).s, BothRun(l, b, FormatActs(c, l, s, b, f, start, w).ds))
  {
    if Unfit(c, s, f) {
      UnfitJoins(c, l, s, b, f, start, w, o);
    } else {
      FormatTape(c, s, f, start, o);
      EnqueueJoins(c, l, s, b, FormatRecord(s, f, start), w);
    }
  }

  /** `queue_format` asks once. */
  lemma FirstAnswer(c: V.Config, s: V.State, f: V.SourceFormat, start: bool, o: V.Oracle, o': V.Oracle)
    requires o(0) == o'(0)
    ensures V.QueueFormat(c, s, f, start, o) == V.QueueFormat(c, s, f, start, o')
  {
  }

  // ----- each event -----

  lemma AdmitJoins(c: V.Config, l: Limits, s: V.State, b: Both, f: V.SourceFormat, ws: Worlds, o: V.Oracle)
    requires Joined(s, b)
    requires var p := AdmitPlan(c, l, s, b, f, ws); o(0) == p.o(0) && o(3) == p.o(3) && o(4) == p.o(4)
    ensures var t := V.QueueFormat(c, V.Opened(s), f, true, o);
      Joined(if !V.Accepted(c, s, f) then V.Fault(c, s, V.END_UNSUPPORTED_FORMAT, o(3))
             else if s.nextStreamId == U32_MAX then V.Teardown(s)
             else if t.ok then t.s
             else V.Fault(c, V.Closed(t.s), V.END_BUFFER_OVERRUN, o(4)),
             BothRun(l, b, AdmitPlan(c, l, s, b, f, ws).ds))
  {
    if !V.Accepted(c, s, f) {
      FaultJoins(c, l, s, b, V.END_UNSUPPORTED_FORMAT, ws(3));
    } else if s.nextStreamId == U32_MAX {
      LostJoins(l, s, b, ws(3).calls);
      OneDoing(l, b, Other(Lost(ws(3).calls)));
    } else {
      var a := FormatActs(c, l, V.Opened(s), b, f, true, ws(0));
      FirstAnswer(c, V.Opened(s), f, true, o, (k: nat) => a.f);
      FormatJoins(c, l, V.Opened(s), b, f, true, ws(0), o);
      var t, b1 := V.QueueFormat(c, V.Opened(s), f, true, o), BothRun(l, b, a.ds);
      if !t.ok {
        FaultJoins(c, l, V.Closed(t.s), b1, V.END_BUFFER_OVERRUN, ws(4));
        BothConcat(l, b, a.ds, FaultActs(c, l, V.Closed(t.s), b1, V.END_BUFFER_OVERRUN, ws(4)).ds);
      }
    }
  }

  lemma StartJoins(c: V.Config, l: Limits, s: V.State, b: Both, f: V.SourceFormat, ws: Worlds)
    requires Joined(s, b) && s.gate.sourceActive && s.gate.enabled && s.active && !s.gate.waitingIdle
    ensures var p := StartPlan(c, l, s, b, f, ws); Joined(V.OnStart(c, s, f, p.o), BothRun(l, b, p.ds))
  {
    hide BothStep, FinishActs, AdmitPlan, V.FinishStream, V.Fault, V.QueueFormat, V.Accepted, V.Opened;
    var p := StartPlan(c, l, s, b, f, ws);
    var a := FinishActs(c, l, s, b, V.END_BUFFER_OVERRUN, true, ws(2));
    FinishJoins(c, l, s, b, V.END_BUFFER_OVERRUN, true, ws(2));
    if s.delivering {
      var s1, b1 := V.FinishStream(c, s, V.END_BUFFER_OVERRUN, true, a.f), BothRun(l, b, a.ds);
      AdmitJoins(c, l, s1, b1, f, ws, p.o);
      BothConcat(l, b, a.ds, AdmitPlan(c, l, s1, b1, f, ws).ds);
    } else {
      AdmitJoins(c, l, s, b, f, ws, p.o);
      assert [] + AdmitPlan(c, l, s, b, f, ws).ds == AdmitPlan(c, l, s, b, f, ws).ds;
    }
  }

  lemma FormatEventJoins(c: V.Config, l: Limits, s: V.State, b: Both, f: V.SourceFormat, ws: Worlds)
    requires Joined(s, b) && s.delivering && !s.ending
    ensures var p := FormatPlan(c, l, s, b, f, ws); Joined(V.OnFormatEvent(c, s, f, p.o), BothRun(l, b, p.ds))
  {
    var a := FormatActs(c, l, s, b, f, false, ws(0));
    var p := FormatPlan(c, l, s, b, f, ws);
    FirstAnswer(c, s, f, false, p.o, (k: nat) => a.f);
    FormatJoins(c, l, s, b, f, false, ws(0), p.o);
    var t, b1 := V.QueueFormat(c, s, f, false, p.o), BothRun(l, b, a.ds);
    if !t.ok && t.s.delivering {
      FaultJoins(c, l, t.s, b1, V.END_BUFFER_OVERRUN, ws(1));
      BothConcat(l, b, a.ds, FaultActs(c, l, t.s, b1, V.END_BUFFER_OVERRUN, ws(1)).ds);
    }
  }

  /** The oracle gives these answers from its `k`-th on. */
  ghost predicate Answers(o: V.Oracle, k: nat, fs: seq<V.Flush>)
  {
    forall i :: 0 <= i < |fs| ==> o(k + i) == fs[i]
  }

  lemma LaterAnswers(o: V.Oracle, k: nat, f: V.Flush, fs: seq<V.Flush>)
    requires Answers(o, k, [f] + fs)
    ensures o(k) == f && Answers(o, k + 1, fs)
  {
    var all := [f] + fs;
    assert all[0] == f;
    assert o(k + 0) == all[0];
    forall i | 0 <= i < |fs|
      ensures o(k + 1 + i) == fs[i]
    {
      assert o(k + (i + 1)) == all[i + 1] == fs[i];
    }
  }

  /** One fragment refused. */
  lemma OverrunJoins(c: V.Config, l: Limits, s: V.State, b: Both, r: Record, w: World, w2: World)
    requires Joined(s, b)
    ensures var a := EnqueueActs(c, l, s, b, r, w);
      var t, b1 := V.Enqueue(c, s, r, a.f), BothRun(l, b, a.ds);
      var a2 := FaultActs(c, l, t.s, b1, V.END_BUFFER_OVERRUN, w2);
      Joined(V.Fault(c, t.s, V.END_BUFFER_OVERRUN, a2.f), BothRun(l, b, a.ds + a2.ds))
  {
    var a := EnqueueActs(c, l, s, b, r, w);
    var t, b1 := V.Enqueue(c, s, r, a.f), BothRun(l, b, a.ds);
    EnqueueJoins(c, l, s, b, r, w);
    FaultJoins(c, l, t.s, b1, V.END_BUFFER_OVERRUN, w2);
    BothConcat(l, b, a.ds, FaultActs(c, l, t.s, b1, V.END_BUFFER_OVERRUN, w2).ds);
  }

  /** The next fragment goes into the queue. */
  ghost predicate Fits(c: V.Config, l: Limits, s: V.State, b: Both, e: V.Encoded, bytes: seq<byte>, w: World)
  {
    var r := V.FragmentOf(s, e, bytes[..if |bytes| > V.FRAGMENT then V.FRAGMENT else |bytes|]);
    V.Enqueue(c, s, r, EnqueueActs(c, l, s, b, r, w).f).ok
  }

  lemma {:induction false} FragmentsJoin(c: V.Config, l: Limits, s: V.State, b: Both, e: V.Encoded, bytes: seq<byte>, ws: Worlds, k: nat, o: V.Oracle)
    requires Joined(s, b) && Answers(o, k, FragmentActs(c, l, s, b, e, bytes, ws, k).fs)
    ensures Joined(V.Fragments(c, s, e, bytes, o, k), BothRun(l, b, FragmentActs(c, l, s, b, e, bytes, ws, k).ds))
    decreases |bytes|
  {
    if bytes == [] || !s.delivering {
    } else if s.progress.frameSeq == U32_MAX {
      LaterAnswers(o, k, FaultActs(c, l, s, b, V.END_INVALID_ENCODED_DATA, ws(k)).f, []);
      FaultJoins(c, l, s, b, V.END_INVALID_ENCODED_DATA, ws(k));
    } else if Fits(c, l, s, b, e, bytes, ws(k)) {
      MoreFragments(c, l, s, b, e, bytes, ws, k, o);
    } else {
      NoMoreFragments(c, l, s, b, e, bytes, ws, k, o);
    }
  }

  /** What the loop does with a fragment that does not fit. */
  lemma LoopOverruns(c: V.Config, l: Limits, s: V.State, b: Both, e: V.Encoded, bytes: seq<byte>, ws: Worlds, k: nat, r: Record, a: Acts, a2: Acts)
    requires bytes != [] && s.delivering && s.progress.frameSeq != U32_MAX
    requires r == V.FragmentOf(s, e, bytes[..if |bytes| > V.FRAGMENT then V.FRAGMENT else |bytes|])
    requires a == EnqueueActs(c, l, s, b, r, ws(k)) && !V.Enqueue(c, s, r, a.f).ok
    requires a2 == FaultActs(c, l, V.Enqueue(c, s, r, a.f).s, BothRun(l, b, a.ds), V.END_BUFFER_OVERRUN, ws(k + 1))
    ensures FragmentActs(c, l, s, b, e, bytes, ws, k) == Many([a.f, a2.f], a.ds + a2.ds)
    ensures forall o: V.Oracle :: o(k) == a.f ==>
      V.Fragments(c, s, e, bytes, o, k) == V.Fault(c, V.Enqueue(c, s, r, a.f).s, V.END_BUFFER_OVERRUN, o(k + 1))
  {
  }

  lemma NoMoreFragments(c: V.Config, l: Limits, s: V.State, b: Both, e: V.Encoded, bytes: seq<byte>, ws: Worlds, k: nat, o: V.Oracle)
    requires Joined(s, b) && Answers(o, k, FragmentActs(c, l, s, b, e, bytes, ws, k).fs)
    requires bytes != [] && s.delivering && s.progress.frameSeq != U32_MAX && !Fits(c, l, s, b, e, bytes, ws(k))
    ensures Joined(V.Fragments(c, s, e, bytes, o, k), BothRun(l, b, FragmentActs(c, l, s, b, e, bytes, ws, k).ds))
  {
    hide Flushing, BothRun, FaultActs, EnqueueActs, V.Enqueue, V.FragmentOf, V.Fault, V.Fragments;
    var r := V.FragmentOf(s, e, bytes[..if |bytes| > V.FRAGMENT then V.FRAGMENT else |bytes|]);
    var a := EnqueueActs(c, l, s, b, r, ws(k));
    var a2 := FaultActs(c, l, V.Enqueue(c, s, r, a.f).s, BothRun(l, b, a.ds), V.END_BUFFER_OVERRUN, ws(k + 1));
    LoopOverruns(c, l, s, b, e, bytes, ws, k, r, a, a2);
    OverrunJoins(c, l, s, b, r, ws(k), ws(k + 1));
    assert [a.f, a2.f] == [a.f] + [a2.f];
    LaterAnswers(o, k, a.f, [a2.f]);
    LaterAnswers(o, k + 1, a2.f, []);
  }

  /** One fragment queued, and the rest. */
  lemma {:induction false} MoreFragments(c: V.Config, l: Limits, s: V.State, b: Both, e: V.Encoded, bytes: seq<byte>, ws: Worlds, k: nat, o: V.Oracle)
    requires Joined(s, b) && Answers(o, k, FragmentActs(c, l, s, b, e, bytes, ws, k).fs)
    requires bytes != [] && s.delivering && s.progress.frameSeq != U32_MAX && Fits(c, l, s, b, e, bytes, ws(k))
    ensures Joined(V.Fragments(c, s, e, bytes, o, k), BothRun(l, b, FragmentActs(c, l, s, b, e, bytes, ws, k).ds))
    decreases |bytes|, 0
  {
    var take := if |bytes| > V.FRAGMENT then V.FRAGMENT else |bytes|;
    var r := V.FragmentOf(s, e, bytes[..take]);
    var a := EnqueueActs(c, l, s, b, r, ws(k));
    var s1, b1 := V.Counted(V.Enqueue(c, s, r, a.f).s, e, take), BothRun(l, b, a.ds);
    EnqueueJoins(c, l, s, b, r, ws(k));
    assert Joined(s1, b1);
    var m := FragmentActs(c, l, s1, b1, e, bytes[take..], ws, k + 1);
    LaterAnswers(o, k, a.f, m.fs);
    FragmentsJoin(c, l, s1, b1, e, bytes[take..], ws, k + 1, o);
    BothConcat(l, b, a.ds, m.ds);
  }

  lemma EncodedJoins(c: V.Config, l: Limits, s: V.State, b: Both, e: V.Encoded, ws: Worlds)
    requires Joined(s, b)
    ensures var p := EncodedPlan(c, l, s, b, e, ws); Joined(V.OnEncoded(c, s, e, p.o), BothRun(l, b, p.ds))
  {
    hide BothStep, FaultActs, FragmentActs, V.Misplaced, V.Fragments, V.Fault;
    if s.gate.sourceActive && s.delivering && !s.ending {
      FaultJoins(c, l, s, b, V.END_UNSUPPORTED_FORMAT, ws(0));
      FaultJoins(c, l, s, b, V.END_INVALID_ENCODED_DATA, ws(0));
      if e.unitSize <= s.progress.maxUnit && !V.Misplaced(s, e) {
        var s1 := s.(progress := s.progress.(unitSize := e.unitSize, unitSamples := e.samples));
        var fs := FragmentActs(c, l, s1, b, e, e.data, ws, 0).fs;
        var o := EncodedPlan(c, l, s, b, e, ws).o;
        assert forall i :: 0 <= i < |fs| ==> o(0 + i) == fs[i];
        FragmentsJoin(c, l, s1, b, e, e.data, ws, 0, o);
      }
    }
  }

  /** Every event of the voice half, with the session's own answers inside: both halves end with
      the same queue and the same committed records. */
  lemma StepJoins(c: V.Config, l: Limits, s: V.State, b: Both, ev: V.Event, ws: Worlds)
    requires Joined(s, b) && !ev.Flushed? && !ev.SessionLost?
    ensures var p := StepPlan(c, l, s, b, ev, ws); Joined(V.Step(c, s, ev, p.o), BothRun(l, b, p.ds))
  {
    hide BothStep, FaultActs, FinishActs, StartPlan, FormatPlan, EncodedPlan, V.FinishStream, V.Fault, V.OnEncoded, V.EndReason;
    match ev
    case Start(f) =>
      if !s.gate.sourceActive {
        FaultJoins(c, l, s, b, V.END_INVALID_ENCODED_DATA, ws(1));
      } else if s.gate.enabled && s.active && !s.gate.waitingIdle {
        StartJoins(c, l, s, b, f, ws);
      }
    case Reformatted(f) =>
      if s.delivering && !s.ending {
        FormatEventJoins(c, l, s, b, f, ws);
      }
    case EncodedData(e) => EncodedJoins(c, l, s, b, e, ws);
    case Faulted(reason) => FaultJoins(c, l, s, b, reason, ws(0));
    case SourceEnd(reason) =>
      var why := V.EndReason(s.gate, reason);
      FinishJoins(c, l, s.(gate := s.gate.(sourceActive := false, waitingIdle := false)), b, why, !DrainReason(why), ws(0));
    case Abort(reason) => FinishJoins(c, l, s, b, reason, true, ws(0));
    case LinkGone => FinishJoins(c, l, s, b, V.END_LINK_LOST, true, ws(0));
    case Disable => FinishJoins(c, l, s.(gate := V.GateStep(s, ev)), b, V.END_CONSUMER_DISABLED, true, ws(0));
    case _ =>
  }

  // ----- what an event does keeps away from the media opcodes -----

  ghost predicate AllApart(ds: seq<Doing>)
  {
    forall i :: 0 <= i < |ds| ==> Apart(ds[i])
  }

  lemma EndApart(c: V.Config, l: Limits, s: V.State, b: Both, r: Record, w: World)
    requires Mild(w)
    ensures AllApart(EnqueueActs(c, l, s, b, r, w).ds) && AllApart(EndActs(c, l, s, b, r, w).ds)
  {
    hide Flushing, V.Enqueue, V.Full, V.FlushOutput;
  }

  lemma CutApart(c: V.Config, l: Limits, s: V.State, b: Both, reason: nat, w: World)
    requires Mild(w)
    ensures AllApart(CutActs(c, l, s, b, reason, w).ds)
  {
    hide EndActs, BothStep, V.Discarded, V.EndRecord;
    EndApart(c, l, s.(pipe := V.Discarded(s.pipe)), BothStep(l, b, Discard(s.pipe.streamId)), V.EndRecord(s, reason, s.pipe.delivered), w);
  }

  lemma FinishApart(c: V.Config, l: Limits, s: V.State, b: Both, reason: nat, clear: bool, w: World)
    requires Mild(w)
    ensures AllApart(FinishActs(c, l, s, b, reason, clear, w).ds)
  {
    hide CutActs, EndActs, V.EndRecord;
    CutApart(c, l, s, b, reason, w);
    CutApart(c, l, s, b, V.END_INVALID_ENCODED_DATA, w);
    EndApart(c, l, s, b, V.EndRecord(s, reason, s.source), w);
  }

  lemma FaultApart(c: V.Config, l: Limits, s: V.State, b: Both, reason: nat, w: World)
    requires Mild(w)
    ensures AllApart(FaultActs(c, l, s, b, reason, w).ds)
  {
    FinishApart(c, l, s, b, reason, true, w);
  }

  lemma FormatApart(c: V.Config, l: Limits, s: V.State, b: Both, f: V.SourceFormat, start: bool, w: World)
    requires Mild(w)
    ensures AllApart(FormatActs(c, l, s, b, f, start, w).ds)
  {
    hide FaultActs, EnqueueActs, V.Accepted, FormatRecord;
    EndApart(c, l, s, b, FormatRecord(s, f, start), w);
    FaultApart(c, l, s, b, V.END_UNSUPPORTED_FORMAT, w);
    FaultApart(c, l, s, b, V.END_SOURCE_DATA_LOST, w);
  }

  lemma AdmitApart(c: V.Config, l: Limits, s: V.State, b: Both, f: V.SourceFormat, ws: Worlds)
    requires forall k :: Mild(ws(k))
    ensures AllApart(AdmitPlan(c, l, s, b, f, ws).ds)
  {
    hide Flushing, BothRun, FaultActs, FormatActs, V.QueueFormat, V.Opened, V.Accepted;
    FaultApart(c, l, s, b, V.END_UNSUPPORTED_FORMAT, ws(3));
    assert Mild(ws(3));
    var a := FormatActs(c, l, V.Opened(s), b, f, true, ws(0));
    FormatApart(c, l, V.Opened(s), b, f, true, ws(0));
    var t := V.QueueFormat(c, V.Opened(s), f, true, (k: nat) => a.f);
    FaultApart(c, l, V.Closed(t.s), BothRun(l, b, a.ds), V.END_BUFFER_OVERRUN, ws(4));
  }

  lemma {:induction false} FragmentsApart(c: V.Config, l: Limits, s: V.State, b: Both, e: V.Encoded, bytes: seq<byte>, ws: Worlds, k: nat)
    requires forall i :: Mild(ws(i))
    ensures AllApart(FragmentActs(c, l, s, b, e, bytes, ws, k).ds)
    decreases |bytes|
  {
    hide BothRun, FaultActs, EnqueueActs, V.Enqueue, V.FragmentOf, V.Counted;
    if bytes != [] && s.delivering {
      FaultApart(c, l, s, b, V.END_INVALID_ENCODED_DATA, ws(k));
      var take := if |bytes| > V.FRAGMENT then V.FRAGMENT else |bytes|;
      var r := V.FragmentOf(s, e, bytes[..take]);
      var a := EnqueueActs(c, l, s, b, r, ws(k));
      EndApart(c, l, s, b, r, ws(k));
      var t, b1 := V.Enqueue(c, s, r, a.f), BothRun(l, b, a.ds);
      FaultApart(c, l, t.s, b1, V.END_BUFFER_OVERRUN, ws(k + 1));
      FragmentsApart(c, l, V.Counted(t.s, e, take), b1, e, bytes[take..], ws, k + 1);
    }
  }

  lemma StepApart(c: V.Config, l: Limits, s: V.State, b: Both, ev: V.Event, ws: Worlds)
    requires forall k :: Mild(ws(k))
    ensures AllApart(StepPlan(c, l, s, b, ev, ws).ds)
  {
    hide BothRun, FaultActs, FinishActs, FormatActs, FragmentActs, AdmitPlan, V.FinishStream, V.QueueFormat, V.GateStep, V.EndReason;
    match ev
    case Start(f) =>
      FaultApart(c, l, s, b, V.END_INVALID_ENCODED_DATA, ws(1));
      var a := FinishActs(c, l, s, b, V.END_BUFFER_OVERRUN, true, ws(2));
      FinishApart(c, l, s, b, V.END_BUFFER_OVERRUN, true, ws(2));
      AdmitApart(c, l, V.FinishStream(c, s, V.END_BUFFER_OVERRUN, true, a.f), BothRun(l, b, a.ds), f, ws);
      AdmitApart(c, l, s, BothRun(l, b, []), f, ws);
    case Reformatted(f) =>
      var a := FormatActs(c, l, s, b, f, false, ws(0));
      FormatApart(c, l, s, b, f, false, ws(0));
      var t := V.QueueFormat(c, s, f, false, (k: nat) => a.f);
      FaultApart(c, l, t.s, BothRun(l, b, a.ds), V.END_BUFFER_OVERRUN, ws(1));
    case EncodedData(e) =>
      FaultApart(c, l, s, b, V.END_UNSUPPORTED_FORMAT, ws(0));
      FaultApart(c, l, s, b, V.END_INVALID_ENCODED_DATA, ws(0));
      FragmentsApart(c, l, s.(progress := s.progress.(unitSize := e.unitSize, unitSamples := e.samples)), b, e, e.data, ws, 0);
    case Faulted(reason) => FaultApart(c, l, s, b, reason, ws(0));
    case SourceEnd(reason) =>
      var why := V.EndReason(s.gate, reason);
      FinishApart(c, l, s.(gate := s.gate.(sourceActive := false, waitingIdle := false)), b, why, !DrainReason(why), ws(0));
    case Abort(reason) => FinishApart(c, l, s, b, reason, true, ws(0));
    case LinkGone => FinishApart(c, l, s, b, V.END_LINK_LOST, true, ws(0));
    case Disable => FinishApart(c, l, s.(gate := V.GateStep(s, ev)), b, V.END_CONSUMER_DISABLED, true, ws(0));
    case _ =>
  }

  // ----- every run -----

  /** What a step of the whole server is to each half. */
  lemma SpokenSplits(c: V.Config, l: Limits, x: Whole, ev: V.Event, ws: Worlds) returns (h: VP.Happening, ds: seq<Doing>)
    requires Buried(TapeOf(x.voice)) && Allowed(Spoken(ev, ws))
    ensures h.ev == ev && V.Step(c, x.voice, ev, h.o) == WholeStep(c, l, x, Spoken(ev, ws)).voice
    ensures BothRun(l, Halves(x), ds) == Halves(WholeStep(c, l, x, Spoken(ev, ws))) && AllApart(ds)
    ensures Buried(TapeOf(WholeStep(c, l, x, Spoken(ev, ws)).voice))
  {
    hide BothRun, StepPlan, V.Step;
    var p := StepPlan(c, l, x.voice, Halves(x), ev, ws);
    StepJoins(c, l, x.voice, Halves(x), ev, ws);
    StepApart(c, l, x.voice, Halves(x), ev, ws);
    h, ds := VP.Happening(ev, p.o), p.ds;
  }

  lemma TrafficSplits(c: V.Config, l: Limits, x: Whole, ev: Session.Event)
    requires Buried(TapeOf(x.voice)) && Apart(Other(ev))
    ensures BothStep(l, Halves(x), Other(ev)) == Halves(WholeStep(c, l, x, Traffic(ev)))
    ensures Buried(TapeOf(WholeStep(c, l, x, Traffic(ev)).voice))
  {
    hide Session.Step, Flushing, MovesOf, V.FlushOutput;
    if ev.Flushed? {
      FlushJoins(l, x.voice, Halves(x), ev.before, ev.after);
    } else {
      QuietMoves(l, Halves(x), ev);
    }
  }

  lemma {:induction false} VoiceConcat(c: V.Config, s: V.State, a: seq<VP.Happening>, b: seq<VP.Happening>)
    ensures VP.Run(c, s, a + b) == VP.Run(c, VP.Run(c, s, a), b)
    ensures VP.ProperRun(c, s, a) && VP.ProperRun(c, VP.Run(c, s, a), b) ==> VP.ProperRun(c, s, a + b)
    decreases |a|
  {
    if a == [] {
      assert a + b == b;
    } else {
      assert (a + b)[1..] == a[1..] + b;
      VoiceConcat(c, V.Step(c, s, a[0].ev, a[0].o), a[1..], b);
    }
  }

  /** Both halves over a whole run: the voice half runs as the voice model does under some
      answers, the session half as the session model does, and neither has records that the
      other does not know of. */
  lemma {:induction false} RunSplits(c: V.Config, l: Limits, x: Whole, js: seq<Input>) returns (hs: seq<VP.Happening>, ds: seq<Doing>)
    requires Buried(TapeOf(x.voice)) && Orderly(c, l, x, js)
    ensures VP.Run(c, x.voice, hs) == Serve(c, l, x, js).voice && VP.ProperRun(c, x.voice, hs)
    ensures BothRun(l, Halves(x), ds) == Halves(Serve(c, l, x, js)) && AllApart(ds)
    decreases |js|
  {
    hide WholeStep, BothStep, V.Step, Allowed, Apart;
    if js == [] {
      hs, ds := [], [];
    } else {
      var first, doings := StepSplits(c, l, x, js[0]);
      var hs', ds' := RunSplits(c, l, WholeStep(c, l, x, js[0]), js[1..]);
      hs, ds := first + hs', doings + ds';
      VoiceConcat(c, x.voice, first, hs');
      BothConcat(l, Halves(x), doings, ds');
    }
  }

  lemma StepSplits(c: V.Config, l: Limits, x: Whole, j: Input) returns (hs: seq<VP.Happening>, ds: seq<Doing>)
    requires Buried(TapeOf(x.voice)) && Allowed(j) && (j.Spoken? ==> V.Proper(x.voice, j.ev))
    ensures VP.Run(c, x.voice, hs) == WholeStep(c, l, x, j).voice && VP.ProperRun(c, x.voice, hs)
    ensures BothRun(l, Halves(x), ds) == Halves(WholeStep(c, l, x, j)) && AllApart(ds)
    ensures Buried(TapeOf(WholeStep(c, l, x, j).voice))
  {
    match j
    case Spoken(ev, ws) =>
      hide WholeStep, V.Step;
      var h, doings := SpokenSplits(c, l, x, ev, ws);
      hs, ds := [h], doings;
      assert [h][1..] == [];
    case Traffic(ev) =>
      hide BothStep, V.Step, Flushing, Session.Step;
      hs := NoticedHappenings(c, l, x, ev);
      ds := [Other(ev)];
      TrafficSplits(c, l, x, ev);
      OneDoing(l, Halves(x), Other(ev));
  }

  lemma NoticedHappenings(c: V.Config, l: Limits, x: Whole, ev: Session.Event) returns (hs: seq<VP.Happening>)
    ensures VP.Run(c, x.voice, hs) == WholeStep(c, l, x, Traffic(ev)).voice && VP.ProperRun(c, x.voice, hs)
  {
    hide V.Step, Flushing, Session.Step;
    var evs := Noticed(l, x.session, ev);
    hs := if evs == [] then [] else [VP.Happening(evs[0], UNTOUCHED.o)];
    if evs != [] {
      assert hs[1..] == [];
    }
  }

  // ----- what the host hears -----

  /** A session that has just been created: nothing of its media is queued. */
  predicate Opens(t: State)
  {
    t.active && t.q.media == [] && NoMedia(t.q.ctl) && NoMedia(t.q.keys)
  }

  lemma OpensLinked(t: State, tape: Tape)
    requires Opens(t) && tape == Tape(true, [], [])
    ensures Linked(Both(t, tape), |t.port.frames|)
  {
    assert t.port.frames[|t.port.frames|..] == [];
    assert Carries([], []);
    ToldAll([], []);
  }

  lemma {:induction false} ArrivalsSince(fs: seq<Sent>, base: nat)
    ensures Since(Arrivals(fs), base) == Arrivals(Since(fs, base))
    decreases base
  {
    if base > 0 && fs != [] {
      ArrivalsSince(fs[1..], base - 1);
      assert Since(fs, base) == Since(fs[1..], base - 1);
      assert Since(Arrivals(fs), base) == Since(Arrivals(fs[1..]), base - 1);
    }
  }

  /** The client's own tests reject none of the frames that carry records or other traffic. */
  lemma {:induction false} CarriedJudged(fs: seq<Sent>, rs: seq<Record>)
    requires Carries(fs, rs)
    ensures AllJudged(Arrivals(fs)) == Arrivals(fs)
    decreases |fs|
  {
    if fs != [] {
      CarriedJudged(fs[1..], if MediaOp(fs[0].header.opcode) then rs[1..] else rs);
    }
  }

  lemma JudgedSince(evs: seq<Frame.RxEvent>, base: nat)
    ensures Since(AllJudged(evs), base) == AllJudged(Since(evs, base))
  {
  }

  /** The first frames have arrived, whatever the reads were. */
  lemma FramesRead(p: Port, xs: seq<Read>) returns (k: nat)
    requires Aligned(p) && AllRead(xs) == p.taken && Timely(R.Idle, xs)
    ensures k <= |p.frames| && Reads(R.Idle, xs).events == Arrivals(p.frames[..k])
    ensures p.out == [] ==> k == |p.frames|
  {
    assert p.taken == (p.taken + p.out)[..|p.taken|];
    assert p.out == [] ==> p.taken + p.out == p.taken;
    k := TakenArrives(p.frames, p.taken, 0);
    ChunksInvisible(R.Idle, R.Idle, xs, 0);
  }

  lemma FirstAccepted(terms: Terms, rs: seq<Record>, n: nat)
    requires n <= |rs| && HearAll(terms, Silent, rs) != Rejected
    ensures HearAll(terms, Silent, rs[..n]) != Rejected
  {
    assert rs == rs[..n] + rs[n..];
    PrefixAccepted(terms, Silent, rs[..n], rs[n..]);
  }

  /** What the client makes of the octets taken, in any state of the invariant. */
  lemma LinkedHeard(terms: Terms, b: Both, base: nat, xs: seq<Read>) returns (n: nat)
    requires Linked(b, base) && Aligned(b.session.port) && AllRead(xs) == b.session.port.taken && Timely(R.Idle, xs)
    requires AllFit(b.tape.committed) && HearAll(terms, Silent, b.tape.committed) != Rejected
    ensures n <= |b.tape.committed| && HearAll(terms, Silent, b.tape.committed[..n]) != Rejected
    ensures Heard(Since(AllJudged(Reads(R.Idle, xs).events), base)) == Some(b.tape.committed[..n])
    ensures b.session.port.out == [] && b.tape.live ==> n == |b.tape.committed|
  {
    hide HearAll, Heard, Carries, Reads, AllRead, Timely, AllJudged, Arrivals, Same;
    var p, rs := b.session.port, b.tape.committed;
    var k := FramesRead(p, xs);
    ArrivalsSince(p.frames[..k], base);
    JudgedSince(Arrivals(p.frames[..k]), base);
    n := ToldCut(p.frames, base, rs, k);
    CarriedJudged(Since(p.frames[..k], base), rs[..n]);
    MediaOfArrivals(Since(p.frames[..k], base), rs[..n]);
    if p.out == [] && b.tape.live {
      assert p.frames[..k] == p.frames;
      CarriesLength(p.frames[base..], rs, rs[..n]);
    }
    FirstAccepted(terms, rs, n);
  }

  /** After any run the frames carry the records, the records fit their fields, and the host
      accepts them. */
  lemma ServedLinked(c: V.Config, l: Limits, x: Whole, js: seq<Input>)
    requires Begins(c, x.voice) && Opens(x.session) && Aligned(x.session.port) && Orderly(c, l, x, js)
    requires Countable(Serve(c, l, x, js).voice.pipe.committed)
    ensures var y := Serve(c, l, x, js);
      && Linked(Halves(y), |x.session.port.frames|) && Aligned(y.session.port)
      && AllFit(y.voice.pipe.committed) && HearAll(c.terms, Silent, y.voice.pipe.committed) != Rejected
  {
    hide Serve, Orderly, VP.Run, VP.ProperRun, BothRun, Linked, Aligned, HearAll, AllFit, Countable;
    var hs, ds := RunSplits(c, l, x, js);
    OpensLinked(x.session, TapeOf(x.voice));
    RunLinked(l, Halves(x), |x.session.port.frames|, ds);
    CommittedFit(c, x.voice, hs);
  }

  /** Voice from the source's counters to the host.  Let the whole server take any voice events
      and any other traffic, with any counts accepted by the transport at every flush.  Whatever
      octets the transport has taken by then, during the session or after its end, and in
      whatever reads they reach the client: its parser and its record parser find in them the
      first records that the voice half committed, whole and in order, and the host accepts
      them.  With the ring empty and the session alive it is all of them. */
  lemma HostHearsTheServer(c: V.Config, l: Limits, x: Whole, js: seq<Input>, xs: seq<Read>) returns (n: nat)
    requires Begins(c, x.voice) && Opens(x.session) && Aligned(x.session.port) && Orderly(c, l, x, js)
    requires var y := Serve(c, l, x, js);
      Countable(y.voice.pipe.committed) && AllRead(xs) == y.session.port.taken && Timely(R.Idle, xs)
    ensures var rs := Serve(c, l, x, js).voice.pipe.committed;
      && n <= |rs| && HearAll(c.terms, Silent, rs[..n]) != Rejected
      && Heard(Since(AllJudged(Reads(R.Idle, xs).events), |x.session.port.frames|)) == Some(rs[..n])
    ensures var y := Serve(c, l, x, js);
      y.session.port.out == [] && y.voice.active ==> n == |y.voice.pipe.committed|
  {
    hide Serve, Orderly, Linked, Aligned, Heard, Reads, Timely, AllRead, AllJudged, HearAll, AllFit, Countable;
    ServedLinked(c, l, x, js);
    n := LinkedHeard(c.terms, Halves(Serve(c, l, x, js)), |x.session.port.frames|, xs);
  }
}
