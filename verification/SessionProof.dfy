/** Frame alignment and sequence numbers over every run of the server's output. */
module SessionProof {
  import opened Bytes
  import opened Cobs
  import opened Frame
  import R = Receiver
  import opened Rings
  import opened Session

  // ----- frame alignment -----

  predicate Short(fs: seq<Sent>)
  {
    forall i :: 0 <= i < |fs| ==> |fs[i].payload| <= MAX_PAYLOAD && Recognised(fs[i].header)
  }

  /** Handed over plus still in the ring: a whole number of frames. */
  ghost predicate Aligned(p: Port)
  {
    Short(p.frames) && p.taken + p.out == Join(Images(p.frames))
  }

  /** A delimiter at the end and nowhere else. */
  predicate Delimited(c: seq<byte>)
  {
    c != [] && c[|c| - 1] == 0 && forall i :: 0 <= i < |c| - 1 ==> c[i] != 0
  }

  predicate AllDelimited(cs: seq<seq<byte>>)
  {
    forall i :: 0 <= i < |cs| ==> Delimited(cs[i])
  }

  lemma {:induction false} JoinSnoc(cs: seq<seq<byte>>, c: seq<byte>)
    ensures Join(cs + [c]) == Join(cs) + c
    decreases |cs|
  {
    if cs == [] {
      assert cs + [c] == [c] && [c][1..] == [];
    } else {
      assert (cs + [c])[1..] == cs[1..] + [c];
      JoinSnoc(cs[1..], c);
    }
  }

  lemma {:induction false} ImagesSnoc(fs: seq<Sent>, f: Sent)
    ensures Images(fs + [f]) == Images(fs) + [Octets(f)]
    decreases |fs|
  {
    if fs == [] {
      assert fs + [f] == [f] && [f][1..] == [];
    } else {
      assert (fs + [f])[1..] == fs[1..] + [f];
      ImagesSnoc(fs[1..], f);
    }
  }

  lemma {:induction false} ImagesPrefix(fs: seq<Sent>, n: nat)
    requires n <= |fs|
    ensures Images(fs[..n]) == Images(fs)[..n]
    decreases |fs|
  {
    if n > 0 {
      assert fs[..n][1..] == fs[1..][..n - 1];
      ImagesPrefix(fs[1..], n - 1);
    }
  }

  lemma OctetsDelimited(f: Sent)
    requires |f.payload| <= MAX_PAYLOAD
    ensures Delimited(Octets(f))
  {
    WireShape(f.header, f.payload);
  }

  lemma {:induction false} ImagesDelimited(fs: seq<Sent>)
    requires Short(fs)
    ensures AllDelimited(Images(fs))
    decreases |fs|
  {
    if fs != [] {
      OctetsDelimited(fs[0]);
      ImagesDelimited(fs[1..]);
    }
  }

  /** A cut after the first delimiter falls on a frame boundary. */
  lemma {:induction false} CutAligned(cs: seq<seq<byte>>, taken: seq<byte>, out: seq<byte>)
    requires AllDelimited(cs) && taken + out == Join(cs)
    ensures taken + ThroughZero(out) == Join(cs[..Survivors(cs, |taken|)])
    decreases |cs|
  {
    if cs != [] {
      var first, rest, n := cs[0], cs[1..], Survivors(cs, |taken|);
      if |taken| >= |first| {
        var taken' := taken[|first|..];
        StripFirst(first, Join(rest), taken, out);
        CutAligned(rest, taken', out);
        assert cs[..n][1..] == rest[..n - 1];
        assert taken + ThroughZero(out) == first + (taken' + ThroughZero(out));
      } else {
        CutInside(first, Join(rest), taken, out);
        assert cs[..1][1..] == [];
      }
    }
  }

  lemma StripFirst(first: seq<byte>, rest: seq<byte>, taken: seq<byte>, out: seq<byte>)
    requires taken + out == first + rest && |taken| >= |first|
    ensures taken == first + taken[|first|..] && taken[|first|..] + out == rest
  {
    assert taken == (first + rest)[..|taken|];
    assert taken[|first|..] + out == (taken + out)[|first|..];
  }

  lemma CutInside(first: seq<byte>, rest: seq<byte>, taken: seq<byte>, out: seq<byte>)
    requires Delimited(first) && |taken| < |first| && taken + out == first + rest
    ensures taken + ThroughZero(out) == first + []
  {
    var k, all := |first| - |taken| - 1, first + rest;
    assert taken == all[..|taken|] && out == all[|taken|..];
    ThroughZeroAt(out, k);
    assert taken + out[..k + 1] == all[..|first|];
  }

  lemma DrainAligned(p: Port, n: nat)
    requires Aligned(p)
    ensures Aligned(Drain(p, n))
  {
    var k := if n < |p.out| then n else |p.out|;
    Regroup(p.taken, p.out, k);
  }

  lemma Regroup(taken: seq<byte>, out: seq<byte>, k: nat)
    requires k <= |out|
    ensures taken + out[..k] + out[k..] == taken + out
  {
  }

  lemma TruncatedAligned(p: Port)
    requires Aligned(p)
    ensures Aligned(Truncated(p))
  {
    ImagesDelimited(p.frames);
    CutAligned(Images(p.frames), p.taken, p.out);
    ImagesPrefix(p.frames, Survivors(Images(p.frames), |p.taken|));
  }

  lemma AppendAligned(p: Port, f: Sent)
    requires Aligned(p) && |f.payload| <= MAX_PAYLOAD && Recognised(f.header)
    ensures Aligned(Committed(p, f))
  {
    ImagesSnoc(p.frames, f);
    JoinSnoc(Images(p.frames), Octets(f));
    Assoc(p.taken, p.out, Octets(f));
  }

  lemma Assoc(a: seq<byte>, b: seq<byte>, c: seq<byte>)
    ensures a + (b + c) == a + b + c
  {
  }

  lemma TryFrameAligned(l: Limits, s: State, header: Header, payload: seq<byte>)
    requires Aligned(s.port)
    ensures Aligned(TryFrame(l, s, header, payload).s.port)
  {
    TruncatedAligned(s.port);
    if |payload| <= MAX_PAYLOAD {
      AppendAligned(s.port, Sent(Complete(header, s.txSeq, |payload|), payload));
    }
  }

  /** The early space test refuses no frame that would have fitted: a live sequence number, a
      legal payload and room for the encoded frame are all it takes. */
  lemma TryFrameSucceeds(l: Limits, s: State, header: Header, payload: seq<byte>)
    requires 0 < s.txSeq < U32_MAX && |payload| <= MAX_PAYLOAD
    ensures var f := Sent(Complete(header, s.txSeq, |payload|), payload);
            TryFrame(l, s, header, payload)
            == if |s.port.out| + |Octets(f)| <= l.ring
               then Try(s.(txSeq := s.txSeq + 1, port := Committed(s.port, f)), true) else Try(s, false)
    ensures |s.port.out| + MAX_ENCODED <= l.ring ==> TryFrame(l, s, header, payload).ok
  {
    WireShape(Complete(header, s.txSeq, |payload|), payload);
  }

  lemma SendAligned(l: Limits, s: State, pick: Pick)
    requires Aligned(s.port) && pick != Nothing && Offers(s.q, pick)
    ensures Aligned(SendOne(l, s, pick).s.port)
  {
    match pick
    case Ctl => TryFrameAligned(l, s, s.q.ctl[0].header, s.q.ctl[0].payload);
    case Key => TryFrameAligned(l, s, s.q.keys[0].header.(sessionId := s.sessionId), s.q.keys[0].payload);
    case Media => TryFrameAligned(l, s, s.q.media[0].header.(sessionId := s.sessionId), s.q.media[0].payload);
  }

  lemma {:induction false} FlushLoopAligned(l: Limits, s: State, ctlSent: nat)
    requires Aligned(s.port)
    ensures Aligned(FlushLoop(l, s, ctlSent).port)
    decreases Waiting(s.q)
  {
    var pick := Choose(s.q, ctlSent);
    if pick != Nothing {
      SendAligned(l, s, pick);
      var t := SendOne(l, s, pick);
      if t.ok {
        FlushLoopAligned(l, t.s, if pick == Ctl then ctlSent + 1 else ctlSent);
      }
    }
  }

  lemma EnqueueAligned(l: Limits, s: State, header: Header, payload: seq<byte>)
    requires Aligned(s.port)
    ensures Aligned(CtlEnqueue(l, s, header, payload).port)
  {
    TruncatedAligned(s.port);
  }

  lemma {:induction false} CallbacksAligned(l: Limits, s: State, calls: seq<Sent>)
    requires Aligned(s.port)
    ensures Aligned(Callbacks(l, s, calls).port)
    decreases |calls|
  {
    if calls != [] {
      var h := calls[0].header.(kind := KIND_EVENT);
      EnqueueAligned(l, s, h, calls[0].payload);
      CallbacksAligned(l, CtlEnqueue(l, s, h, calls[0].payload), calls[1..]);
    }
  }

  lemma HelloAligned(l: Limits, s: State, calls: seq<Sent>, header: Header, payload: seq<byte>)
    requires Aligned(s.port)
    ensures Aligned(OnHello(l, s, calls, header, payload).port)
  {
    TruncatedAligned(s.port);
    CallbacksAligned(l, Teardown(s), calls);
    EnqueueAligned(l, Created(Callbacks(l, Teardown(s), calls)), HelloReply(header), payload);
  }

  lemma StepAligned(l: Limits, s: State, ev: Event)
    requires Aligned(s.port)
    ensures Aligned(Step(l, s, ev).port)
  {
    match ev
    case Reply(h, p) => EnqueueAligned(l, s, h, p);
    case Flushed(before, after) => FlushAligned(l, s, before, after);
    case Drained(n) => DrainAligned(s.port, n);
    case Lost(calls) =>
      TruncatedAligned(s.port);
      CallbacksAligned(l, Teardown(s), calls);
    case Hello(calls, h, p) => HelloAligned(l, s, calls, h, p);
    case HelloMismatch(h, p) => MismatchAligned(l, s, h, p);
    case Goodbye(calls, h) => GoodbyeAligned(l, s, calls, h);
    case _ =>
  }

  lemma FlushAligned(l: Limits, s: State, before: nat, after: nat)
    requires Aligned(s.port)
    ensures Aligned(Flush(l, s, before, after).port)
  {
    DrainAligned(s.port, before);
    var s0 := s.(port := Drain(s.port, before));
    FlushLoopAligned(l, s0, 0);
    DrainAligned(FlushLoop(l, s0, 0).port, after);
  }

  lemma MismatchAligned(l: Limits, s: State, header: Header, payload: seq<byte>)
    requires Aligned(s.port)
    ensures Aligned(OnMismatch(l, s, header, payload).port)
  {
    if |payload| <= MAX_PAYLOAD {
      AppendAligned(s.port, Sent(Complete(header.(sessionId := 0), 1, |payload|), payload));
    }
  }

  lemma GoodbyeAligned(l: Limits, s: State, calls: seq<Sent>, header: Header)
    requires Aligned(s.port)
    ensures Aligned(OnGoodbye(l, s, calls, header).port)
  {
    var s1 := Callbacks(l, Teardown(s), calls).(port := s.port);
    EnqueueAligned(l, s1, header.(kind := KIND_RESPONSE, opcode := OP_GOODBYE), []);
  }

  lemma {:induction false} RunAligned(l: Limits, s: State, evs: seq<Event>)
    requires Aligned(s.port)
    ensures Aligned(Run(l, s, evs).port)
    decreases |evs|
  {
    if evs != [] {
      StepAligned(l, s, evs[0]);
      RunAligned(l, Step(l, s, evs[0]), evs[1..]);
    }
  }

  /** Over every run, whatever teardowns, goodbyes and backend callbacks happen in it, the
      transport has seen a prefix of a concatenation of whole encoded frames. */
  lemma TransportSeesWholeFrames(l: Limits, evs: seq<Event>)
    ensures var p := Run(l, BOOT, evs).port;
            p.taken <= Join(Images(p.frames)) && Short(p.frames)
  {
    assert BOOT.port.taken + BOOT.port.out == [];
    RunAligned(l, BOOT, evs);
    var p := Run(l, BOOT, evs).port;
    assert p.taken == (p.taken + p.out)[..|p.taken|];
  }

  /** A receiver fed those frames reports exactly them, in order and with good CRCs. */
  ghost function Arrivals(fs: seq<Sent>): seq<RxEvent>
    decreases |fs|
  {
    if fs == [] then [] else [FrameIn(fs[0].header, fs[0].payload, true)] + Arrivals(fs[1..])
  }

  lemma {:induction false} ReceiverSeesFrames(fs: seq<Sent>, now: u32)
    requires Short(fs)
    ensures R.Drain(R.Idle, Join(Images(fs)), now) == R.Outcome(R.Idle, Arrivals(fs))
    decreases |fs|
  {
    if fs != [] {
      var f := fs[0];
      var enc := Encode(Raw(f.header, f.payload));
      WireShape(f.header, f.payload);
      ReceiveEncoded(f.header, f.payload);
      assert [] + enc == enc;
      R.LastPart([], now, enc, now, enc);
      R.DrainConcat(R.Idle, enc + [0], Join(Images(fs[1..])), now);
      ReceiverSeesFrames(fs[1..], now);
    }
  }

  // ----- order and fairness of one flush -----

  /** A frame committed during one flush, its place in the order of arrival, and whether a key
      or media item was waiting then. */
  datatype Turn = Turn(pick: Pick, order: nat, othersWait: bool)

  function Head(q: Queues, pick: Pick): Item
    requires pick != Nothing && Offers(q, pick)
  {
    match pick
    case Ctl => q.ctl[0]
    case Key => q.keys[0]
    case Media => q.media[0]
  }

  ghost function Turns(l: Limits, s: State, ctlSent: nat): seq<Turn>
    decreases Waiting(s.q)
  {
    var pick := Choose(s.q, ctlSent);
    if pick == Nothing then []
    else
      var t := SendOne(l, s, pick);
      if !t.ok then []
      else [Turn(pick, Head(s.q, pick).order, s.q.keys != [] || s.q.media != [])]
           + Turns(l, t.s, if pick == Ctl then ctlSent + 1 else ctlSent)
  }

  ghost function Controls(ts: seq<Turn>): nat
  {
    if ts == [] then 0 else (if ts[0].pick == Ctl then 1 else 0) + Controls(ts[1..])
  }

  /** The flush after its first turn. */
  lemma TurnsTail(l: Limits, s: State, ctlSent: nat)
    requires Turns(l, s, ctlSent) != []
    ensures var pick := Choose(s.q, ctlSent);
      && pick != Nothing && SendOne(l, s, pick).ok
      && Turns(l, s, ctlSent)[1..] == Turns(l, SendOne(l, s, pick).s, if pick == Ctl then ctlSent + 1 else ctlSent)
      && Turns(l, s, ctlSent)[0] == Turn(pick, Head(s.q, pick).order, s.q.keys != [] || s.q.media != [])
  {
  }

  /** Oldest first within a queue; `low` is older than all of them. */
  predicate Lined(q: seq<Item>, low: nat)
  {
    && (forall i :: 0 <= i < |q| ==> low <= q[i].order)
    && (forall i, j :: 0 <= i < j < |q| ==> q[i].order <= q[j].order)
  }

  predicate AllLined(q: Queues, low: nat)
  {
    Lined(q.ctl, low) && Lined(q.keys, low) && Lined(q.media, low)
  }

  lemma SendLined(l: Limits, s: State, pick: Pick, low: nat)
    requires AllLined(s.q, low) && pick != Nothing && Offers(s.q, pick) && SendOne(l, s, pick).ok
    ensures AllLined(SendOne(l, s, pick).s.q, low)
  {
  }

  /** Within the burst the oldest head is chosen, and so the oldest item of all. */
  lemma OldestChosen(q: Queues, ctlSent: nat, low: nat)
    requires AllLined(q, low) && low > 0 && ctlSent < CTL_FLUSH_BURST && Choose(q, ctlSent) != Nothing
    ensures AllLined(q, Head(q, Choose(q, ctlSent)).order)
  {
  }

  lemma {:induction false} TurnsAbove(l: Limits, s: State, ctlSent: nat, low: nat, j: nat)
    requires AllLined(s.q, low) && j < |Turns(l, s, ctlSent)|
    ensures low <= Turns(l, s, ctlSent)[j].order
    decreases j
  {
    var pick := Choose(s.q, ctlSent);
    TurnsTail(l, s, ctlSent);
    if j > 0 {
      SendLined(l, s, pick, low);
      TurnsAbove(l, SendOne(l, s, pick).s, if pick == Ctl then ctlSent + 1 else ctlSent, low, j - 1);
    }
  }

  lemma FirstIsOldest(l: Limits, s: State, ctlSent: nat, j: nat)
    requires AllLined(s.q, 1) && j < |Turns(l, s, ctlSent)| && ctlSent < CTL_FLUSH_BURST
    ensures Turns(l, s, ctlSent)[0].order <= Turns(l, s, ctlSent)[j].order
  {
    TurnsTail(l, s, ctlSent);
    OldestChosen(s.q, ctlSent, 1);
    TurnsAbove(l, s, ctlSent, Turns(l, s, ctlSent)[0].order, j);
  }

  /** The control count after the first turn. */
  lemma NextTurns(l: Limits, s: State, ctlSent: nat) returns (s': State, n: nat)
    requires Turns(l, s, ctlSent) != []
    ensures Turns(l, s', n) == Turns(l, s, ctlSent)[1..]
    ensures n == ctlSent + if Turns(l, s, ctlSent)[0].pick == Ctl then 1 else 0
    ensures AllLined(s.q, 1) ==> AllLined(s'.q, 1)
  {
    var pick := Choose(s.q, ctlSent);
    TurnsTail(l, s, ctlSent);
    if AllLined(s.q, 1) {
      SendLined(l, s, pick, 1);
    }
    s', n := SendOne(l, s, pick).s, if pick == Ctl then ctlSent + 1 else ctlSent;
  }

  lemma FirstControl(l: Limits, s: State, ctlSent: nat)
    requires Turns(l, s, ctlSent) != [] && Turns(l, s, ctlSent)[0].pick == Ctl && ctlSent >= CTL_FLUSH_BURST
    ensures !Turns(l, s, ctlSent)[0].othersWait
  {
    TurnsTail(l, s, ctlSent);
  }

  /** No control frame follows four others in the same flush while a key or media item waits. */
  lemma {:induction false} NoFifthControl(l: Limits, s: State, ctlSent: nat, ts: seq<Turn>, i: nat)
    requires ts == Turns(l, s, ctlSent) && i < |ts| && ts[i].pick == Ctl
    requires ctlSent + Controls(ts[..i]) >= CTL_FLUSH_BURST
    ensures !ts[i].othersWait
    decreases i
  {
    if i == 0 {
      FirstControl(l, s, ctlSent);
    } else {
      var s', n := NextTurns(l, s, ctlSent);
      assert ts[..i][1..] == ts[1..][..i - 1];
      NoFifthControl(l, s', n, ts[1..], i - 1);
    }
  }

  /** With queues in order, a frame that goes out before the fourth control frame is older than
      everything that follows it. */
  lemma {:induction false} OlderFirst(l: Limits, s: State, ctlSent: nat, ts: seq<Turn>, i: nat, j: nat)
    requires AllLined(s.q, 1) && ts == Turns(l, s, ctlSent) && i < j < |ts|
    requires ctlSent + Controls(ts[..i]) < CTL_FLUSH_BURST
    ensures ts[i].order <= ts[j].order
    decreases i
  {
    if i == 0 {
      FirstIsOldest(l, s, ctlSent, j);
    } else {
      var s', n := NextTurns(l, s, ctlSent);
      assert ts[..i][1..] == ts[1..][..i - 1];
      OlderFirst(l, s', n, ts[1..], i - 1, j - 1);
    }
  }

  // ----- queues are in order -----

  /** In the order of arrival, numbered up to `last`. */
  predicate Tidy(q: seq<Item>, last: nat)
  {
    Lined(q, 1) && forall i :: 0 <= i < |q| ==> q[i].order <= last
  }

  predicate InOrder(s: State)
  {
    Tidy(s.q.ctl, s.order) && Tidy(s.q.keys, s.order) && Tidy(s.q.media, s.order)
  }

  lemma TidyTail(q: seq<Item>, last: nat)
    requires Tidy(q, last) && q != []
    ensures Tidy(q[1..], last)
  {
  }

  lemma TidyMore(q: seq<Item>, last: nat, it: Item)
    requires Tidy(q, last) && it.order == last + 1
    ensures Tidy(q, last + 1) && Tidy(q + [it], last + 1)
  {
  }

  lemma TidyRelabelled(q: seq<Item>, last: nat, it: Item)
    requires Tidy(q, last) && q != [] && it.order == q[0].order
    ensures Tidy([it] + q[1..], last)
  {
  }

  lemma {:induction false} FilteredLined(q: seq<Item>, keep: seq<bool>, low: nat, last: nat)
    requires Lined(q, low) && forall i :: 0 <= i < |q| ==> q[i].order <= last
    ensures Lined(Filtered(q, keep), low) && forall i :: 0 <= i < |Filtered(q, keep)| ==> Filtered(q, keep)[i].order <= last
    decreases |q|
  {
    if q != [] && keep != [] {
      FilteredLined(q[1..], keep[1..], q[0].order, last);
    }
  }

  lemma FilteredTidy(q: seq<Item>, keep: seq<bool>, last: nat)
    requires Tidy(q, last)
    ensures Tidy(Filtered(q, keep), last)
  {
    FilteredLined(q, keep, 1, last);
  }

  lemma SendInOrder(l: Limits, s: State, pick: Pick)
    requires InOrder(s) && pick != Nothing && Offers(s.q, pick)
    ensures InOrder(SendOne(l, s, pick).s)
  {
    assert Tidy([], s.order);
    hide Tidy, Truncated, Committed;
    match pick
    case Ctl => TidyTail(s.q.ctl, s.order);
    case Key => TidyTail(s.q.keys, s.order);
    case Media => TidyTail(s.q.media, s.order);
  }

  lemma {:induction false} LoopInOrder(l: Limits, s: State, ctlSent: nat)
    requires InOrder(s)
    ensures InOrder(FlushLoop(l, s, ctlSent))
    decreases Waiting(s.q)
  {
    hide InOrder;
    var pick := Choose(s.q, ctlSent);
    if pick != Nothing {
      SendInOrder(l, s, pick);
      if SendOne(l, s, pick).ok {
        LoopInOrder(l, SendOne(l, s, pick).s, if pick == Ctl then ctlSent + 1 else ctlSent);
      }
    }
  }

  lemma CtlInOrder(l: Limits, s: State, header: Header, payload: seq<byte>)
    requires InOrder(s)
    ensures InOrder(CtlEnqueue(l, s, header, payload))
  {
    assert Tidy([], s.order);
    hide Tidy, Truncated, CtlUsed;
    var it := Item(header.(sessionId := s.sessionId), payload, s.order + 1);
    TidyMore(s.q.ctl, s.order, it);
    TidyMore(s.q.keys, s.order, it);
    TidyMore(s.q.media, s.order, it);
  }

  lemma {:induction false} LostInOrder(l: Limits, s: State, calls: seq<Sent>)
    requires InOrder(s)
    ensures InOrder(Callbacks(l, s, calls)) && InOrder(Teardown(s))
    decreases |calls|
  {
    assert Tidy([], s.order);
    hide Tidy, CtlEnqueue, Truncated;
    if calls != [] {
      CtlInOrder(l, s, calls[0].header.(kind := KIND_EVENT), calls[0].payload);
      LostInOrder(l, CtlEnqueue(l, s, calls[0].header.(kind := KIND_EVENT), calls[0].payload), calls[1..]);
    }
  }

  lemma GoodbyeInOrder(l: Limits, s: State, calls: seq<Sent>, header: Header)
    requires InOrder(s)
    ensures InOrder(OnGoodbye(l, s, calls, header))
  {
    LostInOrder(l, s, calls);
    hide Tidy, CtlEnqueue, Teardown, Callbacks;
    LostInOrder(l, Teardown(s), calls);
    var s1 := Callbacks(l, Teardown(s), calls).(port := s.port);
    var reply := header.(kind := KIND_RESPONSE, opcode := OP_GOODBYE);
    CtlInOrder(l, s1, reply, []);
    var s2 := CtlEnqueue(l, s1, reply, []);
    if s2.q.ctl != [] {
      TidyRelabelled(s2.q.ctl, s2.order, s2.q.ctl[0].(header := s2.q.ctl[0].header.(sessionId := s.sessionId)));
    }
  }

  lemma HelloInOrder(l: Limits, s: State, calls: seq<Sent>, header: Header, payload: seq<byte>)
    requires InOrder(s)
    ensures InOrder(OnHello(l, s, calls, header, payload))
  {
    hide Tidy, CtlEnqueue, Teardown, Callbacks;
    LostInOrder(l, s, calls);
    LostInOrder(l, Teardown(s), calls);
    CtlInOrder(l, Created(Callbacks(l, Teardown(s), calls)), HelloReply(header), payload);
  }

  lemma AddedInOrder(s: State, it: Item)
    requires InOrder(s) && it.order == s.order + 1
    ensures InOrder(s.(order := s.order + 1, q := s.q.(keys := s.q.keys + [it])))
    ensures InOrder(s.(order := s.order + 1, q := s.q.(media := s.q.media + [it])))
  {
    hide Tidy;
    TidyMore(s.q.ctl, s.order, it);
    TidyMore(s.q.keys, s.order, it);
    TidyMore(s.q.media, s.order, it);
  }

  lemma StepInOrder(l: Limits, s: State, ev: Event)
    requires InOrder(s)
    ensures InOrder(Step(l, s, ev))
  {
    assert Tidy([], s.order);
    hide Tidy, CtlEnqueue, Teardown, Callbacks, OnHello, OnGoodbye, FlushLoop;
    match ev
    case Reply(h, p) => CtlInOrder(l, s, h, p);
    case KeyState(h, p) => AddedInOrder(s, Item(h, p, s.order + 1));
    case MediaRecord(h, p) => AddedInOrder(s, Item(h, p, s.order + 1));
    case MediaDiscard(keep) => FilteredTidy(s.q.media, keep, s.order);
    case Flushed(before, _) => LoopInOrder(l, s.(port := Drain(s.port, before)), 0);
    case Lost(calls) =>
      LostInOrder(l, s, calls);
      LostInOrder(l, Teardown(s), calls);
    case Hello(calls, h, p) => HelloInOrder(l, s, calls, h, p);
    case Goodbye(calls, h) => GoodbyeInOrder(l, s, calls, h);
    case _ =>
  }

  /** Reports from inside a teardown do not bring the session back. */
  lemma {:induction false} StaysDown(l: Limits, t: State, calls: seq<Sent>)
    requires !t.active
    ensures !Callbacks(l, t, calls).active
    decreases |calls|
  {
    if calls != [] {
      StaysDown(l, CtlEnqueue(l, t, calls[0].header.(kind := KIND_EVENT), calls[0].payload), calls[1..]);
    }
  }

  lemma {:induction false} RunInOrder(l: Limits, s: State, evs: seq<Event>)
    requires InOrder(s)
    ensures InOrder(Run(l, s, evs))
    decreases |evs|
  {
    if evs != [] {
      StepInOrder(l, s, evs[0]);
      RunInOrder(l, Step(l, s, evs[0]), evs[1..]);
    }
  }

  /** In every reachable state one flush sends in the order of arrival: a frame that goes out
      before the fourth control frame is older than everything that follows it. */
  lemma OldestFirst(l: Limits, evs: seq<Event>, before: nat, ts: seq<Turn>, i: nat, j: nat)
    requires var s := Run(l, BOOT, evs); ts == Turns(l, s.(port := Drain(s.port, before)), 0)
    requires i < j < |ts| && Controls(ts[..i]) < CTL_FLUSH_BURST
    ensures ts[i].order <= ts[j].order
  {
    RunInOrder(l, BOOT, evs);
    var s := Run(l, BOOT, evs);
    OlderFirst(l, s.(port := Drain(s.port, before)), 0, ts, i, j);
  }
}
