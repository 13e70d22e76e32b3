/** Sequence numbers over every run: which sessions count 1, 2, 3, ... and which begin with the
    reply to their HELLO. */
module TxSeqProof {
  import opened Bytes
  import opened Frame
  import opened Session
  import SessionProof

  // ----- sequence numbers -----

  /** The frames of one session, in order. */
  ghost function Of(fs: seq<Sent>, sid: nat): seq<Sent>
    decreases |fs|
  {
    if fs == [] then []
    else
      var f := fs[|fs| - 1];
      Of(fs[..|fs| - 1], sid) + if f.header.sessionId == sid then [f] else []
  }

  lemma OfSnoc(fs: seq<Sent>, f: Sent, sid: nat)
    ensures Of(fs + [f], sid) == Of(fs, sid) + if f.header.sessionId == sid then [f] else []
  {
    assert (fs + [f])[..|fs|] == fs;
  }

  lemma {:induction false} OfPrefix(fs: seq<Sent>, n: nat, sid: nat)
    requires n <= |fs|
    ensures Of(fs[..n], sid) <= Of(fs, sid)
    decreases |fs|
  {
    if n < |fs| {
      assert fs[..|fs| - 1][..n] == fs[..n];
      OfPrefix(fs[..|fs| - 1], n, sid);
    } else {
      assert fs[..n] == fs;
    }
  }

  predicate IsHello(h: Header)
  {
    h.kind == KIND_RESPONSE && h.opcode == OP_HELLO
  }

  /** 1, 2, 3, ... with no gap. */
  predicate Counted(os: seq<Sent>)
  {
    forall i :: 0 <= i < |os| ==> os[i].header.txSeq == i + 1
  }

  /** Two things that can happen to a session, seen from outside: a GOODBYE that arrived before
      its first frame was committed, and a HELLO whose teardown left events queued. */
  datatype Marks = Marks(early: set<nat>, delayed: set<nat>)

  ghost function Marked(l: Limits, s: State, m: Marks, ev: Event): Marks
  {
    match ev
    case Goodbye(_, _) =>
      if s.active && s.txSeq == 1 then Marks(m.early + {s.sessionId}, m.delayed - {s.sessionId}) else m
    case Hello(calls, _, _) =>
      if s.counter < U32_MAX && Callbacks(l, Teardown(s), calls).q.ctl != [] then m.(delayed := m.delayed + {s.counter + 1})
      else m
    case _ => m
  }

  ghost function MarksOf(l: Limits, s: State, m: Marks, evs: seq<Event>): Marks
    decreases |evs|
  {
    if evs == [] then m else MarksOf(l, Step(l, s, evs[0]), Marked(l, s, m, evs[0]), evs[1..])
  }

  // ----- the invariant -----

  predicate Sessions(q: seq<Item>, sid: nat)
  {
    forall i :: 0 <= i < |q| ==> q[i].header.sessionId == sid
  }

  /** Events from before the session, then its own. */
  predicate Mixed(q: seq<Item>, sid: nat)
  {
    forall i :: 0 <= i < |q| ==> q[i].header.sessionId == 0 || q[i].header.sessionId == sid
  }

  predicate Later(q: seq<Item>, order: nat)
  {
    forall i :: 0 <= i < |q| ==> order < q[i].order
  }

  predicate Issued(q: seq<Item>, order: nat)
  {
    forall i :: 0 <= i < |q| ==> 0 < q[i].order <= order
  }

  /** The head of the control queue is ahead of everything else. */
  predicate HeadWaits(q: Queues)
  {
    && q.ctl != []
    && Later(q.ctl[1..], q.ctl[0].order) && Later(q.keys, q.ctl[0].order) && Later(q.media, q.ctl[0].order)
  }

  /** What the frames of session `g` look like. */
  ghost predicate Past(m: Marks, g: nat, os: seq<Sent>)
  {
    if g in m.delayed then os != [] ==> os[0].header.txSeq > 1
    else Counted(os) && (os != [] ==> (IsHello(os[0].header) <==> g !in m.early))
  }

  predicate MarksOk(m: Marks, counter: nat)
  {
    (forall g :: g in m.early ==> g <= counter) && (forall g :: g in m.delayed ==> g <= counter)
  }

  ghost predicate History(fs: seq<Sent>, counter: nat, m: Marks)
  {
    && (forall g: nat {:trigger Of(fs, g)} :: 0 < g ==> Past(m, g, Of(fs, g)))
    && (forall g: nat {:trigger Of(fs, g)} :: counter < g ==> Of(fs, g) == [])
    && MarksOk(m, counter)
  }

  ghost predicate Live(s: State, m: Marks)
  {
    && s.sessionId == s.counter && s.counter > 0 && s.txSeq > 0 && s.sessionId !in m.early
    && (s.txSeq == 1 ==> HeadWaits(s.q) && Of(s.port.frames, s.sessionId) == [])
    && if s.sessionId in m.delayed then
         Mixed(s.q.ctl, s.sessionId) && (s.txSeq == 1 ==> s.q.ctl[0].header.sessionId == 0)
       else
         && Sessions(s.q.ctl, s.sessionId) && |Of(s.port.frames, s.sessionId)| == s.txSeq - 1
         && (s.txSeq == 1 ==> IsHello(s.q.ctl[0].header))
  }

  /** Without a session only the head of the control queue may still belong to one. */
  ghost predicate Idle(s: State, m: Marks)
  {
    && s.sessionId == 0 && s.q.keys == [] && s.q.media == []
    && (s.q.ctl != [] ==> Sessions(s.q.ctl[1..], 0) && Farewell(s, m, s.q.ctl[0].header))
  }

  ghost predicate Farewell(s: State, m: Marks, h: Header)
  {
    var g := h.sessionId;
    g == 0
    || (&& 0 < s.txSeq && g <= s.counter
        && if g in m.delayed then s.txSeq > 1
           else |Of(s.port.frames, g)| == s.txSeq - 1 && (s.txSeq == 1 ==> g in m.early && !IsHello(h)))
  }

  ghost predicate Inv(s: State, m: Marks)
  {
    && Issued(s.q.ctl, s.order) && Issued(s.q.keys, s.order) && Issued(s.q.media, s.order)
    && History(s.port.frames, s.counter, m) && (if s.active then Live(s, m) else Idle(s, m))
  }

  // ----- teardown and enqueue -----

  lemma CutHistory(fs: seq<Sent>, n: nat, counter: nat, m: Marks)
    requires History(fs, counter, m) && n <= |fs|
    ensures History(fs[..n], counter, m)
  {
    forall g: nat
      ensures Of(fs[..n], g) <= Of(fs, g)
    {
      OfPrefix(fs, n, g);
    }
  }

  lemma TeardownInv(s: State, m: Marks)
    requires History(s.port.frames, s.counter, m)
    ensures Inv(Teardown(s), m)
  {
    CutHistory(s.port.frames, Survivors(Images(s.port.frames), |s.port.taken|), s.counter, m);
  }

  lemma DrainInv(s: State, m: Marks, n: nat)
    requires Inv(s, m)
    ensures Inv(s.(port := Drain(s.port, n)), m)
  {
  }

  lemma PushedInv(s: State, m: Marks, header: Header, payload: seq<byte>)
    requires Inv(s, m)
    ensures Inv(Pushed(s, header, payload), m)
  {
    var ctl, ctl' := s.q.ctl, Pushed(s, header, payload).q.ctl;
    if ctl != [] {
      assert ctl'[1..] == ctl[1..] + [ctl'[|ctl|]] && ctl'[0] == ctl[0];
    } else {
      assert ctl'[1..] == [];
    }
  }

  lemma CtlEnqueueInv(l: Limits, s: State, m: Marks, header: Header, payload: seq<byte>)
    requires Inv(s, m)
    ensures Inv(CtlEnqueue(l, s, header, payload), m)
  {
    if CtlEnqueue(l, s, header, payload) == Teardown(s) {
      TeardownInv(s, m);
    } else {
      PushedInv(s, m, header, payload);
    }
  }

  // ----- committing -----

  /** One more frame at the end of the history. */
  lemma CommitHistory(fs: seq<Sent>, counter: nat, m: Marks, f: Sent)
    requires History(fs, counter, m) && f.header.sessionId <= counter
    requires var g := f.header.sessionId; g != 0 ==> Past(m, g, Of(fs, g) + [f])
    ensures History(fs + [f], counter, m)
    ensures forall k: nat :: Of(fs + [f], k) == Of(fs, k) + if f.header.sessionId == k then [f] else []
  {
    forall k: nat
      ensures Of(fs + [f], k) == Of(fs, k) + if f.header.sessionId == k then [f] else []
    {
      OfSnoc(fs, f, k);
    }
  }

  /** The next number fits the history of the session. */
  lemma PastGrows(m: Marks, g: nat, os: seq<Sent>, f: Sent)
    requires Past(m, g, os) && f.header.txSeq > 0
    requires if g in m.delayed then f.header.txSeq > 1
             else f.header.txSeq == |os| + 1 && (os == [] ==> (IsHello(f.header) <==> g !in m.early))
    ensures Past(m, g, os + [f])
  {
  }

  /** The frame may be committed now. */
  ghost predicate Due(s: State, m: Marks, h: Header)
  {
    var g := h.sessionId;
    g == 0
    || (&& g <= s.counter && s.txSeq > 0
        && if g in m.delayed then s.txSeq > 1
           else |Of(s.port.frames, g)| == s.txSeq - 1 && (s.txSeq == 1 ==> (IsHello(h) <==> g !in m.early)))
  }

  lemma Appended(l: Limits, s: State, header: Header, payload: seq<byte>)
    requires TryFrame(l, s, header, payload).ok
    ensures var f := Sent(Complete(header, s.txSeq, |payload|), payload);
      && TryFrame(l, s, header, payload).s == s.(txSeq := s.txSeq + 1, port := Committed(s.port, f)) && s.txSeq > 0
      && f.header.sessionId == header.sessionId && f.header.txSeq == s.txSeq && f.header.kind == header.kind && f.header.opcode == header.opcode
  {
  }

  lemma CommitFrame(l: Limits, s: State, m: Marks, header: Header, payload: seq<byte>)
    requires History(s.port.frames, s.counter, m) && Due(s, m, header) && TryFrame(l, s, header, payload).ok
    ensures var t := TryFrame(l, s, header, payload);
            var g := header.sessionId;
            && t.s == s.(txSeq := s.txSeq + 1, port := t.s.port) && History(t.s.port.frames, s.counter, m) && t.s.txSeq > 1
            && (g != 0 && g !in m.delayed ==> |Of(t.s.port.frames, g)| == t.s.txSeq - 1)
            && (forall k: nat :: k != g ==> Of(t.s.port.frames, k) == Of(s.port.frames, k))
  {
    var f := Sent(Complete(header, s.txSeq, |payload|), payload);
    var g := header.sessionId;
    Appended(l, s, header, payload);
    if g != 0 {
      PastGrows(m, g, Of(s.port.frames, g), f);
    }
    CommitHistory(s.port.frames, s.counter, m, f);
  }

  /** A refused frame changes nothing but a session without numbers left. */
  lemma RefusedInv(l: Limits, s: State, m: Marks, header: Header, payload: seq<byte>)
    requires Inv(s, m) && !TryFrame(l, s, header, payload).ok
    ensures Inv(TryFrame(l, s, header, payload).s, m)
  {
    TeardownInv(s, m);
  }

  lemma SendCtlInv(l: Limits, s: State, m: Marks)
    requires Inv(s, m) && s.q.ctl != []
    ensures var t := SendOne(l, s, Ctl);
            Inv(t.s, m) && (t.ok ==> t.s.txSeq > 1)
  {
    var it := s.q.ctl[0];
    if TryFrame(l, s, it.header, it.payload).ok {
      assert Due(s, m, it.header);
      CommitFrame(l, s, m, it.header, it.payload);
    } else {
      RefusedInv(l, s, m, it.header, it.payload);
    }
  }

  lemma SendKeyInv(l: Limits, s: State, m: Marks)
    requires Inv(s, m) && s.q.keys != [] && s.txSeq != 1
    ensures var t := SendOne(l, s, Key);
            Inv(t.s, m) && (t.ok ==> t.s.txSeq > 1)
  {
    var it := s.q.keys[0];
    var h := it.header.(sessionId := s.sessionId);
    if TryFrame(l, s, h, it.payload).ok {
      CommitFrame(l, s, m, h, it.payload);
    } else {
      RefusedInv(l, s, m, h, it.payload);
    }
  }

  lemma SendMediaInv(l: Limits, s: State, m: Marks)
    requires Inv(s, m) && s.q.media != [] && s.txSeq != 1
    ensures var t := SendOne(l, s, Media);
            Inv(t.s, m) && (t.ok ==> t.s.txSeq > 1)
  {
    var it := s.q.media[0];
    var h := it.header.(sessionId := s.sessionId);
    if TryFrame(l, s, h, it.payload).ok {
      CommitFrame(l, s, m, h, it.payload);
    } else {
      RefusedInv(l, s, m, h, it.payload);
    }
  }

  /** A control head that is ahead of everything is what the scheduler picks first. */
  lemma ChooseHead(q: Queues)
    requires HeadWaits(q) && q.ctl[0].order > 0
    ensures Choose(q, 0) == Ctl
  {
  }

  lemma {:induction false} FlushLoopInv(l: Limits, s: State, m: Marks, ctlSent: nat)
    requires Inv(s, m) && (ctlSent > 0 ==> s.txSeq > 1)
    ensures Inv(FlushLoop(l, s, ctlSent), m)
    decreases Waiting(s.q)
  {
    var pick := Choose(s.q, ctlSent);
    if pick != Nothing {
      if s.txSeq == 1 && s.active { ChooseHead(s.q); }
      match pick {
        case Ctl => SendCtlInv(l, s, m);
        case Key => SendKeyInv(l, s, m);
        case Media => SendMediaInv(l, s, m);
      }
      var t := SendOne(l, s, pick);
      if t.ok {
        FlushLoopInv(l, t.s, m, if pick == Ctl then ctlSent + 1 else ctlSent);
      }
    }
  }

  // ----- callbacks, HELLO and GOODBYE -----

  /** No session and nothing queued but events. */
  predicate Bare(s: State)
  {
    !s.active && s.sessionId == 0 && s.q.keys == [] && s.q.media == [] && Sessions(s.q.ctl, 0)
    && Rising(s.q.ctl)
  }

  /** Order numbers rise along the queue. */
  predicate Rising(q: seq<Item>)
  {
    forall i, j :: 0 <= i < j < |q| ==> q[i].order < q[j].order
  }

  lemma {:induction false} CallbacksInv(l: Limits, s: State, m: Marks, calls: seq<Sent>)
    requires Inv(s, m) && Bare(s) && (s.q.ctl != [] ==> s.q.ctl[0].header.kind == KIND_EVENT)
    ensures var t := Callbacks(l, s, calls);
            Inv(t, m) && Bare(t) && t.counter == s.counter && (t.q.ctl != [] ==> t.q.ctl[0].header.kind == KIND_EVENT)
    decreases |calls|
  {
    if calls != [] {
      var h := calls[0].header.(kind := KIND_EVENT);
      CtlEnqueueInv(l, s, m, h, calls[0].payload);
      CallbacksInv(l, CtlEnqueue(l, s, h, calls[0].payload), m, calls[1..]);
    }
  }

  lemma TornDown(s: State, m: Marks)
    requires History(s.port.frames, s.counter, m)
    ensures Inv(Teardown(s), m) && Bare(Teardown(s))
  {
    TeardownInv(s, m);
  }

  /** A new session has no frames yet. */
  lemma NewHistory(fs: seq<Sent>, counter: nat, m: Marks)
    requires History(fs, counter, m)
    ensures Of(fs, counter + 1) == [] && counter + 1 !in m.early && counter + 1 !in m.delayed
    ensures History(fs, counter + 1, m) && History(fs, counter + 1, m.(delayed := m.delayed + {counter + 1}))
  {
    assert Of(fs, counter + 1) == [];
    var m' := m.(delayed := m.delayed + {counter + 1});
    assert MarksOk(m, counter + 1) && MarksOk(m', counter + 1);
    forall g: nat | 0 < g
      ensures Past(m', g, Of(fs, g))
    {
      assert Past(m, g, Of(fs, g));
    }
  }

  /** The queue of a new session: events from before it, then the reply to HELLO. */
  lemma NewQueue(s: State, h: Header, payload: seq<byte>)
    requires Bare(s) && Issued(s.q.ctl, s.order) && s.counter < U32_MAX
    ensures var t := Pushed(Created(s), h, payload);
            && Issued(t.q.ctl, t.order) && HeadWaits(t.q) && t.q.keys == [] && t.q.media == []
            && Mixed(t.q.ctl, s.counter + 1)
            && (if s.q.ctl == [] then Sessions(t.q.ctl, s.counter + 1) && t.q.ctl[0].header == h.(sessionId := s.counter + 1)
                else t.q.ctl[0] == s.q.ctl[0])
  {
    var t := Pushed(Created(s), h, payload);
    Behind(s.q.ctl, t.q.ctl[|s.q.ctl|], s.order);
  }

  /** One more item behind those that were issued before it. */
  lemma Behind(q: seq<Item>, it: Item, order: nat)
    requires Issued(q, order) && it.order == order + 1 && (q != [] ==> Later(q[1..], q[0].order))
    ensures Issued(q + [it], order + 1) && Later((q + [it])[1..], (q + [it])[0].order)
  {
    if q == [] {
      assert (q + [it])[1..] == [];
    } else {
      assert (q + [it])[1..] == q[1..] + [it];
    }
  }

  ghost function HelloMarks(s: State, m: Marks): Marks
  {
    if s.q.ctl != [] then m.(delayed := m.delayed + {s.counter + 1}) else m
  }

  /** A new session on a queue that holds only events from before it. */
  lemma CreatedInv(s: State, m: Marks, h: Header, payload: seq<byte>)
    requires Inv(s, m) && Bare(s) && s.counter < U32_MAX && IsHello(h)
    ensures Inv(Pushed(Created(s), h, payload), HelloMarks(s, m))
    ensures Inv(Teardown(Created(s)), HelloMarks(s, m))
  {
    NewHistory(s.port.frames, s.counter, m);
    NewQueue(s, h, payload);
    TeardownInv(Created(s), HelloMarks(s, m));
    var t := Pushed(Created(s), h, payload);
    assert Live(t, HelloMarks(s, m));
  }

  lemma HelloInv(l: Limits, s: State, m: Marks, calls: seq<Sent>, header: Header, payload: seq<byte>)
    requires Inv(s, m)
    ensures Inv(OnHello(l, s, calls, header, payload), Marked(l, s, m, Hello(calls, header, payload)))
  {
    TornDown(s, m);
    var s0 := Callbacks(l, Teardown(s), calls);
    CallbacksInv(l, Teardown(s), m, calls);
    HelloMarked(l, s, m, calls, header, payload);
    AnsweredInv(l, s0, m, HelloReply(header), payload);
  }

  lemma HelloMarked(l: Limits, s: State, m: Marks, calls: seq<Sent>, header: Header, payload: seq<byte>)
    ensures var s0 := Callbacks(l, Teardown(s), calls);
            && Marked(l, s, m, Hello(calls, header, payload)) == (if s0.counter < U32_MAX then HelloMarks(s0, m) else m)
            && OnHello(l, s, calls, header, payload) == CtlEnqueue(l, Created(s0), HelloReply(header), payload)
  {
    CallbacksKeep(l, Teardown(s), calls);
  }

  /** `session_create` after its teardown, then the reply. */
  lemma AnsweredInv(l: Limits, s: State, m: Marks, h: Header, payload: seq<byte>)
    requires Inv(s, m) && Bare(s) && IsHello(h)
    ensures Inv(CtlEnqueue(l, Created(s), h, payload), if s.counter < U32_MAX then HelloMarks(s, m) else m)
  {
    if s.counter == U32_MAX {
      CtlEnqueueInv(l, s, m, h, payload);
    } else {
      CreatedInv(s, m, h, payload);
    }
  }

  lemma MismatchInv(l: Limits, s: State, m: Marks, header: Header, payload: seq<byte>)
    requires Inv(s, m)
    ensures Inv(OnMismatch(l, s, header, payload), m)
  {
    if |payload| <= MAX_PAYLOAD {
      CommitHistory(s.port.frames, s.counter, m, Sent(Complete(header.(sessionId := 0), 1, |payload|), payload));
    }
  }

  /** The history with the marks of a GOODBYE. */
  lemma GoodbyeHistory(l: Limits, s: State, m: Marks, ev: Event)
    requires Inv(s, m) && s.active && ev.Goodbye?
    ensures History(s.port.frames, s.counter, Marked(l, s, m, ev))
  {
    assert Of(s.port.frames, s.sessionId) == [] || s.txSeq > 1 || s.sessionId !in m.delayed;
  }

  /** The head of the queue takes the closing session's identity. */
  lemma RelabelledInv(s: State, m: Marks, g: u32)
    requires Inv(s, m) && Bare(s) && s.q.ctl != [] && 0 < g <= s.counter && !IsHello(s.q.ctl[0].header)
    requires Farewell(s, m, s.q.ctl[0].header.(sessionId := g))
    ensures var it := s.q.ctl[0].(header := s.q.ctl[0].header.(sessionId := g));
            Inv(s.(q := s.q.(ctl := [it] + s.q.ctl[1..])), m)
  {
    var it := s.q.ctl[0].(header := s.q.ctl[0].header.(sessionId := g));
    assert ([it] + s.q.ctl[1..])[1..] == s.q.ctl[1..];
  }

  lemma GoodbyeInv(l: Limits, s: State, m: Marks, calls: seq<Sent>, header: Header)
    requires Inv(s, m) && s.active
    ensures Inv(OnGoodbye(l, s, calls, header), Marked(l, s, m, Goodbye(calls, header)))
  {
    var m' := Marked(l, s, m, Goodbye(calls, header));
    GoodbyeHistory(l, s, m, Goodbye(calls, header));
    TornDown(s, m');
    CallbacksInv(l, Teardown(s), m', calls);
    CallbacksKeep(l, Teardown(s), calls);
    var s0 := Callbacks(l, Teardown(s), calls);
    RestoredInv(s0, m', s.port);
    LeavingInv(l, s, m, s0.(port := s.port), calls, header);
  }

  /** The closing session may still send one frame. */
  lemma LeavingInv(l: Limits, s: State, m: Marks, s1: State, calls: seq<Sent>, header: Header)
    requires Live(s, m) && s.active && s1 == Callbacks(l, Teardown(s), calls).(port := s.port)
    requires s1.txSeq == s.txSeq && s1.counter == s.counter && Bare(s1)
    requires s1.q.ctl != [] ==> s1.q.ctl[0].header.kind == KIND_EVENT
    requires Inv(s1, Marked(l, s, m, Goodbye(calls, header)))
    ensures Inv(OnGoodbye(l, s, calls, header), Marked(l, s, m, Goodbye(calls, header)))
  {
    ClosedInv(l, s1, Marked(l, s, m, Goodbye(calls, header)), header.(kind := KIND_RESPONSE, opcode := OP_GOODBYE), s.sessionId);
  }

  /** The committed frames come back. */
  lemma RestoredInv(s: State, m: Marks, p: Port)
    requires Inv(s, m) && Bare(s) && History(p.frames, s.counter, m)
    ensures Inv(s.(port := p), m) && Bare(s.(port := p))
  {
  }

  /** The reply to GOODBYE, and the head of the queue relabelled. */
  lemma ClosedInv(l: Limits, s: State, m: Marks, h: Header, g: u32)
    requires Inv(s, m) && Bare(s) && 0 < g <= s.counter && h.kind == KIND_RESPONSE && h.opcode == OP_GOODBYE
    requires s.q.ctl != [] ==> s.q.ctl[0].header.kind == KIND_EVENT
    requires forall k: Header :: k.sessionId == g && !IsHello(k) ==> Farewell(s, m, k)
    ensures var t := CtlEnqueue(l, s, h, []);
            Inv(if t.q.ctl == [] then t
                else t.(q := t.q.(ctl := [t.q.ctl[0].(header := t.q.ctl[0].header.(sessionId := g))] + t.q.ctl[1..])), m)
  {
    var t := CtlEnqueue(l, s, h, []);
    CtlEnqueueInv(l, s, m, h, []);
    if t.q.ctl != [] {
      assert t == Pushed(s, h, []);
      RelabelledInv(t, m, g);
    }
  }

  /** Callbacks do not touch the numbering. */
  lemma {:induction false} CallbacksKeep(l: Limits, s: State, calls: seq<Sent>)
    ensures Callbacks(l, s, calls).txSeq == s.txSeq && Callbacks(l, s, calls).counter == s.counter
    decreases |calls|
  {
    if calls != [] {
      CallbacksKeep(l, CtlEnqueue(l, s, calls[0].header.(kind := KIND_EVENT), calls[0].payload), calls[1..]);
    }
  }

  // ----- every event -----

  lemma {:induction false} FilteredIssued(q: seq<Item>, keep: seq<bool>, low: nat, order: nat)
    requires Issued(q, order) && Later(q, low)
    ensures Issued(Filtered(q, keep), order) && Later(Filtered(q, keep), low)
    decreases |q|
  {
    if q != [] && keep != [] {
      FilteredIssued(q[1..], keep[1..], low, order);
    }
  }

  lemma FilterInv(s: State, m: Marks, keep: seq<bool>)
    requires Inv(s, m)
    ensures Inv(s.(q := s.q.(media := Filtered(s.q.media, keep))), m)
  {
    FilteredIssued(s.q.media, keep, 0, s.order);
    if s.active && s.txSeq == 1 {
      FilteredIssued(s.q.media, keep, s.q.ctl[0].order, s.order);
    }
  }

  lemma FlushInv(l: Limits, s: State, m: Marks, before: nat, after: nat)
    requires Inv(s, m)
    ensures Inv(Flush(l, s, before, after), m)
  {
    var s0 := s.(port := Drain(s.port, before));
    DrainInv(s, m, before);
    FlushLoopInv(l, s0, m, 0);
    DrainInv(FlushLoop(l, s0, 0), m, after);
  }

  lemma QueuedInv(l: Limits, s: State, m: Marks, ev: Event)
    requires Inv(s, m) && (ev.KeyState? || ev.MediaRecord?)
    ensures Inv(Step(l, s, ev), m)
  {
    hide History, Of;
  }

  lemma LostInv(l: Limits, s: State, m: Marks, calls: seq<Sent>)
    requires Inv(s, m)
    ensures Inv(Callbacks(l, Teardown(s), calls), m)
  {
    TornDown(s, m);
    CallbacksInv(l, Teardown(s), m, calls);
  }

  lemma StepInv(l: Limits, s: State, m: Marks, ev: Event)
    requires Inv(s, m)
    ensures Inv(Step(l, s, ev), Marked(l, s, m, ev))
  {
    match ev
    case Reply(h, p) => CtlEnqueueInv(l, s, m, h, p);
    case KeyState(_, _) => QueuedInv(l, s, m, ev);
    case KeysCleared =>
    case MediaRecord(_, _) => QueuedInv(l, s, m, ev);
    case MediaDiscard(keep) => FilterInv(s, m, keep);
    case Flushed(before, after) => FlushInv(l, s, m, before, after);
    case Drained(n) => DrainInv(s, m, n);
    case Lost(calls) => LostInv(l, s, m, calls);
    case Hello(calls, h, p) => HelloInv(l, s, m, calls, h, p);
    case HelloMismatch(h, p) => MismatchInv(l, s, m, h, p);
    case Goodbye(calls, h) => if s.active { GoodbyeInv(l, s, m, calls, h); }
  }

  lemma {:induction false} RunInv(l: Limits, s: State, m: Marks, evs: seq<Event>)
    requires Inv(s, m)
    ensures Inv(Run(l, s, evs), MarksOf(l, s, m, evs))
    decreases |evs|
  {
    if evs != [] {
      StepInv(l, s, m, evs[0]);
      RunInv(l, Step(l, s, evs[0]), Marked(l, s, m, evs[0]), evs[1..]);
    }
  }

  const UNMARKED := Marks({}, {})

  /** From power-up, over every run, for every session that has frames in the output stream:
      they are numbered 1, 2, 3, ... exactly when the teardown of its HELLO left no events
      queued, or the session ended before its first frame. */
  lemma NumberedExactly(l: Limits, evs: seq<Event>, sid: nat)
    requires sid > 0 && Of(Run(l, BOOT, evs).port.frames, sid) != []
    ensures Counted(Of(Run(l, BOOT, evs).port.frames, sid)) <==> sid !in MarksOf(l, BOOT, UNMARKED, evs).delayed
  {
    RunInv(l, BOOT, UNMARKED, evs);
  }

  /** ... and the first of them is the reply to HELLO exactly when no GOODBYE came before it. */
  lemma HelloFirstExactly(l: Limits, evs: seq<Event>, sid: nat)
    requires sid > 0 && Of(Run(l, BOOT, evs).port.frames, sid) != []
    requires sid !in MarksOf(l, BOOT, UNMARKED, evs).delayed
    ensures IsHello(Of(Run(l, BOOT, evs).port.frames, sid)[0].header) <==> sid !in MarksOf(l, BOOT, UNMARKED, evs).early
  {
    RunInv(l, BOOT, UNMARKED, evs);
  }

  /** Backend calls made inside the teardown of a HELLO enqueue nothing. */
  predicate QuietHello(ev: Event)
  {
    ev.Hello? ==> ev.calls == []
  }

  lemma {:induction false} NothingDelayed(l: Limits, s: State, m: Marks, evs: seq<Event>)
    requires m.delayed == {} && forall i :: 0 <= i < |evs| ==> QuietHello(evs[i])
    ensures MarksOf(l, s, m, evs).delayed == {}
    decreases |evs|
  {
    if evs != [] {
      assert QuietHello(evs[0]);
      NothingDelayed(l, Step(l, s, evs[0]), Marked(l, s, m, evs[0]), evs[1..]);
    }
  }

  /** If backend calls made inside the teardown of a HELLO enqueue nothing, whatever other
      teardowns report, every session is numbered 1, 2, 3, ... with no gap. */
  lemma SessionsCount(l: Limits, evs: seq<Event>, sid: nat)
    requires sid > 0 && forall i :: 0 <= i < |evs| ==> QuietHello(evs[i])
    ensures Counted(Of(Run(l, BOOT, evs).port.frames, sid))
  {
    NothingDelayed(l, BOOT, UNMARKED, evs);
    RunInv(l, BOOT, UNMARKED, evs);
  }

  // ----- the two failing inputs -----

  /** Whenever one event is reported from inside the teardown of a HELLO, that event takes number
      1 and the HELLO reply gets number 2. */
  lemma CallbackTakesFirstNumber(l: Limits, s: State, call: Sent, h: Header)
    requires s.port.out == [] && s.counter < U32_MAX && l.ring >= 2 * MAX_ENCODED && l.slots >= 2
    requires call.payload == []
    ensures var fs := FlushLoop(l, OnHello(l, s, [call], h, []), 0).port.frames;
            |fs| >= 2 && fs[|fs| - 2].header.sessionId == 0 && fs[|fs| - 2].header.txSeq == 1
            && IsHello(fs[|fs| - 1].header) && fs[|fs| - 1].header.sessionId == s.counter + 1
            && fs[|fs| - 1].header.txSeq == 2
  {
    var first := Item(call.header.(kind := KIND_EVENT, sessionId := 0), [], s.order + 1);
    var second := Item(HelloReply(h).(sessionId := s.counter + 1), [], s.order + 2);
    HelloAfterCallback(l, s, call, h);
    TwoInOrder(l, OnHello(l, s, [call], h, []), first, second);
  }

  lemma HelloAfterCallback(l: Limits, s: State, call: Sent, h: Header)
    requires s.counter < U32_MAX && l.slots >= 2 && call.payload == []
    ensures var t := OnHello(l, s, [call], h, []);
            && t.q == Queues([Item(call.header.(kind := KIND_EVENT, sessionId := 0), [], s.order + 1),
                              Item(HelloReply(h).(sessionId := s.counter + 1), [], s.order + 2)], [], [])
            && t.txSeq == 1 && t.port == Truncated(s.port)
  {
    var first := Item(call.header.(kind := KIND_EVENT, sessionId := 0), [], s.order + 1);
    CallbackQueued(l, Teardown(s), call);
    var s1 := Created(Pushed(Teardown(s), call.header.(kind := KIND_EVENT), []));
    assert s1.q.ctl == [first];
    assert [first][1..] == [];
  }

  lemma CallbackQueued(l: Limits, s: State, call: Sent)
    requires s.q.ctl == [] && l.slots >= 2 && call.payload == []
    ensures Callbacks(l, s, [call]) == Pushed(s, call.header.(kind := KIND_EVENT), [])
  {
    assert [call][1..] == [];
    assert CtlEnqueue(l, s, call.header.(kind := KIND_EVENT), call.payload) == Pushed(s, call.header.(kind := KIND_EVENT), []);
  }

  /** Two queued control frames and room for both: one flush commits them in order. */
  lemma TwoInOrder(l: Limits, s: State, a: Item, b: Item)
    requires s.q == Queues([a, b], [], []) && 0 < s.txSeq < U32_MAX - 1 && a.payload == b.payload == []
    requires |s.port.out| + 2 * MAX_ENCODED <= l.ring
    ensures FlushLoop(l, s, 0).port.frames
         == s.port.frames + [Sent(Complete(a.header, s.txSeq, 0), [])] + [Sent(Complete(b.header, s.txSeq + 1, 0), [])]
  {
    SessionProof.TryFrameSucceeds(l, s, a.header, []);
    WireShape(Complete(a.header, s.txSeq, 0), []);
    var s1 := SendOne(l, s, Ctl).s;
    assert [a, b][1..] == [b] && [b][1..] == [];
    assert s1.q == Queues([b], [], []);
    SessionProof.TryFrameSucceeds(l, s1, b.header, []);
    var s2 := SendOne(l, s1, Ctl).s;
    assert s2.q == Queues([], [], []);
    assert FlushLoop(l, s1, 1) == FlushLoop(l, s2, 2) == s2;
  }

  /** A client that quotes the coming session in a GOODBYE sent along with its HELLO: the only
      frame of that session is the reply to GOODBYE, with number 1. */
  lemma GoodbyeBeforeHelloReply(l: Limits, h: Header, g: Header)
    requires l.ring >= MAX_ENCODED && l.slots >= 1
    ensures var evs := [Hello([], h, []), Goodbye([], g), Flushed(0, 0)];
            var os := Of(Run(l, BOOT, evs).port.frames, 1);
            |os| == 1 && os[0].header.txSeq == 1 && os[0].header.kind == KIND_RESPONSE && os[0].header.opcode == OP_GOODBYE
  {
    HelloThenGoodbye(l, h, g);
    var s1 := OnHello(l, BOOT, [], h, []);
    var s2 := OnGoodbye(l, s1, [], g);
    BothSteps(l, BOOT, s1, s2, h, g);
    FarewellAlone(l, s2, Item(g.(kind := KIND_RESPONSE, opcode := OP_GOODBYE, sessionId := 1), [], 2));
    TwoThenLast(l, BOOT, Hello([], h, []), Goodbye([], g), Flushed(0, 0));
  }

  lemma BothSteps(l: Limits, s: State, s1: State, s2: State, h: Header, g: Header)
    requires s1 == OnHello(l, s, [], h, []) && s1.active && s2 == OnGoodbye(l, s1, [], g)
    ensures Step(l, s, Hello([], h, [])) == s1 && Step(l, s1, Goodbye([], g)) == s2
    ensures Step(l, s2, Flushed(0, 0)) == Flush(l, s2, 0, 0)
  {
  }

  lemma FarewellAlone(l: Limits, s: State, it: Item)
    requires s.q == Queues([it], [], []) && s.txSeq == 1 && s.port == BOOT.port && it.payload == [] && l.ring >= MAX_ENCODED
    requires it.header.sessionId == 1
    ensures Of(Flush(l, s, 0, 0).port.frames, 1) == [Sent(Complete(it.header, 1, 0), [])]
  {
    OneGoes(l, s, it);
    var f := Sent(Complete(it.header, 1, 0), []);
    OfSnoc([], f, 1);
    assert [] + [f] == [f];
  }

  lemma TwoThenLast(l: Limits, s: State, a: Event, b: Event, c: Event)
    ensures Run(l, s, [a, b, c]) == Step(l, Step(l, Step(l, s, a), b), c)
  {
    assert [a, b, c][1..] == [b, c] && [b, c][1..] == [c];
    var s1 := Step(l, s, a);
    assert Run(l, s, [a, b, c]) == Run(l, s1, [b, c]);
    var s2 := Step(l, s1, b);
    assert Run(l, s1, [b, c]) == Run(l, s2, [c]);
    LastStep(l, s2, c);
  }

  lemma LastStep(l: Limits, s: State, ev: Event)
    ensures Run(l, s, [ev]) == Step(l, s, ev)
  {
    assert [ev][1..] == [];
  }

  lemma HelloThenGoodbye(l: Limits, h: Header, g: Header)
    requires l.slots >= 1
    ensures OnHello(l, BOOT, [], h, []).active
    ensures var s := OnGoodbye(l, OnHello(l, BOOT, [], h, []), [], g);
            && s.q == Queues([Item(g.(kind := KIND_RESPONSE, opcode := OP_GOODBYE, sessionId := 1), [], 2)], [], [])
            && s.txSeq == 1 && s.port == BOOT.port
  {
    var s1 := OnHello(l, BOOT, [], h, []);
    assert s1.port == BOOT.port && s1.order == 1 && s1.sessionId == 1;
    var s2 := Teardown(s1).(port := s1.port);
    assert CtlEnqueue(l, s2, g.(kind := KIND_RESPONSE, opcode := OP_GOODBYE), [])
        == Pushed(s2, g.(kind := KIND_RESPONSE, opcode := OP_GOODBYE), []);
  }

  /** One queued control frame and room for it. */
  lemma OneGoes(l: Limits, s: State, a: Item)
    requires s.q == Queues([a], [], []) && 0 < s.txSeq < U32_MAX && a.payload == []
    requires |s.port.out| + MAX_ENCODED <= l.ring
    ensures Flush(l, s, 0, 0).port.frames == s.port.frames + [Sent(Complete(a.header, s.txSeq, 0), [])]
  {
    var s0 := s.(port := Drain(s.port, 0));
    SessionProof.TryFrameSucceeds(l, s0, a.header, []);
    var s1 := SendOne(l, s0, Ctl).s;
    assert [a][1..] == [];
    assert s1.q == Queues([], [], []);
    assert FlushLoop(l, s0, 0) == FlushLoop(l, s1, 1) == s1;
  }
}
