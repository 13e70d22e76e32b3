/** One session on the wire: the media of a voice run, queued, scheduled among other traffic,
    framed, taken by the transport in part, received and accepted. */
module WireRun {
  import opened Bytes
  import opened Options
  import opened Frame
  import opened HostAudio
  import opened AudioWire
  import V = Voice
  import VP = VoiceProof
  import opened VoiceMoves
  import opened Session
  import opened SessionProof
  import opened EndToEnd
  import R = Receiver
  import opened ClientWire

  // ----- the session's part in each move -----

  /** What happens to the session: a media record of stream `stream` is queued under a
      connection, a stream's records are discarded, or anything else. */
  datatype Doing =
    | Queue(connection: u32, stream: nat, record: Record)
    | Discard(stream: nat)
    | Other(ev: Session.Event)

  /** A header of other traffic, as the server fills it in. */
  predicate Plain(h: Header)
  {
    !MediaOp(h.opcode) && h.flags == 0 && 1 <= h.kind <= KIND_AUDIO
  }

  predicate NoMedia(q: seq<Item>)
  {
    forall i :: 0 <= i < |q| ==> Plain(q[i].header)
  }

  predicate NoMediaSent(fs: seq<Sent>)
  {
    forall i :: 0 <= i < |fs| ==> Plain(fs[i].header.(kind := KIND_EVENT))
  }

  /** The header of `media_flush_one`. */
  function MediaHeader(connection: u32, r: Record): Header
  {
    Header(0, 0, 0, 0, if r.Data? then KIND_AUDIO else KIND_EVENT, 0, 0, 0, 0, 0, Opcode(r), 0, 0, 0, connection)
  }

  /** Other traffic does not use the media opcodes. */
  predicate Apart(d: Doing)
  {
    match d
    case Other(Reply(h, _)) => Plain(h)
    case Other(KeyState(h, _)) => Plain(h)
    case Other(Lost(calls)) => NoMediaSent(calls)
    case Other(Hello(calls, h, _)) => NoMediaSent(calls) && h.flags == 0
    case Other(HelloMismatch(h, _)) => Plain(h)
    case Other(Goodbye(calls, h)) => NoMediaSent(calls) && h.flags == 0
    case Other(MediaRecord(_, _)) => false
    case Other(MediaDiscard(_)) => false
    case _ => true
  }

  /** Which queued records of `Kept` stay. */
  function Keeps(q: seq<V.Queued>, stream: nat): seq<bool>
  {
    if q == [] then [] else [q[0].stream != stream || q[0].record.Started?] + Keeps(q[1..], stream)
  }

  function Do(l: Limits, t: State, tape: Tape, d: Doing): State
  {
    match d
    case Queue(k, _, r) => if tape.live then Step(l, t, MediaRecord(MediaHeader(k, r), Payload(r))) else t
    case Discard(stream) => Step(l, t, MediaDiscard(Keeps(tape.media, stream)))
    case Other(ev) => Step(l, t, ev)
  }

  /** How many media frames one scheduling loop commits. */
  function MediaSent(l: Limits, t: State, ctlSent: nat): nat
    decreases Session.Waiting(t.q)
  {
    var pick := Choose(t.q, ctlSent);
    if pick == Nothing then 0
    else
      var next := SendOne(l, t, pick);
      if !next.ok then 0
      else (if pick == Media then 1 else 0) + MediaSent(l, next.s, if pick == Ctl then ctlSent + 1 else ctlSent)
  }

  /** The same on the media path: a flush takes what it commits; a teardown or the next HELLO
      ends the session. */
  function MovesOf(l: Limits, t: State, d: Doing): seq<Move>
  {
    match d
    case Queue(_, stream, r) => [Put(V.Queued(stream, r))]
    case Discard(stream) => [Drop(stream)]
    case Other(ev) =>
      (match ev
       case Flushed(before, _) => [Take(MediaSent(l, t.(port := Drain(t.port, before)), 0))]
       case _ => [])
      + if Step(l, t, ev).active && !ev.Hello? then [] else [Wipe]
  }

  datatype Both = Both(session: State, tape: Tape)

  function BothStep(l: Limits, b: Both, d: Doing): Both
  {
    Both(Do(l, b.session, b.tape, d), PlayAll(b.tape, MovesOf(l, b.session, d)))
  }

  function BothRun(l: Limits, b: Both, ds: seq<Doing>): Both
    decreases |ds|
  {
    if ds == [] then b else BothRun(l, BothStep(l, b, ds[0]), ds[1..])
  }

  // ----- the invariant -----

  function Since<T>(s: seq<T>, base: nat): seq<T>
  {
    if base <= |s| then s[base..] else []
  }

  /** An item with the octets of a queued record. */
  predicate Holds(it: Item, m: V.Queued)
  {
    Labelled(it.header, m.record) && it.header.flags == 0 && it.payload == Payload(m.record)
  }

  predicate Same(items: seq<Item>, q: seq<V.Queued>)
    decreases |q|
  {
    |items| == |q| && (q != [] ==> Holds(items[0], q[0]) && Same(items[1..], q[1..]))
  }

  lemma {:induction false} SameSnoc(items: seq<Item>, q: seq<V.Queued>, it: Item, m: V.Queued)
    requires Same(items, q) && Holds(it, m)
    ensures Same(items + [it], q + [m])
    decreases |q|
  {
    if q == [] {
      assert items + [it] == [it] && q + [m] == [m] && [it][1..] == [] && [m][1..] == [];
    } else {
      assert (items + [it])[1..] == items[1..] + [it] && (q + [m])[1..] == q[1..] + [m];
      SameSnoc(items[1..], q[1..], it, m);
    }
  }

  ghost predicate Told(fs: seq<Sent>, rs: seq<Record>)
  {
    exists n: nat :: n <= |rs| && Carries(fs, rs[..n])
  }

  /** Frames since `base` carry the committed records, all of them while the session lives. */
  ghost predicate Linked(b: Both, base: nat)
  {
    var t, tape := b.session, b.tape;
    && NoMedia(t.q.ctl) && NoMedia(t.q.keys) && Same(t.q.media, tape.media)
    && Told(Since(t.port.frames, base), tape.committed)
    && if tape.live then t.active && base <= |t.port.frames| && Carries(t.port.frames[base..], tape.committed)
       else tape.media == []
  }

  lemma ToldAll(fs: seq<Sent>, rs: seq<Record>)
    requires Carries(fs, rs)
    ensures Told(fs, rs)
  {
    assert rs[..|rs|] == rs;
  }

  /** A prefix of the frames tells a prefix of the records. */
  lemma ToldCut(fs: seq<Sent>, base: nat, rs: seq<Record>, k: nat) returns (n: nat)
    requires Told(Since(fs, base), rs) && k <= |fs|
    ensures n <= |rs| && Carries(Since(fs[..k], base), rs[..n])
  {
    var m: nat :| m <= |rs| && Carries(Since(fs, base), rs[..m]);
    var j := if base <= k then k - base else 0;
    assert Since(fs[..k], base) == Since(fs, base)[..j];
    n := CarriesPrefix(Since(fs, base), rs[..m], j);
    assert rs[..m][..n] == rs[..n];
  }

  lemma ToldOther(fs: seq<Sent>, rs: seq<Record>, f: Sent)
    requires Told(fs, rs) && !MediaOp(f.header.opcode) && Decent(f.header, f.payload)
    ensures Told(fs + [f], rs)
  {
    var n: nat :| n <= |rs| && Carries(fs, rs[..n]);
    CarriesSnoc(fs, rs[..n], f, []);
    assert rs[..n] + [] == rs[..n];
  }

  /** A frame of other traffic changes nothing. */
  lemma OtherFrame(b: Both, base: nat, f: Sent, t': State)
    requires Linked(b, base) && !MediaOp(f.header.opcode) && Decent(f.header, f.payload)
    requires t'.port.frames == b.session.port.frames + [f] && (b.session.active ==> t'.active)
    requires NoMedia(t'.q.ctl) && NoMedia(t'.q.keys) && t'.q.media == b.session.q.media
    ensures Linked(Both(t', b.tape), base)
  {
    var fs := b.session.port.frames;
    if base <= |fs| {
      assert (fs + [f])[base..] == fs[base..] + [f];
      ToldOther(fs[base..], b.tape.committed, f);
      if b.tape.live {
        CarriesSnoc(fs[base..], b.tape.committed, f, []);
        assert b.tape.committed + [] == b.tape.committed;
      }
    } else {
      assert Since(fs + [f], base) == [];
    }
  }

  lemma MediaFrame(b: Both, base: nat, f: Sent, t': State)
    requires Linked(b, base) && b.tape.live && b.tape.media != []
    requires Matches(f, b.tape.media[0].record) && Decent(f.header, f.payload)
    requires t' == b.session.(txSeq := t'.txSeq, port := t'.port, q := b.session.q.(media := b.session.q.media[1..]))
    requires t'.port.frames == b.session.port.frames + [f]
    ensures Linked(Both(t', TakeHead(b.tape)), base)
  {
    var fs, tape := b.session.port.frames, b.tape;
    var head := tape.media[0].record;
    assert (fs + [f])[base..] == fs[base..] + [f];
    CarriesSnoc(fs[base..], tape.committed, f, [head]);
    ToldAll(t'.port.frames[base..], tape.committed + [head]);
  }

  /** A teardown keeps a prefix of the frames and ends the session. */
  lemma TeardownLinked(b: Both, base: nat)
    requires Linked(b, base)
    ensures Linked(Both(Teardown(b.session), Play(b.tape, Wipe)), base)
  {
    var fs := b.session.port.frames;
    var n := ToldCut(fs, base, b.tape.committed, Survivors(Images(fs), |b.session.port.taken|));
  }

  // ----- one flush -----

  /** A frame is appended, the session is torn down, or nothing happens. */
  lemma Tried(l: Limits, t: State, h: Header, p: seq<byte>)
    ensures var next := TryFrame(l, t, h, p);
      if next.ok then
        var f := Sent(Complete(h, t.txSeq, |p|), p);
        next.s == t.(txSeq := next.s.txSeq, port := Committed(t.port, f)) && |p| <= MAX_PAYLOAD
      else next.s == t || next.s == Teardown(t)
  {
  }

  function Over(tape: Tape, active: bool): Tape
  {
    if active then tape else Play(tape, Wipe)
  }

  /** One turn of the scheduling loop, on both sides. */
  ghost function Turn(l: Limits, b: Both, pick: Pick): Both
    requires pick != Nothing && Offers(b.session.q, pick)
  {
    var next := SendOne(l, b.session, pick);
    if !next.ok then Both(next.s, Over(b.tape, next.s.active))
    else if pick == Media && b.tape.media != [] then Both(next.s, TakeHead(b.tape))
    else Both(next.s, b.tape)
  }

  lemma OtherTurn(l: Limits, b: Both, base: nat, pick: Pick)
    requires Linked(b, base) && (pick == Ctl || pick == Key) && Offers(b.session.q, pick)
    requires SendOne(l, b.session, pick).ok
    ensures Linked(Turn(l, b, pick), base)
  {
    var t := b.session;
    var h := if pick == Ctl then t.q.ctl[0].header else t.q.keys[0].header.(sessionId := t.sessionId);
    var p := if pick == Ctl then t.q.ctl[0].payload else t.q.keys[0].payload;
    Tried(l, t, h, p);
    OtherFrame(b, base, Sent(Complete(h, t.txSeq, |p|), p), SendOne(l, t, pick).s);
  }

  lemma MediaTurn(l: Limits, b: Both, base: nat)
    requires Linked(b, base) && b.session.q.media != [] && SendOne(l, b.session, Media).ok
    ensures Linked(Turn(l, b, Media), base)
  {
    var t := b.session;
    var h, p := t.q.media[0].header.(sessionId := t.sessionId), t.q.media[0].payload;
    Tried(l, t, h, p);
    MediaFrame(b, base, Sent(Complete(h, t.txSeq, |p|), p), SendOne(l, t, Media).s);
  }

  lemma Refused(l: Limits, t: State, pick: Pick)
    requires pick != Nothing && Offers(t.q, pick) && !SendOne(l, t, pick).ok
    ensures SendOne(l, t, pick).s == t || SendOne(l, t, pick).s == Teardown(t)
  {
  }

  lemma TurnLinked(l: Limits, b: Both, base: nat, pick: Pick)
    requires Linked(b, base) && pick != Nothing && Offers(b.session.q, pick)
    ensures Linked(Turn(l, b, pick), base)
  {
    hide Told, Same, NoMedia, Carries, TryFrame;
    if !SendOne(l, b.session, pick).ok {
      Refused(l, b.session, pick);
      TeardownLinked(b, base);
    } else if pick == Media {
      MediaTurn(l, b, base);
    } else {
      OtherTurn(l, b, base, pick);
    }
  }

  ghost function Loop(l: Limits, b: Both, ctlSent: nat): Both
    decreases Session.Waiting(b.session.q)
  {
    var pick := Choose(b.session.q, ctlSent);
    if pick == Nothing then Both(b.session, Over(b.tape, b.session.active))
    else if !SendOne(l, b.session, pick).ok then Turn(l, b, pick)
    else Loop(l, Turn(l, b, pick), if pick == Ctl then ctlSent + 1 else ctlSent)
  }

  lemma {:induction false} LoopLinked(l: Limits, b: Both, base: nat, ctlSent: nat)
    requires Linked(b, base)
    ensures Linked(Loop(l, b, ctlSent), base)
    decreases Session.Waiting(b.session.q)
  {
    var pick := Choose(b.session.q, ctlSent);
    if pick != Nothing {
      TurnLinked(l, b, base, pick);
      if SendOne(l, b.session, pick).ok {
        LoopLinked(l, Turn(l, b, pick), base, if pick == Ctl then ctlSent + 1 else ctlSent);
      }
    }
  }

  /** Only a live session has media queued. */
  predicate Paired(b: Both)
  {
    |b.session.q.media| == |b.tape.media| && (b.tape.media != [] ==> b.tape.live)
  }

  lemma TurnPaired(l: Limits, b: Both, pick: Pick)
    requires Paired(b) && pick != Nothing && Offers(b.session.q, pick) && SendOne(l, b.session, pick).ok
    ensures Paired(Turn(l, b, pick)) && (pick == Media ==> b.tape.live && Turn(l, b, pick).tape == TakeHead(b.tape))
    ensures pick != Media ==> Turn(l, b, pick).tape == b.tape
  {
  }

  /** The loop takes from the media path what it commits. */
  lemma {:induction false} LoopTakes(l: Limits, b: Both, ctlSent: nat)
    requires Paired(b)
    ensures var t' := FlushLoop(l, b.session, ctlSent);
      Loop(l, b, ctlSent) == Both(t', Over(Play(b.tape, Take(MediaSent(l, b.session, ctlSent))), t'.active))
    decreases Session.Waiting(b.session.q)
  {
    var pick := Choose(b.session.q, ctlSent);
    TakeNone(b.tape);
    if pick != Nothing && SendOne(l, b.session, pick).ok {
      var next, more := Turn(l, b, pick), if pick == Ctl then ctlSent + 1 else ctlSent;
      TurnPaired(l, b, pick);
      LoopTakes(l, next, more);
      if pick == Media {
        TakeOneMore(b.tape, MediaSent(l, next.session, more));
      }
    }
  }

  lemma FlushTakes(l: Limits, t: State, tape: Tape, before: nat, after: nat)
    ensures var m := Take(MediaSent(l, t.(port := Drain(t.port, before)), 0));
      PlayAll(tape, MovesOf(l, t, Other(Flushed(before, after)))) == Over(Play(tape, m), Flush(l, t, before, after).active)
  {
    var m := Take(MediaSent(l, t.(port := Drain(t.port, before)), 0));
    assert [m] + [] == [m] && [m][1..] == [];
    assert ([m] + [Wipe])[1..] == [Wipe] && [Wipe][1..] == [];
  }

  lemma FlushLinked(l: Limits, b: Both, base: nat, before: nat, after: nat)
    requires Linked(b, base)
    ensures Linked(BothStep(l, b, Other(Flushed(before, after))), base)
  {
    var t := b.session.(port := Drain(b.session.port, before));
    LoopLinked(l, Both(t, b.tape), base, 0);
    LoopTakes(l, Both(t, b.tape), 0);
    FlushTakes(l, b.session, b.tape, before, after);
  }

  // ----- the other events -----

  lemma CtlLinked(l: Limits, b: Both, base: nat, h: Header, p: seq<byte>)
    requires Linked(b, base) && Plain(h)
    ensures var t' := CtlEnqueue(l, b.session, h, p); Linked(Both(t', Over(b.tape, t'.active)), base)
  {
    TeardownLinked(b, base);
  }

  lemma {:induction false} CallbacksLinked(l: Limits, b: Both, base: nat, calls: seq<Sent>)
    requires Linked(b, base) && !b.tape.live && NoMediaSent(calls)
    ensures Linked(Both(Callbacks(l, b.session, calls), b.tape), base)
    ensures !b.session.active ==> !Callbacks(l, b.session, calls).active
    decreases |calls|
  {
    if calls != [] {
      var t' := CtlEnqueue(l, b.session, calls[0].header.(kind := KIND_EVENT), calls[0].payload);
      CtlLinked(l, b, base, calls[0].header.(kind := KIND_EVENT), calls[0].payload);
      CallbacksLinked(l, Both(t', b.tape), base, calls[1..]);
    }
  }

  lemma HelloLinked(l: Limits, b: Both, base: nat, calls: seq<Sent>, h: Header, p: seq<byte>)
    requires Linked(b, base) && NoMediaSent(calls) && h.flags == 0
    ensures Linked(Both(OnHello(l, b.session, calls, h, p), Play(b.tape, Wipe)), base)
  {
    var over := Play(b.tape, Wipe);
    LostLinked(l, b, base, calls);
    CtlLinked(l, Both(Created(Callbacks(l, Teardown(b.session), calls)), over), base, HelloReply(h), p);
  }

  /** The reply to a GOODBYE quotes the session that it ends. */
  lemma Relabelled(b: Both, base: nat, sid: u32)
    requires Linked(b, base) && b.session.q.ctl != []
    ensures var q := b.session.q;
      var head := q.ctl[0].(header := q.ctl[0].header.(sessionId := sid));
      Linked(Both(b.session.(q := q.(ctl := [head] + q.ctl[1..])), b.tape), base)
  {
  }

  /** GOODBYE gives the ring its frames back. */
  lemma GoodbyeLinked(l: Limits, b: Both, base: nat, calls: seq<Sent>, h: Header)
    requires Linked(b, base) && NoMediaSent(calls) && h.flags == 0
    ensures var t' := Step(l, b.session, Goodbye(calls, h)); Linked(Both(t', Over(b.tape, t'.active)), base)
  {
    if b.session.active {
      FarewellLinked(l, b, base, calls, h);
    }
  }

  lemma FarewellLinked(l: Limits, b: Both, base: nat, calls: seq<Sent>, h: Header)
    requires Linked(b, base) && NoMediaSent(calls) && h.flags == 0
    ensures Linked(Both(OnGoodbye(l, b.session, calls, h), Play(b.tape, Wipe)), base)
    ensures !OnGoodbye(l, b.session, calls, h).active
  {
    var over := Play(b.tape, Wipe);
    LostLinked(l, b, base, calls);
    var t1 := Callbacks(l, Teardown(b.session), calls).(port := b.session.port);
    var reply := h.(kind := KIND_RESPONSE, opcode := OP_GOODBYE);
    CtlLinked(l, Both(t1, over), base, reply, []);
    var t2 := CtlEnqueue(l, t1, reply, []);
    if t2.q.ctl != [] {
      Relabelled(Both(t2, over), base, b.session.sessionId);
    }
  }

  lemma SameCons(it: Item, m: V.Queued, items: seq<Item>, q: seq<V.Queued>)
    requires Holds(it, m) && Same(items, q)
    ensures Same([it] + items, [m] + q)
  {
    assert ([it] + items)[1..] == items && ([m] + q)[1..] == q;
  }

  lemma {:induction false} Discarding(items: seq<Item>, q: seq<V.Queued>, stream: nat)
    requires Same(items, q)
    ensures Same(Filtered(items, Keeps(q, stream)), V.Kept(q, stream))
    decreases |q|
  {
    if q != [] {
      Discarding(items[1..], q[1..], stream);
      var a, b := Filtered(items[1..], Keeps(q[1..], stream)), V.Kept(q[1..], stream);
      assert Keeps(q, stream)[1..] == Keeps(q[1..], stream);
      SameCons(items[0], q[0], a, b);
      assert [] + a == a && [] + b == b;
    }
  }

  /** Without a flush the media path notices only the end of the session. */
  lemma QuietMoves(l: Limits, b: Both, ev: Session.Event)
    requires !ev.Flushed?
    ensures PlayAll(b.tape, MovesOf(l, b.session, Other(ev))) == Over(b.tape, Step(l, b.session, ev).active && !ev.Hello?)
  {
    assert [] + [Wipe] == [Wipe] && [Wipe][1..] == [];
  }

  /** Events that leave the session as it is. */
  lemma CalmLinked(l: Limits, b: Both, base: nat, ev: Session.Event)
    requires Linked(b, base) && Apart(Other(ev)) && (ev.KeyState? || ev.KeysCleared? || ev.Drained?)
    ensures var t' := Step(l, b.session, ev); Linked(Both(t', Over(b.tape, t'.active)), base)
  {
  }

  lemma OtherLinked(l: Limits, b: Both, base: nat, ev: Session.Event)
    requires Linked(b, base) && Apart(Other(ev))
    ensures Linked(BothStep(l, b, Other(ev)), base)
  {
    if ev.Flushed? {
      FlushLinked(l, b, base, ev.before, ev.after);
    } else {
      QuietMoves(l, b, ev);
      QuietLinked(l, b, base, ev);
    }
  }

  lemma QuietLinked(l: Limits, b: Both, base: nat, ev: Session.Event)
    requires Linked(b, base) && Apart(Other(ev)) && !ev.Flushed?
    ensures var t' := Step(l, b.session, ev); Linked(Both(t', Over(b.tape, t'.active && !ev.Hello?)), base)
  {
    match ev
    case Reply(h, p) => CtlLinked(l, b, base, h, p);
    case Lost(calls) => LostLinked(l, b, base, calls);
    case Hello(calls, h, p) => HelloLinked(l, b, base, calls, h, p);
    case HelloMismatch(h, p) => MismatchLinked(l, b, base, h, p);
    case Goodbye(calls, h) => GoodbyeLinked(l, b, base, calls, h);
    case _ => CalmLinked(l, b, base, ev);
  }

  lemma LostLinked(l: Limits, b: Both, base: nat, calls: seq<Sent>)
    requires Linked(b, base) && NoMediaSent(calls)
    ensures Linked(Both(Callbacks(l, Teardown(b.session), calls), Play(b.tape, Wipe)), base)
    ensures !Callbacks(l, Teardown(b.session), calls).active
  {
    TeardownLinked(b, base);
    CallbacksLinked(l, Both(Teardown(b.session), Play(b.tape, Wipe)), base, calls);
  }

  lemma MismatchLinked(l: Limits, b: Both, base: nat, h: Header, p: seq<byte>)
    requires Linked(b, base) && Plain(h)
    ensures var t' := OnMismatch(l, b.session, h, p); Linked(Both(t', Over(b.tape, t'.active)), base)
  {
    var t' := OnMismatch(l, b.session, h, p);
    if t' != b.session {
      OtherFrame(b, base, t'.port.frames[|b.session.port.frames|], t');
    }
  }

  lemma StepLinked(l: Limits, b: Both, base: nat, d: Doing)
    requires Linked(b, base) && Apart(d)
    ensures Linked(BothStep(l, b, d), base)
  {
    match d
    case Queue(_, stream, r) =>
      var m := Put(V.Queued(stream, r));
      assert [m][1..] == [] && PlayAll(b.tape, [m]) == Play(b.tape, m);
      if b.tape.live {
        var items := Do(l, b.session, b.tape, d).q.media;
        SameSnoc(b.session.q.media, b.tape.media, items[|b.session.q.media|], m.item);
      }
    case Discard(stream) =>
      var m := Drop(stream);
      assert [m][1..] == [] && PlayAll(b.tape, [m]) == Play(b.tape, m);
      Discarding(b.session.q.media, b.tape.media, stream);
    case Other(ev) => OtherLinked(l, b, base, ev);
  }

  lemma DoAligned(l: Limits, b: Both, d: Doing)
    requires Aligned(b.session.port)
    ensures Aligned(BothStep(l, b, d).session.port)
  {
    match d
    case Queue(k, _, r) => StepAligned(l, b.session, MediaRecord(MediaHeader(k, r), Payload(r)));
    case Discard(stream) => StepAligned(l, b.session, MediaDiscard(Keeps(b.tape.media, stream)));
    case Other(ev) => StepAligned(l, b.session, ev);
  }

  /** Over every run the frames since `base` carry committed records, in order, and the octets
      are whole frames. */
  lemma {:induction false} RunLinked(l: Limits, b: Both, base: nat, ds: seq<Doing>)
    requires Linked(b, base) && Aligned(b.session.port) && forall i :: 0 <= i < |ds| ==> Apart(ds[i])
    ensures Linked(BothRun(l, b, ds), base) && Aligned(BothRun(l, b, ds).session.port)
    decreases |ds|
  {
    if ds != [] {
      StepLinked(l, b, base, ds[0]);
      DoAligned(l, b, ds[0]);
      RunLinked(l, BothStep(l, b, ds[0]), base, ds[1..]);
    }
  }
}
