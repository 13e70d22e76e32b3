/** The client breaks the session when a key state or media frame names a connection other than
    the one it was last told.  The scheduler sends in the order of arrival, but for its burst
    rule: this module says exactly when that rule lets a frame overtake the device state that
    announces its connection. */
module Announce {
  import opened Bytes
  import opened Options
  import opened Frame
  import opened Session
  import opened SessionProof
  import opened AudioWire
  import opened EndToEnd
  import opened WireRun

  const OP_KEYS_STATE: u16 := 0x0280

  // ----- the client's gate -----

  /** The connection that the client holds after a frame: the first entry of a device state is
      the connection. */
  function Told(known: u32, header: Header, payload: seq<byte>): u32
  {
    if header.opcode == OP_DEVICE_STATE && |payload| >= 8 then Field32(payload, 4) else known
  }

  /** Frames that belong to a connection. */
  predicate Bound(header: Header)
  {
    MediaOp(header.opcode) || header.opcode == OP_KEYS_STATE
  }

  /** `_handle_event`, as far as connections go; nothing is heard any more once it has broken
      the session. */
  function Hears(known: Option<u32>, f: Sent): Option<u32>
  {
    if known.None? then None
    else if !Bound(f.header) then Some(Told(known.value, f.header, f.payload))
    else if known.value != 0 && f.header.connectionId == known.value then known
    else None
  }

  function HearsAll(known: Option<u32>, fs: seq<Sent>): Option<u32>
    decreases |fs|
  {
    if fs == [] then known else HearsAll(Hears(known, fs[0]), fs[1..])
  }

  lemma {:induction false} NothingMore(fs: seq<Sent>)
    ensures HearsAll(None, fs) == None
    decreases |fs|
  {
    if fs != [] {
      NothingMore(fs[1..]);
    }
  }

  lemma {:induction false} HearsConcat(known: Option<u32>, a: seq<Sent>, b: seq<Sent>)
    ensures HearsAll(known, a + b) == HearsAll(HearsAll(known, a), b)
    decreases |a|
  {
    if a == [] {
      assert a + b == b;
    } else {
      assert (a + b)[1..] == a[1..] + b;
      HearsConcat(Hears(known, a[0]), a[1..], b);
    }
  }

  // ----- what waits -----

  /** The connection told once these control messages have been heard. */
  function After(known: u32, ctl: seq<Item>): u32
    decreases |ctl|
  {
    if ctl == [] then known else After(Told(known, ctl[0].header, ctl[0].payload), ctl[1..])
  }

  /** The control messages at the head of the queue that are not newer than `order`. */
  function Older(ctl: seq<Item>, order: nat): seq<Item>
  {
    if ctl == [] || ctl[0].order > order then [] else [ctl[0]] + Older(ctl[1..], order)
  }

  /** In the order of arrival the item follows the device state that announces its connection. */
  predicate Due(known: u32, ctl: seq<Item>, m: Item)
  {
    Bound(m.header) && m.header.connectionId == After(known, Older(ctl, m.order)) && m.header.connectionId != 0
  }

  predicate AllDue(known: u32, ctl: seq<Item>, q: seq<Item>)
  {
    forall i :: 0 <= i < |q| ==> Due(known, ctl, q[i])
  }

  predicate Free(ctl: seq<Item>)
  {
    forall i :: 0 <= i < |ctl| ==> !Bound(ctl[i].header)
  }

  predicate InStep(known: u32, q: Queues)
  {
    AllLined(q, 1) && Free(q.ctl) && AllDue(known, q.ctl, q.keys) && AllDue(known, q.ctl, q.media)
  }

  /** How many more control messages may go before keys and media get their turn. */
  function Left(ctlSent: nat): nat
  {
    if ctlSent < CTL_FLUSH_BURST then CTL_FLUSH_BURST - ctlSent else 0
  }

  /** Sent in this flush, the item overtakes the device state of its connection: an older control
      message is behind the burst, and the messages of the burst leave the client at another
      connection. */
  predicate Overtakes(known: u32, ctl: seq<Item>, m: Item, ctlSent: nat)
  {
    var k := Left(ctlSent);
    |ctl| > k && ctl[k].order <= m.order && After(known, ctl[..k]) != m.header.connectionId
  }

  /** Is one of the first `n` items such an item? */
  predicate AnyOvertakes(known: u32, ctl: seq<Item>, q: seq<Item>, n: nat, ctlSent: nat)
  {
    exists i :: 0 <= i < n && i < |q| && Overtakes(known, ctl, q[i], ctlSent)
  }

  lemma AnyFirst(known: u32, ctl: seq<Item>, q: seq<Item>, n: nat, ctlSent: nat)
    requires q != [] && n > 0
    ensures AnyOvertakes(known, ctl, q, n, ctlSent)
       <==> Overtakes(known, ctl, q[0], ctlSent) || AnyOvertakes(known, ctl, q[1..], n - 1, ctlSent)
  {
    if AnyOvertakes(known, ctl, q, n, ctlSent) {
      var i :| 0 <= i < n && i < |q| && Overtakes(known, ctl, q[i], ctlSent);
      assert i > 0 ==> q[1..][i - 1] == q[i];
    }
    if AnyOvertakes(known, ctl, q[1..], n - 1, ctlSent) {
      var i :| 0 <= i < n - 1 && i < |q[1..]| && Overtakes(known, ctl, q[1..][i], ctlSent);
      assert q[i + 1] == q[1..][i];
    }
  }

  // ----- one flush -----

  /** The frame that a turn of the scheduling loop commits. */
  function Spoken(s: State, pick: Pick): Sent
    requires pick != Nothing && Offers(s.q, pick) && |Head(s.q, pick).payload| <= MAX_PAYLOAD
  {
    var it := Head(s.q, pick);
    var h := if pick == Ctl then it.header else it.header.(sessionId := s.sessionId);
    Sent(Complete(h, s.txSeq, |it.payload|), it.payload)
  }

  lemma SentShort(l: Limits, s: State, pick: Pick)
    requires pick != Nothing && Offers(s.q, pick) && SendOne(l, s, pick).ok
    ensures |Head(s.q, pick).payload| <= MAX_PAYLOAD
    ensures SendOne(l, s, pick).s.port == Committed(s.port, Spoken(s, pick))
  {
    var it := Head(s.q, pick);
    var h := if pick == Ctl then it.header else it.header.(sessionId := s.sessionId);
    Tried(l, s, h, it.payload);
    hide TryFrame, Committed;
  }

  /** The frames that one scheduling loop commits. */
  ghost function Said(l: Limits, s: State, ctlSent: nat): seq<Sent>
    decreases Waiting(s.q)
  {
    var pick := Choose(s.q, ctlSent);
    if pick == Nothing || !SendOne(l, s, pick).ok then []
    else
      SentShort(l, s, pick);
      [Spoken(s, pick)] + Said(l, SendOne(l, s, pick).s, if pick == Ctl then ctlSent + 1 else ctlSent)
  }

  /** How many key states one scheduling loop commits. */
  function KeysSent(l: Limits, s: State, ctlSent: nat): nat
    decreases Waiting(s.q)
  {
    var pick := Choose(s.q, ctlSent);
    if pick == Nothing || !SendOne(l, s, pick).ok then 0
    else (if pick == Key then 1 else 0) + KeysSent(l, SendOne(l, s, pick).s, if pick == Ctl then ctlSent + 1 else ctlSent)
  }

  /** Some frame that this flush commits overtakes the device state of its connection. */
  predicate Overtaken(l: Limits, s: State, known: u32, ctlSent: nat)
  {
    || AnyOvertakes(known, s.q.ctl, s.q.keys, KeysSent(l, s, ctlSent), ctlSent)
    || AnyOvertakes(known, s.q.ctl, s.q.media, MediaSent(l, s, ctlSent), ctlSent)
  }

  // a control message goes

  lemma OlderThanAll(ctl: seq<Item>, order: nat)
    requires ctl != [] && Lined(ctl, 1) && ctl[0].order > order
    ensures Older(ctl, order) == [] && forall i :: 0 <= i < |ctl| ==> ctl[i].order > order
  {
  }

  lemma DueLater(known: u32, ctl: seq<Item>, m: Item)
    requires Due(known, ctl, m) && ctl != [] && ctl[0].order <= m.order
    ensures Due(Told(known, ctl[0].header, ctl[0].payload), ctl[1..], m)
  {
    var o := Older(ctl[1..], m.order);
    assert Older(ctl, m.order) == [ctl[0]] + o;
    assert ([ctl[0]] + o)[1..] == o;
  }

  lemma OvertakesLater(known: u32, ctl: seq<Item>, m: Item, ctlSent: nat)
    requires ctl != [] && ctlSent < CTL_FLUSH_BURST
    ensures Overtakes(known, ctl, m, ctlSent) <==> Overtakes(Told(known, ctl[0].header, ctl[0].payload), ctl[1..], m, ctlSent + 1)
  {
    var k := Left(ctlSent);
    if |ctl| > k {
      assert ctl[..k][1..] == ctl[1..][..k - 1];
      assert ctl[..k][0] == ctl[0];
    }
  }

  lemma AnyLater(known: u32, ctl: seq<Item>, q: seq<Item>, n: nat, ctlSent: nat)
    requires ctl != [] && ctlSent < CTL_FLUSH_BURST
    ensures AnyOvertakes(known, ctl, q, n, ctlSent)
       <==> AnyOvertakes(Told(known, ctl[0].header, ctl[0].payload), ctl[1..], q, n, ctlSent + 1)
  {
    forall i | 0 <= i < |q|
      ensures Overtakes(known, ctl, q[i], ctlSent) <==> Overtakes(Told(known, ctl[0].header, ctl[0].payload), ctl[1..], q[i], ctlSent + 1)
    {
      OvertakesLater(known, ctl, q[i], ctlSent);
    }
  }

  lemma AllDueLater(known: u32, ctl: seq<Item>, q: seq<Item>)
    requires AllDue(known, ctl, q) && Lined(q, 1) && ctl != [] && (q != [] ==> ctl[0].order <= q[0].order)
    ensures AllDue(Told(known, ctl[0].header, ctl[0].payload), ctl[1..], q)
  {
    forall i | 0 <= i < |q|
      ensures Due(Told(known, ctl[0].header, ctl[0].payload), ctl[1..], q[i])
    {
      DueLater(known, ctl, q[i]);
    }
  }

  // a key state or a media record goes

  /** Accepted exactly when it overtakes nothing. */
  lemma HeardExactly(known: u32, ctl: seq<Item>, m: Item, ctlSent: nat)
    requires Due(known, ctl, m) && Lined(ctl, 1)
    requires ctl == [] || m.order < ctl[0].order || ctlSent >= CTL_FLUSH_BURST
    ensures known == m.header.connectionId <==> !Overtakes(known, ctl, m, ctlSent)
  {
    if ctl == [] || m.order < ctl[0].order {
      assert Older(ctl, m.order) == [];
      if ctl != [] {
        OlderThanAll(ctl, m.order);
      }
    } else {
      assert ctl[..0] == [];
    }
  }

  /** The scheduler's choice, as far as order goes. */
  lemma Chosen(q: Queues, ctlSent: nat)
    requires AllLined(q, 1)
    ensures Choose(q, ctlSent) == Ctl ==> (q.keys == [] && q.media == []) || ctlSent < CTL_FLUSH_BURST
    ensures Choose(q, ctlSent) == Ctl ==>
      (q.keys != [] ==> q.ctl[0].order <= q.keys[0].order) && (q.media != [] ==> q.ctl[0].order <= q.media[0].order)
    ensures Choose(q, ctlSent) == Key ==> q.ctl == [] || q.keys[0].order < q.ctl[0].order || ctlSent >= CTL_FLUSH_BURST
    ensures Choose(q, ctlSent) == Media ==> q.ctl == [] || q.media[0].order < q.ctl[0].order || ctlSent >= CTL_FLUSH_BURST
  {
  }

  /** What one turn of the loop leaves. */
  lemma OneTurn(l: Limits, s: State, ctlSent: nat, pick: Pick)
    requires pick == Choose(s.q, ctlSent) && pick != Nothing && SendOne(l, s, pick).ok
    ensures |Head(s.q, pick).payload| <= MAX_PAYLOAD
    ensures var s', n := SendOne(l, s, pick).s, if pick == Ctl then ctlSent + 1 else ctlSent;
      && Said(l, s, ctlSent) == [Spoken(s, pick)] + Said(l, s', n)
      && KeysSent(l, s, ctlSent) == (if pick == Key then 1 else 0) + KeysSent(l, s', n)
      && MediaSent(l, s, ctlSent) == (if pick == Media then 1 else 0) + MediaSent(l, s', n)
      && s'.q == (match pick
                  case Ctl => s.q.(ctl := s.q.ctl[1..])
                  case Key => s.q.(keys := s.q.keys[1..])
                  case Media => s.q.(media := s.q.media[1..]))
  {
    SentShort(l, s, pick);
  }

  lemma NoTurn(l: Limits, s: State, ctlSent: nat, pick: Pick)
    requires pick == Choose(s.q, ctlSent) && (pick == Nothing || !SendOne(l, s, pick).ok)
    ensures Said(l, s, ctlSent) == [] && KeysSent(l, s, ctlSent) == 0 && MediaSent(l, s, ctlSent) == 0
  {
  }

  lemma FirstHeard(known: Option<u32>, f: Sent, fs: seq<Sent>)
    ensures HearsAll(known, [f] + fs) == HearsAll(Hears(known, f), fs)
  {
    assert ([f] + fs)[1..] == fs;
  }

  /** After a control message. */
  lemma CtlTurn(known: u32, q: Queues, ctlSent: nat, keys: nat, media: nat)
    requires InStep(known, q) && Choose(q, ctlSent) == Ctl
    ensures var known' := Told(known, q.ctl[0].header, q.ctl[0].payload);
      && InStep(known', q.(ctl := q.ctl[1..]))
      && (AnyOvertakes(known, q.ctl, q.keys, keys, ctlSent) <==> AnyOvertakes(known', q.ctl[1..], q.keys, keys, ctlSent + 1))
      && (AnyOvertakes(known, q.ctl, q.media, media, ctlSent) <==> AnyOvertakes(known', q.ctl[1..], q.media, media, ctlSent + 1))
  {
    hide Overtakes, Due, Told;
    Chosen(q, ctlSent);
    AllDueLater(known, q.ctl, q.keys);
    AllDueLater(known, q.ctl, q.media);
    if ctlSent < CTL_FLUSH_BURST {
      AnyLater(known, q.ctl, q.keys, keys, ctlSent);
      AnyLater(known, q.ctl, q.media, media, ctlSent);
    }
  }

  lemma SpokenHeard(known: u32, s: State, pick: Pick)
    requires pick != Nothing && Offers(s.q, pick) && |Head(s.q, pick).payload| <= MAX_PAYLOAD && InStep(known, s.q)
    ensures Hears(Some(known), Spoken(s, pick))
      == if pick == Ctl then Some(Told(known, s.q.ctl[0].header, s.q.ctl[0].payload))
         else if known == Head(s.q, pick).header.connectionId then Some(known) else None
  {
    assert pick == Key ==> Due(known, s.q.ctl, s.q.keys[0]);
    assert pick == Media ==> Due(known, s.q.ctl, s.q.media[0]);
  }

  /** One flush breaks the session exactly when a frame it commits overtakes the device state of
      its connection. */
  lemma {:induction false} FlushHeardExactly(l: Limits, s: State, known: u32, ctlSent: nat)
    requires InStep(known, s.q)
    ensures HearsAll(Some(known), Said(l, s, ctlSent)).None? <==> Overtaken(l, s, known, ctlSent)
    decreases Waiting(s.q)
  {
    var pick := Choose(s.q, ctlSent);
    if pick == Nothing || !SendOne(l, s, pick).ok {
      NoTurn(l, s, ctlSent, pick);
    } else if pick == Ctl {
      CtlHeard(l, s, known, ctlSent);
    } else {
      BoundHeard(l, s, known, ctlSent, pick);
    }
  }

  lemma CtlHeard(l: Limits, s: State, known: u32, ctlSent: nat)
    requires InStep(known, s.q) && Choose(s.q, ctlSent) == Ctl && SendOne(l, s, Ctl).ok
    ensures HearsAll(Some(known), Said(l, s, ctlSent)).None? <==> Overtaken(l, s, known, ctlSent)
    decreases Waiting(s.q), 0
  {
    hide InStep, SendOne, Choose, Said, KeysSent, MediaSent, AnyOvertakes, HearsAll, Hears, Told, Spoken;
    OneTurn(l, s, ctlSent, Ctl);
    SpokenHeard(known, s, Ctl);
    var s', known' := SendOne(l, s, Ctl).s, Told(known, s.q.ctl[0].header, s.q.ctl[0].payload);
    FirstHeard(Some(known), Spoken(s, Ctl), Said(l, s', ctlSent + 1));
    CtlTurn(known, s.q, ctlSent, KeysSent(l, s, ctlSent), MediaSent(l, s, ctlSent));
    FlushHeardExactly(l, s', known', ctlSent + 1);
  }

  /** The queues after a key state or a media record. */
  lemma BoundTurn(known: u32, q: Queues, pick: Pick)
    requires InStep(known, q) && Offers(q, pick) && (pick == Key || pick == Media)
    ensures InStep(known, if pick == Key then q.(keys := q.keys[1..]) else q.(media := q.media[1..]))
  {
  }

  lemma BoundHeard(l: Limits, s: State, known: u32, ctlSent: nat, pick: Pick)
    requires InStep(known, s.q) && pick == Choose(s.q, ctlSent) && (pick == Key || pick == Media) && SendOne(l, s, pick).ok
    ensures HearsAll(Some(known), Said(l, s, ctlSent)).None? <==> Overtaken(l, s, known, ctlSent)
    decreases Waiting(s.q), 0
  {
    HeadHeard(known, s.q, ctlSent, pick);
    hide InStep, SendOne, Choose, Said, KeysSent, MediaSent, AnyOvertakes, Overtakes, HearsAll, Hears, Told, Spoken;
    OneTurn(l, s, ctlSent, pick);
    SpokenHeard(known, s, pick);
    var s' := SendOne(l, s, pick).s;
    FirstHeard(Some(known), Spoken(s, pick), Said(l, s', ctlSent));
    NothingMore(Said(l, s', ctlSent));
    BoundTurn(known, s.q, pick);
    if pick == Key {
      AnyFirst(known, s.q.ctl, s.q.keys, KeysSent(l, s, ctlSent), ctlSent);
    } else {
      AnyFirst(known, s.q.ctl, s.q.media, MediaSent(l, s, ctlSent), ctlSent);
    }
    FlushHeardExactly(l, s', known, ctlSent);
  }

  lemma HeadHeard(known: u32, q: Queues, ctlSent: nat, pick: Pick)
    requires InStep(known, q) && pick == Choose(q, ctlSent) && (pick == Key || pick == Media)
    ensures known == Head(q, pick).header.connectionId <==> !Overtakes(known, q.ctl, Head(q, pick), ctlSent)
  {
    Chosen(q, ctlSent);
    assert pick == Key ==> Due(known, q.ctl, q.keys[0]);
    assert pick == Media ==> Due(known, q.ctl, q.media[0]);
    HeardExactly(known, q.ctl, Head(q, pick), ctlSent);
  }

  /** A flush that breaks nothing leaves the client and the queues in step. */
  lemma {:induction false} FlushKeepsStep(l: Limits, s: State, known: u32, ctlSent: nat)
    requires InStep(known, s.q) && HearsAll(Some(known), Said(l, s, ctlSent)).Some?
    ensures InStep(HearsAll(Some(known), Said(l, s, ctlSent)).value, FlushLoop(l, s, ctlSent).q)
    decreases Waiting(s.q)
  {
    var pick := Choose(s.q, ctlSent);
    if pick == Nothing || !SendOne(l, s, pick).ok {
      if pick != Nothing {
        Refused(l, s, pick);
      }
    } else {
      TurnKeepsStep(l, s, known, ctlSent, pick);
    }
  }

  lemma TurnKeepsStep(l: Limits, s: State, known: u32, ctlSent: nat, pick: Pick)
    requires InStep(known, s.q) && HearsAll(Some(known), Said(l, s, ctlSent)).Some?
    requires pick == Choose(s.q, ctlSent) && pick != Nothing && SendOne(l, s, pick).ok
    ensures InStep(HearsAll(Some(known), Said(l, s, ctlSent)).value, FlushLoop(l, s, ctlSent).q)
    decreases Waiting(s.q), 0
  {
    hide InStep, SendOne, Choose, Said, KeysSent, MediaSent, HearsAll, Hears, Told, Spoken;
    var s', n := SendOne(l, s, pick).s, if pick == Ctl then ctlSent + 1 else ctlSent;
    OneTurn(l, s, ctlSent, pick);
    SpokenHeard(known, s, pick);
    FirstHeard(Some(known), Spoken(s, pick), Said(l, s', n));
    if pick == Ctl {
      CtlTurn(known, s.q, ctlSent, 0, 0);
      FlushKeepsStep(l, s', Told(known, s.q.ctl[0].header, s.q.ctl[0].payload), n);
    } else {
      NothingMore(Said(l, s', n));
      BoundTurn(known, s.q, pick);
      FlushKeepsStep(l, s', known, n);
    }
  }

  /** While the session lives, what the loop says is what it adds to the frames. */
  lemma {:induction false} SaidFrames(l: Limits, s: State, ctlSent: nat)
    requires FlushLoop(l, s, ctlSent).active
    ensures FlushLoop(l, s, ctlSent).port.frames == s.port.frames + Said(l, s, ctlSent)
    decreases Waiting(s.q)
  {
    hide TryFrame, Choose, Spoken, Truncated;
    var pick := Choose(s.q, ctlSent);
    if pick != Nothing && SendOne(l, s, pick).ok {
      SentShort(l, s, pick);
      SaidFrames(l, SendOne(l, s, pick).s, if pick == Ctl then ctlSent + 1 else ctlSent);
    } else if pick != Nothing {
      Refused(l, s, pick);
    }
  }

  // ----- queueing -----

  lemma {:induction false} OlderSnoc(ctl: seq<Item>, it: Item, order: nat)
    requires it.order > order
    ensures Older(ctl + [it], order) == Older(ctl, order)
    decreases |ctl|
  {
    if ctl == [] {
      assert ctl + [it] == [it];
    } else {
      assert (ctl + [it])[1..] == ctl[1..] + [it];
      OlderSnoc(ctl[1..], it, order);
    }
  }

  lemma {:induction false} AllOlder(ctl: seq<Item>, order: nat)
    requires forall i :: 0 <= i < |ctl| ==> ctl[i].order <= order
    ensures Older(ctl, order) == ctl
  {
    if ctl != [] {
      AllOlder(ctl[1..], order);
    }
  }

  lemma StillDue(known: u32, ctl: seq<Item>, it: Item, q: seq<Item>, last: nat)
    requires AllDue(known, ctl, q) && Tidy(q, last) && it.order > last
    ensures AllDue(known, ctl + [it], q)
  {
    forall i | 0 <= i < |q|
      ensures Due(known, ctl + [it], q[i])
    {
      OlderSnoc(ctl, it, q[i].order);
    }
  }

  lemma NowDue(known: u32, ctl: seq<Item>, q: seq<Item>, m: Item, last: nat)
    requires AllDue(known, ctl, q) && Tidy(ctl, last) && m.order == last + 1
    requires Bound(m.header) && m.header.connectionId == After(known, ctl) && m.header.connectionId != 0
    ensures AllDue(known, ctl, q + [m])
  {
    AllOlder(ctl, m.order);
  }

  lemma {:induction false} FilteredDue(known: u32, ctl: seq<Item>, q: seq<Item>, keep: seq<bool>)
    requires AllDue(known, ctl, q)
    ensures AllDue(known, ctl, Filtered(q, keep))
    decreases |q|
  {
    if q != [] && keep != [] {
      FilteredDue(known, ctl, q[1..], keep[1..]);
    }
  }

  // ----- runs of one session -----

  /** Key states and media records are queued under the connection that the newest device state
      announces; nothing else goes by their opcodes; no new session begins. */
  predicate Fits(known: u32, t: State, ev: Event)
  {
    match ev
    case KeyState(h, _) => Bound(h) && h.connectionId == After(known, t.q.ctl) && h.connectionId != 0
    case MediaRecord(h, _) => Bound(h) && h.connectionId == After(known, t.q.ctl) && h.connectionId != 0
    case Reply(h, _) => !Bound(h)
    case HelloMismatch(h, _) => !Bound(h) && h.opcode != OP_DEVICE_STATE
    case _ => true
  }

  lemma ReplyInStep(l: Limits, t: State, known: u32, h: Header, p: seq<byte>)
    requires InOrder(t) && InStep(known, t.q) && !Bound(h)
    ensures InStep(known, CtlEnqueue(l, t, h, p).q)
  {
    CtlInOrder(l, t, h, p);
    var it := Item(h.(sessionId := t.sessionId), p, t.order + 1);
    StillDue(known, t.q.ctl, it, t.q.keys, t.order);
    StillDue(known, t.q.ctl, it, t.q.media, t.order);
    hide Due, Tidy, Lined;
  }

  lemma AddedInStep(t: State, known: u32, m: Item)
    requires InOrder(t) && InStep(known, t.q) && m.order == t.order + 1
    requires Bound(m.header) && m.header.connectionId == After(known, t.q.ctl) && m.header.connectionId != 0
    ensures InStep(known, t.q.(keys := t.q.keys + [m])) && InStep(known, t.q.(media := t.q.media + [m]))
  {
    AddedInOrder(t, m);
    NowDue(known, t.q.ctl, t.q.keys, m, t.order);
    NowDue(known, t.q.ctl, t.q.media, m, t.order);
    hide Due, Lined;
  }

  /** The frames committed between two states. */
  function Between(t: State, t': State): seq<Sent>
  {
    Since(t'.port.frames, |t.port.frames|)
  }

  predicate Extends(t: State, t': State)
  {
    t.port.frames <= t'.port.frames
  }

  lemma FlushHeard(l: Limits, t: State, known: u32, before: nat, after: nat)
    requires InStep(known, t.q) && Flush(l, t, before, after).active
    ensures var t' := Flush(l, t, before, after);
      var heard := HearsAll(Some(known), Between(t, t'));
      && Extends(t, t') && (heard.Some? ==> InStep(heard.value, t'.q))
      && (heard.None? <==> Overtaken(l, t.(port := Drain(t.port, before)), known, 0))
  {
    hide InStep, FlushLoop, Overtaken, HearsAll;
    var t0 := t.(port := Drain(t.port, before));
    SaidFrames(l, t0, 0);
    FlushHeardExactly(l, t0, known, 0);
    var fs := Said(l, t0, 0);
    assert (t.port.frames + fs)[|t.port.frames|..] == fs;
    if HearsAll(Some(known), fs).Some? {
      FlushKeepsStep(l, t0, known, 0);
    }
  }

  /** A session that lives on lived before, and keeps its frames. */
  lemma LivesOn(l: Limits, t: State, ev: Event)
    requires !ev.Hello? && Step(l, t, ev).active
    ensures t.active && Extends(t, Step(l, t, ev))
  {
    hide FlushLoop, Images, Survivors, Session.Octets, CtlUsed, Callbacks;
    match ev
    case Flushed(before, after) => LoopLives(l, t.(port := Drain(t.port, before)), 0);
    case Lost(calls) => StaysDown(l, Teardown(t), calls);
    case Goodbye(calls, _) => StaysDown(l, Teardown(t), calls);
    case _ =>
  }

  lemma LoopLives(l: Limits, t: State, ctlSent: nat)
    requires FlushLoop(l, t, ctlSent).active
    ensures t.active && t.port.frames <= FlushLoop(l, t, ctlSent).port.frames
  {
    SaidFrames(l, t, ctlSent);
    LoopActive(l, t, ctlSent);
  }

  lemma {:induction false} LoopActive(l: Limits, t: State, ctlSent: nat)
    requires FlushLoop(l, t, ctlSent).active
    ensures t.active
    decreases Waiting(t.q)
  {
    var pick := Choose(t.q, ctlSent);
    if pick != Nothing {
      if SendOne(l, t, pick).ok {
        LoopActive(l, SendOne(l, t, pick).s, if pick == Ctl then ctlSent + 1 else ctlSent);
      } else {
        Refused(l, t, pick);
      }
    }
  }

  lemma QuietHeard(l: Limits, t: State, known: u32, ev: Event)
    requires InOrder(t) && InStep(known, t.q) && !ev.Hello? && Fits(known, t, ev) && !ev.Flushed? && Step(l, t, ev).active
    ensures HearsAll(Some(known), Between(t, Step(l, t, ev))) == Some(known) && InStep(known, Step(l, t, ev).q)
  {
    hide FlushLoop, Images, Survivors, Session.Octets, CtlUsed, Callbacks, InStep, Due, InOrder;
    match ev
    case Reply(h, p) => ReplyInStep(l, t, known, h, p);
    case KeyState(h, p) => AddedInStep(t, known, Item(h, p, t.order + 1));
    case MediaRecord(h, p) => AddedInStep(t, known, Item(h, p, t.order + 1));
    case KeysCleared => ClearedInStep(t, known);
    case MediaDiscard(keep) => DiscardInStep(t, known, keep);
    case Lost(calls) => StaysDown(l, Teardown(t), calls);
    case Goodbye(calls, _) => StaysDown(l, Teardown(t), calls);
    case HelloMismatch(h, p) => MismatchHeard(l, t, known, h, p);
    case _ =>
  }

  lemma ClearedInStep(t: State, known: u32)
    requires InStep(known, t.q)
    ensures InStep(known, t.q.(keys := []))
  {
  }

  lemma DiscardInStep(t: State, known: u32, keep: seq<bool>)
    requires InOrder(t) && InStep(known, t.q)
    ensures InStep(known, t.q.(media := Filtered(t.q.media, keep)))
  {
    FilteredDue(known, t.q.ctl, t.q.media, keep);
    FilteredTidy(t.q.media, keep, t.order);
    hide Due, Filtered;
  }

  lemma MismatchHeard(l: Limits, t: State, known: u32, h: Header, p: seq<byte>)
    requires !Bound(h) && h.opcode != OP_DEVICE_STATE
    ensures HearsAll(Some(known), Between(t, OnMismatch(l, t, h, p))) == Some(known)
  {
    var t' := OnMismatch(l, t, h, p);
    if t' != t {
      var f := Sent(Complete(h.(sessionId := 0), 1, |p|), p);
      assert t'.port.frames == t.port.frames + [f];
      assert Between(t, t') == [f] && [f][1..] == [];
    }
  }

  /** Every event is as the server makes it, as long as session and client are alive. */
  ghost predicate Followed(l: Limits, t: State, known: u32, evs: seq<Event>)
    decreases |evs|
  {
    evs != [] ==>
      var t' := Step(l, t, evs[0]);
      var heard := HearsAll(Some(known), Between(t, t'));
      Fits(known, t, evs[0]) && (heard.Some? ==> Followed(l, t', heard.value, evs[1..]))
  }

  /** No flush of the run lets a frame overtake the device state of its connection. */
  ghost predicate Punctual(l: Limits, t: State, known: u32, evs: seq<Event>)
    decreases |evs|
  {
    evs != [] ==>
      var t' := Step(l, t, evs[0]);
      var heard := HearsAll(Some(known), Between(t, t'));
      && (evs[0].Flushed? ==> !Overtaken(l, t.(port := Drain(t.port, evs[0].before)), known, 0))
      && (heard.Some? ==> Punctual(l, t', heard.value, evs[1..]))
  }

  predicate NoHello(evs: seq<Event>)
  {
    forall i :: 0 <= i < |evs| ==> !evs[i].Hello?
  }

  lemma StepHeard(l: Limits, t: State, known: u32, ev: Event)
    requires InOrder(t) && InStep(known, t.q) && !ev.Hello? && Fits(known, t, ev) && Step(l, t, ev).active
    ensures var t' := Step(l, t, ev);
      var heard := HearsAll(Some(known), Between(t, t'));
      && (heard.Some? ==> InStep(heard.value, t'.q))
      && (heard.None? <==> ev.Flushed? && Overtaken(l, t.(port := Drain(t.port, ev.before)), known, 0))
  {
    hide InStep, InOrder, Overtaken, Fits, HearsAll, Flush;
    if ev.Flushed? {
      FlushHeard(l, t, known, ev.before, ev.after);
    } else {
      QuietHeard(l, t, known, ev);
    }
  }

  lemma {:induction false} RunLives(l: Limits, t: State, evs: seq<Event>)
    requires NoHello(evs) && Run(l, t, evs).active
    ensures t.active && Extends(t, Run(l, t, evs))
    decreases |evs|
  {
    hide Session.Step;
    if evs != [] {
      RunLives(l, Step(l, t, evs[0]), evs[1..]);
      LivesOn(l, t, evs[0]);
    }
  }

  /** Over every run of one session, in any reachable state of the queues: the client takes every
      key state and media frame under the connection that it was told, exactly when no flush let
      one of them overtake its device state. */
  lemma {:induction false} RunHeardExactly(l: Limits, t: State, known: u32, evs: seq<Event>)
    requires InOrder(t) && InStep(known, t.q) && NoHello(evs) && Followed(l, t, known, evs) && Run(l, t, evs).active
    ensures HearsAll(Some(known), Between(t, Run(l, t, evs))).Some? <==> Punctual(l, t, known, evs)
    decreases |evs|
  {
    hide InStep, InOrder, Fits, Overtaken, Session.Step;
    if evs == [] {
      assert Between(t, t) == [];
    } else {
      var t', end := Step(l, t, evs[0]), Run(l, t, evs);
      RunLives(l, t', evs[1..]);
      LivesOn(l, t, evs[0]);
      StepHeard(l, t, known, evs[0]);
      StepInOrder(l, t, evs[0]);
      var heard := HearsAll(Some(known), Between(t, t'));
      assert Between(t, end) == Between(t, t') + Between(t', end);
      HearsConcat(Some(known), Between(t, t'), Between(t', end));
      NothingMore(Between(t', end));
      if heard.Some? {
        RunHeardExactly(l, t', heard.value, evs[1..]);
      }
    }
  }

  // ----- it happens -----

  /** Room in the ring, and numbers left, for `n` frames of any length; nothing longer waits. */
  predicate Roomy(l: Limits, s: State, n: nat)
  {
    && s.active && |s.port.out| + n * MAX_ENCODED <= l.ring && 0 < s.txSeq && s.txSeq + n < U32_MAX
    && (forall i :: 0 <= i < |s.q.ctl| ==> |s.q.ctl[i].payload| <= MAX_PAYLOAD)
    && (forall i :: 0 <= i < |s.q.media| ==> |s.q.media[i].payload| <= MAX_PAYLOAD)
  }

  lemma RoomyTurn(l: Limits, s: State, n: nat, pick: Pick)
    requires Roomy(l, s, n + 1) && (pick == Ctl || pick == Media) && Offers(s.q, pick)
    ensures SendOne(l, s, pick).ok && Roomy(l, SendOne(l, s, pick).s, n)
  {
    var it := Head(s.q, pick);
    var h := if pick == Ctl then it.header else it.header.(sessionId := s.sessionId);
    TryFrameSucceeds(l, s, h, it.payload);
    WireShape(Complete(h, s.txSeq, |it.payload|), it.payload);
  }

  /** More control messages wait than the burst allows, and there is room for all of it and one
      more. */
  predicate Pressed(l: Limits, s: State, ctlSent: nat)
  {
    && ctlSent <= CTL_FLUSH_BURST && AllLined(s.q, 1) && s.q.keys == [] && s.q.media != []
    && |s.q.ctl| > Left(ctlSent) && Roomy(l, s, Left(ctlSent) + 1)
  }

  lemma PressedTurn(l: Limits, s: State, ctlSent: nat)
    requires Pressed(l, s, ctlSent)
    ensures var pick := Choose(s.q, ctlSent);
      && (pick == Ctl || pick == Media) && SendOne(l, s, pick).ok
      && (pick == Ctl ==> ctlSent < CTL_FLUSH_BURST && Pressed(l, SendOne(l, s, Ctl).s, ctlSent + 1))
  {
    var pick := Choose(s.q, ctlSent);
    Chosen(s.q, ctlSent);
    assert pick == Ctl || pick == Media;
    hide Choose;
    RoomyTurn(l, s, Left(ctlSent), pick);
    OneTurn(l, s, ctlSent, pick);
    SendLined(l, s, pick, 1);
    hide SendOne, Roomy, Lined;
  }

  /** Under pressure a waiting media record goes. */
  lemma {:induction false} MediaGetsTurn(l: Limits, s: State, ctlSent: nat)
    requires Pressed(l, s, ctlSent)
    ensures MediaSent(l, s, ctlSent) > 0
    decreases Left(ctlSent)
  {
    hide Choose, SendOne, Pressed, Said, KeysSent;
    var pick := Choose(s.q, ctlSent);
    PressedTurn(l, s, ctlSent);
    OneTurn(l, s, ctlSent, pick);
    if pick == Ctl {
      MediaGetsTurn(l, SendOne(l, s, pick).s, ctlSent + 1);
    }
  }

  /** Under pressure the first media record breaks the session if it overtakes its device
      state. */
  lemma BrokenUnderPressure(l: Limits, t: State, known: u32, before: nat, after: nat)
    requires InStep(known, t.q) && Pressed(l, t.(port := Drain(t.port, before)), 0)
    requires Overtakes(known, t.q.ctl, t.q.media[0], 0) && Flush(l, t, before, after).active
    ensures HearsAll(Some(known), Between(t, Flush(l, t, before, after))) == None
  {
    var t0 := t.(port := Drain(t.port, before));
    MediaGetsTurn(l, t0, 0);
    hide InStep, Overtakes, FlushLoop, HearsAll, MediaSent, KeysSent, Pressed;
    assert AnyOvertakes(known, t.q.ctl, t.q.media, MediaSent(l, t0, 0), 0);
    FlushHeard(l, t, known, before, after);
  }

  /** A header of some response, of a device state and of a media record. */
  function Headed(opcode: u16, connection: u32): Header
  {
    Header(0, 0, 0, 0, KIND_EVENT, 0, 0, 0, 0, 0, opcode, 0, 0, 0, connection)
  }

  /** The first entry of a device state: tag 1, type u32, four octets. */
  function Telling(connection: u32): (p: seq<byte>)
    ensures |p| == 8
  {
    [1, 3, 4, 0] + Le(connection, 4)
  }

  lemma TellsConnection(known: u32, connection: u32)
    ensures Told(known, Headed(OP_DEVICE_STATE, 0), Telling(connection)) == connection
  {
    var p := Telling(connection);
    assert p[4..4 + 4] == Le(connection, 4);
    Field32Read(p, 4, connection);
  }

  const OP_PING: u16 := 0x0002
  /** A session whose HELLO reply has gone out. */
  const OPENED := State(true, 1, 1, 2, 0, Queues([], [], []), Port([], [], []))

  function Ping(order: nat): Item
  {
    Item(Headed(OP_PING, 0).(sessionId := 1), [], order)
  }

  function Pings(n: nat): (q: seq<Item>)
    ensures |q| == n && forall i :: 0 <= i < n ==> q[i] == Ping(i + 1)
  {
    if n == 0 then [] else Pings(n - 1) + [Ping(n)]
  }

  /** So many responses wait. */
  function Answered(n: nat): State
  {
    OPENED.(order := n, q := Queues(Pings(n), [], []))
  }

  /** Five control messages, the last a device state that announces connection `next`, and a
      START of that connection. */
  function Crowded(next: u32): State
  {
    OPENED.(order := 6, q := Queues(Pings(4) + [Item(Headed(OP_DEVICE_STATE, 0).(sessionId := 1), Telling(next), 5)],
                                    [], [Item(Headed(OP_STARTED, next), [], 6)]))
  }

  const PING := Reply(Headed(OP_PING, 0), [])

  function Announced(next: u32): Event
  {
    Reply(Headed(OP_DEVICE_STATE, 0), Telling(next))
  }

  function Starting(next: u32): Event
  {
    MediaRecord(Headed(OP_STARTED, next), [])
  }

  function Crowd(next: u32): seq<Event>
  {
    seq(4, _ => PING) + [Announced(next), Starting(next)]
  }

  lemma {:induction false} AllPings(q: seq<Item>)
    requires forall i :: 0 <= i < |q| ==> q[i].payload == [] && q[i].header.opcode == OP_PING
    ensures CtlUsed(q) == 0 && forall known: u32 :: After(known, q) == known
    decreases |q|
  {
    if q != [] {
      AllPings(q[1..]);
    }
  }

  lemma Pinged(l: Limits, n: nat)
    requires n < l.slots
    ensures Step(l, Answered(n), PING) == Answered(n + 1)
  {
    AllPings(Pings(n));
  }

  lemma Connected(l: Limits, next: u32)
    requires l.slots >= 5 && l.ctlBytes >= 8
    ensures Step(l, Step(l, Answered(4), Announced(next)), Starting(next)) == Crowded(next)
  {
    AllPings(Pings(4));
  }

  lemma FirstStep(l: Limits, s: State, ev: Event, rest: seq<Event>)
    ensures Run(l, s, [ev] + rest) == Run(l, Step(l, s, ev), rest)
  {
    assert ([ev] + rest)[1..] == rest;
  }

  lemma {:induction false} AllPinged(l: Limits, n: nat, k: nat, rest: seq<Event>)
    requires n + k <= l.slots
    ensures Run(l, Answered(n), seq(k, _ => PING) + rest) == Run(l, Answered(n + k), rest)
    decreases k
  {
    hide Session.Step, Run;
    if k == 0 {
      assert seq(k, _ => PING) + rest == rest;
    } else {
      var more := seq(k - 1, _ => PING) + rest;
      assert seq(k, _ => PING) + rest == [PING] + more;
      FirstStep(l, Answered(n), PING, more);
      Pinged(l, n);
      AllPinged(l, n + 1, k - 1, rest);
    }
  }

  lemma Crowds(l: Limits, next: u32)
    requires l.slots >= 5 && l.ctlBytes >= 8
    ensures Run(l, Answered(0), Crowd(next)) == Crowded(next)
  {
    var last := [Announced(next), Starting(next)];
    AllPinged(l, 0, 4, last);
    assert last == [Announced(next)] + [Starting(next)] && [Starting(next)] == [Starting(next)] + [];
    FirstStep(l, Answered(4), Announced(next), [Starting(next)]);
    FirstStep(l, Step(l, Answered(4), Announced(next)), Starting(next), []);
    Connected(l, next);
    hide Session.Step;
  }

  /** Sequence numbers last for everything that waits: no flush ends the session. */
  lemma {:induction false} NumbersLast(l: Limits, s: State, ctlSent: nat)
    requires s.active && 0 < s.txSeq && s.txSeq + Waiting(s.q) < U32_MAX
    ensures FlushLoop(l, s, ctlSent).active
    decreases Waiting(s.q)
  {
    hide Committed, Teardown, Choose, Session.Octets;
    var pick := Choose(s.q, ctlSent);
    if pick != Nothing && SendOne(l, s, pick).ok {
      NumbersLast(l, SendOne(l, s, pick).s, if pick == Ctl then ctlSent + 1 else ctlSent);
    }
  }

  /** A run in which it happens.  The client holds connection `known`.  Four responses, the device
      state of the next connection and a START under that connection are queued in this order,
      then flushed: the client breaks the session. */
  lemma StartOvertakes(l: Limits, known: u32, next: u32, before: nat, after: nat)
    requires l.ring >= 5 * MAX_ENCODED && l.slots >= 5 && l.ctlBytes >= 8 && known != next && next != 0
    ensures var t := Run(l, Answered(0), Crowd(next));
      var t' := Flush(l, t, before, after);
      InStep(known, t.q) && t'.active && HearsAll(Some(known), Between(t, t')) == None
  {
    hide FlushLoop, InStep, Overtakes, HearsAll, Run, Pressed, Crowd, Crowded;
    Crowds(l, next);
    CrowdInStep(known, next);
    CrowdPresses(l, next, before);
    NumbersLast(l, Crowded(next), 0);
    BrokenUnderPressure(l, Crowded(next), known, before, after);
  }

  lemma CrowdTells(known: u32, next: u32)
    ensures var ctl := Crowded(next).q.ctl; After(known, ctl[..4]) == known && After(known, Older(ctl, 6)) == next
  {
    var ctl, d := Crowded(next).q.ctl, [Crowded(next).q.ctl[4]];
    AllPings(Pings(4));
    assert ctl[..4] == Pings(4) && ctl == Pings(4) + d;
    AllOlder(ctl, 6);
    AfterConcat(known, Pings(4), d);
    TellsConnection(known, next);
    assert d[1..] == [];
  }

  lemma CrowdInStep(known: u32, next: u32)
    requires known != next && next != 0
    ensures InStep(known, Crowded(next).q) && Overtakes(known, Crowded(next).q.ctl, Crowded(next).q.media[0], 0)
  {
    CrowdTells(known, next);
    hide After, Older;
  }

  lemma CrowdPresses(l: Limits, next: u32, before: nat)
    requires l.ring >= 5 * MAX_ENCODED
    ensures var t := Crowded(next);
      t.(port := Drain(t.port, before)) == t && Pressed(l, t, 0) && t.active && t.txSeq == 2 && Waiting(t.q) == 6
  {
    hide Telling, Pings;
    var t := Crowded(next);
    assert forall i :: 0 <= i < 4 ==> t.q.ctl[i] == Ping(i + 1);
    assert Lined(t.q.ctl, 1) && Lined(t.q.media, 1) && Lined(t.q.keys, 1);
    assert Drain(t.port, before) == t.port;
    assert Roomy(l, t, 5);
  }

  lemma {:induction false} AfterConcat(known: u32, a: seq<Item>, b: seq<Item>)
    ensures After(known, a + b) == After(After(known, a), b)
    decreases |a|
  {
    if a == [] {
      assert a + b == b;
    } else {
      assert (a + b)[1..] == a[1..] + b;
      AfterConcat(Told(known, a[0].header, a[0].payload), a[1..], b);
    }
  }
}
