/** The resynchronising frame receiver: one event per feed call, a resume cursor, and
    overflow, time-out and discard states. */
module Receiver {
  import opened Options
  import opened Bytes
  import opened Cobs
  import opened Frame

  const HALF_FRAME_MS := 1000

  /** What of the parser can still matter: a start time only inside a frame, a run only
      while it is being collected. */
  datatype Rx = Idle | InFrame(run: seq<byte>, start: u32) | Discard
  {
    predicate Valid()
    {
      InFrame? ==> 1 <= |run| <= COBS_RECV_MAX
    }
  }

  function Elapsed(now: u32, start: u32): u32
  {
    (now - start) % 0x1_0000_0000
  }

  predicate Expired(st: Rx, now: u32)
  {
    st.InFrame? && Elapsed(now, st.start) >= HALF_FRAME_MS
  }

  // ----- the receiver as a function of one octet, one feed, one drain -----

  datatype Hit = Hit(st: Rx, ev: Option<RxEvent>)

  function OnByte(st: Rx, b: byte, now: u32): Hit
  {
    match st
    case Discard => Hit(if b == 0 then Idle else Discard, None)
    case Idle => Hit(if b == 0 then Idle else InFrame([b], now), None)
    case InFrame(run, start) =>
      if b == 0 then Hit(Idle, Some(Receive(run)))
      else if |run| >= COBS_RECV_MAX then Hit(Discard, Some(Overflow))
      else Hit(InFrame(run + [b], start), None)
  }

  datatype Fed = Fed(st: Rx, ev: Option<RxEvent>, left: nat)

  function Scan(st: Rx, data: seq<byte>, now: u32): (r: Fed)
    ensures r.left <= |data|
    ensures r.ev.Some? ==> r.left < |data|
    ensures r.ev.None? ==> r.left == 0
    decreases |data|
  {
    if data == [] then Fed(st, None, 0)
    else
      var h := OnByte(st, data[0], now);
      if h.ev.Some? then Fed(h.st, h.ev, |data| - 1) else Scan(h.st, data[1..], now)
  }

  function Feed(st: Rx, data: seq<byte>, now: u32): (r: Fed)
    ensures r.left <= |data|
    ensures r.ev.None? ==> r.left == 0
  {
    if Expired(st, now) then Fed(Discard, Some(Timeout), |data|) else Scan(st, data, now)
  }

  datatype Outcome = Outcome(st: Rx, events: seq<RxEvent>)

  function Listed(ev: Option<RxEvent>): seq<RxEvent>
  {
    if ev.Some? then [ev.value] else []
  }

  /** `o`, preceded by the events `first`. */
  function Then(first: seq<RxEvent>, o: Outcome): Outcome
  {
    Outcome(o.st, first + o.events)
  }

  lemma ThenNothing(o: Outcome)
    ensures Then([], o) == o
  {
    assert [] + o.events == o.events;
  }

  lemma ThenThen(a: seq<RxEvent>, b: seq<RxEvent>, o: Outcome)
    ensures Then(a, Then(b, o)) == Then(a + b, o)
  {
    assert a + (b + o.events) == a + b + o.events;
  }

  /** Octet by octet, without feed calls or resume cursors: the reference the pump refines. */
  function Bytewise(st: Rx, data: seq<byte>, now: u32): Outcome
    decreases |data|
  {
    if data == [] then Outcome(st, [])
    else
      var h := OnByte(st, data[0], now);
      Then(Listed(h.ev), Bytewise(h.st, data[1..], now))
  }

  function Drain(st: Rx, data: seq<byte>, now: u32): Outcome
  {
    if data != [] && Expired(st, now) then Then([Timeout], Bytewise(Discard, data, now))
    else Bytewise(st, data, now)
  }

  // ----- the parser itself -----

  datatype State = RxsIdle | RxsInFrame | RxsDiscard

  /** The checks on a decoded record, in the order the source makes them. */
  method Inspect(raw: seq<byte>) returns (ev: RxEvent)
    ensures ev == Judge(raw)
  {
    if HEADER_SIZE + 4 <= |raw| <= MAX_FRAME_RAW {
      var plen := |raw| - HEADER_SIZE - 4;
      var header := Unpack(raw);
      if Recognised(header) {
        var crcOk := Crc32c.Crc(raw[..HEADER_SIZE + plen]) == Field32(raw, HEADER_SIZE + plen);
        return FrameIn(header, raw[HEADER_SIZE..HEADER_SIZE + plen], crcOk);
      }
    }
    ev := Garbage;
  }

  class Parser {
    var state: State
    var buf: array<byte>
    var len: nat
    var frameStart: u32

    ghost predicate Valid()
      reads this, buf
    {
      buf.Length == COBS_RECV_MAX && len <= COBS_RECV_MAX && (state == RxsInFrame ==> len >= 1)
    }

    ghost function Model(): (r: Rx)
      reads this, buf
      requires Valid()
      ensures r.Valid()
    {
      match state
      case RxsIdle => Idle
      case RxsDiscard => Discard
      case RxsInFrame => InFrame(buf[..len], frameStart)
    }

    constructor (now: u32)
      ensures Valid() && Model() == Idle && fresh(buf)
    {
      state, len, frameStart := RxsIdle, 0, now;
      buf := new byte[COBS_RECV_MAX];
    }

    method Reset(now: u32)
      requires Valid()
      modifies this
      ensures Valid() && Model() == Idle && buf == old(buf)
    {
      state, len, frameStart := RxsIdle, 0, now;
    }

    /** A delimiter after a non-empty run: decode over the receive buffer itself. */
    method Complete(now: u32) returns (ev: RxEvent)
      requires Valid() && state == RxsInFrame
      modifies this, buf
      ensures Valid() && Model() == Idle && buf == old(buf)
      ensures ev == Receive(old(buf[..len]))
    {
      var n := DecodeInPlace(buf, len);
      ev := Inspect(buf[..n]);
      Reset(now);
    }

    /** One octet; the body of the loop in `rbp_rxparser_feed`. */
    method TakeByte(b: byte, now: u32) returns (ev: Option<RxEvent>)
      requires Valid()
      modifies this, buf
      ensures Valid() && buf == old(buf)
      ensures Hit(Model(), ev) == OnByte(old(Model()), b, now)
    {
      ev := None;
      if state == RxsDiscard {
        if b == 0 { Reset(now); }
        return;
      }
      if b == 0 {
        if state == RxsInFrame && len > 0 {
          var e := Complete(now);
          return Some(e);
        }
        Reset(now);
        return;
      }
      ghost var before := Model();
      if state == RxsIdle {
        state, len, frameStart := RxsInFrame, 0, now;
      }
      if len >= COBS_RECV_MAX {
        state := RxsDiscard;
        return Some(Overflow);
      }
      buf[len] := b;
      len := len + 1;
      assert buf[..len] == if before.Idle? then [b] else before.run + [b];
    }

    /** `rbp_rxparser_feed`: stops at the first event and says how many octets are left. */
    method FeedBytes(data: seq<byte>, now: u32) returns (ev: Option<RxEvent>, left: nat)
      requires Valid()
      modifies this, buf
      ensures Valid() && buf == old(buf)
      ensures Fed(Model(), ev, left) == Feed(old(Model()), data, now)
    {
      ghost var before := Model();
      if state == RxsInFrame && Elapsed(now, frameStart) >= HALF_FRAME_MS {
        state, len := RxsDiscard, 0;
        return Some(Timeout), |data|;
      }
      assert data[0..] == data;
      var i := 0;
      while i < |data|
        invariant 0 <= i <= |data|
        invariant Valid() && buf == old(buf)
        invariant Scan(before, data, now) == Scan(Model(), data[i..], now)
        invariant !Expired(Model(), now)
      {
        assert data[i..][0] == data[i] && data[i..][1..] == data[i + 1..];
        ghost var st := Model();
        ev := TakeByte(data[i], now);
        StaysFresh(st, data[i], now);
        if ev.Some? {
          return ev, |data| - i - 1;
        }
        i := i + 1;
      }
      if state == RxsInFrame && Elapsed(now, frameStart) > HALF_FRAME_MS {
        // the trailing time-out test of the source can never fire
        assert false;
      }
      ev, left := None, 0;
    }

    /** `rbp_rx_drain`: feeds the remainder until it is used up; a time-out consumes nothing
        but leaves the frame state, so the pump still stops. */
    method Pump(data: seq<byte>, now: u32) returns (events: seq<RxEvent>)
      requires Valid()
      modifies this, buf
      ensures Valid() && buf == old(buf)
      ensures Outcome(Model(), events) == Drain(old(Model()), data, now)
    {
      ghost var before := Model();
      events := [];
      var cur := data;
      ThenNothing(Drain(before, data, now));
      while |cur| > 0
        invariant Valid() && buf == old(buf)
        invariant Drain(before, data, now) == Then(events, Drain(Model(), cur, now))
        decreases |cur|, state == RxsInFrame
      {
        ghost var st := Model();
        var ev, left := FeedBytes(cur, now);
        FeedAdvances(st, cur, now);
        cur := cur[|cur| - left..];
        ThenThen(events, Listed(ev), Drain(Model(), cur, now));
        if ev.None? {
          assert events + [] == events;
          break;
        }
        events := events + [ev.value];
      }
    }
  }

  // ----- why the pump equals the octet-wise receiver -----

  lemma StaysFresh(st: Rx, b: byte, now: u32)
    requires !Expired(st, now)
    ensures !Expired(OnByte(st, b, now).st, now)
  {
  }

  lemma {:induction false} BytewiseFresh(st: Rx, data: seq<byte>, now: u32)
    requires !Expired(st, now)
    ensures !Expired(Bytewise(st, data, now).st, now)
    decreases |data|
  {
    if data != [] {
      BytewiseFresh(OnByte(st, data[0], now).st, data[1..], now);
    }
  }

  /** An octet that completes nothing. */
  lemma QuietOctet(st: Rx, data: seq<byte>, now: u32)
    requires data != [] && OnByte(st, data[0], now).ev.None?
    ensures var st' := OnByte(st, data[0], now).st;
      && Scan(st, data, now) == Scan(st', data[1..], now)
      && Bytewise(st, data, now) == Bytewise(st', data[1..], now)
  {
    ThenNothing(Bytewise(OnByte(st, data[0], now).st, data[1..], now));
  }

  /** What one scan leaves is what the octets after it continue from. */
  predicate Advanced(st: Rx, f: Fed, data: seq<byte>, now: u32)
    requires f.left <= |data|
  {
    && !Expired(f.st, now)
    && Bytewise(st, data, now) == Then(Listed(f.ev), Bytewise(f.st, data[|data| - f.left..], now))
  }

  lemma LoudOctet(st: Rx, data: seq<byte>, now: u32)
    requires data != [] && !Expired(st, now) && OnByte(st, data[0], now).ev.Some?
    ensures Advanced(st, Scan(st, data, now), data, now)
  {
    StaysFresh(st, data[0], now);
    assert data[|data| - (|data| - 1)..] == data[1..];
  }

  lemma {:induction false} ScanAdvances(st: Rx, data: seq<byte>, now: u32)
    requires !Expired(st, now)
    ensures Advanced(st, Scan(st, data, now), data, now)
    decreases |data|
  {
    if data == [] {
      ThenNothing(Outcome(st, []));
    } else if OnByte(st, data[0], now).ev.Some? {
      LoudOctet(st, data, now);
    } else {
      var st' := OnByte(st, data[0], now).st;
      StaysFresh(st, data[0], now);
      QuietOctet(st, data, now);
      ScanAdvances(st', data[1..], now);
      var f := Scan(st', data[1..], now);
      SameSuffix(data, f.left);
      assert Advanced(st, f, data, now);
    }
  }

  lemma SameSuffix(data: seq<byte>, left: nat)
    requires left < |data|
    ensures data[1..][|data| - 1 - left..] == data[|data| - left..]
  {
  }

  /** One feed call is a step of the drain. */
  lemma FeedAdvances(st: Rx, data: seq<byte>, now: u32)
    requires data != []
    ensures var f := Feed(st, data, now);
            Drain(st, data, now) == Then(Listed(f.ev), Drain(f.st, data[|data| - f.left..], now))
  {
    if Expired(st, now) {
      assert data[|data| - |data|..] == data;
    } else {
      ScanAdvances(st, data, now);
    }
  }

  // ----- whole runs -----

  lemma {:induction false} BytewiseConcat(st: Rx, xs: seq<byte>, ys: seq<byte>, now: u32)
    ensures var o := Bytewise(st, xs, now);
            Bytewise(st, xs + ys, now) == Then(o.events, Bytewise(o.st, ys, now))
    decreases |xs|
  {
    if xs == [] {
      assert xs + ys == ys;
      ThenNothing(Bytewise(st, ys, now));
    } else {
      assert (xs + ys)[1..] == xs[1..] + ys;
      var h := OnByte(st, xs[0], now);
      BytewiseConcat(h.st, xs[1..], ys, now);
      var o := Bytewise(h.st, xs[1..], now);
      ThenThen(Listed(h.ev), o.events, Bytewise(o.st, ys, now));
    }
  }

  /** At one clock value the chunking is invisible. */
  lemma DrainConcat(st: Rx, xs: seq<byte>, ys: seq<byte>, now: u32)
    ensures var o := Drain(st, xs, now);
            Drain(st, xs + ys, now) == Then(o.events, Drain(o.st, ys, now))
  {
    if xs == [] {
      assert xs + ys == ys;
      ThenNothing(Drain(st, ys, now));
    } else {
      var from := if Expired(st, now) then Discard else st;
      BytewiseConcat(from, xs, ys, now);
      BytewiseFresh(from, xs, now);
      var o := Bytewise(from, xs, now);
      ThenThen([Timeout], o.events, Bytewise(o.st, ys, now));
    }
  }

  lemma {:induction false} BytewiseValid(st: Rx, data: seq<byte>, now: u32)
    requires st.Valid()
    ensures Bytewise(st, data, now).st.Valid()
    decreases |data|
  {
    if data != [] {
      BytewiseValid(OnByte(st, data[0], now).st, data[1..], now);
    }
  }

  /** Whatever came before, a delimiter resynchronises. */
  lemma Resynchronised(st: Rx, noise: seq<byte>, now: u32)
    ensures Drain(st, noise + [0], now).st == Idle
  {
    DrainConcat(st, noise, [0], now);
    var st1 := Drain(st, noise, now).st;
    assert [0][1..] == [];
    assert Bytewise(Discard, [0], now).st == Idle;
    assert Bytewise(st1, [0], now).st == OnByte(st1, 0, now).st;
  }

  /** Calls made on the parser over time: received chunks, and the empty feed of the tick. */
  datatype Input = Chunk(data: seq<byte>, now: u32) | Tick(now: u32)

  function Step(st: Rx, x: Input): Outcome
  {
    match x
    case Chunk(data, now) => Drain(st, data, now)
    case Tick(now) => if Expired(st, now) then Outcome(Discard, [Timeout]) else Outcome(st, [])
  }

  function Run(st: Rx, xs: seq<Input>): Outcome
    decreases |xs|
  {
    if xs == [] then Outcome(st, [])
    else
      var o := Step(st, xs[0]);
      Then(o.events, Run(o.st, xs[1..]))
  }

  function Received(xs: seq<Input>): seq<byte>
    decreases |xs|
  {
    if xs == [] then []
    else (if xs[0].Chunk? then xs[0].data else []) + Received(xs[1..])
  }

  /** A parser in frame holds between 1 and 551 octets after every run. */
  lemma {:induction false} RunValid(st: Rx, xs: seq<Input>)
    requires st.Valid()
    ensures Run(st, xs).st.Valid()
    decreases |xs|
  {
    if xs != [] {
      if xs[0].Chunk? {
        BytewiseValid(Discard, xs[0].data, xs[0].now);
        BytewiseValid(st, xs[0].data, xs[0].now);
      }
      RunValid(Step(st, xs[0]).st, xs[1..]);
    }
  }

  lemma {:induction false} CollectBytes(run: seq<byte>, start: u32, xs: seq<byte>, now: u32)
    requires ZeroFree(xs) && 1 <= |run| && |run| + |xs| <= COBS_RECV_MAX
    ensures Bytewise(InFrame(run, start), xs, now) == Outcome(InFrame(run + xs, start), [])
    decreases |xs|
  {
    if xs == [] {
      assert run + xs == run;
    } else {
      CollectBytes(run + [xs[0]], start, xs[1..], now);
      ThenNothing(Outcome(InFrame(run + xs, start), []));
      assert run + [xs[0]] + xs[1..] == run + xs;
    }
  }

  predicate Within(xs: seq<Input>, start: u32)
  {
    forall i :: 0 <= i < |xs| ==> Elapsed(xs[i].now, start) < HALF_FRAME_MS
  }

  /** The state between two calls while an encoded record is arriving. */
  function Partial(run: seq<byte>, start: u32): Rx
  {
    if run == [] then Idle else InFrame(run, start)
  }

  lemma CollectPart(run: seq<byte>, start: u32, xs: seq<byte>, now: u32)
    requires ZeroFree(xs) && |run| + |xs| <= COBS_RECV_MAX
    requires run == [] && xs != [] ==> start == now
    requires Elapsed(now, start) < HALF_FRAME_MS
    ensures Drain(Partial(run, start), xs, now) == Outcome(Partial(run + xs, start), [])
  {
    if xs == [] {
      assert run + xs == run;
    } else if run == [] {
      CollectBytes([xs[0]], start, xs[1..], now);
      ThenNothing(Outcome(InFrame(xs, start), []));
      assert [xs[0]] + xs[1..] == xs == run + xs;
    } else {
      CollectBytes(run, start, xs, now);
    }
  }

  /** The clock at which the first octet of `xs` arrives. */
  predicate StartsAt(xs: seq<Input>, start: u32)
    decreases |xs|
  {
    if xs == [] then true
    else if xs[0].Tick? || xs[0].data == [] then StartsAt(xs[1..], start)
    else xs[0].now == start
  }

  lemma {:induction false} QuietTail(xs: seq<Input>)
    requires Received(xs) == []
    ensures Run(Idle, xs) == Outcome(Idle, [])
    decreases |xs|
  {
    if xs != [] {
      QuietTail(xs[1..]);
    }
  }

  lemma {:induction false} CollectFrame(run: seq<byte>, start: u32, xs: seq<Input>, enc: seq<byte>)
    requires ZeroFree(enc) && 1 <= |enc| <= COBS_RECV_MAX
    requires |run| <= |enc| && run + Received(xs) == enc + [0]
    requires run == [] ==> StartsAt(xs, start)
    requires Within(xs, start)
    ensures Run(Partial(run, start), xs) == Outcome(Idle, [Receive(enc)])
    decreases |xs|
  {
    assert xs == [] ==> |run + Received(xs)| == |run|;
    var x := xs[0];
    assert Within(xs[1..], start);
    ThenNothing(Outcome(Idle, [Receive(enc)]));
    if x.Tick? || x.data == [] {
      assert Received(xs) == Received(xs[1..]);
      CollectFrame(run, start, xs[1..], enc);
    } else {
      assert Received(xs) == x.data + Received(xs[1..]);
      Portion(run, x.data, Received(xs[1..]), enc);
      if |run| + |x.data| <= |enc| {
        CollectPart(run, start, x.data, x.now);
        CollectFrame(run + x.data, start, xs[1..], enc);
      } else {
        LastPart(run, start, enc[|run|..], x.now, enc);
        QuietTail(xs[1..]);
        assert [Receive(enc)] + [] == [Receive(enc)];
      }
    }
  }

  /** A chunk of an arriving record either belongs to it entirely or ends with its delimiter. */
  lemma Portion(run: seq<byte>, data: seq<byte>, more: seq<byte>, enc: seq<byte>)
    requires |run| <= |enc| && run + (data + more) == enc + [0]
    ensures run + enc[|run|..] == enc
    ensures if |run| + |data| <= |enc| then
              data == enc[|run|..|run| + |data|] && run + data + more == enc + [0]
            else data == enc[|run|..] + [0] && more == []
  {
    var all := enc + [0];
    assert run == all[..|run|] == enc[..|run|];
    assert data == all[|run|..|run| + |data|];
    assert more == all[|run| + |data|..];
  }

  lemma LastPart(run: seq<byte>, start: u32, body: seq<byte>, now: u32, enc: seq<byte>)
    requires run + body == enc && ZeroFree(enc) && 1 <= |enc| <= COBS_RECV_MAX
    requires run == [] ==> start == now
    requires Elapsed(now, start) < HALF_FRAME_MS
    ensures Drain(Partial(run, start), body + [0], now) == Outcome(Idle, [Receive(enc)])
  {
    assert body == enc[|run|..];
    ThenNothing(Outcome(Idle, [Receive(enc)]));
    assert Listed(Some(Receive(enc))) + [] == [Receive(enc)];
    CollectPart(run, start, body, now);
    DrainConcat(Partial(run, start), body, [0], now);
    assert [0][1..] == [];
  }

  /** From any parser state, after any octets ending in a delimiter, an encoded frame fed in
      any chunks (and ticks) within the half-frame time-out of its first octet yields exactly
      one event: that frame, with its completed header, its payload and a good CRC. */
  lemma FrameDelivered(st: Rx, noise: seq<byte>, t: u32, xs: seq<Input>,
                       h: Header, txSeq: u32, payload: seq<byte>, start: u32)
    requires |payload| <= MAX_PAYLOAD
    requires Received(xs) == Wire(Complete(h, txSeq, |payload|), payload)
    requires StartsAt(xs, start) && Within(xs, start)
    ensures var idle := Drain(st, noise + [0], t).st;
            Run(idle, xs) == Outcome(Idle, [FrameIn(Complete(h, txSeq, |payload|), payload, true)])
  {
    Resynchronised(st, noise, t);
    var full := Complete(h, txSeq, |payload|);
    var enc := Encode(Raw(full, payload));
    WireShape(full, payload);
    ReceiveEncoded(full, payload);
    assert [] + Received(xs) == enc + [0];
    CollectFrame([], start, xs, enc);
  }
}
