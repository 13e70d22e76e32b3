/** The client's own frame parser: the receiver of the firmware in another language, with three
    more tests on each header. */
module ClientWire {
  import opened Bytes
  import opened Options
  import opened Crc32c
  import opened Cobs
  import opened Frame
  import R = Receiver

  const KIND_AUDIO: byte := 4

  /** What the client asks of a header besides what the firmware's receiver does. */
  predicate Decent(h: Header, payload: seq<byte>)
  {
    h.flags == 0 && 1 <= h.kind <= KIND_AUDIO && h.payloadSize == |payload|
  }

  function Judged(ev: RxEvent): RxEvent
  {
    if ev.FrameIn? && !Decent(ev.header, ev.payload) then Garbage else ev
  }

  function AllJudged(evs: seq<RxEvent>): (r: seq<RxEvent>)
    ensures |r| == |evs|
    ensures forall i :: 0 <= i < |evs| ==> r[i] == Judged(evs[i])
  {
    if evs == [] then [] else [Judged(evs[0])] + AllJudged(evs[1..])
  }

  lemma JudgedConcat(a: seq<RxEvent>, b: seq<RxEvent>)
    ensures AllJudged(a + b) == AllJudged(a) + AllJudged(b)
  {
  }

  /** One block of a record, decoded from `i` on. */
  lemma NextBlock(src: seq<byte>, i: nat, out: seq<byte>)
    requires i < |src| && 0 < src[i] <= |src| - i
    ensures Prepend(out, Decode(src[i..]))
         == Prepend(out + src[i + 1..i + src[i]] + (if src[i] < 255 && i + src[i] != |src| then [0] else []), Decode(src[i + src[i]..]))
  {
    var left := src[i..];
    DecodeStep(left, out);
    assert src[i + 1..i + src[i]] == left[1..src[i]] && src[i + src[i]..] == left[src[i]..];
  }

  lemma PrependNothing(d: Decoded)
    ensures Prepend([], d) == d
  {
    if d.Record? {
      assert [] + d.data == d.data;
    }
  }

  /** What is left to decode gives `d`, once `out` is put in front of it. */
  ghost predicate Leads(src: seq<byte>, i: nat, out: seq<byte>, d: Decoded)
  {
    i <= |src| && Prepend(out, Decode(src[i..])) == d
  }

  /** One turn of the loop in `cobs_decode`: the next block, or nothing when it is malformed. */
  method TakeBlock(src: seq<byte>, i: nat, out: seq<byte>, ghost d: Decoded) returns (more: Option<seq<byte>>)
    requires i < |src| && Leads(src, i, out, d)
    ensures more.None? ==> d == Malformed
    ensures more.Some? ==> src[i] > 0 && Leads(src, i + src[i], more.value, d)
  {
    var code := src[i];
    if code == 0 || |src| - i - 1 < code - 1 { return None; }
    NextBlock(src, i, out);
    more := Some(out + src[i + 1..i + code] + if code < 255 && i + code != |src| then [0] else []);
  }

  lemma AllTaken(src: seq<byte>, out: seq<byte>, d: Decoded)
    requires Leads(src, |src|, out, d)
    ensures d == Record(out)
  {
    assert src[|src|..] == [] && out + [] == out;
  }

  lemma AllLeft(src: seq<byte>)
    ensures Leads(src, 0, [], Decode(src))
  {
    assert src[0..] == src;
    PrependNothing(Decode(src));
  }

  function Result(d: Decoded): Option<seq<byte>>
  {
    match d
    case Malformed => None
    case Record(raw) => Some(raw)
  }

  /** `cobs_decode`. */
  method CobsDecode(src: seq<byte>) returns (r: Option<seq<byte>>)
    ensures r == Result(Decode(src))
  {
    hide Decode, Leads;
    ghost var d := Decode(src);
    var out, i := [], 0;
    AllLeft(src);
    while i < |src|
      invariant 0 <= i <= |src| && Leads(src, i, out, d)
    {
      var more := TakeBlock(src, i, out, d);
      if more.None? { return None; }
      LeadsWithin(src, i + src[i], more.value, d);
      out, i := more.value, i + src[i];
    }
    AllTaken(src, out, d);
    r := Some(out);
  }

  lemma LeadsWithin(src: seq<byte>, i: nat, out: seq<byte>, d: Decoded)
    requires Leads(src, i, out, d)
    ensures i <= |src|
  {
  }

  /** A complete run: decoded, measured, its header unpacked and tested, its CRC compared. */
  method Inspect(run: seq<byte>) returns (ev: RxEvent)
    ensures ev == Judged(Receive(run))
  {
    var raw := CobsDecode(run);
    if raw.None? || !(HEADER_SIZE + 4 <= |raw.value| <= MAX_FRAME_RAW) { return Garbage; }
    ev := Test(raw.value);
  }

  method Test(raw: seq<byte>) returns (ev: RxEvent)
    requires HEADER_SIZE + 4 <= |raw| <= MAX_FRAME_RAW
    ensures ev == Judged(Judge(raw))
  {
    var header, end := Unpack(raw), |raw| - 4;
    if !Recognised(header) { return Garbage; }
    var crcOk := Crc(raw[..end]) == Field32(raw, end);
    ev := Judged(FrameIn(header, raw[HEADER_SIZE..end], crcOk));
  }

  /** One call of `feed`, in terms of the firmware's receiver: an expired frame is given up even
      when no octet arrives. */
  function Fed(st: R.Rx, data: seq<byte>, now: u32): R.Outcome
  {
    if R.Expired(st, now) then R.Then([Timeout], R.Bytewise(R.Discard, data, now)) else R.Bytewise(st, data, now)
  }

  lemma FedIsReceiver(st: R.Rx, data: seq<byte>, now: u32)
    ensures Fed(st, data, now) == if data == [] then R.Step(st, R.Tick(now)) else R.Step(st, R.Chunk(data, now))
  {
    assert [Timeout] + [] == [Timeout];
  }

  /** The octets from `i` on, the first of them apart. */
  lemma NextOctet(st: R.Rx, data: seq<byte>, i: nat, now: u32, done: seq<RxEvent>)
    requires i < |data|
    ensures var h := R.OnByte(st, data[i], now);
      R.Then(done, R.Bytewise(st, data[i..], now)) == R.Then(done + R.Listed(h.ev), R.Bytewise(h.st, data[i + 1..], now))
  {
    assert data[i..][0] == data[i] && data[i..][1..] == data[i + 1..];
    var h := R.OnByte(st, data[i], now);
    R.ThenThen(done, R.Listed(h.ev), R.Bytewise(h.st, data[i + 1..], now));
  }

  lemma NoMoreOctets(st: R.Rx, data: seq<byte>, now: u32, done: seq<RxEvent>)
    ensures R.Then(done, R.Bytewise(st, data[|data|..], now)) == R.Outcome(st, done)
  {
    assert data[|data|..] == [] && done + [] == done;
  }

  class FrameParser {
    var buf: seq<byte>
    var startMs: u32
    var discard: bool

    ghost predicate Valid()
      reads this
    {
      |buf| <= COBS_RECV_MAX && (discard ==> buf == [])
    }

    ghost function Model(): R.Rx
      reads this
    {
      if discard then R.Discard else if buf == [] then R.Idle else R.InFrame(buf, startMs)
    }

    constructor ()
      ensures Valid() && Model() == R.Idle
    {
      buf, startMs, discard := [], 0, false;
    }

    /** One octet of the loop in `feed`. */
    method TakeOctet(b: byte, now: u32) returns (evs: seq<RxEvent>)
      requires Valid()
      modifies this
      ensures Valid() && Model() == R.OnByte(old(Model()), b, now).st
      ensures evs == AllJudged(R.Listed(R.OnByte(old(Model()), b, now).ev))
      ensures (old(buf) != [] ==> old(startMs) <= now) ==> (buf != [] ==> startMs <= now)
    {
      evs := [];
      if discard {
        if b == 0 { discard := false; }
      } else if b == 0 {
        if buf != [] {
          var ev := Inspect(buf);
          buf, evs := [], [ev];
        }
      } else {
        if buf == [] { startMs := now; }
        buf := buf + [b];
        if |buf| > COBS_RECV_MAX { buf, discard, evs := [], true, [Overflow]; }
      }
    }

    /** `feed`: on a clock that does not run backwards, the events of the firmware's receiver
        with the three further tests applied. */
    method Feed(data: seq<byte>, now: u32) returns (evs: seq<RxEvent>)
      requires Valid() && (buf != [] ==> startMs <= now)
      modifies this
      ensures Valid() && (buf != [] ==> startMs <= now)
      ensures Model() == Fed(old(Model()), data, now).st && evs == AllJudged(Fed(old(Model()), data, now).events)
    {
      hide R.Bytewise, R.OnByte, AllJudged;
      ghost var whole := Fed(Model(), data, now);
      evs := [];
      if buf != [] && now - startMs >= R.HALF_FRAME_MS { buf, discard, evs := [], true, [Timeout]; }
      ghost var done := if evs == [] then [] else [Timeout];
      var i := 0;
      assert data[0..] == data;
      R.ThenNothing(R.Bytewise(Model(), data, now));
      while i < |data|
        invariant 0 <= i <= |data| && Valid() && (buf != [] ==> startMs <= now)
        invariant evs == AllJudged(done) && whole == R.Then(done, R.Bytewise(Model(), data[i..], now))
      {
        ghost var h := R.OnByte(Model(), data[i], now);
        NextOctet(Model(), data, i, now, done);
        var more := TakeOctet(data[i], now);
        JudgedConcat(done, R.Listed(h.ev));
        done := done + R.Listed(h.ev);
        evs := evs + more;
        i := i + 1;
      }
      NoMoreOctets(Model(), data, now, done);
    }
  }

  // ----- a whole session of reads -----

  /** What one read of the transport returned, and when. */
  datatype Read = Read(data: seq<byte>, now: u32)

  function Reads(st: R.Rx, xs: seq<Read>): R.Outcome
    decreases |xs|
  {
    if xs == [] then R.Outcome(st, [])
    else
      var o := Fed(st, xs[0].data, xs[0].now);
      R.Then(o.events, Reads(o.st, xs[1..]))
  }

  function AllRead(xs: seq<Read>): seq<byte>
    decreases |xs|
  {
    if xs == [] then [] else xs[0].data + AllRead(xs[1..])
  }

  /** No half frame is given up. */
  predicate Timely(st: R.Rx, xs: seq<Read>)
    decreases |xs|
  {
    xs != [] ==> !R.Expired(st, xs[0].now) && Timely(Fed(st, xs[0].data, xs[0].now).st, xs[1..])
  }

  /** The same but for the time at which a frame began. */
  predicate Alike(a: R.Rx, b: R.Rx)
  {
    a == b || (a.InFrame? && b.InFrame? && a.run == b.run)
  }

  lemma {:induction false} BytewiseAlike(a: R.Rx, b: R.Rx, data: seq<byte>, now: u32, later: u32)
    requires Alike(a, b)
    ensures Alike(R.Bytewise(a, data, now).st, R.Bytewise(b, data, later).st)
    ensures R.Bytewise(a, data, now).events == R.Bytewise(b, data, later).events
    decreases |data|
  {
    if data != [] {
      BytewiseAlike(R.OnByte(a, data[0], now).st, R.OnByte(b, data[0], later).st, data[1..], now, later);
    }
  }

  /** In whatever chunks and at whatever times the octets are read, as long as no half frame
      expires, the events are those of all octets at once. */
  lemma {:induction false} ChunksInvisible(a: R.Rx, b: R.Rx, xs: seq<Read>, now: u32)
    requires Alike(a, b) && Timely(a, xs)
    ensures Reads(a, xs).events == R.Bytewise(b, AllRead(xs), now).events
    decreases |xs|
  {
    if xs != [] {
      var x, rest := xs[0], AllRead(xs[1..]);
      BytewiseAlike(a, b, x.data, x.now, now);
      R.BytewiseConcat(b, x.data, rest, now);
      ChunksInvisible(Fed(a, x.data, x.now).st, R.Bytewise(b, x.data, now).st, xs[1..], now);
    }
  }
}
