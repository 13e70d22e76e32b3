/** The host side of encoded audio: what a client accepts as one capture. */
module HostAudio {
  import opened Options
  import opened Bytes

  const UNKNOWN_INDEX := U64_MAX
  const UNKNOWN_COUNT := U32_MAX

  datatype Codec = Codec(id: nat, revision: nat)

  datatype Format = Format(
    streamId: nat, epoch: nat, codec: Codec, sampleRate: nat, channels: nat, config: seq<byte>,
    maxUnitBytes: nat, firstSampleIndex: nat, capturedUs: nat, firstUnitSeq: nat)

  datatype Fragment = Fragment(
    streamId: nat, frameSeq: nat, epoch: nat, unitSeq: nat, unitSize: nat, offset: nat,
    firstSampleIndex: nat, unitSamples: nat, data: seq<byte>)

  datatype Ending = Ending(
    streamId: nat, reason: nat, encodedBytes: nat, endedUs: nat, units: nat, samples: nat, finalEpoch: nat)

  /** The media events of the protocol, in the order of the wire. */
  datatype Record = Started(fmt: Format) | Reformat(fmt: Format) | Data(frag: Fragment) | Ended(end: Ending)

  datatype Meta = Meta(unitSeq: nat, unitSize: nat, firstSampleIndex: nat, unitSamples: nat, epoch: nat)

  datatype Stream = Stream(
    streamId: nat, seqNo: nat, unit: nat, offset: nat, samples: nat, encodedBytes: nat, epoch: nat,
    pending: Option<Meta>, maxUnitBytes: nat)

  /** What the client offered when it enabled voice. */
  datatype Terms = Terms(accepted: set<Codec>, maxUnit: nat)

  predicate WellFormed(f: Format)
  {
    && 0 < f.streamId <= UNKNOWN_COUNT && 0 < f.epoch <= UNKNOWN_COUNT
    && 0 < f.codec.id < 0x8000_0000 && 0 < f.codec.revision <= U16_MAX
    && 1 <= f.sampleRate <= 384000 && 1 <= f.channels <= 8 && |f.config| <= 256
    && 1 <= f.maxUnitBytes <= 65536 && 0 < f.firstUnitSeq <= UNKNOWN_COUNT
    && f.firstSampleIndex <= UNKNOWN_INDEX && f.capturedUs <= UNKNOWN_INDEX
  }

  function Fresh(streamId: nat): Stream
  {
    Stream(streamId, 0, 1, 0, 0, 0, 0, None, 0)
  }

  function OnFormat(t: Terms, s: Stream, f: Format): Option<Stream>
  {
    if WellFormed(f) && f.codec in t.accepted && f.maxUnitBytes <= t.maxUnit
       && f.streamId == s.streamId && f.epoch == s.epoch + 1 && s.offset == 0
       && f.firstUnitSeq == s.unit && f.firstSampleIndex == s.samples
    then Some(s.(epoch := f.epoch, maxUnitBytes := f.maxUnitBytes)) else None
  }

  /** Sample positions saturate at "unknown". */
  function Advance(samples: nat, count: nat): nat
  {
    if samples == UNKNOWN_INDEX || count == UNKNOWN_COUNT || samples + count >= UNKNOWN_INDEX then UNKNOWN_INDEX
    else samples + count
  }

  function OnFragment(s: Stream, c: Fragment): Option<Stream>
  {
    var meta := Meta(c.unitSeq, c.unitSize, c.firstSampleIndex, c.unitSamples, c.epoch);
    if c.data == [] || c.streamId != s.streamId || c.frameSeq != s.seqNo + 1 || c.epoch != s.epoch
       || c.unitSeq != s.unit || !(1 <= c.unitSize <= s.maxUnitBytes) || c.offset != s.offset
       || c.firstSampleIndex != s.samples || s.offset + |c.data| > c.unitSize
       || (s.pending.Some? && meta != s.pending.value)
    then None
    else
      var s' := s.(pending := Some(meta), offset := s.offset + |c.data|, seqNo := c.frameSeq,
                   encodedBytes := s.encodedBytes + |c.data|);
      if s'.offset == c.unitSize then
        Some(s'.(samples := Advance(s.samples, c.unitSamples), unit := s.unit + 1, offset := 0, pending := None))
      else Some(s')
  }

  predicate DrainReason(reason: nat)
  {
    reason == 0 || reason == 7 || reason == 8
  }

  predicate OnEnd(s: Stream, e: Ending)
  {
    && e.streamId == s.streamId && e.reason <= 9 && e.encodedBytes == s.encodedBytes
    && e.units == s.unit - 1 && e.samples == s.samples && e.finalEpoch == s.epoch
    && !(DrainReason(e.reason) && s.offset != 0)
  }

  /** The client between media events: no stream, one stream, or an error already raised. */
  datatype Listener = Silent | Listening(stream: Stream) | Rejected

  function Settle(o: Option<Stream>): Listener
  {
    if o.Some? then Listening(o.value) else Rejected
  }

  function Hear(t: Terms, l: Listener, r: Record): Listener
  {
    match (l, r)
    case (Rejected, _) => Rejected
    case (Silent, Started(f)) => Settle(OnFormat(t, Fresh(f.streamId), f))
    case (Silent, _) => Rejected
    case (Listening(s), Started(_)) => Rejected
    case (Listening(s), Reformat(f)) => Settle(OnFormat(t, s, f))
    case (Listening(s), Data(c)) => Settle(OnFragment(s, c))
    case (Listening(s), Ended(e)) => if OnEnd(s, e) then Silent else Rejected
  }

  function HearAll(t: Terms, l: Listener, rs: seq<Record>): Listener
    decreases |rs|
  {
    if rs == [] then l else HearAll(t, Hear(t, l, rs[0]), rs[1..])
  }

  lemma {:induction false} HearConcat(t: Terms, l: Listener, a: seq<Record>, b: seq<Record>)
    ensures HearAll(t, l, a + b) == HearAll(t, HearAll(t, l, a), b)
    decreases |a|
  {
    if a == [] {
      assert a + b == b;
    } else {
      assert (a + b)[1..] == a[1..] + b;
      HearConcat(t, Hear(t, l, a[0]), a[1..], b);
    }
  }

  lemma HearSnoc(t: Terms, l: Listener, a: seq<Record>, r: Record)
    ensures HearAll(t, l, a + [r]) == Hear(t, HearAll(t, l, a), r)
  {
    HearConcat(t, l, a, [r]);
    assert [r][1..] == [];
  }

  lemma {:induction false} RejectedForGood(t: Terms, rs: seq<Record>)
    ensures HearAll(t, Rejected, rs) == Rejected
    decreases |rs|
  {
    if rs != [] {
      RejectedForGood(t, rs[1..]);
    }
  }

  /** A sequence that is accepted was accepted at every prefix. */
  lemma PrefixAccepted(t: Terms, l: Listener, a: seq<Record>, b: seq<Record>)
    requires HearAll(t, l, a + b) != Rejected
    ensures HearAll(t, l, a) != Rejected
  {
    HearConcat(t, l, a, b);
    RejectedForGood(t, b);
  }

  /** The object a client holds between START and END.  A refused event raises an error in the
      source; here it returns false and changes nothing. */
  class AudioStream {
    const terms: Terms
    const streamId: nat
    var seqNo: nat
    var unit: nat
    var offset: nat
    var samples: nat
    var encodedBytes: nat
    var epoch: nat
    var pending: Option<Meta>
    var maxUnitBytes: nat

    ghost function Model(): Stream
      reads this
    {
      Stream(streamId, seqNo, unit, offset, samples, encodedBytes, epoch, pending, maxUnitBytes)
    }

    constructor (streamId: nat, terms: Terms)
      ensures Model() == Fresh(streamId) && this.terms == terms
    {
      this.streamId, this.terms := streamId, terms;
      seqNo, unit, offset, samples, encodedBytes, epoch, pending, maxUnitBytes := 0, 1, 0, 0, 0, 0, None, 0;
    }

    method OnFormatEvent(f: Format) returns (ok: bool)
      modifies this
      ensures OnFormat(terms, old(Model()), f) == if ok then Some(Model()) else None
      ensures !ok ==> Model() == old(Model())
    {
      if !WellFormed(f) { return false; }
      if f.codec !in terms.accepted || f.maxUnitBytes > terms.maxUnit { return false; }
      if f.streamId != streamId || f.epoch != epoch + 1 || offset != 0 || f.firstUnitSeq != unit
         || f.firstSampleIndex != samples { return false; }
      epoch, maxUnitBytes, ok := f.epoch, f.maxUnitBytes, true;
    }

    method Feed(c: Fragment) returns (ok: bool)
      modifies this
      ensures OnFragment(old(Model()), c) == if ok then Some(Model()) else None
      ensures !ok ==> Model() == old(Model())
    {
      if c.data == [] { return false; }
      var meta := Meta(c.unitSeq, c.unitSize, c.firstSampleIndex, c.unitSamples, c.epoch);
      if c.streamId != streamId || c.frameSeq != seqNo + 1 || c.epoch != epoch || c.unitSeq != unit
         || !(1 <= c.unitSize <= maxUnitBytes) || c.offset != offset || c.firstSampleIndex != samples
         || offset + |c.data| > c.unitSize || (pending.Some? && meta != pending.value) { return false; }
      pending, offset, seqNo := Some(meta), offset + |c.data|, c.frameSeq;
      encodedBytes := encodedBytes + |c.data|;
      if offset == c.unitSize {
        samples := if samples == UNKNOWN_INDEX || c.unitSamples == UNKNOWN_COUNT then UNKNOWN_INDEX
                   else samples + c.unitSamples;
        if samples >= UNKNOWN_INDEX { samples := UNKNOWN_INDEX; }
        unit, offset, pending := unit + 1, 0, None;
      }
      ok := true;
    }

    method End(e: Ending) returns (ok: bool)
      ensures ok <==> OnEnd(Model(), e)
    {
      ok := !(e.streamId != streamId || e.reason > 9 || e.encodedBytes != encodedBytes || e.units != unit - 1
              || e.samples != samples || e.finalEpoch != epoch || (DrainReason(e.reason) && offset != 0));
    }
  }
}
