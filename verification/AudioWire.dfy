/** Media payloads as octets: the fixed DATA header and the TLV bodies of START, FORMAT and END. */
module AudioWire {
  import opened Bytes
  import opened Options
  import opened HostAudio
  import opened Voice

  predicate InRange(f: Fragment)
  {
    && f.streamId <= U32_MAX && f.frameSeq <= U32_MAX && f.epoch <= U32_MAX && f.unitSeq <= U32_MAX
    && f.unitSize <= U32_MAX && f.offset <= U32_MAX && f.firstSampleIndex <= U64_MAX && f.unitSamples <= U32_MAX
  }

  /** The server's `audio_put` calls, in order. */
  function DataHeader(f: Fragment): (s: seq<byte>)
    ensures |s| == DATA_HEADER
  {
    Le(f.streamId, 4) + Le(f.frameSeq, 4) + Le(f.epoch, 4) + Le(f.unitSeq, 4)
    + Le(f.unitSize, 4) + Le(f.offset, 4) + Le(f.firstSampleIndex, 8) + Le(f.unitSamples, 4) + Le(0, 4)
  }

  function EncodeData(f: Fragment): seq<byte>
  {
    DataHeader(f) + f.data
  }

  /** `EncodedFragment.parse` of the client. */
  function ParseData(p: seq<byte>): Option<Fragment>
  {
    if !(41 <= |p| <= 512) || LeValue(p[36..40]) != 0 then None
    else Some(Fragment(LeValue(p[0..4]), LeValue(p[4..8]), LeValue(p[8..12]), LeValue(p[12..16]),
                       LeValue(p[16..20]), LeValue(p[20..24]), LeValue(p[24..32]), LeValue(p[32..36]), p[40..]))
  }

  lemma HeaderFront(f: Fragment, p: seq<byte>)
    requires p == EncodeData(f)
    ensures p[0..4] == Le(f.streamId, 4) && p[4..8] == Le(f.frameSeq, 4) && p[8..12] == Le(f.epoch, 4)
    ensures p[12..16] == Le(f.unitSeq, 4) && p[16..20] == Le(f.unitSize, 4)
  {
  }

  lemma HeaderBack(f: Fragment, p: seq<byte>)
    requires p == EncodeData(f)
    ensures p[20..24] == Le(f.offset, 4) && p[24..32] == Le(f.firstSampleIndex, 8)
    ensures p[32..36] == Le(f.unitSamples, 4) && p[36..40] == Le(0, 4) && p[40..] == f.data
  {
  }

  /** The client reads back every fragment the server writes. */
  lemma ParseEncoded(f: Fragment)
    requires InRange(f) && 1 <= |f.data| <= FRAGMENT
    ensures ParseData(EncodeData(f)) == Some(f)
  {
    var p := EncodeData(f);
    HeaderFront(f, p);
    HeaderBack(f, p);
    LeRoundTrip4(f.streamId);
    LeRoundTrip4(f.frameSeq);
    LeRoundTrip4(f.epoch);
    LeRoundTrip4(f.unitSeq);
    LeRoundTrip4(f.unitSize);
    LeRoundTrip4(f.offset);
    LeRoundTrip8(f.firstSampleIndex);
    LeRoundTrip4(f.unitSamples);
    LeRoundTrip4(0);
  }

  /** `media_flush_one` decides from the octets whether a unit is complete; it decides right. */
  lemma UnitCompleteOnWire(f: Fragment)
    requires InRange(f) && f.offset + |f.data| <= U32_MAX
    ensures var p := EncodeData(f);
            (LeValue(p[20..24]) + |p| - DATA_HEADER) % 0x1_0000_0000 == LeValue(p[16..20])
            <==> f.offset + |f.data| == f.unitSize
  {
    var p := EncodeData(f);
    HeaderFront(f, p);
    HeaderBack(f, p);
    LeRoundTrip4(f.unitSize);
    LeRoundTrip4(f.offset);
  }

  // ----- TLV -----

  datatype Entry = Entry(tag: byte, kind: byte, value: seq<byte>)

  function Octets(e: Entry): (s: seq<byte>)
    ensures |s| == 4 + |e.value|
  {
    [e.tag, e.kind] + Le(|e.value|, 2) + e.value
  }

  function Tlv(es: seq<Entry>): seq<byte>
  {
    if es == [] then [] else Octets(es[0]) + Tlv(es[1..])
  }

  /** The loop of `parse_tlv`: `None` for a truncated entry or a repeated tag. */
  function ReadTlv(p: seq<byte>, seen: set<byte>): Option<seq<Entry>>
    decreases |p|
  {
    if p == [] then Some([])
    else if |p| < 4 then None
    else
      var n := LeValue(p[2..4]);
      if |p| < 4 + n || p[0] in seen then None
      else
        var rest := ReadTlv(p[4 + n..], seen + {p[0]});
        if rest.None? then None else Some([Entry(p[0], p[1], p[4..4 + n])] + rest.value)
  }

  /** Tags count up from `tag`, and every value fits its length field. */
  predicate Listed(es: seq<Entry>, tag: nat)
  {
    forall i :: 0 <= i < |es| ==> es[i].tag == tag + i && |es[i].value| <= 480
  }

  lemma OctetsRead(e: Entry, rest: seq<byte>)
    requires |e.value| <= 480
    ensures var p := Octets(e) + rest;
      && p[0] == e.tag && p[1] == e.kind && LeValue(p[2..4]) == |e.value|
      && p[4..4 + |e.value|] == e.value && p[4 + |e.value|..] == rest
  {
    var p := Octets(e) + rest;
    assert p[2..4] == Le(|e.value|, 2);
    LeRoundTrip2(|e.value|);
  }

  /** Reading what was written. */
  lemma {:induction false} ReadWritten(es: seq<Entry>, tag: nat, seen: set<byte>)
    requires Listed(es, tag) && forall t :: t in seen ==> t < tag
    ensures ReadTlv(Tlv(es), seen) == Some(es)
  {
    if es != [] {
      OctetsRead(es[0], Tlv(es[1..]));
      ReadWritten(es[1..], tag + 1, seen + {es[0].tag});
      assert [es[0]] + es[1..] == es;
    }
  }

  /** Lengths that go with a value type: u8, u16, u32, u64, octets. */
  predicate Fits(kind: byte, n: nat)
  {
    (kind == 1 && n == 1) || (kind == 2 && n == 2) || (kind == 3 && n == 4) || (kind == 4 && n == 8) || (kind == 7 && n <= 480)
  }

  /** A required field of the schema; `None` when it is missing or of another type. */
  function Get(es: seq<Entry>, tag: byte, kind: byte): Option<seq<byte>>
  {
    if es == [] then None
    else if es[0].tag == tag then if es[0].kind == kind && Fits(kind, |es[0].value|) then Some(es[0].value) else None
    else Get(es[1..], tag, kind)
  }

  lemma {:induction false} GetListed(es: seq<Entry>, tag: nat, i: nat)
    requires Listed(es, tag) && i < |es| && Fits(es[i].kind, |es[i].value|)
    ensures Get(es, es[i].tag, es[i].kind) == Some(es[i].value)
  {
    if i > 0 {
      assert es[1..][i - 1] == es[i];
      GetListed(es[1..], tag + 1, i - 1);
    }
  }

  predicate HasAll(es: seq<Entry>, kinds: seq<byte>)
    requires |kinds| < 256
  {
    forall i :: 0 <= i < |kinds| ==> Get(es, i + 1, kinds[i]).Some?
  }

  function Number(es: seq<Entry>, tag: byte, kind: byte): nat
    requires Get(es, tag, kind).Some?
  {
    LeValue(Get(es, tag, kind).value)
  }

  /** A number in an entry of the given type. */
  lemma NumberListed(es: seq<Entry>, i: nat, v: nat)
    requires Listed(es, 1) && i < |es| && Fits(es[i].kind, |es[i].value|)
    requires es[i].value == Le(v, |es[i].value|) && v < Pow256(|es[i].value|)
    ensures Get(es, es[i].tag, es[i].kind).Some? && Number(es, es[i].tag, es[i].kind) == v
  {
    GetListed(es, 1, i);
    LeRoundTrip(v, |es[i].value|);
  }

  lemma Powers()
    ensures Pow256(1) == 256 && Pow256(2) == U16_MAX + 1 && Pow256(4) == U32_MAX + 1 && Pow256(8) == U64_MAX + 1
  {
    assert Pow256(1) == 256 * Pow256(0);
    assert Pow256(2) == 256 * Pow256(1);
    assert Pow256(4) == 256 * (256 * Pow256(2));
    assert Pow256(8) == 256 * (256 * (256 * (256 * Pow256(4))));
  }

  function Total(es: seq<Entry>, k: nat): nat
    requires k <= |es|
    decreases |es| - k
  {
    if k == |es| then 0 else 4 + |es[k].value| + Total(es, k + 1)
  }

  lemma {:induction false} TlvLength(es: seq<Entry>, k: nat)
    requires k <= |es|
    ensures |Tlv(es[k..])| == Total(es, k)
    decreases |es| - k
  {
    if k < |es| {
      assert es[k..][1..] == es[k + 1..];
      TlvLength(es, k + 1);
    }
  }

  // ----- START and FORMAT -----

  const FORMAT_KINDS: seq<byte> := [3, 3, 3, 2, 3, 1, 7, 3, 4, 4, 3]

  function FormatEntries(f: Format): (es: seq<Entry>)
    ensures |es| == 11
  {
    [Entry(1, 3, Le(f.streamId, 4)), Entry(2, 3, Le(f.epoch, 4)), Entry(3, 3, Le(f.codec.id, 4)),
     Entry(4, 2, Le(f.codec.revision, 2)), Entry(5, 3, Le(f.sampleRate, 4)), Entry(6, 1, Le(f.channels, 1)),
     Entry(7, 7, f.config), Entry(8, 3, Le(f.maxUnitBytes, 4)), Entry(9, 4, Le(f.firstSampleIndex, 8)),
     Entry(10, 4, Le(f.capturedUs, 8)), Entry(11, 3, Le(f.firstUnitSeq, 4))]
  }

  function FormatTlv(f: Format): seq<byte>
  {
    Tlv(FormatEntries(f))
  }

  /** `AudioFormat` out of the fields of the payload; its own range checks follow in `OnFormat`. */
  function ParseFormat(p: seq<byte>): Option<Format>
  {
    var o := ReadTlv(p, {});
    if o.None? || !HasAll(o.value, FORMAT_KINDS) then None
    else
      var es := o.value;
      assert forall i :: 0 <= i < 11 ==> Get(es, i + 1, FORMAT_KINDS[i]).Some?;
      FormatHas(es);
      Some(Format(Number(es, 1, 3), Number(es, 2, 3), Codec(Number(es, 3, 3), Number(es, 4, 2)), Number(es, 5, 3),
                  Number(es, 6, 1), Get(es, 7, 7).value, Number(es, 8, 3), Number(es, 9, 4), Number(es, 10, 4), Number(es, 11, 3)))
  }

  lemma FormatHas(es: seq<Entry>)
    requires HasAll(es, FORMAT_KINDS)
    ensures Get(es, 1, 3).Some? && Get(es, 2, 3).Some? && Get(es, 3, 3).Some? && Get(es, 4, 2).Some?
    ensures Get(es, 5, 3).Some? && Get(es, 6, 1).Some? && Get(es, 7, 7).Some? && Get(es, 8, 3).Some?
    ensures Get(es, 9, 4).Some? && Get(es, 10, 4).Some? && Get(es, 11, 3).Some?
  {
    var ks := FORMAT_KINDS;
    assert Get(es, 0 + 1, ks[0]).Some? && Get(es, 1 + 1, ks[1]).Some? && Get(es, 2 + 1, ks[2]).Some?;
    assert Get(es, 3 + 1, ks[3]).Some? && Get(es, 4 + 1, ks[4]).Some? && Get(es, 5 + 1, ks[5]).Some?;
    assert Get(es, 6 + 1, ks[6]).Some? && Get(es, 7 + 1, ks[7]).Some? && Get(es, 8 + 1, ks[8]).Some?;
    assert Get(es, 9 + 1, ks[9]).Some? && Get(es, 10 + 1, ks[10]).Some?;
  }

  predicate FormatFits(f: Format)
  {
    && f.streamId <= U32_MAX && f.epoch <= U32_MAX && f.codec.id <= U32_MAX && f.codec.revision <= U16_MAX
    && f.sampleRate <= U32_MAX && f.channels <= 255 && |f.config| <= 256 && f.maxUnitBytes <= U32_MAX
    && f.firstSampleIndex <= U64_MAX && f.capturedUs <= U64_MAX && f.firstUnitSeq <= U32_MAX
  }

  /** The client reads back every format the server writes. */
  lemma ParseFormatWritten(f: Format)
    requires FormatFits(f)
    ensures ParseFormat(FormatTlv(f)) == Some(f)
  {
    var es := FormatEntries(f);
    Powers();
    assert Listed(es, 1);
    ReadWritten(es, 1, {});
    NumberListed(es, 0, f.streamId);
    NumberListed(es, 1, f.epoch);
    NumberListed(es, 2, f.codec.id);
    NumberListed(es, 3, f.codec.revision);
    NumberListed(es, 4, f.sampleRate);
    NumberListed(es, 5, f.channels);
    GetListed(es, 1, 6);
    NumberListed(es, 7, f.maxUnitBytes);
    NumberListed(es, 8, f.firstSampleIndex);
    NumberListed(es, 9, f.capturedUs);
    NumberListed(es, 10, f.firstUnitSeq);
    AllElevens(es);
  }

  lemma AllElevens(es: seq<Entry>)
    requires Get(es, 1, 3).Some? && Get(es, 2, 3).Some? && Get(es, 3, 3).Some? && Get(es, 4, 2).Some?
    requires Get(es, 5, 3).Some? && Get(es, 6, 1).Some? && Get(es, 7, 7).Some? && Get(es, 8, 3).Some?
    requires Get(es, 9, 4).Some? && Get(es, 10, 4).Some? && Get(es, 11, 3).Some?
    ensures HasAll(es, FORMAT_KINDS)
  {
  }

  // ----- END -----

  const END_KINDS: seq<byte> := [3, 1, 4, 4, 3, 4, 3]

  function EndEntries(e: Ending): (es: seq<Entry>)
    ensures |es| == 7
  {
    [Entry(1, 3, Le(e.streamId, 4)), Entry(2, 1, Le(e.reason, 1)), Entry(3, 4, Le(e.encodedBytes, 8)),
     Entry(4, 4, Le(e.endedUs, 8)), Entry(5, 3, Le(e.units, 4)), Entry(6, 4, Le(e.samples, 8)),
     Entry(7, 3, Le(e.finalEpoch, 4))]
  }

  function EndTlv(e: Ending): seq<byte>
  {
    Tlv(EndEntries(e))
  }

  function ParseEnd(p: seq<byte>): Option<Ending>
  {
    var o := ReadTlv(p, {});
    if o.None? || !HasAll(o.value, END_KINDS) then None
    else
      var es := o.value;
      EndHas(es);
      Some(Ending(Number(es, 1, 3), Number(es, 2, 1), Number(es, 3, 4), Number(es, 4, 4), Number(es, 5, 3),
                  Number(es, 6, 4), Number(es, 7, 3)))
  }

  lemma EndHas(es: seq<Entry>)
    requires HasAll(es, END_KINDS)
    ensures Get(es, 1, 3).Some? && Get(es, 2, 1).Some? && Get(es, 3, 4).Some? && Get(es, 4, 4).Some?
    ensures Get(es, 5, 3).Some? && Get(es, 6, 4).Some? && Get(es, 7, 3).Some?
  {
    var ks := END_KINDS;
    assert Get(es, 0 + 1, ks[0]).Some? && Get(es, 1 + 1, ks[1]).Some? && Get(es, 2 + 1, ks[2]).Some?;
    assert Get(es, 3 + 1, ks[3]).Some? && Get(es, 4 + 1, ks[4]).Some? && Get(es, 5 + 1, ks[5]).Some?;
    assert Get(es, 6 + 1, ks[6]).Some?;
  }

  predicate EndFits(e: Ending)
  {
    && e.streamId <= U32_MAX && e.reason <= 255 && e.encodedBytes <= U64_MAX && e.endedUs <= U64_MAX
    && e.units <= U32_MAX && e.samples <= U64_MAX && e.finalEpoch <= U32_MAX
  }

  /** The client reads back every END the server writes. */
  lemma ParseEndWritten(e: Ending)
    requires EndFits(e)
    ensures ParseEnd(EndTlv(e)) == Some(e)
  {
    var es := EndEntries(e);
    Powers();
    assert Listed(es, 1);
    ReadWritten(es, 1, {});
    NumberListed(es, 0, e.streamId);
    NumberListed(es, 1, e.reason);
    NumberListed(es, 2, e.encodedBytes);
    NumberListed(es, 3, e.endedUs);
    NumberListed(es, 4, e.units);
    NumberListed(es, 5, e.samples);
    NumberListed(es, 6, e.finalEpoch);
    AllSevens(es);
  }

  lemma AllSevens(es: seq<Entry>)
    requires Get(es, 1, 3).Some? && Get(es, 2, 1).Some? && Get(es, 3, 4).Some? && Get(es, 4, 4).Some?
    requires Get(es, 5, 3).Some? && Get(es, 6, 4).Some? && Get(es, 7, 3).Some?
    ensures HasAll(es, END_KINDS)
  {
  }

  // ----- records -----

  const OP_STARTED: u16 := 0x0380
  const OP_DATA: u16 := 0x0381
  const OP_ENDED: u16 := 0x0382
  const OP_FORMAT: u16 := 0x0383

  function Opcode(r: Record): u16
  {
    match r
    case Started(_) => OP_STARTED
    case Reformat(_) => OP_FORMAT
    case Data(_) => OP_DATA
    case Ended(_) => OP_ENDED
  }

  /** The octets a queued record occupies in the media ring. */
  function Payload(r: Record): seq<byte>
  {
    match r
    case Started(f) => FormatTlv(f)
    case Reformat(f) => FormatTlv(f)
    case Data(c) => EncodeData(c)
    case Ended(e) => EndTlv(e)
  }

  /** What `_handle_event` makes of a media frame. */
  function ParseRecord(opcode: u16, p: seq<byte>): Option<Record>
  {
    if opcode == OP_STARTED || opcode == OP_FORMAT then
      var f := ParseFormat(p);
      if f.None? then None else Some(if opcode == OP_STARTED then Started(f.value) else Reformat(f.value))
    else if opcode == OP_DATA then
      var c := ParseData(p);
      if c.None? then None else Some(Data(c.value))
    else if opcode == OP_ENDED then
      var e := ParseEnd(p);
      if e.None? then None else Some(Ended(e.value))
    else None
  }

  /** Every field fits the field it is written to. */
  predicate RecordFits(r: Record)
  {
    match r
    case Started(f) => FormatFits(f)
    case Reformat(f) => FormatFits(f)
    case Data(c) => InRange(c) && 1 <= |c.data| <= FRAGMENT && c.offset + |c.data| <= U32_MAX
    case Ended(e) => EndFits(e)
  }

  /** The client parses every record back to itself. */
  lemma ParseWritten(r: Record)
    requires RecordFits(r)
    ensures ParseRecord(Opcode(r), Payload(r)) == Some(r)
  {
    match r
    case Started(f) => ParseFormatWritten(f);
    case Reformat(f) => ParseFormatWritten(f);
    case Data(c) => ParseEncoded(c);
    case Ended(e) => ParseEndWritten(e);
  }

  /** Every record takes the room the queue accounts for, and fits a frame. */
  lemma PayloadSize(r: Record)
    ensures |Payload(r)| == Size(r)
    ensures RecordFits(r) ==> 4 <= |Payload(r)| <= 343
  {
    match r
    case Started(f) => FormatLength(f);
    case Reformat(f) => FormatLength(f);
    case Data(_) =>
    case Ended(e) => EndLength(e);
  }

  lemma FormatLength(f: Format)
    ensures |FormatTlv(f)| == 87 + |f.config|
  {
    var es := FormatEntries(f);
    TlvLength(es, 0);
    assert es[0..] == es;
    assert Total(es, 10) == 4 + 4 + Total(es, 11);
    assert Total(es, 9) == 4 + 8 + Total(es, 10);
    assert Total(es, 8) == 4 + 8 + Total(es, 9);
    assert Total(es, 7) == 4 + 4 + Total(es, 8);
    assert Total(es, 6) == 4 + |f.config| + Total(es, 7);
    assert Total(es, 5) == 4 + 1 + Total(es, 6);
    assert Total(es, 4) == 4 + 4 + Total(es, 5);
    assert Total(es, 3) == 4 + 2 + Total(es, 4);
    assert Total(es, 2) == 4 + 4 + Total(es, 3);
    assert Total(es, 1) == 4 + 4 + Total(es, 2);
    assert Total(es, 0) == 4 + 4 + Total(es, 1);
  }

  lemma EndLength(e: Ending)
    ensures |EndTlv(e)| == 65
  {
    var es := EndEntries(e);
    TlvLength(es, 0);
    assert es[0..] == es;
    assert Total(es, 6) == 4 + 4 + Total(es, 7);
    assert Total(es, 5) == 4 + 8 + Total(es, 6);
    assert Total(es, 4) == 4 + 4 + Total(es, 5);
    assert Total(es, 3) == 4 + 8 + Total(es, 4);
    assert Total(es, 2) == 4 + 8 + Total(es, 3);
    assert Total(es, 1) == 4 + 1 + Total(es, 2);
    assert Total(es, 0) == 4 + 4 + Total(es, 1);
  }

  /** The epoch of START and FORMAT sits at octet 12, where `media_flush_one` reads it. */
  lemma EpochAtTwelve(f: Format)
    requires f.epoch <= U32_MAX
    ensures |FormatTlv(f)| >= 16 && LeValue(FormatTlv(f)[12..16]) == f.epoch
  {
    var es := FormatEntries(f);
    var rest := Tlv(es[1..][1..]);
    assert Tlv(es[1..]) == Octets(es[1]) + rest;
    assert FormatTlv(f) == Octets(es[0]) + (Octets(es[1]) + rest);
    SecondValue(Octets(es[0]), es[1], rest);
    LeRoundTrip4(f.epoch);
  }

  lemma SecondValue(first: seq<byte>, e: Entry, rest: seq<byte>)
    requires |first| == 8 && |e.value| == 4
    ensures (first + (Octets(e) + rest))[12..16] == e.value
  {
  }
}
