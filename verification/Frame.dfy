/** The RBP/3.0 frame: COBS(header + payload + CRC32C) followed by one zero octet. */
module Frame {
  import opened Bytes
  import opened Crc32c
  import opened Cobs

  const MAGIC0: byte := 0x52
  const MAGIC1: byte := 0x42
  const MAJOR: byte := 3
  const MINOR: byte := 0
  const HEADER_SIZE := 32
  const MAX_PAYLOAD := 512
  const MAX_FRAME_RAW := 548
  const MAX_ENCODED := 552
  const COBS_RECV_MAX := 551

  datatype Header = Header(
    magic0: byte, magic1: byte, major: byte, minor: byte, kind: byte, flags: byte,
    headerSize: u16, sessionId: u32, txSeq: u32, requestId: u32,
    opcode: u16, status: u16, payloadSize: u16, reserved: u16, connectionId: u32)

  function PackFront(h: Header): (s: seq<byte>)
    ensures |s| == 20
  {
    [h.magic0, h.magic1, h.major, h.minor, h.kind, h.flags]
    + Le(h.headerSize, 2) + Le(h.sessionId, 4) + Le(h.txSeq, 4) + Le(h.requestId, 4)
  }

  function PackBack(h: Header): (s: seq<byte>)
    ensures |s| == 12
  {
    Le(h.opcode, 2) + Le(h.status, 2) + Le(h.payloadSize, 2) + Le(h.reserved, 2)
    + Le(h.connectionId, 4)
  }

  function Pack(h: Header): (s: seq<byte>)
    ensures |s| == HEADER_SIZE
  {
    PackFront(h) + PackBack(h)
  }

  /** A fixed-width field read back from a buffer, with the width its callers rely on. */
  function Field16(s: seq<byte>, at: nat): u16
    requires at + 2 <= |s|
  {
    LeValue(s[at..at + 2]) % 0x1_0000
  }

  function Field32(s: seq<byte>, at: nat): u32
    requires at + 4 <= |s|
  {
    LeValue(s[at..at + 4]) % 0x1_0000_0000
  }

  /** The fields of a header image, well formed or not. */
  function Unpack(s: seq<byte>): Header
    requires |s| >= HEADER_SIZE
  {
    Header(s[0], s[1], s[2], s[3], s[4], s[5],
           Field16(s, 6), Field32(s, 8), Field32(s, 12), Field32(s, 16),
           Field16(s, 20), Field16(s, 22), Field16(s, 24), Field16(s, 26), Field32(s, 28))
  }

  /** The test `rbp_header_parse` returns. */
  predicate Recognised(h: Header)
  {
    h.magic0 == MAGIC0 && h.magic1 == MAGIC1 && h.headerSize == HEADER_SIZE && h.reserved == 0
  }

  lemma Field16Read(s: seq<byte>, at: nat, v: u16)
    requires at + 2 <= |s| && s[at..at + 2] == Le(v, 2)
    ensures Field16(s, at) == v
  {
    LeRoundTrip2(v);
  }

  lemma Field32Read(s: seq<byte>, at: nat, v: u32)
    requires at + 4 <= |s| && s[at..at + 4] == Le(v, 4)
    ensures Field32(s, at) == v
  {
    LeRoundTrip4(v);
  }

  lemma FrontRead(h: Header, s: seq<byte>)
    requires |s| >= HEADER_SIZE && s[..20] == PackFront(h)
    ensures s[0] == h.magic0 && s[1] == h.magic1 && s[2] == h.major && s[3] == h.minor
    ensures s[4] == h.kind && s[5] == h.flags && Field16(s, 6) == h.headerSize
    ensures Field32(s, 8) == h.sessionId && Field32(s, 12) == h.txSeq && Field32(s, 16) == h.requestId
  {
    var f := PackFront(h);
    assert forall i :: 0 <= i < 20 ==> s[i] == s[..20][i];
    assert s[6..8] == f[6..8] == Le(h.headerSize, 2);
    assert s[8..12] == f[8..12] == Le(h.sessionId, 4);
    assert s[12..16] == f[12..16] == Le(h.txSeq, 4);
    assert s[16..20] == f[16..20] == Le(h.requestId, 4);
    Field16Read(s, 6, h.headerSize);
    Field32Read(s, 8, h.sessionId);
    Field32Read(s, 12, h.txSeq);
    Field32Read(s, 16, h.requestId);
  }

  lemma BackRead(h: Header, s: seq<byte>)
    requires |s| >= HEADER_SIZE && s[20..32] == PackBack(h)
    ensures Field16(s, 20) == h.opcode && Field16(s, 22) == h.status
    ensures Field16(s, 24) == h.payloadSize && Field16(s, 26) == h.reserved
    ensures Field32(s, 28) == h.connectionId
  {
    var f := PackBack(h);
    assert forall i :: 0 <= i < 12 ==> s[20 + i] == s[20..32][i];
    assert s[20..22] == f[0..2] == Le(h.opcode, 2);
    assert s[22..24] == f[2..4] == Le(h.status, 2);
    assert s[24..26] == f[4..6] == Le(h.payloadSize, 2);
    assert s[26..28] == f[6..8] == Le(h.reserved, 2);
    assert s[28..32] == f[8..12] == Le(h.connectionId, 4);
    Field16Read(s, 20, h.opcode);
    Field16Read(s, 22, h.status);
    Field16Read(s, 24, h.payloadSize);
    Field16Read(s, 26, h.reserved);
    Field32Read(s, 28, h.connectionId);
  }

  /** Every header survives packing, whatever follows it in the buffer. */
  lemma UnpackPack(h: Header, rest: seq<byte>)
    ensures Unpack(Pack(h) + rest) == h
  {
    var s := Pack(h) + rest;
    assert s[..20] == PackFront(h);
    assert s[20..32] == PackBack(h);
    FrontRead(h, s);
    BackRead(h, s);
  }

  /** The caller's header with the fields the encoder owns filled in. */
  function Complete(h: Header, txSeq: u32, len: u16): (r: Header)
    ensures Recognised(r)
  {
    h.(magic0 := MAGIC0, magic1 := MAGIC1, major := MAJOR, minor := MINOR,
       headerSize := HEADER_SIZE, txSeq := txSeq, reserved := 0, payloadSize := len)
  }

  function Trailer(covered: seq<byte>): seq<byte>
  {
    Le(Crc(covered), 4)
  }

  function Sealed(covered: seq<byte>): seq<byte>
  {
    covered + Trailer(covered)
  }

  function Raw(h: Header, payload: seq<byte>): seq<byte>
  {
    Sealed(Pack(h) + payload)
  }

  /** The octets of one frame on the wire, delimiter included. */
  function Wire(h: Header, payload: seq<byte>): seq<byte>
  {
    Encode(Raw(h, payload)) + [0]
  }

  /** Wire length, and the delimiter nowhere but at the end. */
  lemma WireShape(h: Header, payload: seq<byte>)
    requires |payload| <= MAX_PAYLOAD
    ensures |payload| + 38 <= |Wire(h, payload)| <= MAX_ENCODED
    ensures ZeroFree(Encode(Raw(h, payload)))
  {
    EncodeFromLength([], Raw(h, payload));
    EncodeFromZeroFree([], Raw(h, payload));
  }

  datatype RxEvent =
    | FrameIn(header: Header, payload: seq<byte>, crcOk: bool)
    | Overflow
    | Timeout
    | Garbage

  /** What the receiver makes of a decoded record; too short when decoding failed. */
  function Judge(raw: seq<byte>): RxEvent
  {
    if HEADER_SIZE + 4 <= |raw| <= MAX_FRAME_RAW && Recognised(Unpack(raw)) then
      var end := |raw| - 4;
      FrameIn(Unpack(raw), raw[HEADER_SIZE..end], Crc(raw[..end]) == Field32(raw, end))
    else Garbage
  }

  /** What the receiver makes of a complete run of non-zero octets. */
  function Receive(run: seq<byte>): RxEvent
  {
    match Decode(run)
    case Malformed => Garbage
    case Record(raw) => Judge(raw)
  }

  lemma SealedParts(covered: seq<byte>, at: nat)
    requires at <= |covered|
    ensures var raw := Sealed(covered);
            raw[..|raw| - 4] == covered && raw[at..|raw| - 4] == covered[at..]
            && Field32(raw, |raw| - 4) == Crc(covered)
  {
    var raw := Sealed(covered);
    var crc := Crc(covered);
    assert raw[|raw| - 4..|raw| - 4 + 4] == Le(crc, 4);
    Field32Read(raw, |raw| - 4, crc);
  }

  lemma UnpackRaw(h: Header, payload: seq<byte>)
    ensures Unpack(Raw(h, payload)) == h
  {
    var rest := payload + Trailer(Pack(h) + payload);
    assert Raw(h, payload) == Pack(h) + rest;
    UnpackPack(h, rest);
  }

  lemma JudgeSealed(h: Header, header: seq<byte>, payload: seq<byte>)
    requires |header| == HEADER_SIZE && |payload| <= MAX_PAYLOAD
    requires Unpack(Sealed(header + payload)) == h && Recognised(h)
    ensures Judge(Sealed(header + payload)) == FrameIn(h, payload, true)
  {
    SealedParts(header + payload, HEADER_SIZE);
    assert (header + payload)[HEADER_SIZE..] == payload;
  }

  /** Every header and payload of at most 512 octets comes back intact, with a good CRC. */
  lemma ReceiveEncoded(h: Header, payload: seq<byte>)
    requires |payload| <= MAX_PAYLOAD && Recognised(h)
    ensures Receive(Encode(Raw(h, payload))) == FrameIn(h, payload, true)
  {
    UnpackRaw(h, payload);
    DecodeEncode(Raw(h, payload));
    JudgeSealed(h, Pack(h), payload);
  }

  /** `encode_payload`: returns 0 when the payload is too long. */
  method EncodeFrame(h: Header, txSeq: u32, payload: seq<byte>, out: array<byte>)
    returns (n: nat)
    requires out.Length >= MAX_ENCODED
    modifies out
    ensures |payload| > MAX_PAYLOAD ==> n == 0 && out[..] == old(out[..])
    ensures |payload| <= MAX_PAYLOAD ==>
              n <= MAX_ENCODED && out[..n] == Wire(Complete(h, txSeq, |payload|), payload)
  {
    if |payload| > MAX_PAYLOAD { return 0; }
    n := EncodePieces(Pack(Complete(h, txSeq, |payload|)), payload, out);
  }

  /** Header, payload and trailer pass through one COBS cursor, and the CRC runs over the
      first two on the way. */
  method EncodePieces(header: seq<byte>, payload: seq<byte>, out: array<byte>)
    returns (n: nat)
    requires |header| == HEADER_SIZE && |payload| <= MAX_PAYLOAD
    requires out.Length >= MAX_ENCODED
    modifies out
    ensures n <= MAX_ENCODED && out[..n] == Encode(Sealed(header + payload)) + [0]
  {
    ghost var raw := Sealed(header + payload);
    ghost var last := Trailer(header + payload);
    var c, crc, tail := Cursor(0, 1, 1), U32_MAX, [];
    assert out[1..1] == [] && out[..0] == [];
    assert raw == header + (payload + last);
    FoldConcat(U32_MAX, header, payload);
    var part := 0;
    while part < 3
      invariant 0 <= part <= 3
      invariant c.Fits(out)
      invariant part == 0 ==> c.Outcome(out, header + (payload + last)) == Encode(raw) && crc == U32_MAX
      invariant part == 1 ==> c.Outcome(out, payload + last) == Encode(raw) && crc == Fold(U32_MAX, header)
      invariant part == 2 ==> c.Outcome(out, last) == Encode(raw) && crc == Fold(U32_MAX, header + payload)
      invariant part == 3 ==> c.Outcome(out, []) == Encode(raw)
    {
      if part == 2 {
        tail := Le(Xor32(crc, U32_MAX), 4);
        assert tail + [] == tail == last;
      }
      var p := if part == 0 then header else if part == 1 then payload else tail;
      ghost var rest := if part == 0 then payload + last else if part == 1 then last else [];
      c, crc := Stream(out, c, crc, part < 2, p, rest, raw);
      part := part + 1;
    }
    n := Finish(out, c, raw);
  }

  /** The last code octet and the delimiter. */
  method Finish(out: array<byte>, c: Cursor, ghost raw: seq<byte>) returns (n: nat)
    requires |raw| <= MAX_FRAME_RAW && out.Length >= MAX_ENCODED
    requires c.Fits(out) && c.Outcome(out, []) == Encode(raw)
    modifies out
    ensures n <= MAX_ENCODED && out[..n] == Encode(raw) + [0]
  {
    OutcomeLength(out, c, [], raw);
    Seal(out, c);
    out[c.end] := 0;
    n := c.end + 1;
    assert out[..n] == out[..c.end] + [0];
  }

  /** The inner loop over one of the three pieces. */
  method Stream(out: array<byte>, c0: Cursor, crc0: u32, summed: bool, p: seq<byte>,
                ghost rest: seq<byte>, ghost raw: seq<byte>)
    returns (c: Cursor, crc: u32)
    requires |raw| <= MAX_FRAME_RAW && out.Length >= MAX_ENCODED
    requires c0.Fits(out) && c0.Outcome(out, p + rest) == Encode(raw)
    modifies out
    ensures c.Fits(out) && c.Outcome(out, rest) == Encode(raw)
    ensures crc == if summed then Fold(crc0, p) else crc0
  {
    c, crc := c0, crc0;
    assert p[0..] == p && p[..0] == [];
    for i := 0 to |p|
      invariant c.Fits(out) && c.Outcome(out, p[i..] + rest) == Encode(raw)
      invariant crc == if summed then Fold(crc0, p[..i]) else crc0
    {
      if summed {
        FoldSnoc(crc0, p[..i], p[i]);
        assert p[..i] + [p[i]] == p[..i + 1];
        crc := Update(crc, p[i]);
      }
      assert p[i..] + rest == [p[i]] + (p[i + 1..] + rest);
      OutcomeLength(out, c, p[i..] + rest, raw);
      c := Put(out, c, p[i], p[i + 1..] + rest);
    }
    assert p[|p|..] + rest == rest;
    assert p[..|p|] == p;
  }
}
