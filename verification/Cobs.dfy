/** COBS stuffing as the frame layer uses it: the encoder back-patches one pending code
    octet, the decoder may run over its own input. */
module Cobs {
  import opened Bytes

  /** The record still to be written when `block` has been copied behind the pending code
      octet and `x` is left to encode. */
  function EncodeFrom(block: seq<byte>, x: seq<byte>): seq<byte>
    requires |block| < 254
    decreases |x|
  {
    if x == [] then [|block| + 1] + block
    else if x[0] == 0 then [|block| + 1] + block + EncodeFrom([], x[1..])
    else if |block| == 253 then [255] + block + [x[0]] + EncodeFrom([], x[1..])
    else EncodeFrom(block + [x[0]], x[1..])
  }

  function Encode(x: seq<byte>): seq<byte>
  {
    EncodeFrom([], x)
  }

  datatype Decoded = Malformed | Record(data: seq<byte>)

  function Decode(s: seq<byte>): Decoded
    decreases |s|
  {
    if s == [] then Record([])
    else if s[0] == 0 || |s| < s[0] then Malformed
    else
      var rest := s[s[0]..];
      var tail := Decode(rest);
      if tail.Malformed? then Malformed
      else Record(s[1..s[0]] + (if s[0] < 255 && rest != [] then [0] else []) + tail.data)
  }

  predicate ZeroFree(s: seq<byte>)
  {
    forall i :: 0 <= i < |s| ==> s[i] != 0
  }

  /** Decoding one block followed by an already known record. */
  lemma DecodeBlock(block: seq<byte>, rest: seq<byte>)
    requires |block| < 255 && Decode(rest).Record?
    ensures Decode([|block| + 1] + block + rest)
         == Record(block + (if |block| < 254 && rest != [] then [0] else []) + Decode(rest).data)
  {
    var s := [|block| + 1] + block + rest;
    assert s[s[0]..] == rest;
    assert s[1..s[0]] == block;
  }

  /** Decoding undoes encoding, for every octet string. */
  lemma {:induction false} DecodeEncodeFrom(block: seq<byte>, x: seq<byte>)
    requires |block| < 254
    ensures EncodeFrom(block, x) != []
    ensures Decode(EncodeFrom(block, x)) == Record(block + x)
    decreases |x|
  {
    if x == [] {
      assert [|block| + 1] + block + [] == EncodeFrom(block, x);
      DecodeBlock(block, []);
      assert block + [] + [] == block + x;
    } else if x[0] == 0 {
      DecodeEncodeFrom([], x[1..]);
      DecodeBlock(block, EncodeFrom([], x[1..]));
      assert block + [0] + ([] + x[1..]) == block + x;
    } else if |block| == 253 {
      DecodeEncodeFrom([], x[1..]);
      DecodeBlock(block + [x[0]], EncodeFrom([], x[1..]));
      assert [254 + 1] + (block + [x[0]]) + EncodeFrom([], x[1..]) == EncodeFrom(block, x);
      assert block + [x[0]] + [] + ([] + x[1..]) == block + x;
    } else {
      DecodeEncodeFrom(block + [x[0]], x[1..]);
      assert block + [x[0]] + x[1..] == block + x;
    }
  }

  lemma DecodeEncode(x: seq<byte>)
    ensures Decode(Encode(x)) == Record(x)
  {
    DecodeEncodeFrom([], x);
    assert [] + x == x;
  }

  /** An encoded record never contains the frame delimiter. */
  lemma {:induction false} EncodeFromZeroFree(block: seq<byte>, x: seq<byte>)
    requires |block| < 254 && ZeroFree(block)
    ensures ZeroFree(EncodeFrom(block, x))
    decreases |x|
  {
    if x == [] {
    } else if x[0] == 0 || |block| == 253 {
      EncodeFromZeroFree([], x[1..]);
    } else {
      EncodeFromZeroFree(block + [x[0]], x[1..]);
    }
  }

  /** At least one octet of overhead, at most one more per 254 octets. */
  lemma {:induction false} EncodeFromLength(block: seq<byte>, x: seq<byte>)
    requires |block| < 254
    ensures |block| + |x| + 1 <= |EncodeFrom(block, x)|
         <= |block| + |x| + 1 + (|block| + |x|) / 254
    decreases |x|
  {
    if x == [] {
    } else if x[0] == 0 || |block| == 253 {
      EncodeFromLength([], x[1..]);
    } else {
      EncodeFromLength(block + [x[0]], x[1..]);
    }
  }

  /** The encoder's cursor: `dst[..codep]` is final, `dst[codep]` awaits its code and
      `dst[codep+1..end]` is the block copied so far. */
  datatype Cursor = Cursor(codep: nat, end: nat, code: nat)
  {
    ghost predicate Fits(dst: array<byte>)
    {
      codep < end <= dst.Length && code == end - codep && 1 <= code < 255
    }

    /** What `dst` will hold once `x` has been encoded from here. */
    ghost function Outcome(dst: array<byte>, x: seq<byte>): seq<byte>
      requires Fits(dst)
      reads dst
    {
      dst[..codep] + EncodeFrom(dst[codep + 1..end], x)
    }
  }

  /** The loop body shared by both encoders. */
  method Put(dst: array<byte>, c: Cursor, b: byte, ghost rest: seq<byte>) returns (c': Cursor)
    requires c.Fits(dst) && c.end + 1 < dst.Length
    modifies dst
    ensures c'.Fits(dst) && c'.end <= c.end + 2
    ensures c'.Outcome(dst, rest) == old(c.Outcome(dst, [b] + rest))
  {
    ghost var before, block := dst[..c.codep], dst[c.codep + 1..c.end];
    PutRest(before, block, b, rest);
    if b == 0 {
      dst[c.codep] := c.code;
      c' := Cursor(c.end, c.end + 1, 1);
      assert dst[..c.end] == before + ([|block| + 1] + block);
      assert dst[c.end + 1..c.end + 1] == [];
    } else {
      dst[c.end] := b;
      if c.code + 1 == 255 {
        dst[c.codep] := 255;
        c' := Cursor(c.end + 1, c.end + 2, 1);
        assert dst[..c.end + 1] == before + ([255] + block + [b]);
        assert dst[c.end + 2..c.end + 2] == [];
      } else {
        c' := Cursor(c.codep, c.end + 1, c.code + 1);
        assert dst[c.codep + 1..c.end + 1] == block + [b];
        assert dst[..c.codep] == before;
      }
    }
  }

  /** One octet of `EncodeFrom`, regrouped the way the cursor moves. */
  lemma PutRest(before: seq<byte>, block: seq<byte>, b: byte, rest: seq<byte>)
    requires |block| < 254
    ensures before + EncodeFrom(block, [b] + rest)
         == if b == 0 then before + ([|block| + 1] + block) + EncodeFrom([], rest)
            else if |block| == 253 then before + ([255] + block + [b]) + EncodeFrom([], rest)
            else before + EncodeFrom(block + [b], rest)
  {
    assert ([b] + rest)[1..] == rest;
    assert before + ([|block| + 1] + block) + EncodeFrom([], rest)
        == before + ([|block| + 1] + block + EncodeFrom([], rest));
    assert before + ([255] + block + [b]) + EncodeFrom([], rest)
        == before + ([255] + block + [b] + EncodeFrom([], rest));
  }

  /** The code of the last block. */
  method Seal(dst: array<byte>, c: Cursor)
    requires c.Fits(dst)
    modifies dst
    ensures dst[..c.end] == old(c.Outcome(dst, []))
  {
    ghost var before, block := dst[..c.codep], dst[c.codep + 1..c.end];
    dst[c.codep] := c.code;
    assert dst[..c.end] == before + ([|block| + 1] + block);
  }

  /** `rbp_cobs_encode`: one pass, the code octet of each block written after the block. */
  method EncodeInto(src: seq<byte>, dst: array<byte>) returns (n: nat)
    requires dst.Length >= |src| + |src| / 254 + 2
    modifies dst
    ensures n <= dst.Length && dst[..n] == Encode(src)
  {
    var c := Cursor(0, 1, 1);
    assert dst[1..1] == [] && dst[..0] == [];
    assert c.Outcome(dst, src) == Encode(src);
    var i := 0;
    assert src[0..] == src;
    while i < |src|
      invariant 0 <= i <= |src|
      invariant c.Fits(dst)
      invariant c.Outcome(dst, src[i..]) == Encode(src)
    {
      assert src[i..] == [src[i]] + src[i + 1..];
      OutcomeLength(dst, c, src[i..], src);
      c := Put(dst, c, src[i], src[i + 1..]);
      i := i + 1;
    }
    assert src[i..] == [];
    Seal(dst, c);
    n := c.end;
  }

  /** The cursor never runs past the space the caller had to provide. */
  lemma OutcomeLength(dst: array<byte>, c: Cursor, rest: seq<byte>, src: seq<byte>)
    requires c.Fits(dst) && c.Outcome(dst, rest) == Encode(src)
    ensures c.end + |rest| <= |src| + 1 + |src| / 254
  {
    EncodeFromLength([], src);
    EncodeFromLength(dst[c.codep + 1..c.end], rest);
  }

  /** The inner copy loop: `count` octets moved down, front to back. */
  method MoveDown(buf: array<byte>, dst: nat, src: nat, count: nat)
    requires dst < src && src + count <= buf.Length
    modifies buf
    ensures forall k :: 0 <= k < dst ==> buf[k] == old(buf[k])
    ensures forall k :: dst <= k < dst + count ==> buf[k] == old(buf[k + (src - dst)])
    ensures forall k :: dst + count <= k < buf.Length ==> buf[k] == old(buf[k])
  {
    for i := 0 to count
      invariant forall k :: 0 <= k < dst ==> buf[k] == old(buf[k])
      invariant forall k :: dst <= k < dst + i ==> buf[k] == old(buf[k + (src - dst)])
      invariant forall k :: dst + i <= k < buf.Length ==> buf[k] == old(buf[k])
    {
      buf[dst + i] := buf[src + i];
    }
  }

  /** What follows the first block of `s`: a zero, unless it is full or the last one. */
  function Gap(s: seq<byte>): seq<byte>
    requires s != []
  {
    if s[0] < 255 && s[0] != |s| then [0] else []
  }

  /** The block at `src` moves down to `dst`, behind what is `left`. */
  method MoveBlock(buf: array<byte>, dst: nat, src: nat, len: nat, ghost left: seq<byte>)
    requires dst <= src < len <= buf.Length && buf[src..len] == left
    requires 0 < left[0] <= |left| && buf[src] == left[0]
    modifies buf
    ensures buf[..dst + left[0] - 1] == old(buf[..dst]) + left[1..left[0]]
    ensures buf[src + left[0]..len] == left[left[0]..]
  {
    ghost var done := buf[..dst];
    var code := buf[src];
    assert forall k :: src <= k < len ==> buf[k] == left[k - src];
    MoveDown(buf, dst, src + 1, code - 1);
    assert buf[..dst + code - 1] == done + left[1..code];
  }

  /** One turn of the decoder: a block, and the zero that ended it. */
  method TakeBlock(buf: array<byte>, dst: nat, src: nat, len: nat, ghost left: seq<byte>) returns (dst': nat)
    requires dst <= src < len <= buf.Length && buf[src..len] == left
    requires 0 < left[0] <= |left| && buf[src] == left[0]
    modifies buf
    ensures dst' <= src + left[0]
    ensures buf[..dst'] == old(buf[..dst]) + left[1..left[0]] + Gap(left)
    ensures buf[src + left[0]..len] == left[left[0]..]
  {
    var code := buf[src];
    MoveBlock(buf, dst, src, len, left);
    dst' := dst + (code - 1);
    if code < 255 && src + code != len {
      ghost var moved := buf[..dst'];
      buf[dst'] := 0;
      dst' := dst' + 1;
      assert buf[..dst'] == moved + [0];
    }
  }

  /** `rbp_cobs_decode` with `src == dst`: the write cursor stays behind the read cursor, so
      the octets still to be read are intact.  Returns 0 for a malformed record. */
  method DecodeInPlace(buf: array<byte>, len: nat) returns (n: nat)
    requires len <= buf.Length
    modifies buf
    ensures n <= len
    ensures match Decode(old(buf[..len]))
            case Malformed => n == 0
            case Record(d) => buf[..n] == d
  {
    ghost var left := buf[..len];
    var src, dst := 0, 0;
    while src < len
      invariant 0 <= dst <= src <= len
      invariant buf[src..len] == left
      invariant Prepend(buf[..dst], Decode(left)) == Decode(old(buf[..len]))
    {
      var code := buf[src];
      assert code == left[0];
      if code == 0 || len - src < code { return 0; }
      DecodeStep(left, buf[..dst]);
      dst := TakeBlock(buf, dst, src, len, left);
      src := src + code;
      left := left[code..];
    }
    n := dst;
  }

  function Prepend(done: seq<byte>, d: Decoded): Decoded
  {
    match d
    case Malformed => Malformed
    case Record(data) => Record(done + data)
  }

  lemma DecodeStep(s: seq<byte>, done: seq<byte>)
    requires s != [] && 0 < s[0] <= |s|
    ensures Prepend(done, Decode(s)) == Prepend(done + s[1..s[0]] + Gap(s), Decode(s[s[0]..]))
  {
    var d := Decode(s[s[0]..]);
    if d.Record? {
      assert done + (s[1..s[0]] + Gap(s) + d.data) == done + s[1..s[0]] + Gap(s) + d.data;
    }
  }
}
