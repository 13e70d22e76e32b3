/** Byte rings: the wrapped copy in and out, and the output ring of the server. */
module Rings {
  import opened Bytes
  import opened Sequences

  /** The whole buffer, read from `head` on and wrapped. */
  ghost function View<T>(ring: array<T>, head: nat): (v: seq<T>)
    requires head <= ring.Length
    reads ring
    ensures |v| == ring.Length
  {
    Rotate(ring[..], head)
  }

  method RingGet<T>(ring: array<T>, head: nat, k: nat) returns (x: T)
    requires head < ring.Length && k < ring.Length
    ensures x == View(ring, head)[k]
  {
    x := ring[Wrap(head + k, ring.Length)];
  }

  method RingSet<T>(ring: array<T>, head: nat, k: nat, x: T)
    requires head < ring.Length && k < ring.Length
    modifies ring
    ensures View(ring, head) == old(View(ring, head))[k := x]
  {
    ring[Wrap(head + k, ring.Length)] := x;
  }

  method CopyIn(ring: array<byte>, at: nat, data: seq<byte>)
    requires at + |data| <= ring.Length
    modifies ring
    ensures ring[..] == Patched(old(ring[..]), at, data)
  {
    for i := 0 to |data|
      invariant forall k :: 0 <= k < at ==> ring[k] == old(ring[k])
      invariant forall k :: at <= k < at + i ==> ring[k] == data[k - at]
      invariant forall k :: at + i <= k < ring.Length ==> ring[k] == old(ring[k])
    {
      ring[at + i] := data[i];
    }
  }

  /** The buffer after a wrapped copy of `data` behind the first `len` octets from `head`. */
  function Written(a: seq<byte>, head: nat, len: nat, data: seq<byte>): (r: seq<byte>)
    requires head < |a| && len + |data| <= |a|
    ensures |r| == |a|
  {
    var tail := Wrap(head + len, |a|);
    var first := if |a| - tail > |data| then |data| else |a| - tail;
    Patched(Patched(a, tail, data[..first]), 0, data[first..])
  }

  lemma RotateWritten(a: seq<byte>, head: nat, len: nat, data: seq<byte>)
    requires head < |a| && len + |data| <= |a|
    ensures Rotate(Written(a, head, len, data), head) == Patched(Rotate(a, head), len, data)
  {
    var tail := Wrap(head + len, |a|);
    var first := if |a| - tail > |data| then |data| else |a| - tail;
    var d1, d2 := data[..first], data[first..];
    var b := Patched(a, tail, d1);
    RotatePatched(a, head, tail, d1, len);
    if d2 == [] {
      PatchedNothing(b);
      assert data == d1;
    } else {
      RotatePatched(b, head, 0, d2, len + first);
      PatchedTwice(Rotate(a, head), len, d1, d2);
      assert d1 + d2 == data;
    }
  }

  /** The copies of `ring_write`, which the caller knows to fit. */
  method RingCopy(ring: array<byte>, head: nat, len: nat, data: seq<byte>)
    requires head < ring.Length && len + |data| <= ring.Length
    modifies ring
    ensures ring[..] == Written(old(ring[..]), head, len, data)
  {
    var cap, n := ring.Length, |data|;
    var tail := Wrap(head + len, cap);
    var first := if cap - tail > n then n else cap - tail;
    CopyIn(ring, tail, data[..first]);
    CopyIn(ring, 0, data[first..]);
  }

  /** `ring_write`: refused as a whole when it does not fit, else at most two copies. */
  method RingWrite(ring: array<byte>, head: nat, len: nat, data: seq<byte>) returns (ok: bool)
    requires head < ring.Length && len <= ring.Length
    modifies ring
    ensures ok <==> len + |data| <= ring.Length
    ensures ok ==> View(ring, head) == Patched(old(View(ring, head)), len, data)
    ensures !ok ==> ring[..] == old(ring[..])
  {
    if ring.Length - len < |data| { return false; }
    RotateWritten(ring[..], head, len, data);
    RingCopy(ring, head, len, data);
    return true;
  }

  /** `audio_read`: the wrapped copy out. */
  method RingRead(ring: array<byte>, head: nat, offset: nat, n: nat) returns (out: seq<byte>)
    requires head < ring.Length && offset + n <= ring.Length
    ensures out == View(ring, head)[offset..offset + n]
  {
    var cap := ring.Length;
    var pos := Wrap(head + offset, cap);
    var first := if cap - pos > n then n else cap - pos;
    out := ring[pos..pos + first];
    if n > first {
      out := out + ring[..n - first];
    }
    forall i | 0 <= i < n
      ensures out[i] == View(ring, head)[offset + i]
    {
      RotateAt(ring[..], head, offset + i);
    }
    assert out == View(ring, head)[offset..offset + n];
  }

  /** Moving the head on by `n` rotates the view. */
  lemma HeadMoved<T>(ring: array<T>, head: nat, n: nat)
    requires head < ring.Length && n <= ring.Length
    ensures View(ring, Wrap(head + n, ring.Length)) == View(ring, head)[n..] + View(ring, head)[..n]
  {
  }

  // ----- the output ring -----

  /** `s` up to and including its first zero; all of it when it has none. */
  function ThroughZero(s: seq<byte>): (r: seq<byte>)
    ensures r <= s
  {
    if s == [] then [] else if s[0] == 0 then [s[0]] else [s[0]] + ThroughZero(s[1..])
  }

  lemma {:induction false} ThroughZeroAt(s: seq<byte>, k: nat)
    requires k < |s| && s[k] == 0 && forall i :: 0 <= i < k ==> s[i] != 0
    ensures ThroughZero(s) == s[..k + 1]
  {
    if k > 0 {
      assert s[1..][k - 1] == s[k];
      ThroughZeroAt(s[1..], k - 1);
      assert s[..k + 1] == [s[0]] + s[1..][..k];
    }
  }

  lemma {:induction false} ThroughZeroNone(s: seq<byte>)
    requires forall i :: 0 <= i < |s| ==> s[i] != 0
    ensures ThroughZero(s) == s
  {
    if s != [] {
      ThroughZeroNone(s[1..]);
      assert s == [s[0]] + s[1..];
    }
  }

  const CHUNK := 64

  class OutRing {
    const ring: array<byte>
    var head: nat
    var len: nat

    ghost predicate Valid()
      reads this, ring
    {
      head < ring.Length && len <= ring.Length
    }

    ghost function Contents(): seq<byte>
      reads this, ring
      requires Valid()
    {
      View(ring, head)[..len]
    }

    constructor (capacity: nat)
      requires capacity > 0
      ensures Valid() && Contents() == [] && fresh(ring) && ring.Length == capacity
    {
      ring := new byte[capacity];
      head, len := 0, 0;
    }

    /** `out_try_frame` once the frame is encoded: all of it or nothing. */
    method Write(frame: seq<byte>) returns (ok: bool)
      requires Valid()
      modifies this`len, ring
      ensures Valid()
      ensures ok <==> old(len) + |frame| <= ring.Length
      ensures Contents() == if ok then old(Contents()) + frame else old(Contents())
    {
      ok := RingWrite(ring, head, len, frame);
      if ok {
        len := len + |frame|;
        ghost var v := old(View(ring, head));
        assert View(ring, head)[..len] == v[..old(len)] + frame;
      } else {
        assert View(ring, head) == old(View(ring, head));
      }
    }

    /** The transport took `taken` octets from the head. */
    method Advance(taken: nat) returns (bytes: seq<byte>)
      requires Valid() && taken <= len && head + taken <= ring.Length
      modifies this
      ensures Valid() && len == old(len) - taken
      ensures old(Contents()) == bytes + Contents()
    {
      ghost var v := View(ring, head);
      bytes := ring[head..head + taken];
      assert bytes == v[..taken];
      HeadMoved(ring, head, taken);
      head := Wrap(head + taken, ring.Length);
      len := len - taken;
      assert Contents() == v[taken..old(len)];
    }

    /** `out_drain`: chunks of at most 64 octets that never span the wrap; call number `k`
        of the transport takes `accept[k]` octets of what it is offered, and a short count
        ends the drain. */
    method Drain(accept: seq<nat>) returns (sent: seq<byte>)
      requires Valid()
      modifies this
      ensures Valid()
      ensures old(Contents()) == sent + Contents()
    {
      sent := [];
      var k := 0;
      while len > 0
        invariant Valid()
        invariant old(Contents()) == sent + Contents()
        decreases len
      {
        var chunk := if len > CHUNK then CHUNK else len;
        if chunk > ring.Length - head { chunk := ring.Length - head; }
        var taken := if k >= |accept| then 0 else if accept[k] < chunk then accept[k] else chunk;
        k := k + 1;
        if taken == 0 { break; }
        ghost var before := sent;
        var bytes := Advance(taken);
        assert before + (bytes + Contents()) == before + bytes + Contents();
        sent := sent + bytes;
        if taken < chunk { break; }
      }
    }

    /** The loop of `session_teardown`: keep at most the remainder of one frame. */
    method Truncate()
      requires Valid()
      modifies this`len
      ensures Valid() && len <= old(len)
      ensures Contents() == ThroughZero(old(Contents()))
    {
      ghost var c, v := Contents(), View(ring, head);
      var i := 0;
      while i < len
        invariant 0 <= i <= len == old(len)
        invariant forall j :: 0 <= j < i ==> c[j] != 0
      {
        assert c[i] == v[i] == ring[Wrap(head + i, ring.Length)];
        if ring[Wrap(head + i, ring.Length)] == 0 {
          ThroughZeroAt(c, i);
          assert c[..i + 1] == v[..i + 1];
          len := i + 1;
          return;
        }
        i := i + 1;
      }
      ThroughZeroNone(c);
    }
  }
}
