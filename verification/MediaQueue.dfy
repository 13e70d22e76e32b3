/** The media queue: a ring of markers beside a ring of payload octets. */
module MediaQueue {
  import opened Bytes
  import opened Sequences
  import opened Rings

  const MAX_PAYLOAD := 512
  const OP_VOICE_STARTED: u16 := 0x0380

  datatype Marker = Marker(stream: u32, connection: u32, order: nat, opcode: u16, len: nat)

  datatype Item = Item(marker: Marker, payload: seq<byte>)

  function Total(ms: seq<Marker>): nat
  {
    if ms == [] then 0 else ms[0].len + Total(ms[1..])
  }

  /** The queue the two rings stand for: each marker owns the next `len` octets. */
  function Split(ms: seq<Marker>, bytes: seq<byte>): (r: seq<Item>)
    requires Total(ms) == |bytes|
    ensures |r| == |ms|
    decreases |ms|
  {
    if ms == [] then []
    else [Item(ms[0], bytes[..ms[0].len])] + Split(ms[1..], bytes[ms[0].len..])
  }

  lemma {:induction false} SplitSnoc(ms: seq<Marker>, bytes: seq<byte>, m: Marker, payload: seq<byte>)
    requires Total(ms) == |bytes| && |payload| == m.len
    ensures Total(ms + [m]) == |bytes + payload|
    ensures Split(ms + [m], bytes + payload) == Split(ms, bytes) + [Item(m, payload)]
    decreases |ms|
  {
    if ms == [] {
      assert ms + [m] == [m] && bytes + payload == payload;
      assert [m][1..] == [] && payload[..m.len] == payload && payload[m.len..] == [];
    } else {
      var n := ms[0].len;
      assert (ms + [m])[1..] == ms[1..] + [m];
      assert (bytes + payload)[..n] == bytes[..n];
      assert (bytes + payload)[n..] == bytes[n..] + payload;
      SplitSnoc(ms[1..], bytes[n..], m, payload);
    }
  }

  lemma {:induction false} SplitAt(ms: seq<Marker>, bytes: seq<byte>, i: nat)
    requires Total(ms) == |bytes| && i < |ms|
    ensures Split(ms, bytes)[i].marker == ms[i] && |Split(ms, bytes)[i].payload| == ms[i].len
    decreases |ms|
  {
    if i > 0 {
      SplitAt(ms[1..], bytes[ms[0].len..], i - 1);
    }
  }

  /** The record `media_discard_current` throws away. */
  predicate Dropped(m: Marker, stream: u32)
  {
    m.stream == stream && m.opcode != OP_VOICE_STARTED
  }

  function Kept(items: seq<Item>, stream: u32): seq<Item>
  {
    if items == [] then []
    else (if Dropped(items[0].marker, stream) then [] else [items[0]]) + Kept(items[1..], stream)
  }

  function KeptMarkers(ms: seq<Marker>, stream: u32): (r: seq<Marker>)
    ensures |r| <= |ms|
  {
    if ms == [] then []
    else (if Dropped(ms[0], stream) then [] else [ms[0]]) + KeptMarkers(ms[1..], stream)
  }

  function KeptBytes(ms: seq<Marker>, bytes: seq<byte>, stream: u32): (r: seq<byte>)
    requires Total(ms) == |bytes|
    ensures |r| == Total(KeptMarkers(ms, stream)) <= |bytes|
    decreases |ms|
  {
    if ms == [] then []
    else
      var n := ms[0].len;
      var rest := KeptBytes(ms[1..], bytes[n..], stream);
      if Dropped(ms[0], stream) then
        assert [] + KeptMarkers(ms[1..], stream) == KeptMarkers(ms[1..], stream);
        rest
      else
        assert ([ms[0]] + KeptMarkers(ms[1..], stream))[1..] == KeptMarkers(ms[1..], stream);
        bytes[..n] + rest
  }

  /** Filtering the two rings separately is filtering the queue. */
  lemma {:induction false} KeptSplit(ms: seq<Marker>, bytes: seq<byte>, stream: u32)
    requires Total(ms) == |bytes|
    ensures Split(KeptMarkers(ms, stream), KeptBytes(ms, bytes, stream)) == Kept(Split(ms, bytes), stream)
    decreases |ms|
  {
    if ms != [] {
      var n := ms[0].len;
      KeptSplit(ms[1..], bytes[n..], stream);
      var km, kb := KeptMarkers(ms[1..], stream), KeptBytes(ms[1..], bytes[n..], stream);
      assert Split(ms, bytes)[1..] == Split(ms[1..], bytes[n..]);
      if Dropped(ms[0], stream) {
        assert [] + km == km;
        assert [] + Kept(Split(ms[1..], bytes[n..]), stream) == Kept(Split(ms[1..], bytes[n..]), stream);
      } else {
        assert ([ms[0]] + km)[1..] == km;
        assert (bytes[..n] + kb)[n..] == kb && (bytes[..n] + kb)[..n] == bytes[..n];
      }
    }
  }

  ghost predicate Bounded(ms: seq<Marker>)
  {
    forall i :: 0 <= i < |ms| ==> ms[i].len <= MAX_PAYLOAD
  }

  lemma {:induction false} KeptBounded(ms: seq<Marker>, stream: u32)
    requires Bounded(ms)
    ensures Bounded(KeptMarkers(ms, stream))
  {
    if ms != [] {
      KeptBounded(ms[1..], stream);
    }
  }

  class Queue {
    const pool: array<byte>
    const q: array<Marker>
    var audioHead: nat
    var audioLen: nat
    var head: nat
    var count: nat

    ghost function Markers(): seq<Marker>
      reads this, q
      requires head < q.Length && count <= q.Length
    {
      View(q, head)[..count]
    }

    ghost function Octets(): seq<byte>
      reads this, pool
      requires audioHead < pool.Length && audioLen <= pool.Length
    {
      View(pool, audioHead)[..audioLen]
    }

    ghost predicate Valid()
      reads this, q, pool
    {
      && head < q.Length && count <= q.Length
      && audioHead < pool.Length && audioLen <= pool.Length
      && Total(Markers()) == audioLen && Bounded(Markers())
    }

    /** The FIFO of (marker, payload) that the rings implement. */
    ghost function Contents(): seq<Item>
      reads this, q, pool
      requires Valid()
    {
      Split(Markers(), Octets())
    }

    constructor (depth: nat, capacity: nat)
      requires depth > 0 && capacity > 0
      ensures Valid() && Contents() == [] && fresh(q) && fresh(pool)
      ensures q.Length == depth && pool.Length == capacity
    {
      pool := new byte[capacity];
      q := new Marker[depth](_ => Marker(0, 0, 0, 0, 0));
      audioHead, audioLen, head, count := 0, 0, 0, 0;
      new;
      assert Markers() == [];
    }

    /** `media_enqueue` after its flush attempt: refused exactly when a slot or the octets
        are missing. */
    method Enqueue(m: Marker, payload: seq<byte>) returns (ok: bool)
      requires Valid() && m.len == |payload| <= MAX_PAYLOAD
      modifies this, q, pool
      ensures Valid()
      ensures ok <==> !old(Lacks(|payload|))
      ensures Contents() == if ok then old(Contents()) + [Item(m, payload)] else old(Contents())
    {
      if count >= q.Length || pool.Length - audioLen < |payload| { return false; }
      ghost var ms, bytes := Markers(), Octets();
      RingSet(q, head, count, m);
      ok := RingWrite(pool, audioHead, audioLen, payload);
      audioLen := audioLen + |payload|;
      count := count + 1;
      assert Markers() == ms + [m];
      assert Octets() == bytes + payload;
      SplitSnoc(ms, bytes, m, payload);
    }

    /** The queue part of `session_stop_delivery`. */
    method Clear()
      requires Valid()
      modifies this
      ensures Valid() && Contents() == []
    {
      head, count, audioHead, audioLen := 0, 0, 0, 0;
      assert Markers() == [];
    }

    /** No slot or not enough octets: the test of `media_enqueue`. */
    predicate Lacks(n: nat)
      reads this
    {
      count >= q.Length || audioLen + n > pool.Length
    }

    /** The head record, as `media_flush_one` reads it. */
    method Peek() returns (it: Item)
      requires Valid() && count > 0
      ensures it == Contents()[0]
    {
      var m := RingGet(q, head, 0);
      assert m == Markers()[0];
      var payload := RingRead(pool, audioHead, 0, m.len);
      assert payload == Octets()[..m.len];
      it := Item(m, payload);
    }

    /** The head record has been committed to the output ring. */
    method Pop()
      requires Valid() && count > 0
      modifies this
      ensures Valid() && Contents() == old(Contents())[1..]
    {
      var m := RingGet(q, head, 0);
      ghost var ms, bytes := Markers(), Octets();
      assert m == ms[0];
      HeadMoved(q, head, 1);
      HeadMoved(pool, audioHead, m.len);
      audioHead, audioLen := Wrap(audioHead + m.len, pool.Length), audioLen - m.len;
      head, count := Wrap(head + 1, q.Length), count - 1;
      assert Markers() == ms[1..];
      assert Octets() == bytes[m.len..];
    }

    /** One turn of the compaction loop: marker `i`, whose payload starts at `read`. */
    method CompactOne(stream: u32, i: nat, read: nat, write: nat, kept: nat)
      returns (read': nat, write': nat, kept': nat)
      requires head < q.Length && audioHead < pool.Length
      requires kept <= i < q.Length && write <= read && read + View(q, head)[i].len <= pool.Length
      modifies q, pool
      ensures Rows(View(q, head), View(pool, audioHead), read', write', kept')
           == Turn(Rows(old(View(q, head)), old(View(pool, audioHead)), read, write, kept), i, stream)
    {
      read', write', kept' := read, write, kept;
      var m := RingGet(q, head, i);
      var payload := RingRead(pool, audioHead, read, m.len);
      read' := read + m.len;
      if Dropped(m, stream) { return; }
      Rewrite(m, payload, write, kept);
      write' := write + m.len;
      kept' := kept + 1;
    }

    /** A kept record goes down to its new place in both rings. */
    method Rewrite(m: Marker, payload: seq<byte>, write: nat, kept: nat)
      requires head < q.Length && audioHead < pool.Length && kept < q.Length && write + |payload| <= pool.Length
      modifies q, pool
      ensures View(q, head) == old(View(q, head))[kept := m]
      ensures View(pool, audioHead) == Patched(old(View(pool, audioHead)), write, payload)
    {
      var _ := RingWrite(pool, audioHead, write, payload);
      RingSet(q, head, kept, m);
    }

    /** `media_discard_current`: reading ahead of its own writes in the same rings, it keeps
        exactly the other streams' records and this stream's START, payloads and order. */
    method DiscardCurrent(stream: u32)
      requires Valid()
      modifies this, q, pool
      ensures Valid() && Contents() == Kept(old(Contents()), stream)
    {
      ghost var ms, bytes := Markers(), Octets();
      ghost var start := Rows(View(q, head), View(pool, audioHead), 0, 0, 0);
      StartFits(start, count, ms, bytes);
      var read, write, kept, i := 0, 0, 0, 0;
      while i < count
        invariant 0 <= i <= count && 0 <= kept && 0 <= write && 0 <= read
        invariant head == old(head) && count == old(count) && audioHead == old(audioHead)
        invariant var r := Rows(View(q, head), View(pool, audioHead), read, write, kept);
                  Fits(r, i, count) && Compacted(r, i, count, stream) == Compacted(start, 0, count, stream)
      {
        ghost var r := Rows(View(q, head), View(pool, audioHead), read, write, kept);
        FitsNext(r, i, count, stream);
        read, write, kept := CompactOne(stream, i, read, write, kept);
        i := i + 1;
      }
      CompactedIsKept(start, count, ms, bytes, stream);
      count, audioLen := kept, write;
      KeptSplit(ms, bytes, stream);
      KeptBounded(ms, stream);
    }
  }

  // ----- the compaction loop on values -----

  /** Both rings in view order, and the three cursors. */
  datatype Rows = Rows(mv: seq<Marker>, pv: seq<byte>, read: nat, write: nat, kept: nat)

  function Turn(r: Rows, i: nat, stream: u32): Rows
    requires r.kept <= i < |r.mv| && r.write <= r.read && r.read + r.mv[i].len <= |r.pv|
  {
    var m := r.mv[i];
    if Dropped(m, stream) then r.(read := r.read + m.len)
    else Rows(r.mv[r.kept := m], Patched(r.pv, r.write, r.pv[r.read..r.read + m.len]),
              r.read + m.len, r.write + m.len, r.kept + 1)
  }

  /** Room for the records still to come. */
  ghost predicate Fits(r: Rows, i: nat, count: nat)
  {
    && r.kept <= i <= count <= |r.mv| && r.write <= r.read
    && r.read + Total(r.mv[i..count]) <= |r.pv|
  }

  lemma FitsNext(r: Rows, i: nat, count: nat, stream: u32)
    requires Fits(r, i, count) && i < count
    ensures r.read + r.mv[i].len <= |r.pv| && Fits(Turn(r, i, stream), i + 1, count)
  {
    assert r.mv[i..count][1..] == r.mv[i + 1..count];
    assert Turn(r, i, stream).mv[i + 1..count] == r.mv[i + 1..count];
  }

  /** What the loop leaves in the two rings. */
  ghost function Compacted(r: Rows, i: nat, count: nat, stream: u32): (seq<Marker>, seq<byte>)
    requires Fits(r, i, count)
    decreases count - i
  {
    if i == count then (r.mv[..r.kept], r.pv[..r.write])
    else
      FitsNext(r, i, count, stream);
      Compacted(Turn(r, i, stream), i + 1, count, stream)
  }

  lemma StartFits(r: Rows, count: nat, ms: seq<Marker>, bytes: seq<byte>)
    requires r.read == r.write == r.kept == 0 && count <= |r.mv| && |bytes| <= |r.pv|
    requires ms == r.mv[..count] && bytes == r.pv[..|bytes|] && Total(ms) == |bytes|
    ensures Fits(r, 0, count)
  {
    assert r.mv[0..count] == ms;
  }

  lemma CompactedIsKept(r: Rows, count: nat, ms: seq<Marker>, bytes: seq<byte>, stream: u32)
    requires r.read == r.write == r.kept == 0 && count <= |r.mv| && |bytes| <= |r.pv|
    requires ms == r.mv[..count] && bytes == r.pv[..|bytes|] && Total(ms) == |bytes|
    ensures Fits(r, 0, count)
    ensures Compacted(r, 0, count, stream) == (KeptMarkers(ms, stream), KeptBytes(ms, bytes, stream))
  {
    StartFits(r, count, ms, bytes);
    assert r.mv[0..count] == ms && r.pv[0..|bytes|] == bytes;
    CompactedFrom(r, 0, count, ms, bytes, stream);
    assert [] + KeptMarkers(ms, stream) == KeptMarkers(ms, stream);
    assert [] + KeptBytes(ms, bytes, stream) == KeptBytes(ms, bytes, stream);
  }

  /** From any point of the loop: what is already kept, then the filtered remainder.  The
      writes stay behind the octets still to be read. */
  lemma {:induction false} CompactedFrom(r: Rows, i: nat, count: nat, rest: seq<Marker>, left: seq<byte>, stream: u32)
    requires Fits(r, i, count) && rest == r.mv[i..count]
    requires r.read + |left| <= |r.pv| && left == r.pv[r.read..r.read + |left|] && Total(rest) == |left|
    ensures Compacted(r, i, count, stream)
         == (r.mv[..r.kept] + KeptMarkers(rest, stream), r.pv[..r.write] + KeptBytes(rest, left, stream))
    decreases count - i
  {
    if i == count {
      assert r.mv[..r.kept] + [] == r.mv[..r.kept];
      assert r.pv[..r.write] + [] == r.pv[..r.write];
    } else {
      FitsNext(r, i, count, stream);
      var r' := Turn(r, i, stream);
      var n := rest[0].len;
      assert rest[0] == r.mv[i];
      assert rest[1..] == r'.mv[i + 1..count];
      LeftBehind(r, i, left, stream);
      CompactedFrom(r', i + 1, count, rest[1..], left[n..], stream);
      TurnMarkers(r, i, rest, stream);
      TurnBytes(r, i, rest, left, stream);
    }
  }

  lemma LeftBehind(r: Rows, i: nat, left: seq<byte>, stream: u32)
    requires r.kept <= i < |r.mv| && r.write <= r.read && r.mv[i].len <= |left|
    requires r.read + |left| <= |r.pv| && left == r.pv[r.read..r.read + |left|]
    ensures var r' := Turn(r, i, stream);
            |r'.pv| == |r.pv| && left[r.mv[i].len..] == r'.pv[r'.read..r'.read + |left| - r.mv[i].len]
  {
  }

  lemma TurnMarkers(r: Rows, i: nat, rest: seq<Marker>, stream: u32)
    requires r.kept <= i < |r.mv| && r.write <= r.read && r.read + r.mv[i].len <= |r.pv|
    requires rest != [] && rest[0] == r.mv[i]
    ensures var r' := Turn(r, i, stream);
            r'.mv[..r'.kept] + KeptMarkers(rest[1..], stream) == r.mv[..r.kept] + KeptMarkers(rest, stream)
  {
    var km := KeptMarkers(rest[1..], stream);
    if Dropped(rest[0], stream) {
      assert [] + km == km;
    } else {
      assert Turn(r, i, stream).mv[..r.kept + 1] == r.mv[..r.kept] + [rest[0]];
      assert r.mv[..r.kept] + ([rest[0]] + km) == r.mv[..r.kept] + [rest[0]] + km;
    }
  }

  lemma PatchedKeeps(pv: seq<byte>, write: nat, read: nat, left: seq<byte>, n: nat, kb: seq<byte>)
    requires write <= read && n <= |left| && read + |left| <= |pv| && left == pv[read..read + |left|]
    ensures Patched(pv, write, pv[read..read + n])[..write + n] + kb == pv[..write] + (left[..n] + kb)
  {
    assert pv[read..read + n] == left[..n];
    PatchedPrefix(pv, write, left[..n]);
    assert pv[..write] + (left[..n] + kb) == pv[..write] + left[..n] + kb;
  }

  lemma TurnBytes(r: Rows, i: nat, rest: seq<Marker>, left: seq<byte>, stream: u32)
    requires r.kept <= i < |r.mv| && r.write <= r.read && Total(rest) == |left|
    requires rest != [] && rest[0] == r.mv[i] && rest[0].len <= |left|
    requires r.read + |left| <= |r.pv| && left == r.pv[r.read..r.read + |left|]
    ensures var r' := Turn(r, i, stream);
            r'.pv[..r'.write] + KeptBytes(rest[1..], left[rest[0].len..], stream)
            == r.pv[..r.write] + KeptBytes(rest, left, stream)
  {
    var n := rest[0].len;
    var kb := KeptBytes(rest[1..], left[n..], stream);
    if !Dropped(rest[0], stream) {
      PatchedKeeps(r.pv, r.write, r.read, left, n, kb);
    }
  }
}
