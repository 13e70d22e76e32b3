/** The control queue: a slot table beside one payload pool that is compacted at every pop. */
module ControlQueue {
  import opened Bytes

  const MAX_PAYLOAD := 512

  /** The header fields a queued message carries. */
  datatype Info = Info(kind: byte, opcode: u16, status: u16, requestId: u32, connectionId: u32, session: u32)

  datatype Slot = Slot(used: bool, info: Info, len: nat, offset: nat, order: nat)

  datatype Message = Message(info: Info, payload: seq<byte>, order: nat)

  // ----- the queue the table stands for -----

  /** The payload regions of the slots `live`, in this order, tile `[at, end)`. */
  predicate Tiled(sl: seq<Slot>, live: seq<nat>, at: nat, end: nat)
    decreases |live|
  {
    if live == [] then at == end
    else live[0] < |sl| && sl[live[0]].offset == at && Tiled(sl, live[1..], at + sl[live[0]].len, end)
  }

  lemma {:induction false} TiledOrder(sl: seq<Slot>, live: seq<nat>, at: nat, end: nat)
    requires Tiled(sl, live, at, end)
    ensures at <= end
    ensures forall k :: 0 <= k < |live| ==> live[k] < |sl| && at <= sl[live[k]].offset
                                            && sl[live[k]].offset + sl[live[k]].len <= end
    decreases |live|
  {
    if live != [] {
      TiledOrder(sl, live[1..], at + sl[live[0]].len, end);
      assert forall k :: 0 < k < |live| ==> live[k] == live[1..][k - 1];
    }
  }

  function Read(s: Slot, pool: seq<byte>): Message
    requires s.offset + s.len <= |pool|
  {
    Message(s.info, pool[s.offset..s.offset + s.len], s.order)
  }

  ghost function Messages(sl: seq<Slot>, pool: seq<byte>, live: seq<nat>, at: nat, end: nat): (r: seq<Message>)
    requires Tiled(sl, live, at, end) && end <= |pool|
    ensures |r| == |live|
    decreases |live|
  {
    if live == [] then []
    else
      TiledOrder(sl, live, at, end);
      [Read(sl[live[0]], pool)] + Messages(sl, pool, live[1..], at + sl[live[0]].len, end)
  }

  /** The slots `live` are used and their orders increase from at least `low`. */
  predicate Ascending(sl: seq<Slot>, live: seq<nat>, low: nat)
    decreases |live|
  {
    if live == [] then true
    else live[0] < |sl| && sl[live[0]].used && low <= sl[live[0]].order
         && Ascending(sl, live[1..], sl[live[0]].order + 1)
  }

  predicate Covered(sl: seq<Slot>, live: seq<nat>)
  {
    forall i :: 0 <= i < |sl| && sl[i].used ==> i in live
  }

  lemma {:induction false} AscendingAbove(sl: seq<Slot>, live: seq<nat>, low: nat)
    requires Ascending(sl, live, low)
    ensures forall i :: i in live ==> i < |sl| && sl[i].used && low <= sl[i].order
    decreases |live|
  {
    if live != [] {
      AscendingAbove(sl, live[1..], sl[live[0]].order + 1);
      assert live == [live[0]] + live[1..];
    }
  }

  /** Only the flags and orders of the listed slots matter. */
  lemma {:induction false} AscendingSame(sl: seq<Slot>, sl': seq<Slot>, live: seq<nat>, low: nat)
    requires Ascending(sl, live, low) && |sl'| == |sl|
    requires forall i :: i in live && i < |sl| ==> sl'[i].used && sl'[i].order == sl[i].order
    ensures Ascending(sl', live, low)
    decreases |live|
  {
    if live != [] {
      AscendingSame(sl, sl', live[1..], sl[live[0]].order + 1);
    }
  }

  lemma {:induction false} AscendingSnoc(sl: seq<Slot>, live: seq<nat>, low: nat, j: nat)
    requires Ascending(sl, live, low) && j < |sl| && sl[j].used && low <= sl[j].order
    requires forall i :: i in live && i < |sl| ==> sl[i].order < sl[j].order
    ensures Ascending(sl, live + [j], low)
    decreases |live|
  {
    if live == [] {
      assert live + [j] == [j] && [j][1..] == [];
    } else {
      assert (live + [j])[1..] == live[1..] + [j];
      AscendingSnoc(sl, live[1..], sl[live[0]].order + 1, j);
    }
  }

  // ----- what the updates do to it -----

  predicate Lowered(s: Slot, s': Slot, d: nat)
  {
    s.offset == s'.offset + d && s' == s.(offset := s'.offset)
  }

  lemma SameOctets(pool: seq<byte>, pool': seq<byte>, from: nat, len: nat, d: nat)
    requires d <= from && from + len <= |pool| == |pool'|
    requires forall i :: from <= i < from + len ==> pool'[i - d] == pool[i]
    ensures pool'[from - d..from - d + len] == pool[from..from + len]
  {
    var x, y := pool'[from - d..from - d + len], pool[from..from + len];
    forall k | 0 <= k < |x|
      ensures x[k] == y[k]
    {
      assert pool'[(from + k) - d] == pool[from + k];
    }
  }

  /** Slots and pool moved down together by `d` still hold the same messages. */
  lemma {:induction false} MovedMessages(sl: seq<Slot>, pool: seq<byte>, sl': seq<Slot>, pool': seq<byte>,
                                         live: seq<nat>, at: nat, end: nat, d: nat)
    requires Tiled(sl, live, at, end) && d <= at <= end <= |pool| == |pool'| && |sl'| == |sl|
    requires forall i :: i in live ==> i < |sl| && Lowered(sl[i], sl'[i], d)
    requires forall i :: at <= i < end ==> pool'[i - d] == pool[i]
    ensures Tiled(sl', live, at - d, end - d)
    ensures Messages(sl', pool', live, at - d, end - d) == Messages(sl, pool, live, at, end)
    decreases |live|
  {
    if live != [] {
      var s, rest := sl[live[0]], live[1..];
      assert Lowered(s, sl'[live[0]], d);
      TiledOrder(sl, rest, at + s.len, end);
      MovedMessages(sl, pool, sl', pool', rest, at + s.len, end, d);
      ReadMoved(s, sl'[live[0]], pool, pool', d);
    }
  }

  lemma ReadMoved(s: Slot, s': Slot, pool: seq<byte>, pool': seq<byte>, d: nat)
    requires Lowered(s, s', d) && s.offset + s.len <= |pool| == |pool'|
    requires forall i :: s.offset <= i < s.offset + s.len ==> pool'[i - d] == pool[i]
    ensures Read(s', pool') == Read(s, pool)
  {
    SameOctets(pool, pool', s.offset, s.len, d);
  }

  lemma PrefixOctets(pool: seq<byte>, pool': seq<byte>, end: nat, from: nat, len: nat)
    requires from + len <= end <= |pool| == |pool'| && pool'[..end] == pool[..end]
    ensures pool'[from..from + len] == pool[from..from + len]
  {
    assert pool'[from..from + len] == pool'[..end][from..from + len];
  }

  /** A slot outside `live` and octets beyond `end` do not matter; a new message goes last. */
  lemma {:induction false} AddedMessages(sl: seq<Slot>, pool: seq<byte>, pool': seq<byte>, live: seq<nat>,
                                         at: nat, end: nat, j: nat, s: Slot)
    requires Tiled(sl, live, at, end) && j < |sl| && j !in live && s.offset == end
    requires end + s.len <= |pool| == |pool'| && pool'[..end] == pool[..end]
    ensures Tiled(sl[j := s], live + [j], at, end + s.len)
    ensures Messages(sl[j := s], pool', live + [j], at, end + s.len)
         == Messages(sl, pool, live, at, end) + [Read(s, pool')]
    decreases |live|
  {
    if live == [] {
      assert live + [j] == [j] && [j][1..] == [];
    } else {
      TiledOrder(sl, live, at, end);
      assert (live + [j])[1..] == live[1..] + [j];
      var s0 := sl[live[0]];
      PrefixOctets(pool, pool', end, s0.offset, s0.len);
      AddedMessages(sl, pool, pool', live[1..], at + s0.len, end, j, s);
    }
  }

  /** The whole enqueue on values. */
  lemma Placed(sl: seq<Slot>, pool: seq<byte>, pool': seq<byte>, live: seq<nat>, end: nat, j: nat, s: Slot, m: Message)
    requires Ascending(sl, live, 0) && Covered(sl, live) && Tiled(sl, live, 0, end) && j < |sl| && !sl[j].used
    requires s.used && s.info == m.info && s.order == m.order && s.len == |m.payload| && s.offset == end
    requires forall i :: 0 <= i < |sl| && sl[i].used ==> sl[i].order < s.order
    requires end + s.len <= |pool| == |pool'| && pool'[..end] == pool[..end] && pool'[end..end + s.len] == m.payload
    ensures Ascending(sl[j := s], live + [j], 0) && Covered(sl[j := s], live + [j])
    ensures Tiled(sl[j := s], live + [j], 0, end + s.len)
    ensures Messages(sl[j := s], pool', live + [j], 0, end + s.len) == Messages(sl, pool, live, 0, end) + [m]
  {
    AscendingAbove(sl, live, 0);
    AscendingSame(sl, sl[j := s], live, 0);
    AscendingSnoc(sl[j := s], live, 0, j);
    AddedMessages(sl, pool, pool', live, 0, end, j, s);
  }

  // ----- counting slots -----

  lemma {:induction false} Distinct(sl: seq<Slot>, live: seq<nat>, low: nat)
    requires Ascending(sl, live, low)
    ensures |Elements(live)| == |live|
    decreases |live|
  {
    if live != [] {
      var rest := live[1..];
      Distinct(sl, rest, sl[live[0]].order + 1);
      AscendingAbove(sl, rest, sl[live[0]].order + 1);
      assert live == [live[0]] + rest;
      assert Elements(live) == {live[0]} + Elements(rest);
    }
  }

  function Elements(live: seq<nat>): set<nat>
  {
    set i | i in live
  }

  function Indices(n: nat): set<nat>
  {
    if n == 0 then {} else Indices(n - 1) + {n - 1}
  }

  lemma {:induction false} IndexCount(n: nat)
    ensures |Indices(n)| == n && forall i: nat :: i in Indices(n) <==> i < n
  {
    if n > 0 {
      IndexCount(n - 1);
    }
  }

  lemma SubsetSize(a: set<nat>, b: set<nat>)
    requires a <= b
    ensures |a| <= |b| && (|a| == |b| ==> a == b)
  {
    assert b == a + (b - a);
    assert |b| == |a| + |b - a|;
  }

  /** There is a free slot exactly when fewer messages wait than there are slots. */
  lemma FreeSlots(sl: seq<Slot>, live: seq<nat>)
    requires Ascending(sl, live, 0) && Covered(sl, live)
    ensures |live| <= |sl|
    ensures (forall i :: 0 <= i < |sl| ==> sl[i].used) <==> |live| == |sl|
  {
    Distinct(sl, live, 0);
    AscendingAbove(sl, live, 0);
    IndexCount(|sl|);
    SubsetSize(Elements(live), Indices(|sl|));
    if forall i :: 0 <= i < |sl| ==> sl[i].used {
      assert forall i :: i in Indices(|sl|) ==> i in live;
      SubsetSize(Indices(|sl|), Elements(live));
    }
    if |live| == |sl| {
      assert Elements(live) == Indices(|sl|);
      forall i | 0 <= i < |sl|
        ensures sl[i].used
      {
        assert i in Indices(|sl|);
      }
    }
  }

  function Held(ms: seq<Message>): nat
  {
    if ms == [] then 0 else |ms[0].payload| + Held(ms[1..])
  }

  /** The pool in use is what the payloads take. */
  lemma {:induction false} TiledHolds(sl: seq<Slot>, pool: seq<byte>, live: seq<nat>, at: nat, end: nat)
    requires Tiled(sl, live, at, end) && end <= |pool|
    ensures Held(Messages(sl, pool, live, at, end)) == end - at
    decreases |live|
  {
    TiledOrder(sl, live, at, end);
    if live != [] {
      TiledHolds(sl, pool, live[1..], at + sl[live[0]].len, end);
    }
  }

  class Queue {
    const slots: array<Slot>
    const pool: array<byte>
    var used: nat
    ghost var live: seq<nat>

    ghost predicate Valid()
      reads this, slots, pool
    {
      used <= pool.Length && Ascending(slots[..], live, 0) && Covered(slots[..], live)
      && Tiled(slots[..], live, 0, used)
    }

    /** Complete messages, oldest first. */
    ghost function Contents(): seq<Message>
      reads this, slots, pool
      requires Valid()
    {
      Messages(slots[..], pool[..], live, 0, used)
    }

    constructor (count: nat, bytes: nat)
      ensures Valid() && Contents() == [] && fresh(slots) && fresh(pool)
      ensures slots.Length == count && pool.Length == bytes
    {
      slots := new Slot[count](_ => Slot(false, Info(0, 0, 0, 0, 0, 0), 0, 0, 0));
      pool := new byte[bytes];
      used, live := 0, [];
    }

    /** `ctl_clear`. */
    method Clear()
      requires Valid()
      modifies this, slots
      ensures Valid() && Contents() == []
    {
      for i := 0 to slots.Length
        invariant forall k :: 0 <= k < i ==> !slots[k].used
      {
        slots[i] := slots[i].(used := false);
      }
      used, live := 0, [];
    }

    /** `ctl[0].session = ...`: the message in the first slot, when that is the oldest one. */
    method Relabel(session: u32)
      requires Valid() && live != [] && live[0] == 0
      modifies slots
      ensures Valid() && Contents() == old(Contents())[0 := old(Contents())[0].(info := old(Contents())[0].info.(session := session))]
    {
      ghost var sl := slots[..];
      slots[0] := slots[0].(info := slots[0].info.(session := session));
      AscendingAbove(sl, live, 0);
      AscendingSame(sl, slots[..], live, 0);
      Relabelled(sl, slots[..], pool[..], live, used, session);
    }

    /** The first free slot, or the table size when there is none. */
    method FirstFree() returns (j: nat)
      ensures j <= slots.Length && (j < slots.Length ==> !slots[j].used)
      ensures forall i :: 0 <= i < j ==> slots[i].used
    {
      j := 0;
      while j < slots.Length && slots[j].used
        invariant 0 <= j <= slots.Length
        invariant forall i :: 0 <= i < j ==> slots[i].used
      {
        j := j + 1;
      }
    }

    method CopyPayload(at: nat, data: seq<byte>)
      requires at + |data| <= pool.Length
      modifies pool
      ensures pool[..at] == old(pool[..at]) && pool[at..at + |data|] == data
    {
      for i := 0 to |data|
        invariant forall k :: 0 <= k < at ==> pool[k] == old(pool[k])
        invariant forall k :: at <= k < at + i ==> pool[k] == data[k - at]
      {
        pool[at + i] := data[i];
      }
    }

    /** `ctl_enqueue`, with the order number the server hands out: refused when no slot is
        free, the payload is too long or the pool has no room. */
    method Enqueue(m: Message) returns (ok: bool)
      requires Valid() && forall i :: 0 <= i < slots.Length && slots[i].used ==> slots[i].order < m.order
      modifies this, slots, pool
      ensures Valid()
      ensures ok <==> |old(Contents())| < slots.Length
                      && |m.payload| <= MAX_PAYLOAD && old(used) + |m.payload| <= pool.Length
      ensures ok && old(Contents()) == [] ==> live == [0]
      ensures old(live) <= live
      ensures Contents() == if ok then old(Contents()) + [m] else old(Contents())
    {
      var j := FirstFree();
      FreeSlots(slots[..], live);
      assert live == [] && slots.Length > 0 ==> !slots[..][0].used;
      if j == slots.Length || |m.payload| > MAX_PAYLOAD || |m.payload| > pool.Length - used { return false; }
      Place(j, m);
      ok := true;
    }

    method Place(j: nat, m: Message)
      requires Valid() && j < slots.Length && !slots[j].used && used + |m.payload| <= pool.Length
      requires forall i :: 0 <= i < slots.Length && slots[i].used ==> slots[i].order < m.order
      modifies this, slots, pool
      ensures Valid() && Contents() == old(Contents()) + [m] && live == old(live) + [j]
    {
      ghost var sl, bytes := slots[..], pool[..];
      var s := Slot(true, m.info, |m.payload|, used, m.order);
      CopyPayload(used, m.payload);
      slots[j] := s;
      assert slots[..] == sl[j := s];
      assert pool[..][..used] == bytes[..used] && pool[..][used..used + s.len] == m.payload;
      Placed(sl, bytes, pool[..], live, used, j, s, m);
      used := used + |m.payload|;
      live := live + [j];
    }

    /** `ctl_peek_order` and the scan of `ctl_pop`: the used slot with the smallest order. */
    method Oldest() returns (best: nat)
      requires Valid() && live != []
      ensures best == live[0]
    {
      best := slots.Length;
      var i := 0;
      while i < slots.Length
        invariant 0 <= i <= slots.Length && best <= slots.Length
        invariant best < slots.Length ==> slots[best].used
        invariant forall k :: 0 <= k < i && slots[k].used ==> best < slots.Length && slots[best].order <= slots[k].order
      {
        if slots[i].used && (best == slots.Length || slots[i].order < slots[best].order) { best := i; }
        i := i + 1;
      }
      AscendingAbove(slots[..], live[1..], slots[live[0]].order + 1);
      assert slots[..][live[0]].used;
    }

    /** The memmove of `ctl_pop`. */
    method MoveDown(n: nat)
      requires n <= used <= pool.Length
      modifies pool
      ensures forall i :: n <= i < used ==> pool[i - n] == old(pool[i])
    {
      for i := 0 to used - n
        invariant forall k :: n <= k < n + i ==> pool[k - n] == old(pool[k])
        invariant forall k :: i <= k < pool.Length ==> pool[k] == old(pool[k])
      {
        pool[i] := pool[i + n];
      }
    }

    /** The loop that moves the remaining offsets down. */
    method ShiftOffsets(from: nat, n: nat)
      requires n <= from
      modifies slots
      ensures forall i :: 0 <= i < slots.Length ==>
                slots[i] == var s := old(slots[i]); if s.used && s.offset >= from then s.(offset := s.offset - n) else s
    {
      for j := 0 to slots.Length
        invariant forall i :: 0 <= i < j ==>
                    slots[i] == var s := old(slots[i]); if s.used && s.offset >= from then s.(offset := s.offset - n) else s
        invariant forall i :: j <= i < slots.Length ==> slots[i] == old(slots[i])
      {
        if slots[j].used && slots[j].offset >= from { slots[j] := slots[j].(offset := slots[j].offset - n); }
      }
    }

    /** The message `ctl_pop` offers to the output: always the one at offset 0. */
    method Peek() returns (m: Message)
      requires Valid() && live != []
      ensures m == Contents()[0] && slots[live[0]].offset == 0
    {
      var b := Oldest();
      TiledOrder(slots[..], live, 0, used);
      m := Read(slots[b], pool[..]);
    }

    /** `ctl_pop` once the frame is committed: the pool closes up and nothing else changes. */
    method Pop()
      requires Valid() && live != []
      modifies this, slots, pool
      ensures Valid() && Contents() == old(Contents())[1..]
    {
      var b := Oldest();
      ghost var sl, bytes := slots[..], pool[..];
      var n := slots[b].len;
      TiledOrder(sl, live, 0, used);
      Close(b, n);
      Popped(sl, bytes, slots[..], pool[..], live, used);
      used := used - n;
      live := live[1..];
    }

    /** Frees slot `b`, whose `n` octets start the pool, and moves everything else down. */
    method Close(b: nat, n: nat)
      requires b < slots.Length && n <= used <= pool.Length
      modifies slots, pool
      ensures forall i :: n <= i < used ==> pool[i - n] == old(pool[i])
      ensures forall i :: 0 <= i < slots.Length ==>
                slots[i] == var s := if i == b then old(slots[i]).(used := false) else old(slots[i]);
                            if s.used && s.offset >= n then s.(offset := s.offset - n) else s
    {
      slots[b] := slots[b].(used := false);
      MoveDown(n);
      ShiftOffsets(n, n);
    }
  }

  lemma Relabelled(sl: seq<Slot>, sl': seq<Slot>, pool: seq<byte>, live: seq<nat>, end: nat, session: u32)
    requires Ascending(sl, live, 0) && Tiled(sl, live, 0, end) && end <= |pool| && live != [] && live[0] == 0
    requires sl' == sl[0 := sl[0].(info := sl[0].info.(session := session))]
    ensures Tiled(sl', live, 0, end)
    ensures var ms := Messages(sl, pool, live, 0, end);
            Messages(sl', pool, live, 0, end) == ms[0 := ms[0].(info := ms[0].info.(session := session))]
  {
    AscendingAbove(sl, live[1..], sl[0].order + 1);
    SameRest(sl, sl', pool, live[1..], sl[0].len, end);
  }

  /** Messages depend on their own slots only. */
  lemma {:induction false} SameRest(sl: seq<Slot>, sl': seq<Slot>, pool: seq<byte>, live: seq<nat>, at: nat, end: nat)
    requires Tiled(sl, live, at, end) && end <= |pool| && |sl'| == |sl|
    requires forall i :: i in live && i < |sl| ==> sl'[i] == sl[i]
    ensures Tiled(sl', live, at, end) && Messages(sl', pool, live, at, end) == Messages(sl, pool, live, at, end)
    decreases |live|
  {
    if live != [] {
      SameRest(sl, sl', pool, live[1..], at + sl[live[0]].len, end);
    }
  }

  /** The whole pop on values: the head slot is free, every other one keeps its message and
      moves down. */
  lemma Popped(sl: seq<Slot>, pool: seq<byte>, sl': seq<Slot>, pool': seq<byte>, live: seq<nat>, end: nat)
    requires live != [] && Ascending(sl, live, 0) && Covered(sl, live) && Tiled(sl, live, 0, end)
    requires end <= |pool| == |pool'| && |sl'| == |sl|
    requires var n := sl[live[0]].len;
             && n <= end && (forall i :: n <= i < end ==> pool'[i - n] == pool[i])
             && (forall i :: 0 <= i < |sl| ==>
                   sl'[i] == var s := if i == live[0] then sl[i].(used := false) else sl[i];
                             if s.used && s.offset >= n then s.(offset := s.offset - n) else s)
    ensures var n := sl[live[0]].len;
            Ascending(sl', live[1..], 0) && Covered(sl', live[1..]) && Tiled(sl', live[1..], 0, end - n)
            && Messages(sl', pool', live[1..], 0, end - n) == Messages(sl, pool, live, 0, end)[1..]
  {
    var n, rest, low := sl[live[0]].len, live[1..], sl[live[0]].order + 1;
    AscendingAbove(sl, rest, low);
    TiledIn(sl, rest, n, end);
    AscendingSame(sl, sl', rest, low);
    AscendingLower(sl', rest, low);
    assert live == [live[0]] + rest;
    MovedMessages(sl, pool, sl', pool', rest, n, end, n);
  }

  lemma TiledIn(sl: seq<Slot>, live: seq<nat>, at: nat, end: nat)
    requires Tiled(sl, live, at, end)
    ensures at <= end && forall i :: i in live ==> i < |sl| && at <= sl[i].offset
  {
    TiledOrder(sl, live, at, end);
  }

  lemma AscendingLower(sl: seq<Slot>, live: seq<nat>, low: nat)
    requires Ascending(sl, live, low)
    ensures Ascending(sl, live, 0)
  {
  }
}
