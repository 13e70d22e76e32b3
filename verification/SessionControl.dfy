/** The control queue of a session as it lies in the slot table and its payload pool. */
module SessionControl {
  import opened Bytes
  import opened Frame
  import opened Session
  import CQ = ControlQueue

  /** The header that `ctl_pop` fills from a slot. */
  function HeaderOf(i: CQ.Info): Header
  {
    Header(0, 0, 0, 0, i.kind, 0, 0, i.session, 0, i.requestId, i.opcode, i.status, 0, 0, i.connectionId)
  }

  function ItemOf(m: CQ.Message): Item
  {
    Item(HeaderOf(m.info), m.payload, m.order)
  }

  function Items(ms: seq<CQ.Message>): (q: seq<Item>)
    ensures |q| == |ms| && forall i :: 0 <= i < |ms| ==> q[i] == ItemOf(ms[i])
  {
    if ms == [] then [] else [ItemOf(ms[0])] + Items(ms[1..])
  }

  lemma {:induction false} ItemsConcat(a: seq<CQ.Message>, b: seq<CQ.Message>)
    ensures Items(a + b) == Items(a) + Items(b)
  {
    if a == [] {
      assert a + b == b;
    } else {
      assert (a + b)[1..] == a[1..] + b;
      ItemsConcat(a[1..], b);
    }
  }

  lemma {:induction false} HeldIsUsed(ms: seq<CQ.Message>)
    ensures CQ.Held(ms) == CtlUsed(Items(ms))
  {
    if ms != [] {
      HeldIsUsed(ms[1..]);
    }
  }

  class Control {
    const q: CQ.Queue
    ghost var items: seq<Item>

    ghost predicate Valid()
      reads this, q, q.slots, q.pool
    {
      q.Valid() && items == Items(q.Contents())
    }

    /** The oldest message is in slot 0, as after a clear. */
    ghost predicate FirstSlot()
      reads this, q
    {
      items != [] ==> q.live != [] && q.live[0] == 0
    }

    constructor (slots: nat, bytes: nat)
      ensures Valid() && items == [] && fresh(q) && fresh(q.slots) && fresh(q.pool)
      ensures q.slots.Length == slots && q.pool.Length == bytes
    {
      q := new CQ.Queue(slots, bytes);
      items := [];
    }

    /** `ctl_enqueue`, refused when there is no slot, the payload is too long or the pool full. */
    method Put(info: CQ.Info, payload: seq<byte>, order: nat) returns (ok: bool)
      requires Valid() && forall i :: 0 <= i < |items| ==> items[i].order < order
      modifies this, q, q.slots, q.pool
      ensures Valid()
      ensures ok <==> |old(items)| < q.slots.Length && |payload| <= MAX_PAYLOAD && CtlUsed(old(items)) + |payload| <= q.pool.Length
      ensures items == if ok then old(items) + [Item(HeaderOf(info), payload, order)] else old(items)
      ensures old(FirstSlot()) ==> FirstSlot()
    {
      var m := CQ.Message(info, payload, order);
      ghost var ms := q.Contents();
      Older(order);
      CQ.TiledHolds(q.slots[..], q.pool[..], q.live, 0, q.used);
      HeldIsUsed(ms);
      ItemsConcat(ms, [m]);
      OneItem(m);
      ok := q.Enqueue(m);
      if ok { items := items + [ItemOf(m)]; }
    }

    lemma OneItem(m: CQ.Message)
      ensures Items([m]) == [ItemOf(m)]
    {
      assert [m][1..] == [];
    }

    /** Order numbers of the used slots are those of the items. */
    lemma Older(order: nat)
      requires Valid() && forall i :: 0 <= i < |items| ==> items[i].order < order
      ensures forall i :: 0 <= i < q.slots.Length && q.slots[i].used ==> q.slots[i].order < order
    {
      forall i | 0 <= i < q.slots.Length && q.slots[i].used
        ensures q.slots[i].order < order
      {
        assert q.slots[..][i].used;
        var k :| 0 <= k < |q.live| && q.live[k] == i;
        MessageAt(q.slots[..], q.pool[..], q.live, 0, q.used, k);
        assert items[k] == ItemOf(q.Contents()[k]);
      }
    }

    method Head() returns (it: Item)
      requires Valid() && items != []
      ensures it == items[0]
    {
      var m := q.Peek();
      it := ItemOf(m);
    }

    method IsEmpty() returns (empty: bool)
      requires Valid()
      ensures empty <==> items == []
    {
      var j := 0;
      while j < q.slots.Length && !q.slots[j].used
        invariant 0 <= j <= q.slots.Length && forall i :: 0 <= i < j ==> !q.slots[i].used
      {
        j := j + 1;
      }
      empty := j == q.slots.Length;
      CQ.AscendingAbove(q.slots[..], q.live, 0);
      assert q.live != [] ==> q.live[0] in q.live;
      if !empty {
        assert q.slots[..][j].used;
      }
    }

    /** `ctl_pop` once the frame is committed. */
    method Pop()
      requires Valid() && items != []
      modifies this, q, q.slots, q.pool
      ensures Valid() && items == old(items)[1..]
    {
      ghost var ms := q.Contents();
      assert ms == [ms[0]] + ms[1..];
      q.Pop();
      items := items[1..];
    }

    method Clear()
      requires Valid()
      modifies this, q, q.slots
      ensures Valid() && items == [] && FirstSlot()
    {
      q.Clear();
      items := [];
    }

    /** The first slot takes another session's identity. */
    method Relabel(session: u32)
      requires Valid() && items != [] && FirstSlot()
      modifies this`items, q.slots
      ensures Valid()
      ensures items == [old(items)[0].(header := old(items)[0].header.(sessionId := session))] + old(items)[1..]
    {
      ghost var ms := q.Contents();
      q.Relabel(session);
      ghost var it := items[0].(header := items[0].header.(sessionId := session));
      assert q.Contents()[1..] == ms[1..];
      items := [it] + items[1..];
    }
  }

  lemma {:induction false} MessageAt(sl: seq<CQ.Slot>, pool: seq<byte>, live: seq<nat>, at: nat, end: nat, k: nat)
    requires CQ.Tiled(sl, live, at, end) && end <= |pool| && k < |live|
    ensures live[k] < |sl| && CQ.Messages(sl, pool, live, at, end)[k].order == sl[live[k]].order
    decreases |live|
  {
    CQ.TiledOrder(sl, live, at, end);
    if k > 0 {
      MessageAt(sl, pool, live[1..], at + sl[live[0]].len, end, k - 1);
    }
  }
}
