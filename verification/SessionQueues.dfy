/** The key ring and the media rings as the scheduler sees them: a head item with its place in
    the order of arrival. */
module SessionQueues {
  import opened Bytes
  import opened Frame
  import opened Sequences
  import opened Rings
  import opened Session
  import opened AudioWire
  import opened ClientWire
  import MQ = MediaQueue

  /** The ring of key states. */
  class KeyRing {
    const slots: array<Item>
    var head: nat
    var count: nat
    ghost var items: seq<Item>

    ghost predicate Valid()
      reads this, slots
    {
      head < slots.Length && count <= slots.Length && items == View(slots, head)[..count]
    }

    constructor (depth: nat, blank: Item)
      requires depth > 0
      ensures Valid() && items == [] && fresh(slots) && slots.Length == depth
    {
      slots := new Item[depth](_ => blank);
      head, count := 0, 0;
      items := [];
    }

    /** `key_push`. */
    method Push(it: Item) returns (ok: bool)
      requires Valid()
      modifies this, slots
      ensures Valid() && ok == (|old(items)| < slots.Length)
      ensures items == if ok then old(items) + [it] else old(items)
    {
      ok := count < slots.Length;
      if ok {
        RingSet(slots, head, count, it);
        count := count + 1;
        items := items + [it];
      }
    }

    method Head() returns (it: Item)
      requires Valid() && items != []
      ensures it == items[0]
    {
      it := RingGet(slots, head, 0);
    }

    method Pop()
      requires Valid() && items != []
      modifies this
      ensures Valid() && items == old(items)[1..]
    {
      HeadMoved(slots, head, 1);
      head, count := Wrap(head + 1, slots.Length), count - 1;
      items := items[1..];
    }

    method Clear()
      requires Valid()
      modifies this
      ensures Valid() && items == []
    {
      head, count := 0, 0;
      items := [];
    }
  }

  /** The header of `media_flush_one`, from the marker. */
  function MarkerHeader(m: MQ.Marker): Header
  {
    Header(0, 0, 0, 0, if m.opcode == OP_DATA then KIND_AUDIO else KIND_EVENT, 0, 0, 0, 0, 0, m.opcode, 0, 0, 0, m.connection)
  }

  function MediaItem(it: MQ.Item): Item
  {
    Item(MarkerHeader(it.marker), it.payload, it.marker.order)
  }

  function MediaItems(its: seq<MQ.Item>): (q: seq<Item>)
    ensures |q| == |its| && forall i :: 0 <= i < |its| ==> q[i] == MediaItem(its[i])
  {
    if its == [] then [] else [MediaItem(its[0])] + MediaItems(its[1..])
  }

  lemma MediaItemsSnoc(its: seq<MQ.Item>, it: MQ.Item)
    ensures MediaItems(its + [it]) == MediaItems(its) + [MediaItem(it)]
  {
  }

  /** Marker ring and octet ring. */
  class MediaRing {
    const q: MQ.Queue
    ghost var items: seq<Item>

    ghost predicate Valid()
      reads this, q, q.q, q.pool
    {
      q.Valid() && items == MediaItems(q.Contents())
    }

    constructor (depth: nat, bytes: nat)
      requires depth > 0 && bytes > 0
      ensures Valid() && items == [] && fresh(q) && fresh(q.q) && fresh(q.pool)
    {
      q := new MQ.Queue(depth, bytes);
      items := [];
    }

    method IsEmpty() returns (empty: bool)
      requires Valid()
      ensures empty <==> items == []
    {
      empty := q.count == 0;
    }

    /** `media_enqueue` once there is room. */
    method Put(m: MQ.Marker, payload: seq<byte>) returns (ok: bool)
      requires Valid() && m.len == |payload| <= MAX_PAYLOAD
      modifies this, q, q.q, q.pool
      ensures Valid() && ok == !old(q.Lacks(|payload|))
      ensures items == if ok then old(items) + [MediaItem(MQ.Item(m, payload))] else old(items)
    {
      MediaItemsSnoc(q.Contents(), MQ.Item(m, payload));
      ok := q.Enqueue(m, payload);
      if ok { items := items + [MediaItem(MQ.Item(m, payload))]; }
    }

    method Head() returns (it: Item)
      requires Valid() && items != []
      ensures it == items[0]
    {
      var m := q.Peek();
      it := MediaItem(m);
    }

    method Pop()
      requires Valid() && items != []
      modifies this, q
      ensures Valid() && items == old(items)[1..]
    {
      ghost var its := q.Contents();
      assert its == [its[0]] + its[1..];
      q.Pop();
      items := items[1..];
    }

    method Clear()
      requires Valid()
      modifies this, q
      ensures Valid() && items == []
    {
      q.Clear();
      items := [];
    }
  }
}
