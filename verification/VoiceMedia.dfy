/** Media records as they lie in the rings: a marker and the octets of the payload. */
module VoiceMedia {
  import opened Bytes
  import opened HostAudio
  import opened Voice
  import opened AudioWire
  import opened VoiceRange
  import MQ = MediaQueue

  /** A marker and its octets stand for a record. */
  predicate StoredOne(it: MQ.Item, m: Queued)
  {
    && it.marker.stream == m.stream && it.marker.opcode == Opcode(m.record)
    && it.payload == Payload(m.record) && it.marker.len == |it.payload|
  }

  predicate Stored(items: seq<MQ.Item>, ms: seq<Queued>)
  {
    |items| == |ms| && forall i :: 0 <= i < |ms| ==> StoredOne(items[i], ms[i])
  }

  /** Discarding the current stream's records from the rings discards them from the queue. */
  lemma {:induction false} KeptStored(items: seq<MQ.Item>, ms: seq<Queued>, id: u32)
    requires Stored(items, ms)
    ensures Stored(MQ.Kept(items, id), Kept(ms, id))
    decreases |ms|
  {
    if ms != [] {
      assert StoredOne(items[0], ms[0]);
      KeptStored(items[1..], ms[1..], id);
    }
  }

  /** The octets in use are those the records occupy. */
  lemma {:induction false} OccupiedStored(markers: seq<MQ.Marker>, ms: seq<Queued>)
    requires |markers| == |ms| && forall i :: 0 <= i < |ms| ==> markers[i].len == Size(ms[i].record)
    ensures MQ.Total(markers) == Occupied(ms)
  {
    if ms != [] {
      OccupiedStored(markers[1..], ms[1..]);
    }
  }

  class Store {
    const media: MQ.Queue
    ghost var queued: seq<Queued>

    ghost predicate Valid()
      reads this, media, media.q, media.pool
    {
      media.Valid() && Stored(media.Contents(), queued) && AllStorable(queued)
    }

    constructor (depth: nat, pool: nat)
      requires depth > 0 && pool > 0
      ensures Valid() && queued == [] && fresh(media) && fresh(media.q) && fresh(media.pool)
      ensures media.q.Length == depth && media.pool.Length == pool
    {
      media := new MQ.Queue(depth, pool);
      queued := [];
    }

    /** The room test on the rings is the one on records. */
    lemma LacksRoom(n: nat)
      requires Valid()
      ensures media.Lacks(n) <==> |queued| >= media.q.Length || Occupied(queued) + n > media.pool.Length
      ensures media.count == |queued|
    {
      var ms, bytes := media.Markers(), media.Octets();
      forall i | 0 <= i < |queued|
        ensures ms[i].len == Size(queued[i].record)
      {
        MQ.SplitAt(ms, bytes, i);
        assert StoredOne(media.Contents()[i], queued[i]);
        PayloadSize(queued[i].record);
      }
      OccupiedStored(ms, queued);
    }

    method IsEmpty() returns (empty: bool)
      requires Valid()
      ensures empty <==> queued == []
    {
      empty := media.count == 0;
    }

    method HasRoom(r: Record) returns (ok: bool)
      requires Valid()
      ensures ok <==> |queued| < media.q.Length && Occupied(queued) + Size(r) <= media.pool.Length
      ensures ok <==> !media.Lacks(|Payload(r)|)
    {
      LacksRoom(|Payload(r)|);
      PayloadSize(r);
      ok := !media.Lacks(|Payload(r)|);
    }

    method Put(stream: u32, connection: u32, order: nat, r: Record)
      requires Valid() && Storable(r) && !media.Lacks(|Payload(r)|)
      modifies this, media, media.q, media.pool
      ensures Valid() && queued == old(queued) + [Queued(stream, r)]
    {
      PayloadSize(r);
      var p := Payload(r);
      var _ := media.Enqueue(MQ.Marker(stream, connection, order, Opcode(r), |p|), p);
      queued := queued + [Queued(stream, r)];
    }

    method Head() returns (stream: u32, opcode: u16, p: seq<byte>)
      requires Valid() && queued != []
      ensures stream == queued[0].stream && opcode == Opcode(queued[0].record) && p == Payload(queued[0].record)
      ensures Storable(queued[0].record)
    {
      var it := media.Peek();
      assert StoredOne(it, queued[0]);
      stream, opcode, p := it.marker.stream, it.marker.opcode, it.payload;
    }

    method Drop()
      requires Valid() && queued != []
      modifies this, media
      ensures Valid() && queued == old(queued)[1..]
    {
      media.Pop();
      queued := queued[1..];
    }

    /** `media_discard_current`, in the rings. */
    method Discard(stream: u32)
      requires Valid()
      modifies this, media, media.q, media.pool
      ensures Valid() && queued == Kept(old(queued), stream)
    {
      KeptStored(media.Contents(), queued, stream);
      KeptStorable(queued, stream);
      media.DiscardCurrent(stream);
      queued := Kept(queued, stream);
    }

    method Clear()
      requires Valid()
      modifies this, media
      ensures Valid() && queued == []
    {
      media.Clear();
      queued := [];
    }
  }
}
