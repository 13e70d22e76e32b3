/** The output half of the server object: slot table, pool and output ring updated in place,
    against the transitions of Session. */
module SessionServer {
  import opened Bytes
  import opened Frame
  import opened Rings
  import opened Session
  import opened SessionControl
  import opened SessionQueues
  import CQ = ControlQueue
  import MQ = MediaQueue

  /** An event that a backend call reports while the session is torn down. */
  datatype Call = Call(info: CQ.Info, payload: seq<byte>)

  function Reported(calls: seq<Call>): (r: seq<Sent>)
    ensures |r| == |calls|
  {
    if calls == [] then [] else [Sent(HeaderOf(calls[0].info), calls[0].payload)] + Reported(calls[1..])
  }

  lemma ReportedRest(calls: seq<Call>)
    requires calls != []
    ensures Reported(calls)[1..] == Reported(calls[1..])
  {
  }

  /** Session identity and sequence number. */
  datatype Identity = Identity(active: bool, session: u32, counter: u32, txSeq: u32)

  ghost function Whole(id: Identity, order: nat, q: Queues, p: Port): State
  {
    State(id.active, id.session, id.counter, id.txSeq, order, q, p)
  }

  /** The choice from what the scheduler looks at: which queues have a head, and its order. */
  function Pick3(hasCtl: bool, ctlO: nat, hasKey: bool, keyO: nat, hasMedia: bool, mediaO: nat, ctlSent: nat): Pick
  {
    if !hasCtl && !hasKey && !hasMedia then Nothing
    else
      var min1 := if hasCtl then ctlO else 0;
      var keyFirst := hasKey && (min1 == 0 || keyO < min1);
      var min2 := if keyFirst then keyO else min1;
      if hasMedia && (min2 == 0 || mediaO < min2) then Media
      else if keyFirst then Key
      else if !hasCtl then Nothing
      else if ctlSent >= CTL_FLUSH_BURST && (hasKey || hasMedia) then
        if hasKey && (!hasMedia || keyO <= mediaO) then Key else Media
      else Ctl
  }

  function HeadOrder(q: seq<Item>): nat
  {
    if q == [] then 0 else q[0].order
  }

  lemma PicksFromHeads(q: Queues, ctlSent: nat)
    ensures Choose(q, ctlSent)
         == Pick3(q.ctl != [], HeadOrder(q.ctl), q.keys != [], HeadOrder(q.keys), q.media != [], HeadOrder(q.media), ctlSent)
  {
  }

  class Server {
    const l: Limits
    const control: Control
    const ring: OutRing
    const keys: KeyRing
    const media: MediaRing
    var id: Identity
    var order: nat
    ghost var taken: seq<byte>
    ghost var frames: seq<Sent>

    ghost predicate Valid()
      reads this, control, control.q, control.q.slots, control.q.pool, ring, ring.ring
      reads keys, keys.slots, media, media.q, media.q.q, media.q.pool
    {
      && control.Valid() && ring.Valid() && keys.Valid() && media.Valid()
      && ring.ring != control.q.pool && media.q.pool != ring.ring && media.q.pool != control.q.pool
      && ring.ring.Length == l.ring && control.q.slots.Length == l.slots && control.q.pool.Length == l.ctlBytes
      && (forall i :: 0 <= i < |control.items| ==> control.items[i].order <= order)
    }

    ghost function Model(): State
      requires Valid()
      reads this, control, control.q, control.q.slots, control.q.pool, ring, ring.ring
      reads keys, keys.slots, media, media.q, media.q.q, media.q.pool
    {
      Whole(id, order, Queues(control.items, keys.items, media.items), Port(ring.Contents(), taken, frames))
    }

    constructor (l: Limits, keyDepth: nat, mediaDepth: nat, mediaBytes: nat, blank: Item)
      requires l.ring > 0 && keyDepth > 0 && mediaDepth > 0 && mediaBytes > 0
      ensures Valid() && Model() == BOOT && this.l == l
      ensures fresh(keys) && fresh(keys.slots) && fresh(media) && fresh(media.q) && fresh(media.q.q) && fresh(media.q.pool)
      ensures fresh(control) && fresh(control.q) && fresh(control.q.slots) && fresh(control.q.pool) && fresh(ring) && fresh(ring.ring)
    {
      this.l := l;
      control := new Control(l.slots, l.ctlBytes);
      ring := new OutRing(l.ring);
      id := Identity(false, 0, 0, 0);
      keys := new KeyRing(keyDepth, blank);
      media := new MediaRing(mediaDepth, mediaBytes);
      order, taken, frames := 0, [], [];
    }

    /** The ring scan of `session_teardown`. */
    method CutRing()
      requires Valid()
      modifies this`frames, ring
      ensures Valid() && ring.head == old(ring.head) && ring.len <= old(ring.len)
      ensures Model() == old(Model()).(port := Truncated(old(Model()).port))
    {
      hide CQ.Queue.Valid, Control.Valid, KeyRing.Valid, MediaRing.Valid;
      frames := frames[..Survivors(Images(frames), |taken|)];
      ring.Truncate();
    }

    /** `session_teardown`, up to its backend calls. */
    method TearDown()
      requires Valid()
      modifies this, control, control.q, control.q.slots, ring, keys, media, media.q
      ensures Valid() && Model() == Teardown(old(Model())) && control.FirstSlot()
      ensures ring.head == old(ring.head) && ring.len <= old(ring.len) && taken == old(taken)
    {
      hide CQ.Queue.Valid, Control.Valid, OutRing.Valid, OutRing.Contents, KeyRing.Valid, MediaRing.Valid, Truncated;
      CutRing();
      control.Clear();
      id := id.(active := false, session := 0);
      keys.Clear();
      media.Clear();
    }

    /** Encoding into the free part of the ring: all of the frame or nothing. */
    method Append(f: Sent) returns (ok: bool)
      requires Valid()
      modifies this`frames, ring, ring.ring
      ensures Valid() && ok == (|old(Model()).port.out| + |Octets(f)| <= l.ring)
      ensures Model() == if ok then old(Model()).(port := Committed(old(Model()).port, f)) else old(Model())
    {
      hide CQ.Queue.Valid, Control.Valid, KeyRing.Valid, MediaRing.Valid;
      ok := ring.Write(Wire(f.header, f.payload));
      if ok { frames := frames + [f]; }
    }

    /** `out_try_frame`. */
    method OutTryFrame(header: Header, payload: seq<byte>) returns (ok: bool)
      requires Valid()
      modifies this, control, control.q, control.q.slots, ring, ring.ring, keys, media, media.q
      ensures Valid() && Try(Model(), ok) == TryFrame(l, old(Model()), header, payload)
    {
      hide CQ.Queue.Valid, Control.Valid, KeyRing.Valid, MediaRing.Valid, Octets, Teardown;
      if id.txSeq == 0 || id.txSeq == U32_MAX {
        TearDown();
        return false;
      }
      if ring.ring.Length - ring.len < HEADER_SIZE + |payload| + 6 || |payload| > MAX_PAYLOAD { return false; }
      ok := Append(Sent(Complete(header, id.txSeq, |payload|), payload));
      if ok { Number(); }
    }

    method Number()
      requires Valid() && id.txSeq < U32_MAX
      modifies this`id
      ensures Valid() && Model() == old(Model()).(txSeq := old(Model()).txSeq + 1)
    {
      id := id.(txSeq := id.txSeq + 1);
    }

    method SendCtl() returns (ok: bool)
      requires Valid() && control.items != []
      modifies this, control, control.q, control.q.slots, control.q.pool, ring, ring.ring, keys, media, media.q
      ensures Valid() && Try(Model(), ok) == SendOne(l, old(Model()), Ctl)
    {
      hide CQ.Queue.Valid, Control.Valid, OutRing.Valid, OutRing.Contents, KeyRing.Valid, MediaRing.Valid, Teardown, Octets;
      ghost var s := Model();
      var it := control.Head();
      ok := OutTryFrame(it.header, it.payload);
      assert Try(Model(), ok) == TryFrame(l, s, it.header, it.payload);
      if ok { PopCtl(); }
    }

    method PopCtl()
      requires Valid() && control.items != []
      modifies control, control.q, control.q.slots, control.q.pool
      ensures Valid()
      ensures Model() == old(Model()).(q := old(Model()).q.(ctl := old(Model()).q.ctl[1..]))
    {
      control.Pop();
    }

    method SendKey() returns (ok: bool)
      requires Valid() && keys.items != []
      modifies this, control, control.q, control.q.slots, ring, ring.ring, keys, media, media.q
      ensures Valid() && Try(Model(), ok) == SendOne(l, old(Model()), Key)
    {
      hide CQ.Queue.Valid, Control.Valid, OutRing.Valid, OutRing.Contents, KeyRing.Valid, MediaRing.Valid, Teardown, Octets;
      ghost var s := Model();
      var it := keys.Head();
      ok := OutTryFrame(it.header.(sessionId := id.session), it.payload);
      assert Try(Model(), ok) == TryFrame(l, s, it.header.(sessionId := s.sessionId), it.payload);
      if ok { PopKey(); }
    }

    method PopKey()
      requires Valid() && keys.items != []
      modifies keys
      ensures Valid()
      ensures Model() == old(Model()).(q := old(Model()).q.(keys := old(Model()).q.keys[1..]))
    {
      keys.Pop();
    }

    method SendMedia() returns (ok: bool)
      requires Valid() && media.items != []
      modifies this, control, control.q, control.q.slots, ring, ring.ring, keys, media, media.q
      ensures Valid() && Try(Model(), ok) == SendOne(l, old(Model()), Media)
    {
      hide CQ.Queue.Valid, Control.Valid, OutRing.Valid, OutRing.Contents, KeyRing.Valid, MediaRing.Valid, Teardown, Octets;
      if !id.active { return false; }
      ghost var s := Model();
      var it := media.Head();
      ok := OutTryFrame(it.header.(sessionId := id.session), it.payload);
      assert Try(Model(), ok) == TryFrame(l, s, it.header.(sessionId := s.sessionId), it.payload);
      if ok { PopMedia(); }
    }

    method PopMedia()
      requires Valid() && media.items != []
      modifies media, media.q
      ensures Valid()
      ensures Model() == old(Model()).(q := old(Model()).q.(media := old(Model()).q.media[1..]))
    {
      media.Pop();
    }

    method SendHead(pick: Pick) returns (ok: bool)
      requires Valid() && pick != Nothing && Offers(Model().q, pick)
      modifies this, control, control.q, control.q.slots, control.q.pool, ring, ring.ring, keys, media, media.q
      ensures Valid() && Try(Model(), ok) == SendOne(l, old(Model()), pick)
    {
      match pick
      case Ctl => ok := SendCtl();
      case Key => ok := SendKey();
      case Media => ok := SendMedia();
    }

    /** Which head goes next. */
    method PickHead(ctlSent: nat) returns (pick: Pick)
      requires Valid()
      ensures pick == Choose(Model().q, ctlSent)
    {
      PicksFromHeads(Model().q, ctlSent);
      var noCtl := control.IsEmpty();
      var ctlO := 0;
      if !noCtl {
        var it := control.Head();
        ctlO := it.order;
      }
      var noMedia := media.IsEmpty();
      var keyO, mediaO := 0, 0;
      if keys.count > 0 {
        var it := keys.Head();
        keyO := it.order;
      }
      if !noMedia {
        var it := media.Head();
        mediaO := it.order;
      }
      pick := Pick3(!noCtl, ctlO, keys.count > 0, keyO, !noMedia, mediaO, ctlSent);
    }

    /** The scheduling loop of `rbp_server_flush_output`; each turn empties a slot or stops. */
    method FlushQueues()
      requires Valid()
      modifies this, control, control.q, control.q.slots, control.q.pool, ring, ring.ring, keys, media, media.q
      ensures Valid() && Model() == FlushLoop(l, old(Model()), 0)
    {
      hide CQ.Queue.Valid, Control.Valid, OutRing.Valid, OutRing.Contents, KeyRing.Valid, MediaRing.Valid, Choose;
      ghost var s, end := Model(), FlushLoop(l, Model(), 0);
      var ctlSent := 0;
      while true
        invariant ctlSent >= 0 && Valid() && Model() == s && FlushLoop(l, s, ctlSent) == end
        decreases Waiting(s.q)
      {
        var pick := PickHead(ctlSent);
        if pick == Nothing { return; }
        ghost var t := SendOne(l, s, pick);
        var ok := SendHead(pick);
        if !ok { return; }
        s := t.s;
        if pick == Ctl { ctlSent := ctlSent + 1; }
      }
    }

    /** `out_drain`, where call number `k` of the transport takes up to `accept[k]` octets. */
    method OutDrain(accept: seq<nat>) returns (n: nat)
      requires Valid()
      modifies this`taken, ring
      ensures Valid() && Model() == old(Model()).(port := Drain(old(Model()).port, n))
    {
      ghost var was := ring.Contents();
      var sent := ring.Drain(accept);
      n := |sent|;
      assert was[..n] == sent && was[n..] == ring.Contents();
      taken := taken + sent;
    }

    /** `rbp_server_flush_output`. */
    method FlushOutput(before: seq<nat>, after: seq<nat>) returns (n: nat, m: nat)
      requires Valid()
      modifies this, control, control.q, control.q.slots, control.q.pool, ring, ring.ring, keys, media, media.q
      ensures Valid() && Model() == Flush(l, old(Model()), n, m)
    {
      n := OutDrain(before);
      FlushQueues();
      m := OutDrain(after);
    }

    /** `key_push`: the next number, and a place in the ring. */
    method QueueKey(header: Header, payload: seq<byte>) returns (ok: bool)
      requires Valid()
      modifies this`order, keys, keys.slots
      ensures Valid() && ok == (id.active && |old(keys.items)| < keys.slots.Length)
      ensures Model() == if ok then Step(l, old(Model()), KeyState(header, payload)) else old(Model())
    {
      hide CQ.Queue.Valid, Control.Valid, OutRing.Valid, OutRing.Contents, MediaRing.Valid;
      if !id.active { return false; }
      ok := keys.Push(Item(header, payload, order + 1));
      if ok { order := order + 1; }
    }

    /** `media_enqueue` after its flush: the next number, and a place in both rings. */
    method QueueMedia(stream: u32, connection: u32, opcode: u16, payload: seq<byte>) returns (ok: bool)
      requires Valid() && |payload| <= MAX_PAYLOAD
      modifies this`order, media, media.q, media.q.q, media.q.pool
      ensures Valid() && ok == (id.active && !old(media.q.Lacks(|payload|)))
      ensures var m := MQ.Marker(stream, connection, old(order) + 1, opcode, |payload|);
              Model() == if ok then Step(l, old(Model()), MediaRecord(MarkerHeader(m), payload)) else old(Model())
    {
      hide CQ.Queue.Valid, Control.Valid, OutRing.Valid, OutRing.Contents, KeyRing.Valid, MediaRing.Valid, MQ.Queue.Valid;
      if !id.active { return false; }
      ok := media.Put(MQ.Marker(stream, connection, order + 1, opcode, |payload|), payload);
      if ok { order := order + 1; }
    }

    /** The accepting part of `ctl_enqueue`. */
    method PutItem(info: CQ.Info, payload: seq<byte>) returns (ok: bool)
      requires Valid()
      modifies this`order, control, control.q, control.q.slots, control.q.pool
      ensures Valid() && (old(control.FirstSlot()) ==> control.FirstSlot())
      ensures ok <==> |old(control.items)| < l.slots && |payload| <= MAX_PAYLOAD && CtlUsed(old(control.items)) + |payload| <= l.ctlBytes
      ensures Model() == if ok then Pushed(old(Model()), HeaderOf(info), payload) else old(Model())
    {
      hide CQ.Queue.Valid, Control.Valid, OutRing.Valid, OutRing.Contents, KeyRing.Valid, MediaRing.Valid;
      ok := control.Put(info.(session := id.session), payload, order + 1);
      if ok { order := order + 1; }
    }

    /** `ctl_enqueue`. */
    method CtlEnqueueItem(info: CQ.Info, payload: seq<byte>)
      requires Valid()
      modifies this, control, control.q, control.q.slots, control.q.pool, ring, keys, media, media.q
      ensures Valid() && Model() == CtlEnqueue(l, old(Model()), HeaderOf(info), payload)
      ensures old(control.FirstSlot()) ==> control.FirstSlot()
      ensures ring.head == old(ring.head) && ring.len <= old(ring.len) && taken == old(taken)
    {
      var ok := PutItem(info, payload);
      if !ok { TearDown(); }
    }

    /** Backend calls from inside a teardown report events. */
    method Report(calls: seq<Call>)
      requires Valid()
      modifies this, control, control.q, control.q.slots, control.q.pool, ring, keys, media, media.q
      ensures Valid() && Model() == Callbacks(l, old(Model()), Reported(calls))
      ensures old(control.FirstSlot()) ==> control.FirstSlot()
      ensures ring.head == old(ring.head) && ring.len <= old(ring.len) && taken == old(taken)
      decreases |calls|
    {
      if calls == [] { return; }
      ReportedRest(calls);
      CtlEnqueueItem(calls[0].info.(kind := KIND_EVENT), calls[0].payload);
      Report(calls[1..]);
    }

    method CreateSession()
      requires Valid()
      modifies this`id
      ensures Valid() && Model() == Created(old(Model()))
    {
      if id.counter == U32_MAX { return; }
      id := Identity(true, id.counter + 1, id.counter + 1, 1);
    }

    /** `session_create` and the reply to HELLO. */
    method HelloRequest(calls: seq<Call>, info: CQ.Info, payload: seq<byte>)
      requires Valid()
      modifies this, control, control.q, control.q.slots, control.q.pool, ring, keys, media, media.q
      ensures Valid() && Model() == OnHello(l, old(Model()), Reported(calls), HeaderOf(info), payload)
    {
      TearDown();
      Report(calls);
      CreateSession();
      CtlEnqueueItem(info.(kind := KIND_RESPONSE, opcode := OP_HELLO), payload);
    }

    /** The octets that a teardown cut off come back: it moved none of them. */
    method Restore(n: nat, ghost was: seq<byte>, ghost whole: seq<Sent>)
      requires Valid() && ring.len <= n <= ring.ring.Length && View(ring.ring, ring.head)[..n] == was
      modifies this`frames, ring`len
      ensures Valid() && ring.head == old(ring.head)
      ensures Model() == old(Model()).(port := Port(was, taken, whole))
    {
      ring.len := n;
      frames := whole;
    }

    /** The GOODBYE case: the committed octets survive, and slot 0 keeps the closing session. */
    method GoodbyeRequest(calls: seq<Call>, info: CQ.Info)
      requires Valid() && id.active
      modifies this, control, control.q, control.q.slots, control.q.pool, ring, keys, media, media.q
      ensures Valid() && Model() == OnGoodbye(l, old(Model()), Reported(calls), HeaderOf(info))
    {
      hide CQ.Queue.Valid, Control.Valid, KeyRing.Valid, MediaRing.Valid, Teardown, Callbacks, CtlEnqueue, Reported;
      var closing, committed := id.session, ring.len;
      ghost var was, whole := ring.Contents(), frames;
      TearDown();
      Report(calls);
      Restore(committed, was, whole);
      Farewell(closing, info.(kind := KIND_RESPONSE, opcode := OP_GOODBYE));
    }

    /** The reply to GOODBYE, and slot 0 relabelled. */
    method Farewell(closing: u32, info: CQ.Info)
      requires Valid() && control.FirstSlot()
      modifies this, control, control.q, control.q.slots, control.q.pool, ring, keys, media, media.q
      ensures Valid()
      ensures var t := CtlEnqueue(l, old(Model()), HeaderOf(info), []);
              Model() == if t.q.ctl == [] then t
                else t.(q := t.q.(ctl := [t.q.ctl[0].(header := t.q.ctl[0].header.(sessionId := closing))] + t.q.ctl[1..]))
    {
      hide CQ.Queue.Valid, Control.Valid, KeyRing.Valid, MediaRing.Valid, CtlEnqueue;
      CtlEnqueueItem(info, []);
      var empty := control.IsEmpty();
      if !empty { Relabel(closing); }
    }

    method Relabel(closing: u32)
      requires Valid() && control.items != [] && control.FirstSlot()
      modifies control`items, control.q.slots
      ensures Valid()
      ensures var q := old(Model()).q;
              Model() == old(Model()).(q := q.(ctl := [q.ctl[0].(header := q.ctl[0].header.(sessionId := closing))] + q.ctl[1..]))
    {
      control.Relabel(closing);
    }
  }
}
