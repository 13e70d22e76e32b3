/** Server keys, queues, wire and client together: what the host believes when all is drained. */
module KeysProof {
  import opened Bytes
  import opened Options
  import opened Crc32c
  import opened KeyServer
  import LK = LogicalKeys

  /** A KEYS_STATE event or a KEYS_SNAPSHOT response on its way to the client. */
  datatype Item = Item(state: KeyState, reply: bool)

  /** `seen` is the client's own sequence gate (`_have_keys`, `keys_seq`); `inbox` holds
      responses that have arrived and are not yet looked at. */
  datatype Client = Client(seen: Option<nat>, keys: LK.Host, inbox: seq<KeyState>, broken: bool, log: seq<LK.Event>)

  datatype Sys = Sys(board: Board, replies: seq<Queued>, wire: seq<Item>, client: Client)

  datatype Ev =
    | Input(rep: Report)
    | Enable(on: bool)
    | Ask
    | SendKey
    | SendReply
    | Deliver
    | TakeReply

  // ----- steps -----

  function FeedKeys(c: Client, k: KeyState): Client
  {
    if !LK.Proper(c.keys) || LK.Fed(c.keys, k).Raised? then c.(broken := true)
    else c.(keys := LK.Fed(c.keys, k).host, log := c.log + LK.Fed(c.keys, k).events)
  }

  /** The KEYS_STATE branch of `_handle_event`. */
  function OnEvent(c: Client, k: KeyState): Client
  {
    if !Sane(k) || k.pressed >= Pow2(|c.keys.catalog|) then c.(broken := true)
    else if c.seen.Some? && k.inputSeq < c.seen.value then c.(broken := true)
    else if c.seen.Some? && k.kind != RESET && k.inputSeq <= c.seen.value then c
    else FeedKeys(c.(seen := Some(k.inputSeq)), k)
  }

  /** `keys_snapshot` and the `feed` of its result. */
  function OnReply(c: Client, k: KeyState): Client
  {
    FeedKeys(if c.seen.None? || k.inputSeq >= c.seen.value then c.(seen := Some(k.inputSeq)) else c, k)
  }

  /** Control goes out ahead of keys only when its head is older. */
  predicate ReplyMayGo(s: Sys)
  {
    s.replies != [] && (s.board.queue == [] || s.replies[0].order < s.board.queue[0].order)
  }

  function Step(s: Sys, e: Ev): Sys
  {
    match e
    case Input(rep) => s.(board := OnReport(s.board, rep))
    case Enable(on) => s.(board := Enabled(s.board, on))
    case Ask =>
      s.(board := s.board.(order := s.board.order + 1), replies := s.replies + [Queued(Snapshot(s.board), s.board.order)])
    case SendKey =>
      if s.board.queue == [] then s
      else s.(board := s.board.(queue := s.board.queue[1..]), wire := s.wire + [Item(s.board.queue[0].state, false)])
    case SendReply =>
      if !ReplyMayGo(s) then s
      else s.(replies := s.replies[1..], wire := s.wire + [Item(s.replies[0].state, true)])
    case Deliver =>
      if s.wire == [] then s
      else if s.wire[0].reply then s.(wire := s.wire[1..], client := s.client.(inbox := s.client.inbox + [s.wire[0].state]))
      else s.(wire := s.wire[1..], client := OnEvent(s.client, s.wire[0].state))
    case TakeReply =>
      if s.client.inbox == [] then s
      else s.(client := OnReply(s.client.(inbox := s.client.inbox[1..]), s.client.inbox[0]))
  }

  function Run(s: Sys, es: seq<Ev>): Sys
    decreases |es|
  {
    if es == [] then s else Run(Step(s, es[0]), es[1..])
  }

  // ----- the invariant -----

  function Events(wire: seq<Item>): seq<KeyState>
  {
    if wire == [] then []
    else (if wire[0].reply then [] else [wire[0].state]) + Events(wire[1..])
  }

  function States(q: seq<Queued>): seq<KeyState>
  {
    if q == [] then [] else [q[0].state] + States(q[1..])
  }

  function Pipeline(s: Sys): seq<KeyState>
  {
    Events(s.wire) + States(s.board.queue)
  }

  /** The bitmap that each sequence number stands for, the newest number and the bound on
      bitmaps. */
  datatype Past = Past(bits: map<nat, nat>, newest: nat, bound: nat)

  predicate Fits(h: Past, k: KeyState)
  {
    Sane(k) && k.pressed < h.bound && k.inputSeq <= h.newest && k.inputSeq in h.bits
  }

  predicate Told(h: Past, k: KeyState)
  {
    Fits(h, k) && h.bits[k.inputSeq] == k.pressed
  }

  predicate AllTold(h: Past, ks: seq<KeyState>)
  {
    forall i :: 0 <= i < |ks| ==> Told(h, ks[i])
  }

  /** The client will not look at `k` when it has seen `seen`. */
  predicate Shadowed(seen: Option<nat>, k: KeyState)
  {
    k.kind != RESET && seen == Some(k.inputSeq)
  }

  predicate NotAfter(seen: Option<nat>, k: KeyState)
  {
    seen.Some? ==> seen.value <= k.inputSeq
  }

  /** Events in the order the client meets them: sequence numbers never fall, and each event
      tells the bitmap of its number or comes second with that number. */
  predicate Pipe(h: Past, seen: Option<nat>, p: seq<KeyState>)
    decreases |p|
  {
    p == []
    || (&& Fits(h, p[0]) && NotAfter(seen, p[0])
        && (Told(h, p[0]) || Shadowed(seen, p[0]))
        && Pipe(h, Some(p[0].inputSeq), p[1..]))
  }

  function LastSeen(seen: Option<nat>, p: seq<KeyState>): Option<nat>
  {
    if p == [] then seen else Some(p[|p| - 1].inputSeq)
  }

  predicate Before(k: KeyState, p: seq<KeyState>)
  {
    p == [] || k.inputSeq <= p[0].inputSeq
  }

  predicate RepliesOk(h: Past, wire: seq<Item>, q: seq<KeyState>)
  {
    wire == []
    || (&& (wire[0].reply ==> Told(h, wire[0].state) && Before(wire[0].state, Events(wire[1..]) + q))
        && RepliesOk(h, wire[1..], q))
  }

  predicate AllBefore(ks: seq<KeyState>, p: seq<KeyState>)
  {
    forall i :: 0 <= i < |ks| ==> Before(ks[i], p)
  }

  predicate OrderOk(b: Board, replies: seq<Queued>)
  {
    && (forall i :: 0 <= i < |b.queue| ==> b.queue[i].order < b.order)
    && (forall i, j :: 0 <= i < j < |b.queue| ==> b.queue[i].order < b.queue[j].order)
    && (forall i, j :: 0 <= i < |replies| && 0 <= j < |b.queue| && replies[i].order < b.queue[j].order ==>
          replies[i].state.inputSeq <= b.queue[j].state.inputSeq)
  }

  predicate ClientOk(h: Past, c: Client)
  {
    && !c.broken && LK.Proper(c.keys) && c.keys.source.Some? && Pow2(|c.keys.catalog|) == h.bound
    && c.seen == c.keys.inputSeq
    && (c.seen.Some? ==> c.seen.value <= h.newest && c.seen.value in h.bits && c.keys.bits == h.bits[c.seen.value])
    && LK.Replay({}, c.log) == LK.Held(c.keys) && LK.Coherent({}, c.log)
  }

  predicate Core(s: Sys, h: Past)
  {
    && h.newest == s.board.inputSeq && h.newest in h.bits
    && |s.board.queue| <= DEPTH
    && Pipe(h, s.client.seen, Pipeline(s))
    && RepliesOk(h, s.wire, States(s.board.queue))
    && AllTold(h, States(s.replies))
    && AllTold(h, s.client.inbox) && AllBefore(s.client.inbox, Pipeline(s))
    && OrderOk(s.board, s.replies)
    && ClientOk(h, s.client)
  }

  /** The last thing the client will have seen is the newest number. */
  predicate Fresh(s: Sys)
  {
    s.board.enabled ==> LastSeen(s.client.seen, Pipeline(s)) == Some(s.board.inputSeq)
  }

  predicate Inv(s: Sys, h: Past)
  {
    Core(s, h) && Fresh(s) && s.board.pressed < h.bound && h.bits[h.newest] == s.board.pressed
  }

  // ----- list facts -----

  lemma {:induction false} PipeExtends(h: Past, h': Past, seen: Option<nat>, p: seq<KeyState>)
    requires Pipe(h, seen, p) && Later(h, h')
    ensures Pipe(h', seen, p)
    decreases |p|
  {
    if p != [] {
      PipeExtends(h, h', Some(p[0].inputSeq), p[1..]);
    }
  }

  /** `h'` says the same as `h` about every number up to the newest of `h`. */
  predicate Later(h: Past, h': Past)
  {
    h.newest <= h'.newest && h.bound == h'.bound
    && (forall n :: n in h.bits && n <= h.newest ==> n in h'.bits && h'.bits[n] == h.bits[n])
  }

  lemma {:induction false} PipePush(h: Past, seen: Option<nat>, p: seq<KeyState>, k: KeyState)
    requires Pipe(h, seen, p) && Fits(h, k) && k.inputSeq == h.newest
    requires seen.Some? ==> seen.value <= h.newest
    requires Told(h, k) || Shadowed(LastSeen(seen, p), k)
    ensures Pipe(h, seen, p + [k])
    decreases |p|
  {
    if p == [] {
      assert p + [k] == [k];
    } else {
      assert (p + [k])[1..] == p[1..] + [k];
      PipePush(h, Some(p[0].inputSeq), p[1..], k);
    }
  }

  lemma {:induction false} PipePrefix(h: Past, seen: Option<nat>, p: seq<KeyState>, q: seq<KeyState>)
    requires Pipe(h, seen, p + q)
    ensures Pipe(h, seen, p)
    decreases |p|
  {
    if p != [] {
      assert (p + q)[1..] == p[1..] + q;
      PipePrefix(h, Some(p[0].inputSeq), p[1..], q);
    }
  }

  /** Seeing something newer that is still not newer than the next event changes nothing. */
  lemma PipeSeen(h: Past, seen: Option<nat>, k: KeyState, p: seq<KeyState>)
    requires Pipe(h, seen, p) && Before(k, p) && NotAfter(seen, k)
    ensures Pipe(h, Some(k.inputSeq), p)
  {
  }

  lemma {:induction false} RepliesExtend(h: Past, h': Past, wire: seq<Item>, q: seq<KeyState>)
    requires RepliesOk(h, wire, q) && Later(h, h')
    ensures RepliesOk(h', wire, q)
  {
    if wire != [] {
      RepliesExtend(h, h', wire[1..], q);
    }
  }

  lemma {:induction false} RepliesPush(h: Past, wire: seq<Item>, q: seq<KeyState>, k: KeyState)
    requires RepliesOk(h, wire, q) && k.inputSeq == h.newest
    ensures RepliesOk(h, wire, q + [k])
  {
    if wire != [] {
      assert Events(wire[1..]) + (q + [k]) == (Events(wire[1..]) + q) + [k];
      RepliesPush(h, wire[1..], q, k);
    }
  }

  lemma {:induction false} RepliesClear(h: Past, wire: seq<Item>, q: seq<KeyState>)
    requires RepliesOk(h, wire, q)
    ensures RepliesOk(h, wire, [])
  {
    if wire != [] {
      BeforePrefix(wire[0].state, Events(wire[1..]), q);
      RepliesClear(h, wire[1..], q);
    }
  }

  lemma BeforePrefix(k: KeyState, p: seq<KeyState>, q: seq<KeyState>)
    ensures Before(k, p + q) ==> Before(k, p + [])
  {
    assert p != [] ==> (p + q)[0] == p[0] == (p + [])[0];
  }

  lemma {:induction false} EventsConcat(a: seq<Item>, b: seq<Item>)
    ensures Events(a + b) == Events(a) + Events(b)
  {
    if a == [] {
      assert a + b == b;
    } else {
      assert (a + b)[1..] == a[1..] + b;
      EventsConcat(a[1..], b);
    }
  }

  lemma EventsOne(x: Item)
    ensures Events([x]) == if x.reply then [] else [x.state]
  {
    assert [x][1..] == [];
  }

  lemma {:induction false} StatesConcat(a: seq<Queued>, b: seq<Queued>)
    ensures States(a + b) == States(a) + States(b)
  {
    if a == [] {
      assert a + b == b;
    } else {
      assert (a + b)[1..] == a[1..] + b;
      StatesConcat(a[1..], b);
    }
  }

  lemma StatesOne(x: Queued)
    ensures States([x]) == [x.state]
  {
    assert [x][1..] == [];
  }

  lemma {:induction false} StatesAt(q: seq<Queued>)
    ensures |States(q)| == |q|
    ensures forall i :: 0 <= i < |q| ==> States(q)[i] == q[i].state
  {
    if q != [] {
      StatesAt(q[1..]);
    }
  }

  /** The wire grows by the head of the queue. */
  lemma {:induction false} RepliesShift(h: Past, wire: seq<Item>, k: KeyState, q: seq<KeyState>)
    requires RepliesOk(h, wire, [k] + q)
    ensures RepliesOk(h, wire + [Item(k, false)], q)
  {
    var x := Item(k, false);
    if wire == [] {
      assert wire + [x] == [x];
      assert [x][1..] == [];
    } else {
      assert (wire + [x])[1..] == wire[1..] + [x];
      EventsConcat(wire[1..], [x]);
      EventsOne(x);
      assert Events(wire[1..] + [x]) + q == Events(wire[1..]) + ([k] + q);
      RepliesShift(h, wire[1..], k, q);
    }
  }

  lemma {:induction false} RepliesAppend(h: Past, wire: seq<Item>, k: KeyState, q: seq<KeyState>)
    requires RepliesOk(h, wire, q) && Told(h, k) && Before(k, q)
    ensures RepliesOk(h, wire + [Item(k, true)], q)
  {
    var x := Item(k, true);
    if wire == [] {
      assert wire + [x] == [x];
      assert [x][1..] == [];
      assert Events([]) + q == q;
    } else {
      assert (wire + [x])[1..] == wire[1..] + [x];
      EventsConcat(wire[1..], [x]);
      EventsOne(x);
      assert Events(wire[1..] + [x]) == Events(wire[1..]);
      RepliesAppend(h, wire[1..], k, q);
    }
  }

  // ----- what the server does to the invariant -----

  function Extended(h: Past, bits: nat): Past
  {
    Past(h.bits[h.newest + 1 := bits], h.newest + 1, h.bound)
  }

  lemma CoreBump(s: Sys, h: Past, b: Board, bits: nat)
    requires Core(s, h) && s.board.inputSeq < U32_MAX
    requires b == Bumped(s.board).(pressed := b.pressed, captured := b.captured)
    ensures Core(s.(board := b), Extended(h, bits))
  {
    var h' := Extended(h, bits);
    PipeExtends(h, h', s.client.seen, Pipeline(s));
    RepliesExtend(h, h', s.wire, States(s.board.queue));
  }

  lemma CorePush(s: Sys, h: Past, k: KeyState)
    requires Core(s, h) && !Full(s.board)
    requires Fits(h, k) && k.inputSeq == h.newest
    requires Told(h, k) || Shadowed(LastSeen(s.client.seen, Pipeline(s)), k)
    ensures var s' := s.(board := Pushed(s.board, k.kind, k.reason, k.pressed, k.captured));
      Core(s', h) && LastSeen(s'.client.seen, Pipeline(s')) == Some(s'.board.inputSeq)
  {
    var x := Queued(k, s.board.order);
    var q := s.board.queue;
    StatesConcat(q, [x]);
    StatesOne(x);
    var s' := s.(board := Pushed(s.board, k.kind, k.reason, k.pressed, k.captured));
    assert Pipeline(s') == Pipeline(s) + [k];
    PipePush(h, s.client.seen, Pipeline(s), k);
    RepliesPush(h, s.wire, States(q), k);
    PushBefore(h, s.client.inbox, Pipeline(s), k);
    PushOrder(s.board, s.replies, h, x);
  }

  lemma PushBefore(h: Past, ks: seq<KeyState>, p: seq<KeyState>, k: KeyState)
    requires AllTold(h, ks) && AllBefore(ks, p) && k.inputSeq == h.newest
    ensures AllBefore(ks, p + [k])
  {
  }

  lemma PushOrder(b: Board, replies: seq<Queued>, h: Past, x: Queued)
    requires OrderOk(b, replies) && AllTold(h, States(replies))
    requires x.order == b.order && x.state.inputSeq == h.newest
    ensures OrderOk(b.(queue := b.queue + [x], order := b.order + 1), replies)
  {
    StatesAt(replies);
    forall i | 0 <= i < |replies|
      ensures replies[i].state.inputSeq <= h.newest
    {
      assert Told(h, States(replies)[i]);
    }
  }

  lemma CoreClear(s: Sys, h: Past)
    requires Core(s, h)
    ensures Core(s.(board := s.board.(queue := [])), h)
  {
    var q := States(s.board.queue);
    PipePrefix(h, s.client.seen, Events(s.wire), q);
    RepliesClear(h, s.wire, q);
    var s' := s.(board := s.board.(queue := []));
    assert Pipeline(s') == Events(s.wire);
    forall i | 0 <= i < |s.client.inbox|
      ensures Before(s.client.inbox[i], Pipeline(s'))
    {
      BeforePrefix(s.client.inbox[i], Events(s.wire), q);
    }
  }

  /** The past after `Recovered`: one number for the reset, one for the bitmap. */
  function RecoveredPast(h: Past, pressed: nat): Past
  {
    Extended(Extended(h, 0), pressed)
  }

  lemma CoreRecover(s: Sys, h: Past, captured: u64)
    requires Core(s, h) && s.board.inputSeq <= U32_MAX - 2 && s.board.pressed < h.bound
    ensures var s' := s.(board := Recovered(s.board, captured));
      Core(s', RecoveredPast(h, s.board.pressed)) && LastSeen(s'.client.seen, Pipeline(s')) == Some(s'.board.inputSeq)
  {
    CoreClear(s, h);
    var s1 := s.(board := s.board.(queue := []));
    var s2 := s1.(board := Bumped(s1.board));
    var h1 := Extended(h, 0);
    CoreBump(s1, h, s2.board, 0);
    CorePush(s2, h1, KeyState(s2.board.inputSeq, captured, 0, RESET, REASON_OVERFLOW));
    var s3 := s2.(board := Pushed(s2.board, RESET, REASON_OVERFLOW, 0, captured));
    var s4 := s3.(board := Bumped(s3.board));
    var h2 := Extended(h1, s.board.pressed);
    CoreBump(s3, h1, s4.board, s.board.pressed);
    CorePush(s4, h2, KeyState(s4.board.inputSeq, captured, s4.board.pressed, SNAPSHOT, REASON_NONE));
  }

  function EmitPast(h: Past, b: Board): Past
  {
    if b.enabled && Full(b) then RecoveredPast(h, b.pressed) else h
  }

  lemma CoreEmit(s: Sys, h: Past, kind: byte, reason: byte, bits: u64, captured: u64)
    requires Core(s, h) && s.board.pressed < h.bound
    requires s.board.enabled && Full(s.board) ==> s.board.inputSeq <= U32_MAX - 2
    requires var k := KeyState(s.board.inputSeq, captured, bits, kind, reason);
      Fits(h, k) && (Told(h, k) || Shadowed(LastSeen(s.client.seen, Pipeline(s)), k) || !s.board.enabled || Full(s.board))
    ensures var s' := s.(board := Emit(s.board, kind, reason, bits, captured));
      Core(s', EmitPast(h, s.board)) && Fresh(s')
  {
    if s.board.enabled {
      if Full(s.board) {
        CoreRecover(s, h, captured);
      } else {
        CorePush(s, h, KeyState(s.board.inputSeq, captured, bits, kind, reason));
      }
    }
  }

  // ----- reports -----

  /** A report the host can decode. */
  predicate Decodable(h: Past, rep: Report)
  {
    rep.pressed < h.bound && rep.reason <= 3
  }

  const HEADROOM := 4

  /** What the report makes the newest number stand for. */
  function ReportPast(h: Past, b: Board, rep: Report): Past
  {
    if rep.kind == PHYSICAL then
      EmitPast(Extended(h, rep.pressed), b.(pressed := rep.pressed))
    else if rep.kind == RESET then
      var b1 := Emit(Bumped(b.(captured := rep.captured)), RESET, rep.reason, 0, rep.captured);
      var h1 := EmitPast(Extended(h, 0), b);
      if rep.pressed != 0 then EmitPast(Extended(h1, rep.pressed), b1.(pressed := rep.pressed)) else h1
    else if rep.kind == SNAPSHOT then EmitPast(h, b.(pressed := rep.pressed))
    else h
  }

  lemma PhysicalCore(s: Sys, h: Past, rep: Report)
    requires Inv(s, h) && Decodable(h, rep) && s.board.inputSeq <= U32_MAX - HEADROOM && rep.kind == PHYSICAL
    ensures var s' := Step(s, Input(rep));
      Core(s', ReportPast(h, s.board, rep)) && Fresh(s')
  {
    var s1 := s.(board := Bumped(s.board.(pressed := rep.pressed, captured := rep.captured)));
    CoreBump(s, h, s1.board, rep.pressed);
    CoreEmit(s1, Extended(h, rep.pressed), PHYSICAL, rep.reason, rep.pressed, rep.captured);
  }

  /** Recovery costs two numbers and leaves room. */
  lemma EmitRoom(b: Board, kind: byte, reason: byte, bits: u64, captured: u64)
    requires b.inputSeq <= U32_MAX - 2
    ensures var b' := Emit(b, kind, reason, bits, captured);
      && b'.enabled == b.enabled && b'.pressed == b.pressed
      && if b.enabled && Full(b) then b'.inputSeq == b.inputSeq + 2 && !Full(b') else b'.inputSeq == b.inputSeq
  {
  }

  lemma ResetFirst(s: Sys, h: Past, reason: byte, captured: u64)
    requires Inv(s, h) && reason <= 3 && s.board.inputSeq <= U32_MAX - HEADROOM
    ensures var b := Bumped(s.board.(captured := captured));
      var s' := s.(board := Emit(b, RESET, reason, 0, captured));
      Core(s', EmitPast(Extended(h, 0), s.board)) && Fresh(s')
  {
    var s1 := s.(board := Bumped(s.board.(captured := captured)));
    CoreBump(s, h, s1.board, 0);
    CoreEmit(s1, Extended(h, 0), RESET, reason, 0, captured);
  }

  lemma ResetCore(s: Sys, h: Past, rep: Report)
    requires Inv(s, h) && Decodable(h, rep) && s.board.inputSeq <= U32_MAX - HEADROOM && rep.kind == RESET
    ensures var s' := Step(s, Input(rep));
      Core(s', ReportPast(h, s.board, rep)) && Fresh(s')
  {
    var b := Bumped(s.board.(captured := rep.captured));
    ResetFirst(s, h, rep.reason, rep.captured);
    EmitRoom(b, RESET, rep.reason, 0, rep.captured);
    if rep.pressed != 0 {
      ThenSnapshot(s.(board := Emit(b, RESET, rep.reason, 0, rep.captured)), EmitPast(Extended(h, 0), s.board), rep);
    }
  }

  /** The second half of a RESET report that still holds keys. */
  lemma ThenSnapshot(s: Sys, h: Past, rep: Report)
    requires Core(s, h) && Decodable(h, rep) && s.board.inputSeq < U32_MAX
    requires s.board.enabled && Full(s.board) ==> s.board.inputSeq <= U32_MAX - 3
    ensures var b := s.board.(pressed := rep.pressed);
      var s' := s.(board := Emit(Bumped(b), SNAPSHOT, REASON_NONE, rep.pressed, rep.captured));
      Core(s', EmitPast(Extended(h, rep.pressed), b)) && Fresh(s')
  {
    var s1 := s.(board := Bumped(s.board.(pressed := rep.pressed)));
    CoreBump(s, h, s1.board, rep.pressed);
    CoreEmit(s1, Extended(h, rep.pressed), SNAPSHOT, REASON_NONE, rep.pressed, rep.captured);
  }

  lemma SnapshotCore(s: Sys, h: Past, rep: Report)
    requires Inv(s, h) && Decodable(h, rep) && s.board.inputSeq <= U32_MAX - HEADROOM && rep.kind == SNAPSHOT
    ensures var s' := Step(s, Input(rep));
      Core(s', ReportPast(h, s.board, rep)) && Fresh(s')
  {
    var s1 := s.(board := s.board.(pressed := rep.pressed, captured := rep.captured));
    assert Core(s1, h);
    CoreEmit(s1, h, SNAPSHOT, REASON_NONE, rep.pressed, rep.captured);
  }

  lemma ReportCore(s: Sys, h: Past, rep: Report)
    requires Inv(s, h) && Decodable(h, rep) && s.board.inputSeq <= U32_MAX - HEADROOM
    ensures var s' := Step(s, Input(rep));
      Core(s', ReportPast(h, s.board, rep)) && Fresh(s')
  {
    if rep.kind == PHYSICAL {
      PhysicalCore(s, h, rep);
    } else if rep.kind == RESET {
      ResetCore(s, h, rep);
    } else if rep.kind == SNAPSHOT {
      SnapshotCore(s, h, rep);
    }
  }

  /** When the bitmap told with the newest number is the bitmap the server keeps. */
  predicate Faithful(b: Board, rep: Report)
  {
    && (rep.kind == RESET ==> !(b.enabled && Full(b) && rep.pressed == 0 && b.pressed != 0))
    && (rep.kind == SNAPSHOT ==> rep.pressed == b.pressed || (b.enabled && Full(b)))
  }

  lemma EmitPastNewest(h: Past, b: Board)
    requires h.newest in h.bits
    ensures var h' := EmitPast(h, b);
      && h'.newest in h'.bits && h'.bound == h.bound
      && h'.bits[h'.newest] == if b.enabled && Full(b) then b.pressed else h.bits[h.newest]
  {
  }

  lemma FaithfulExactly(h: Past, b: Board, rep: Report)
    requires h.newest in h.bits && h.bits[h.newest] == b.pressed && b.inputSeq <= U32_MAX - HEADROOM
    ensures var h' := ReportPast(h, b, rep);
      && h'.newest in h'.bits && h'.bound == h.bound
      && (h'.bits[h'.newest] == OnReport(b, rep).pressed <==> Faithful(b, rep))
  {
    if rep.kind == PHYSICAL {
      EmitPastNewest(Extended(h, rep.pressed), b.(pressed := rep.pressed));
    } else if rep.kind == RESET {
      EmitPastNewest(Extended(h, 0), b);
      EmitRoom(Bumped(b.(captured := rep.captured)), RESET, rep.reason, 0, rep.captured);
      var b1 := Emit(Bumped(b.(captured := rep.captured)), RESET, rep.reason, 0, rep.captured);
      EmitPastNewest(Extended(EmitPast(Extended(h, 0), b), rep.pressed), b1.(pressed := rep.pressed));
    } else if rep.kind == SNAPSHOT {
      EmitPastNewest(h, b.(pressed := rep.pressed));
    }
  }

  // ----- the other steps -----

  lemma EnableInv(s: Sys, h: Past, on: bool)
    requires Inv(s, h) && s.board.inputSeq <= U32_MAX - HEADROOM
    ensures exists h' :: Inv(Step(s, Enable(on)), h') && h'.bound == h.bound
  {
    if on {
      var s1 := s.(board := s.board.(enabled := true));
      assert Core(s1, h);
      CoreEmit(s1, h, SNAPSHOT, REASON_NONE, s.board.pressed, s.board.captured);
      assert Inv(Step(s, Enable(on)), EmitPast(h, s1.board));
    } else {
      CoreClear(s, h);
      assert Inv(Step(s, Enable(on)), h);
    }
  }

  lemma AskInv(s: Sys, h: Past)
    requires Inv(s, h)
    ensures Inv(Step(s, Ask), h)
  {
    var x := Queued(Snapshot(s.board), s.board.order);
    StatesConcat(s.replies, [x]);
    StatesOne(x);
  }

  lemma OrderTail(b: Board, replies: seq<Queued>)
    requires OrderOk(b, replies)
    ensures b.queue != [] ==> OrderOk(b.(queue := b.queue[1..]), replies)
    ensures replies != [] ==> OrderOk(b, replies[1..])
  {
  }

  lemma SendKeyPipeline(s: Sys)
    ensures Pipeline(Step(s, SendKey)) == Pipeline(s)
  {
    if s.board.queue != [] {
      var x := Item(s.board.queue[0].state, false);
      EventsConcat(s.wire, [x]);
      EventsOne(x);
    }
  }

  lemma SendKeyCore(s: Sys, h: Past)
    requires Core(s, h)
    ensures Core(Step(s, SendKey), h) && Pipeline(Step(s, SendKey)) == Pipeline(s)
  {
    SendKeyPipeline(s);
    if s.board.queue != [] {
      OrderTail(s.board, s.replies);
      RepliesShift(h, s.wire, s.board.queue[0].state, States(s.board.queue[1..]));
    }
  }

  lemma SendReplyPipeline(s: Sys)
    ensures Pipeline(Step(s, SendReply)) == Pipeline(s)
  {
    if ReplyMayGo(s) {
      var x := Item(s.replies[0].state, true);
      EventsConcat(s.wire, [x]);
      EventsOne(x);
    }
  }

  /** The head of the responses may go ahead of everything that is queued. */
  lemma ReplyBefore(b: Board, replies: seq<Queued>)
    requires OrderOk(b, replies) && replies != [] && (b.queue == [] || replies[0].order < b.queue[0].order)
    ensures Before(replies[0].state, States(b.queue))
  {
  }

  lemma ToldTail(h: Past, q: seq<Queued>)
    requires q != [] && AllTold(h, States(q))
    ensures Told(h, q[0].state) && AllTold(h, States(q[1..]))
  {
    var all := States(q);
    assert all[0] == q[0].state;
    assert all[1..] == States(q[1..]);
  }

  lemma SendReplyCore(s: Sys, h: Past)
    requires Core(s, h)
    ensures Core(Step(s, SendReply), h) && Pipeline(Step(s, SendReply)) == Pipeline(s)
  {
    SendReplyPipeline(s);
    if ReplyMayGo(s) {
      OrderTail(s.board, s.replies);
      ToldTail(h, s.replies);
      ReplyBefore(s.board, s.replies);
      RepliesAppend(h, s.wire, s.replies[0].state, States(s.board.queue));
    }
  }

  lemma EventClient(h: Past, c: Client, k: KeyState)
    requires ClientOk(h, c) && Fits(h, k) && NotAfter(c.seen, k) && (Told(h, k) || Shadowed(c.seen, k))
    ensures ClientOk(h, OnEvent(c, k)) && OnEvent(c, k).seen == Some(k.inputSeq)
    ensures OnEvent(c, k).inbox == c.inbox
  {
    if !(c.seen.Some? && k.kind != RESET && k.inputSeq <= c.seen.value) {
      LK.FeedReplays(c.keys, k);
      LK.ReplayConcat({}, c.log, LK.Fed(c.keys, k).events);
    }
  }

  lemma ReplyClient(h: Past, c: Client, k: KeyState)
    requires ClientOk(h, c) && Told(h, k)
    ensures ClientOk(h, OnReply(c, k))
    ensures OnReply(c, k).seen == if NotAfter(c.seen, k) then Some(k.inputSeq) else c.seen
    ensures OnReply(c, k).inbox == c.inbox
  {
    LK.FeedReplays(c.keys, k);
    LK.ReplayConcat({}, c.log, LK.Fed(c.keys, k).events);
  }

  lemma DeliverCore(s: Sys, h: Past)
    requires Core(s, h)
    ensures Core(Step(s, Deliver), h)
    ensures LastSeen(Step(s, Deliver).client.seen, Pipeline(Step(s, Deliver))) == LastSeen(s.client.seen, Pipeline(s))
  {
    if s.wire != [] {
      if s.wire[0].reply {
        assert Pipeline(s) == Pipeline(s.(wire := s.wire[1..]));
      } else {
        DeliverEvent(s, h);
      }
    }
  }

  lemma DeliverEvent(s: Sys, h: Past)
    requires Core(s, h) && s.wire != [] && !s.wire[0].reply
    ensures var s' := s.(wire := s.wire[1..], client := OnEvent(s.client, s.wire[0].state));
      && Core(s', h)
      && LastSeen(s'.client.seen, Pipeline(s')) == LastSeen(s.client.seen, Pipeline(s))
  {
    var k := s.wire[0].state;
    var rest := Events(s.wire[1..]) + States(s.board.queue);
    assert Pipeline(s) == [k] + rest;
    EventClient(h, s.client, k);
    assert Pipeline(s)[1..] == rest;
    StillBefore(h, s.client.inbox, s.client.seen, k, rest);
  }

  lemma StillBefore(h: Past, ks: seq<KeyState>, seen: Option<nat>, k: KeyState, rest: seq<KeyState>)
    requires AllBefore(ks, [k] + rest) && Pipe(h, seen, [k] + rest)
    ensures AllBefore(ks, rest)
  {
    assert ([k] + rest)[1..] == rest;
  }

  lemma InboxTail(h: Past, ks: seq<KeyState>, p: seq<KeyState>)
    requires ks != [] && AllTold(h, ks) && AllBefore(ks, p)
    ensures Told(h, ks[0]) && Before(ks[0], p) && AllTold(h, ks[1..]) && AllBefore(ks[1..], p)
  {
  }

  /** Only the client changed. */
  lemma ClientSwap(s: Sys, h: Past, c: Client)
    requires Core(s, h) && ClientOk(h, c)
    requires Pipe(h, c.seen, Pipeline(s)) && AllTold(h, c.inbox) && AllBefore(c.inbox, Pipeline(s))
    ensures Core(s.(client := c), h) && Pipeline(s.(client := c)) == Pipeline(s)
  {
  }

  lemma TakeReplyCore(s: Sys, h: Past)
    requires Core(s, h)
    ensures Core(Step(s, TakeReply), h)
    ensures Fresh(s) ==> Fresh(Step(s, TakeReply))
  {
    if s.client.inbox != [] {
      var k := s.client.inbox[0];
      InboxTail(h, s.client.inbox, Pipeline(s));
      var c := s.client.(inbox := s.client.inbox[1..]);
      ReplyClient(h, c, k);
      if NotAfter(s.client.seen, k) {
        PipeSeen(h, s.client.seen, k, Pipeline(s));
      }
      ClientSwap(s, h, OnReply(c, k));
    }
  }

  predicate Transport(e: Ev)
  {
    e.SendKey? || e.SendReply? || e.Deliver? || e.TakeReply?
  }

  lemma TransportCore(s: Sys, h: Past, e: Ev)
    requires Core(s, h) && Fresh(s) && Transport(e)
    ensures Core(Step(s, e), h) && Fresh(Step(s, e))
    ensures Step(s, e).board == s.board.(queue := Step(s, e).board.queue)
  {
    match e
    case SendKey => SendKeyCore(s, h);
    case SendReply => SendReplyCore(s, h);
    case Deliver => DeliverCore(s, h);
    case TakeReply => TakeReplyCore(s, h);
  }

  // ----- a bitmap replaced while nobody looks -----

  /** No message with the newest number has been seen or is under way. */
  predicate Untold(s: Sys)
  {
    var n := s.board.inputSeq;
    && s.client.seen != Some(n)
    && (forall i :: 0 <= i < |s.wire| ==> s.wire[i].state.inputSeq != n)
    && (forall i :: 0 <= i < |s.board.queue| ==> s.board.queue[i].state.inputSeq != n)
    && (forall i :: 0 <= i < |s.replies| ==> s.replies[i].state.inputSeq != n)
    && (forall i :: 0 <= i < |s.client.inbox| ==> s.client.inbox[i].inputSeq != n)
  }

  /** A SNAPSHOT report with events off, before its number was told to anyone. */
  predicate Unnoticed(s: Sys, rep: Report)
  {
    rep.kind == SNAPSHOT && !s.board.enabled && Untold(s)
  }

  /** The newest number now stands for `bits`. */
  function Revised(h: Past, bits: nat): Past
  {
    h.(bits := h.bits[h.newest := bits])
  }

  predicate Without(ks: seq<KeyState>, n: nat)
  {
    forall i :: 0 <= i < |ks| ==> ks[i].inputSeq != n
  }

  lemma {:induction false} PipeRevised(h: Past, bits: nat, seen: Option<nat>, p: seq<KeyState>)
    requires Pipe(h, seen, p) && Without(p, h.newest)
    ensures Pipe(Revised(h, bits), seen, p)
    decreases |p|
  {
    if p != [] {
      PipeRevised(h, bits, Some(p[0].inputSeq), p[1..]);
    }
  }

  lemma {:induction false} RepliesRevised(h: Past, bits: nat, wire: seq<Item>, q: seq<KeyState>)
    requires RepliesOk(h, wire, q) && forall i :: 0 <= i < |wire| ==> wire[i].state.inputSeq != h.newest
    ensures RepliesOk(Revised(h, bits), wire, q)
  {
    if wire != [] {
      RepliesRevised(h, bits, wire[1..], q);
    }
  }

  lemma {:induction false} EventsWithout(wire: seq<Item>, n: nat)
    requires forall i :: 0 <= i < |wire| ==> wire[i].state.inputSeq != n
    ensures Without(Events(wire), n)
  {
    if wire != [] {
      EventsWithout(wire[1..], n);
    }
  }

  lemma ToldRevised(h: Past, bits: nat, ks: seq<KeyState>)
    requires AllTold(h, ks) && Without(ks, h.newest)
    ensures AllTold(Revised(h, bits), ks)
  {
  }

  lemma PipelineWithout(s: Sys)
    requires Untold(s)
    ensures Without(Pipeline(s), s.board.inputSeq) && Without(States(s.replies), s.board.inputSeq)
    ensures Without(s.client.inbox, s.board.inputSeq)
  {
    StatesAt(s.board.queue);
    StatesAt(s.replies);
    EventsWithout(s.wire, s.board.inputSeq);
  }

  lemma UnnoticedInv(s: Sys, h: Past, rep: Report)
    requires Inv(s, h) && Unnoticed(s, rep) && rep.pressed < h.bound
    ensures Inv(Step(s, Input(rep)), Revised(h, rep.pressed))
  {
    PipelineWithout(s);
    PipeRevised(h, rep.pressed, s.client.seen, Pipeline(s));
    RepliesRevised(h, rep.pressed, s.wire, States(s.board.queue));
    ToldRevised(h, rep.pressed, States(s.replies));
    ToldRevised(h, rep.pressed, s.client.inbox);
    var s1 := Step(s, Input(rep));
    assert Pipeline(s1) == Pipeline(s) && s1.board == s.board.(pressed := rep.pressed, captured := rep.captured);
  }

  // ----- runs -----

  /** A report that the adapter makes, from a state in which the 32-bit number has room. */
  predicate Allowed(s: Sys, bound: nat, e: Ev)
  {
    && (e.Input? ==> e.rep.pressed < bound && e.rep.reason <= 3 && (Faithful(s.board, e.rep) || Unnoticed(s, e.rep)))
    && (e.Input? || e.Enable? ==> s.board.inputSeq <= U32_MAX - HEADROOM)
  }

  predicate AllowedRun(s: Sys, bound: nat, es: seq<Ev>)
    decreases |es|
  {
    es == [] || (Allowed(s, bound, es[0]) && AllowedRun(Step(s, es[0]), bound, es[1..]))
  }

  lemma StepInv(s: Sys, h: Past, e: Ev)
    requires Inv(s, h) && Allowed(s, h.bound, e)
    ensures exists h' :: Inv(Step(s, e), h') && h'.bound == h.bound
  {
    if Transport(e) {
      TransportCore(s, h, e);
      assert Inv(Step(s, e), h);
    } else if e.Ask? {
      AskInv(s, h);
    } else if e.Enable? {
      EnableInv(s, h, e.on);
    } else if Faithful(s.board, e.rep) {
      ReportCore(s, h, e.rep);
      FaithfulExactly(h, s.board, e.rep);
      assert Inv(Step(s, e), ReportPast(h, s.board, e.rep));
    } else {
      UnnoticedInv(s, h, e.rep);
    }
  }

  lemma {:induction false} RunInv(s: Sys, h: Past, es: seq<Ev>)
    requires Inv(s, h) && AllowedRun(s, h.bound, es)
    ensures exists h' :: Inv(Run(s, es), h') && h'.bound == h.bound
    decreases |es|
  {
    if es != [] {
      StepInv(s, h, es[0]);
      var h1 :| Inv(Step(s, es[0]), h1) && h1.bound == h.bound;
      RunInv(Step(s, es[0]), h1, es[1..]);
    }
  }

  /** A connection whose events are still off, and a client that has just installed its
      catalog. */
  predicate Start(s: Sys)
  {
    && !s.board.enabled && s.board.queue == [] && s.replies == [] && s.wire == []
    && s.client.keys.source.Some? && LK.Proper(s.client.keys) && s.client.keys.bits == 0
    && s.client.keys.inputSeq == None
    && s.client.seen == None && s.client.inbox == [] && !s.client.broken && s.client.log == []
    && s.board.pressed < Pow2(|s.client.keys.catalog|)
  }

  predicate Drained(s: Sys)
  {
    s.board.queue == [] && s.wire == []
  }

  lemma StartInv(s: Sys)
    requires Start(s)
    ensures Inv(s, Past(map[s.board.inputSeq := s.board.pressed], s.board.inputSeq, Pow2(|s.client.keys.catalog|)))
  {
    LK.NothingHeld(s.client.keys.catalog);
  }

  /** Whenever events are on and nothing is under way, the host holds the server's bitmap; the
      client never rejects a key message on the way, and its events replay to the keys held. */
  lemma HostHoldsServerKeys(s0: Sys, es: seq<Ev>)
    requires Start(s0) && AllowedRun(s0, Pow2(|s0.client.keys.catalog|), es)
    ensures var s := Run(s0, es);
      && !s.client.broken && LK.Proper(s.client.keys)
      && LK.Replay({}, s.client.log) == LK.Held(s.client.keys) && LK.Coherent({}, s.client.log)
      && (s.board.enabled && Drained(s) ==>
            s.client.keys.bits == s.board.pressed
            && LK.Replay({}, s.client.log) == LK.Pressed(s.client.keys.catalog, s.board.pressed))
  {
    StartInv(s0);
    var h := Past(map[s0.board.inputSeq := s0.board.pressed], s0.board.inputSeq, Pow2(|s0.client.keys.catalog|));
    RunInv(s0, h, es);
    var h' :| Inv(Run(s0, es), h') && h'.bound == h.bound;
  }

  lemma {:induction false} TransportRun(s: Sys, h: Past, es: seq<Ev>)
    requires Core(s, h) && Fresh(s) && forall i :: 0 <= i < |es| ==> Transport(es[i])
    ensures Core(Run(s, es), h) && Fresh(Run(s, es))
    ensures Run(s, es).board == s.board.(queue := Run(s, es).board.queue)
    decreases |es|
  {
    if es != [] {
      TransportCore(s, h, es[0]);
      TransportRun(Step(s, es[0]), h, es[1..]);
    }
  }

  lemma StaysEnabled(b: Board, rep: Report)
    ensures OnReport(b, rep).enabled == b.enabled
  {
  }

  lemma DrainedBits(s: Sys, h: Past)
    requires Core(s, h) && Fresh(s) && s.board.enabled && Drained(s)
    ensures s.client.keys.bits == h.bits[h.newest]
  {
    assert Pipeline(s) == [];
  }

  /** Exactly which reports the host ends up agreeing with: from any reachable state with events
      on, after the report and however the queues then drain. */
  lemma AgreesExactlyWhenFaithful(s: Sys, h: Past, rep: Report, es: seq<Ev>)
    requires Inv(s, h) && s.board.enabled && Decodable(h, rep) && s.board.inputSeq <= U32_MAX - HEADROOM
    requires forall i :: 0 <= i < |es| ==> Transport(es[i])
    requires Drained(Run(Step(s, Input(rep)), es))
    ensures var s' := Run(Step(s, Input(rep)), es);
      s'.client.keys.bits == s'.board.pressed <==> Faithful(s.board, rep)
  {
    ReportCore(s, h, rep);
    FaithfulExactly(h, s.board, rep);
    TransportRun(Step(s, Input(rep)), ReportPast(h, s.board, rep), es);
    StaysEnabled(s.board, rep);
    DrainedBits(Run(Step(s, Input(rep)), es), ReportPast(h, s.board, rep));
  }
}
