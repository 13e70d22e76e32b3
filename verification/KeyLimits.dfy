/** Link loss, and the reports that the host is left wrong about. */
module KeyLimits {
  import opened Bytes
  import opened Options
  import opened Crc32c
  import opened KeyServer
  import opened KeysProof
  import LK = LogicalKeys

  // ----- link loss -----

  const LINK_LOST := 1

  /** `rbp_server_on_link` leaving READY: the RESET report, then events off with the queue kept;
      the device state that follows is queued behind it. */
  function LinkDown(b: Board, captured: u64): Board
  {
    OnReport(b, Report(RESET, LINK_LOST, captured, 0)).(enabled := false)
  }

  lemma LinkDownCore(s: Sys, h: Past, captured: u64)
    requires Inv(s, h) && s.board.inputSeq <= U32_MAX - HEADROOM
    ensures var h' := ReportPast(h, s.board, Report(RESET, LINK_LOST, captured, 0));
      Core(s.(board := LinkDown(s.board, captured)), h') && LinkDown(s.board, captured).pressed == 0
  {
    var rep := Report(RESET, LINK_LOST, captured, 0);
    ReportCore(s, h, rep);
    var s1 := Step(s, Input(rep));
    assert Core(s1.(board := s1.board.(enabled := false)), ReportPast(h, s.board, rep));
  }

  /** The link is lost in any reachable state, with any queue; the transport goes on in any way,
      and then the client takes the device state.  No key message is rejected on the way, and
      the host ends without a key, as does the server. */
  lemma LinkLossReleasesAll(s: Sys, h: Past, captured: u64, es: seq<Ev>)
    requires Inv(s, h) && s.board.inputSeq <= U32_MAX - HEADROOM
    requires forall i :: 0 <= i < |es| ==> Transport(es[i])
    ensures var s' := Run(s.(board := LinkDown(s.board, captured)), es);
      && !s'.client.broken && LK.Proper(s'.client.keys) && s'.board.pressed == 0
      && var r := LK.ResetHost(s'.client.keys, "device_changed");
      && r.host == LK.BLANK
      && LK.Replay({}, s'.client.log + r.events) == {} && LK.Coherent({}, s'.client.log + r.events)
  {
    LinkDownCore(s, h, captured);
    var s1 := s.(board := LinkDown(s.board, captured));
    TransportRun(s1, ReportPast(h, s.board, Report(RESET, LINK_LOST, captured, 0)), es);
    var s' := Run(s1, es);
    LK.ResetReplays(s'.client.keys, "device_changed");
    LK.ReplayConcat({}, s'.client.log, LK.ResetHost(s'.client.keys, "device_changed").events);
  }

  /** Every key state that waits was queued before that device state: it has a smaller order
      number, so it goes first. */
  lemma KeysGoFirst(s: Sys, h: Past, captured: u64)
    requires Inv(s, h) && s.board.inputSeq <= U32_MAX - HEADROOM
    ensures var b := LinkDown(s.board, captured);
      forall i :: 0 <= i < |b.queue| ==> b.queue[i].order < b.order
  {
    LinkDownCore(s, h, captured);
  }

  // ----- a SNAPSHOT report while events are off -----

  /** Nothing but events is under way. */
  predicate NoReplies(s: Sys)
  {
    s.replies == [] && s.client.inbox == [] && (forall i :: 0 <= i < |s.wire| ==> !s.wire[i].reply) && s.board.queue == []
  }

  /** An event with the newest number means that the client will end with it. */
  lemma {:induction false} NewestLast(h: Past, seen: Option<nat>, p: seq<KeyState>, i: nat)
    requires Pipe(h, seen, p) && i < |p| && p[i].inputSeq == h.newest
    ensures LastSeen(seen, p) == Some(h.newest)
    decreases |p|
  {
    if i == 0 {
      LastIsNewest(h, p);
    } else {
      NewestLast(h, Some(p[0].inputSeq), p[1..], i - 1);
    }
  }

  lemma {:induction false} LastIsNewest(h: Past, p: seq<KeyState>)
    requires p != [] && p[0].inputSeq == h.newest && Pipe(h, Some(h.newest), p[1..])
    ensures p[|p| - 1].inputSeq == h.newest
    decreases |p|
  {
    if |p| > 1 {
      LastIsNewest(h, p[1..]);
    }
  }

  lemma {:induction false} WireEvents(wire: seq<Item>)
    requires forall i :: 0 <= i < |wire| ==> !wire[i].reply
    ensures |Events(wire)| == |wire| && forall i :: 0 <= i < |wire| ==> Events(wire)[i] == wire[i].state
  {
    if wire != [] {
      WireEvents(wire[1..]);
    }
  }

  lemma ToldIsLast(s: Sys, h: Past)
    requires Core(s, h) && NoReplies(s) && !Untold(s)
    ensures LastSeen(s.client.seen, Pipeline(s)) == Some(h.newest)
  {
    WireEvents(s.wire);
    assert Pipeline(s) == Events(s.wire);
    if s.client.seen != Some(h.newest) {
      var i :| 0 <= i < |s.wire| && s.wire[i].state.inputSeq == h.newest;
      NewestLast(h, s.client.seen, Pipeline(s), i);
    } else {
      SeenIsLast(h, Pipeline(s));
    }
  }

  lemma SeenIsLast(h: Past, p: seq<KeyState>)
    requires Pipe(h, Some(h.newest), p)
    ensures LastSeen(Some(h.newest), p) == Some(h.newest)
  {
    if p != [] {
      assert p[0].inputSeq == h.newest;
      LastIsNewest(h, p);
    }
  }

  /** With events off and no response under way: a SNAPSHOT report is what the host holds after
      events are turned on and everything drained, exactly when it repeats the bitmap or the
      newest number was told to nobody. */
  lemma SilentSnapshotExactly(s: Sys, h: Past, rep: Report, es: seq<Ev>)
    requires Inv(s, h) && !s.board.enabled && NoReplies(s) && rep.kind == SNAPSHOT && Decodable(h, rep)
    requires s.board.inputSeq <= U32_MAX - HEADROOM
    requires forall i :: 0 <= i < |es| ==> Transport(es[i])
    requires Drained(Run(Step(Step(s, Input(rep)), Enable(true)), es))
    ensures var s' := Run(Step(Step(s, Input(rep)), Enable(true)), es);
      s'.client.keys.bits == s'.board.pressed <==> rep.pressed == s.board.pressed || Untold(s)
  {
    var s1 := Step(s, Input(rep));
    var s2 := Step(s1, Enable(true));
    var told := if Untold(s) then Revised(h, rep.pressed) else h;
    if Untold(s) {
      UnnoticedInv(s, h, rep);
    } else {
      ToldIsLast(s, h);
    }
    EnabledCore(s1, told, rep);
    TransportRun(s2, told, es);
    DrainedBits(Run(s2, es), told);
  }

  lemma EnabledCore(s: Sys, h: Past, rep: Report)
    requires Core(s, h) && !s.board.enabled && s.board.queue == [] && s.board.pressed == rep.pressed < h.bound
    requires h.bits[h.newest] == rep.pressed || LastSeen(s.client.seen, Pipeline(s)) == Some(h.newest)
    ensures var s' := Step(s, Enable(true));
      Core(s', h) && Fresh(s') && s'.board.enabled && s'.board.pressed == rep.pressed
  {
    var s1 := s.(board := s.board.(enabled := true));
    assert Core(s1, h);
    CoreEmit(s1, h, SNAPSHOT, REASON_NONE, s.board.pressed, s.board.captured);
  }

  // ----- inputs that leave the host wrong -----

  const PRESS := Input(Report(PHYSICAL, REASON_NONE, 0, 1))

  /** A RESET report that an adapter might make after an error; none in the repository does. */
  const ADAPTER_RESET := Report(RESET, 3, 0, 0)

  function Presses(n: nat): seq<Ev>
  {
    if n == 0 then [] else [PRESS] + Presses(n - 1)
  }

  lemma {:induction false} PressesFill(s: Sys, bound: nat, n: nat)
    requires s.board.enabled && |s.board.queue| + n <= DEPTH && s.board.inputSeq <= 100 - n && bound >= 2
    ensures AllowedRun(s, bound, Presses(n))
    ensures var t := Run(s, Presses(n));
      && t.board.enabled && |t.board.queue| == |s.board.queue| + n && (n > 0 ==> t.board.pressed == 1)
      && t.board.inputSeq == s.board.inputSeq + n && t.wire == s.wire && t.client == s.client
    decreases n
  {
    if n > 0 {
      assert Presses(n)[0] == PRESS && Presses(n)[1..] == Presses(n - 1);
      PressesFill(Step(s, PRESS), bound, n - 1);
    }
  }

  const DRAIN_TWO := [SendKey, SendKey, Deliver, Deliver]

  lemma TwoDrain(s: Sys)
    requires |s.board.queue| == 2 && s.wire == []
    ensures Drained(Run(s, DRAIN_TWO)) && forall i :: 0 <= i < |DRAIN_TWO| ==> Transport(DRAIN_TWO[i])
    ensures Run(s, DRAIN_TWO).board == s.board.(queue := [])
  {
    var s1 := Step(s, SendKey);
    var s2 := Step(s1, SendKey);
    var s3 := Step(s2, Deliver);
    assert DRAIN_TWO[1..] == [SendKey, Deliver, Deliver];
    assert [SendKey, Deliver, Deliver][1..] == [Deliver, Deliver];
    assert [Deliver, Deliver][1..] == [Deliver] && [Deliver][1..] == [];
    assert s1.wire == [Item(s.board.queue[0].state, false)];
    assert s2.wire == [Item(s.board.queue[0].state, false), Item(s.board.queue[1].state, false)];
    assert Run(s, DRAIN_TWO) == Run(s1, [SendKey, Deliver, Deliver]) == Run(s2, [Deliver, Deliver]);
    assert Run(s2, [Deliver, Deliver]) == Run(s3, [Deliver]) == Step(s3, Deliver);
  }

  /** What the host holds after an unfaithful report and the draining of two messages. */
  lemma LeftBehind(s: Sys, h: Past, rep: Report)
    requires Inv(s, h) && s.board.enabled && Decodable(h, rep) && s.board.inputSeq <= U32_MAX - HEADROOM
    requires s.wire == [] && |OnReport(s.board, rep).queue| == 2
    ensures var t := Run(Step(s, Input(rep)), DRAIN_TWO);
      var h' := ReportPast(h, s.board, rep);
      && Drained(t) && t.board.enabled && t.board.pressed == OnReport(s.board, rep).pressed
      && h'.newest in h'.bits && t.client.keys.bits == h'.bits[h'.newest]
  {
    var s1 := Step(s, Input(rep));
    ReportCore(s, h, rep);
    FaithfulExactly(h, s.board, rep);
    TwoDrain(s1);
    TransportRun(s1, ReportPast(h, s.board, rep), DRAIN_TWO);
    StaysEnabled(s.board, rep);
    DrainedBits(Run(s1, DRAIN_TWO), ReportPast(h, s.board, rep));
  }

  const FILL := [Enable(true)] + Presses(7)

  lemma QueueFills(s0: Sys)
    requires Start(s0) && s0.board.inputSeq == 0 && |s0.client.keys.catalog| > 0
    ensures AllowedRun(s0, Pow2(|s0.client.keys.catalog|), FILL)
    ensures var s := Run(s0, FILL);
      && s.board.enabled && Full(s.board) && |s.board.queue| == DEPTH && s.board.pressed == 1 && s.board.inputSeq == 7 && s.wire == []
  {
    assert FILL[0] == Enable(true) && FILL[1..] == Presses(7);
    PressesFill(Step(s0, Enable(true)), Pow2(|s0.client.keys.catalog|), 7);
  }

  /** The RESET branch on a full queue. */
  lemma ResetOverflows(b: Board, h: Past)
    requires b.enabled && |b.queue| == DEPTH && b.inputSeq <= U32_MAX - HEADROOM && h.newest in h.bits
    ensures var b' := OnReport(b, ADAPTER_RESET);
      var h' := ReportPast(h, b, ADAPTER_RESET);
      |b'.queue| == 2 && b'.pressed == 0 && h'.newest in h'.bits && h'.bits[h'.newest] == b.pressed
  {
  }

  /** Seven presses that fill the queue, then a RESET report without keys: all is delivered and
      the host still holds the key that the server has released. */
  lemma ResetInFullQueue(s0: Sys)
    requires Start(s0) && s0.board.inputSeq == 0 && |s0.client.keys.catalog| > 0
    ensures AllowedRun(s0, Pow2(|s0.client.keys.catalog|), FILL)
    ensures var t := Run(Step(Run(s0, FILL), Input(ADAPTER_RESET)), DRAIN_TWO);
      t.board.enabled && Drained(t) && t.client.keys.bits == 1 && t.board.pressed == 0
  {
    QueueFills(s0);
    StartInv(s0);
    var h := Past(map[s0.board.inputSeq := s0.board.pressed], s0.board.inputSeq, Pow2(|s0.client.keys.catalog|));
    RunInv(s0, h, FILL);
    var h1 :| Inv(Run(s0, FILL), h1) && h1.bound == h.bound;
    ResetOverflows(Run(s0, FILL).board, h1);
    LeftBehind(Run(s0, FILL), h1, ADAPTER_RESET);
  }

  /** Events on, then a SNAPSHOT report with a key: all is delivered and the host holds nothing. */
  lemma SnapshotIgnored(s0: Sys)
    requires Start(s0) && s0.board.inputSeq == 0 && s0.board.pressed == 0 && |s0.client.keys.catalog| > 0
    ensures var rep := Report(SNAPSHOT, REASON_NONE, 0, 1);
      var t := Run(Step(Step(s0, Enable(true)), Input(rep)), DRAIN_TWO);
      t.board.enabled && Drained(t) && t.client.keys.bits == 0 && t.board.pressed == 1
  {
    var bound := Pow2(|s0.client.keys.catalog|);
    StartInv(s0);
    var h := Past(map[s0.board.inputSeq := s0.board.pressed], s0.board.inputSeq, bound);
    StepInv(s0, h, Enable(true));
    var h1 :| Inv(Step(s0, Enable(true)), h1) && h1.bound == h.bound;
    LeftBehind(Step(s0, Enable(true)), h1, Report(SNAPSHOT, REASON_NONE, 0, 1));
  }
}
