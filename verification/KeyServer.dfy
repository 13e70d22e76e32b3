/** The key side of the server: the pressed bitmap, its input sequence number and the bounded
    queue of KEYS_STATE events with its overflow recovery. */
module KeyServer {
  import opened Bytes
  import opened Sequences
  import Rings
  import opened Options

  const SNAPSHOT := 0
  const PHYSICAL := 1
  const RESET := 2

  const REASON_NONE := 0
  const REASON_OVERFLOW := 2

  const DEPTH := 8

  /** The fields of a KEYS_STATE payload. */
  datatype KeyState = KeyState(inputSeq: u32, captured: u64, pressed: u64, kind: byte, reason: byte)

  // ----- the 24-octet payload -----

  function Pack(k: KeyState): (p: seq<byte>)
    ensures |p| == 24
  {
    Le(k.inputSeq, 4) + Le(k.captured, 8) + Le(k.pressed, 8) + [k.kind, k.reason] + [0, 0]
  }

  predicate Sane(k: KeyState)
  {
    k.kind <= 2 && k.reason <= 3 && (k.kind == RESET ==> k.pressed == 0)
  }

  /** `BridgeClient._keys`: `None` stands for the ValueError. */
  function Parse(p: seq<byte>): Option<KeyState>
  {
    if |p| != 24 then None
    else
      LeBound(p[0..4]);
      LeBound(p[4..12]);
      LeBound(p[12..20]);
      Pow256Facts();
      var k := KeyState(LeValue(p[0..4]), LeValue(p[4..12]), LeValue(p[12..20]), p[20], p[21]);
      if LeValue(p[22..24]) != 0 || !Sane(k) then None else Some(k)
  }

  lemma Pow256Facts()
    ensures Pow256(4) == U32_MAX + 1 && Pow256(8) == U64_MAX + 1
  {
    assert Pow256(4) == 256 * (256 * (256 * (256 * Pow256(0))));
    assert Pow256(8) == 256 * (256 * (256 * (256 * Pow256(4))));
  }

  /** The client reads exactly the sane states, each from one payload: what was packed is what
      is parsed, and nothing else parses. */
  lemma ParsePack(k: KeyState)
    ensures Parse(Pack(k)) == if Sane(k) then Some(k) else None
  {
    var p := Pack(k);
    assert p[0..4] == Le(k.inputSeq, 4);
    assert p[4..12] == Le(k.captured, 8);
    assert p[12..20] == Le(k.pressed, 8);
    assert p[22..24] == [0, 0];
    ZeroField();
    LeRoundTrip4(k.inputSeq);
    LeRoundTrip8(k.captured);
    LeRoundTrip8(k.pressed);
  }

  lemma ZeroField()
    ensures LeValue([0, 0]) == 0
  {
    assert [0, 0][1..] == [0];
    assert LeValue([0]) == 0 + 256 * LeValue([]);
  }

  lemma PackParse(p: seq<byte>)
    requires Parse(p).Some?
    ensures Pack(Parse(p).value) == p
  {
    LeOfValue(p[0..4]);
    LeOfValue(p[4..12]);
    LeOfValue(p[12..20]);
    LeOfValue(p[22..24]);
    ZeroOctets();
    Pieces(p);
  }

  lemma ZeroOctets()
    ensures Le(0, 2) == [0, 0]
  {
    assert Le(0, 1) == [0];
  }

  lemma Pieces(p: seq<byte>)
    requires |p| == 24
    ensures p == p[0..4] + p[4..12] + p[12..20] + [p[20], p[21]] + p[22..24]
  {
  }

  // ----- the queue -----

  datatype Queued = Queued(state: KeyState, order: nat)

  /** What the server keeps about keys; `order` is the counter that all queues share. */
  datatype Board = Board(enabled: bool, pressed: u64, inputSeq: u32, captured: u64, queue: seq<Queued>, order: nat)

  datatype Report = Report(kind: byte, reason: byte, captured: u64, pressed: u64)

  function Bumped(b: Board): Board
  {
    b.(inputSeq := Next(b.inputSeq))
  }

  function Full(b: Board): bool
  {
    |b.queue| >= DEPTH
  }

  /** `key_push` when there is room. */
  function Pushed(b: Board, kind: byte, reason: byte, pressed: u64, captured: u64): Board
  {
    b.(queue := b.queue + [Queued(KeyState(b.inputSeq, captured, pressed, kind, reason), b.order)], order := b.order + 1)
  }

  /** The overflow branch: everything waiting is dropped, the host is told to forget what it
      holds and is then given the whole bitmap. */
  function Recovered(b: Board, captured: u64): Board
  {
    var b1 := Pushed(Bumped(b.(queue := [])), RESET, REASON_OVERFLOW, 0, captured);
    Pushed(Bumped(b1), SNAPSHOT, REASON_NONE, b1.pressed, captured)
  }

  function Emit(b: Board, kind: byte, reason: byte, pressed: u64, captured: u64): Board
  {
    if !b.enabled then b
    else if Full(b) then Recovered(b, captured)
    else Pushed(b, kind, reason, pressed, captured)
  }

  /** `rbp_server_on_keys`. */
  function OnReport(b: Board, rep: Report): Board
  {
    if rep.kind == PHYSICAL then
      Emit(Bumped(b.(pressed := rep.pressed, captured := rep.captured)), PHYSICAL, rep.reason, rep.pressed, rep.captured)
    else if rep.kind == RESET then
      var b1 := Emit(Bumped(b.(captured := rep.captured)), RESET, rep.reason, 0, rep.captured);
      if rep.pressed != 0 then
        Emit(Bumped(b1.(pressed := rep.pressed)), SNAPSHOT, REASON_NONE, rep.pressed, rep.captured)
      else b1.(pressed := 0)
    else if rep.kind == SNAPSHOT then
      Emit(b.(pressed := rep.pressed, captured := rep.captured), SNAPSHOT, REASON_NONE, rep.pressed, rep.captured)
    else b
  }

  /** EVENTS_ENABLE, apart from its empty OK response. */
  function Enabled(b: Board, on: bool): Board
  {
    if on then Emit(b.(enabled := true), SNAPSHOT, REASON_NONE, b.pressed, b.captured)
    else b.(enabled := false, queue := [])
  }

  /** The payload of a KEYS_SNAPSHOT response. */
  function Snapshot(b: Board): KeyState
  {
    KeyState(b.inputSeq, b.captured, b.pressed, SNAPSHOT, REASON_NONE)
  }

  // ----- the fields updated in place -----

  class Keys {
    const slots: array<Queued>
    var head: nat
    var count: nat
    var enabled: bool
    var pressed: u64
    var inputSeq: u32
    var captured: u64
    var order: nat

    ghost predicate Valid()
      reads this
    {
      slots.Length == DEPTH && head < DEPTH && count <= DEPTH
    }

    ghost function Waiting(): (q: seq<Queued>)
      requires Valid()
      reads this, slots
    {
      Rings.View(slots, head)[..count]
    }

    ghost function Abstract(): (b: Board)
      requires Valid()
      reads this, slots
    {
      Board(enabled, pressed, inputSeq, captured, Waiting(), order)
    }

    constructor (blank: Queued)
      ensures Valid() && fresh(slots)
      ensures Abstract() == Board(false, 0, 0, 0, [], 0)
    {
      slots := new Queued[DEPTH](i => blank);
      head, count, enabled := 0, 0, false;
      pressed, inputSeq, captured, order := 0, 0, 0, 0;
    }

    /** `key_push`: refused when all eight slots are taken. */
    method Push(kind: byte, reason: byte, bits: u64, at: u64) returns (ok: bool)
      requires Valid()
      modifies this, slots
      ensures Valid()
      ensures ok == !Full(old(Abstract()))
      ensures Abstract() == if ok then Pushed(old(Abstract()), kind, reason, bits, at) else old(Abstract())
    {
      ok := count < DEPTH;
      if ok {
        ghost var before := Rings.View(slots, head);
        var item := Queued(KeyState(inputSeq, at, bits, kind, reason), order);
        Rings.RingSet(slots, head, count, item);
        SetPrefix(before, count, item);
        order := order + 1;
        count := count + 1;
      }
    }

    method Clear()
      requires Valid()
      modifies this
      ensures Valid()
      ensures Abstract() == old(Abstract()).(queue := [])
    {
      head, count := 0, 0;
    }

    method Bump()
      requires Valid()
      modifies this
      ensures Valid()
      ensures Abstract() == Bumped(old(Abstract()))
    {
      inputSeq := Next(inputSeq);
    }

    /** `keys_emit`. */
    method EmitState(kind: byte, reason: byte, bits: u64, at: u64)
      requires Valid()
      modifies this, slots
      ensures Valid()
      ensures Abstract() == Emit(old(Abstract()), kind, reason, bits, at)
    {
      if enabled {
        var ok := Push(kind, reason, bits, at);
        if !ok {
          Clear();
          Bump();
          var reset := Push(RESET, REASON_OVERFLOW, 0, at);
          Bump();
          var snapshot := Push(SNAPSHOT, REASON_NONE, pressed, at);
        }
      }
    }

    method OnKeys(rep: Report)
      requires Valid()
      modifies this, slots
      ensures Valid()
      ensures Abstract() == OnReport(old(Abstract()), rep)
    {
      if rep.kind == PHYSICAL {
        pressed := rep.pressed;
        Bump();
        captured := rep.captured;
        EmitState(PHYSICAL, rep.reason, rep.pressed, rep.captured);
      } else if rep.kind == RESET {
        Bump();
        captured := rep.captured;
        EmitState(RESET, rep.reason, 0, rep.captured);
        if rep.pressed != 0 {
          pressed := rep.pressed;
          Bump();
          EmitState(SNAPSHOT, REASON_NONE, rep.pressed, rep.captured);
        } else {
          pressed := 0;
        }
      } else if rep.kind == SNAPSHOT {
        pressed := rep.pressed;
        captured := rep.captured;
        EmitState(SNAPSHOT, REASON_NONE, rep.pressed, rep.captured);
      }
    }

    method EventsEnable(on: bool)
      requires Valid()
      modifies this, slots
      ensures Valid()
      ensures Abstract() == Enabled(old(Abstract()), on)
    {
      if on {
        enabled := true;
        EmitState(SNAPSHOT, REASON_NONE, pressed, captured);
      } else {
        enabled := false;
        Clear();
      }
    }

    /** `keys_flush_one`, where `accepted` is the answer of `out_try_frame`. */
    method FlushOne(accepted: bool) returns (sent: Option<Queued>)
      requires Valid()
      modifies this
      ensures Valid()
      ensures sent.Some? == (accepted && old(Abstract()).queue != [])
      ensures sent.Some? ==> old(Abstract()).queue == [sent.value] + Abstract().queue
      ensures sent.None? ==> Abstract().queue == old(Abstract()).queue
      ensures Abstract() == old(Abstract()).(queue := Abstract().queue)
    {
      sent := None;
      if count > 0 && accepted {
        var item := Rings.RingGet(slots, head, 0);
        sent := Some(item);
        Skipped(slots[..], head, count, 1);
        head := Wrap(head + 1, DEPTH);
        count := count - 1;
      }
    }
  }
}
