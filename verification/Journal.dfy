/** The peer journal: two EEPROM pages, a CRC over the body and a commit word of its own. */
module Journal {
  import opened Bytes
  import opened Options
  import Bits
  import Crc32c

  const SIZE := 256
  const CRC_OFF := 248
  const COMMIT_OFF := 252
  const HEAD := 80
  const COMMIT_WORD := 0x4354_4252
  const MAGIC: seq<byte> := [0x52, 0x42, 0x53, 0x32]
  const BAD := 255

  const SAVED := 1
  const DELETING := 2
  const PAIRING := 3

  datatype Peer = Peer(id: u32, auto: bool, name: seq<byte>)

  datatype Staged = Staged(addr: seq<byte>, kind: byte, valid: bool, hid: byte)

  datatype Flash = Flash(a: seq<byte>, b: seq<byte>)

  /** `slot` is -1 when there is no current record; `head` is the prefix kept of it. */
  datatype Ram = Ram(slot: int, head: seq<byte>, state: byte, staged: Staged)

  // ----- pages -----

  function Filled(n: nat): (s: seq<byte>)
    ensures |s| == n
    ensures forall i :: 0 <= i < n ==> s[i] == 255
  {
    seq(n, _ => 255)
  }

  function Zeros(n: nat): (s: seq<byte>)
    ensures |s| == n
    ensures forall i :: 0 <= i < n ==> s[i] == 0
  {
    seq(n, _ => 0)
  }

  const BLANK := Filled(SIZE)

  predicate PageOk(p: seq<byte>)
  {
    |p| == SIZE
  }

  function Generation(head: seq<byte>): nat
    requires |head| >= HEAD
  {
    LeValue(head[4..8])
  }

  function Counter(head: seq<byte>): nat
    requires |head| >= HEAD
  {
    LeValue(head[12..16])
  }

  function PeerId(head: seq<byte>): nat
    requires |head| >= HEAD
  {
    LeValue(head[16..20])
  }

  predicate Checked(p: seq<byte>)
    requires PageOk(p)
  {
    LeValue(p[CRC_OFF..COMMIT_OFF]) == Crc32c.Crc(p[..CRC_OFF])
  }

  /** `valid`. */
  predicate Valid(p: seq<byte>)
    requires PageOk(p)
  {
    && p[..4] == MAGIC && LeValue(p[COMMIT_OFF..]) == COMMIT_WORD && Checked(p)
    && SAVED <= p[8] <= PAIRING && p[21] <= 1 && p[22] <= 1 && p[23] <= 1
  }

  predicate StagedOk(st: Staged)
  {
    |st.addr| == 6
  }

  predicate PeerOk(rec: Option<Peer>)
  {
    rec.Some? ==> |rec.value.name| == 47
  }

  function Flag(b: bool): byte
  {
    if b then 1 else 0
  }

  function NameField(rec: Option<Peer>): (s: seq<byte>)
    requires PeerOk(rec)
    ensures |s| == 48
  {
    if rec.None? then Zeros(48) else rec.value.name + [0]
  }

  /** The first 24 octets of a record: magic, four numbers, flags. */
  function Words(gen: u32, state: byte, counter: u32, id: u32, flags: seq<byte>): (s: seq<byte>)
    requires |flags| == 3
    ensures |s| == 24
  {
    MAGIC + Le(gen, 4) + [state, 255, 255, 255] + Le(counter, 4) + Le(id, 4) + [255] + flags
  }

  function IdOf(rec: Option<Peer>): u32
  {
    if rec.Some? then rec.value.id else 0
  }

  function Flags(rec: Option<Peer>, st: Staged): (s: seq<byte>)
    ensures |s| == 3
  {
    [Flag(rec.Some? && rec.value.auto), Flag(rec.Some? && st.valid), st.kind]
  }

  /** The first 248 octets of a new record. */
  function Body(gen: u32, state: byte, rec: Option<Peer>, counter: u32, st: Staged): (s: seq<byte>)
    requires StagedOk(st) && PeerOk(rec)
    ensures |s| == CRC_OFF
  {
    Words(gen, state, counter, IdOf(rec), Flags(rec, st))
    + (st.addr + ([if rec.Some? then st.hid else 255, 255] + (NameField(rec) + Filled(CRC_OFF - HEAD))))
  }

  function Protected(body: seq<byte>): (s: seq<byte>)
    requires |body| == CRC_OFF
    ensures |s| == COMMIT_OFF
  {
    body + Le(Crc32c.Crc(body), 4)
  }

  function Committed(body: seq<byte>): (s: seq<byte>)
    requires |body| == CRC_OFF
    ensures |s| == SIZE
  {
    Protected(body) + Le(COMMIT_WORD, 4)
  }

  lemma WordsRead(gen: u32, state: byte, counter: u32, id: u32, flags: seq<byte>, rest: seq<byte>)
    requires |flags| == 3
    ensures var p := Words(gen, state, counter, id, flags) + rest;
      && p[..4] == MAGIC && LeValue(p[4..8]) == gen && p[8] == state
      && LeValue(p[12..16]) == counter && LeValue(p[16..20]) == id
      && p[21] == flags[0] && p[22] == flags[1] && p[23] == flags[2]
  {
    var w := Words(gen, state, counter, id, flags);
    var p := w + rest;
    assert p[..4] == w[..4] == MAGIC;
    assert p[4..8] == w[4..8] == Le(gen, 4);
    assert p[12..16] == w[12..16] == Le(counter, 4);
    assert p[16..20] == w[16..20] == Le(id, 4);
    LeRoundTrip4(gen);
    LeRoundTrip4(counter);
    LeRoundTrip4(id);
  }

  lemma MiddleOf(a: seq<byte>, b: seq<byte>, c: seq<byte>)
    ensures (a + (b + c))[|a|..|a| + |b|] == b
  {
  }

  lemma Regroup(a: seq<byte>, b: seq<byte>, c: seq<byte>)
    ensures (a + b) + c == a + (b + c)
  {
  }

  /** What a committed record says when it is read back; it is valid exactly when its state and
      its staged address type are in range. */
  lemma CommittedReads(gen: u32, state: byte, rec: Option<Peer>, counter: u32, st: Staged)
    requires StagedOk(st) && PeerOk(rec)
    ensures var p := Committed(Body(gen, state, rec, counter, st));
      && (Valid(p) <==> SAVED <= state <= PAIRING && st.kind <= 1)
      && Generation(p) == gen && Counter(p) == counter && p[8] == state
      && PeerId(p) == IdOf(rec) && p[21..24] == Flags(rec, st)
  {
    var words := Words(gen, state, counter, IdOf(rec), Flags(rec, st));
    var rest := st.addr + ([if rec.Some? then st.hid else 255, 255] + (NameField(rec) + Filled(CRC_OFF - HEAD)));
    CommitReads(words + rest);
    var tail := CommittedSplit(words, rest);
    WordsRead(gen, state, counter, IdOf(rec), Flags(rec, st), tail);
  }

  lemma CommittedSplit(words: seq<byte>, rest: seq<byte>) returns (tail: seq<byte>)
    requires |words + rest| == CRC_OFF
    ensures Committed(words + rest) == words + tail
  {
    tail := rest + Le(Crc32c.Crc(words + rest), 4) + Le(COMMIT_WORD, 4);
  }

  /** The staged address and the name survive as well. */
  lemma BodyReads(gen: u32, state: byte, rec: Option<Peer>, counter: u32, st: Staged)
    requires StagedOk(st) && PeerOk(rec)
    ensures var b := Body(gen, state, rec, counter, st);
      b[24..30] == st.addr && b[30] == (if rec.Some? then st.hid else 255) && b[32..80] == NameField(rec)
  {
    var words := Words(gen, state, counter, IdOf(rec), Flags(rec, st));
    var hid := [if rec.Some? then st.hid else 255, 255];
    var name := NameField(rec);
    MiddleOf(words, st.addr, hid + (name + Filled(CRC_OFF - HEAD)));
    var b := Body(gen, state, rec, counter, st);
    Regroup(words + st.addr, hid, name + Filled(CRC_OFF - HEAD));
    Regroup(words, st.addr, hid + (name + Filled(CRC_OFF - HEAD)));
    MiddleOf(words + st.addr + hid, name, Filled(CRC_OFF - HEAD));
  }

  lemma CommitReads(b: seq<byte>)
    requires |b| == CRC_OFF
    ensures Checked(Committed(b)) && LeValue(Committed(b)[COMMIT_OFF..]) == COMMIT_WORD
  {
    var p := Committed(b);
    assert p[..CRC_OFF] == b;
    assert p[CRC_OFF..COMMIT_OFF] == Le(Crc32c.Crc(b), 4);
    assert p[COMMIT_OFF..] == Le(COMMIT_WORD, 4);
    LeRoundTrip4(Crc32c.Crc(b));
    LeRoundTrip4(COMMIT_WORD);
  }

  // ----- partial programming: bits only go from 1 to 0 -----

  predicate Covers(have: byte, want: byte)
  {
    Bits.Within(want, have, 8)
  }

  predicate AllCover(have: seq<byte>, want: seq<byte>)
  {
    |have| == |want| && forall i :: 0 <= i < |have| ==> Covers(have[i], want[i])
  }

  /** Without the whole commit word a page is not a record. */
  lemma TornCommit(body: seq<byte>, tail: seq<byte>)
    requires |body| == COMMIT_OFF && |tail| == 4
    ensures LeValue((body + tail)[COMMIT_OFF..]) == COMMIT_WORD <==> tail == Le(COMMIT_WORD, 4)
  {
    assert (body + tail)[COMMIT_OFF..] == tail;
    LeRoundTrip4(COMMIT_WORD);
    if LeValue(tail) == COMMIT_WORD {
      LeInjective(tail, Le(COMMIT_WORD, 4));
    }
  }

  // ----- loading -----

  function PageOf(f: Flash, i: int): seq<byte>
  {
    if i == 0 then f.a else f.b
  }

  function WithPage(f: Flash, i: int, p: seq<byte>): Flash
  {
    if i == 0 then f.(a := p) else f.(b := p)
  }

  predicate FlashOk(f: Flash)
  {
    PageOk(f.a) && PageOk(f.b)
  }

  const NOTHING_STAGED := Staged([0, 0, 0, 0, 0, 0], 0, false, 255)

  /** RAM after a reset, before anything is loaded. */
  const BOOT := Ram(-1, Zeros(HEAD), 0, NOTHING_STAGED)

  /** The first look at page `i`: a later page wins only with a larger generation. */
  function Consider(r: Ram, p: seq<byte>, i: int): Ram
    requires PageOk(p) && |r.head| == HEAD
  {
    if Valid(p) && (r.slot < 0 || Generation(p) > Generation(r.head)) then r.(slot := i, head := p[..HEAD]) else r
  }

  function Adopted(r: Ram): Ram
    requires |r.head| == HEAD
  {
    r.(state := r.head[8],
       staged := Staged(r.head[24..30], r.head[23], r.head[22] != 0, if r.head[30] <= 3 then r.head[30] else 255))
  }

  /** The record that pairing writes on a blank EEPROM. */
  const FIRST := Body(1, PAIRING, None, 1, NOTHING_STAGED)

  predicate PendingBody(p: seq<byte>)
    requires PageOk(p)
  {
    p[..4] == MAGIC && p[8] == PAIRING && Checked(p)
  }

  /** Octets compatible with that record on the first page, and the second page still blank. */
  function RecoverTorn(f: Flash, r: Ram, good: nat): Ram
    requires FlashOk(f)
  {
    if good < 1 || f.b != BLANK || good < 2 || !AllCover(f.a, Committed(FIRST)) then r
    else r.(slot := 0, head := Committed(FIRST)[..HEAD], state := PAIRING)
  }

  /** Looking for an interrupted first pairing; the next `good` reads succeed. */
  function Recover(f: Flash, r: Ram, good: nat): Ram
    requires FlashOk(f)
  {
    if good < 1 then r
    else if PendingBody(f.a) then r.(slot := 0, head := f.a[..HEAD], state := PAIRING)
    else if good < 2 then r
    else if PendingBody(f.b) then r.(slot := 1, head := f.b[..HEAD], state := PAIRING)
    else RecoverTorn(f, r, good - 2)
  }

  /** `load_slots` after a reset, when the first `good` EEPROM reads succeed and the next one
      does not. */
  function Load(f: Flash, good: nat): Ram
    requires FlashOk(f)
  {
    if good < 1 then BOOT.(state := BAD)
    else
      var r1 := Consider(BOOT, f.a, 0);
      if good < 2 then r1.(state := BAD)
      else
        var r2 := Consider(r1, f.b, 1);
        if r2.slot >= 0 then Adopted(r2)
        else if f.a == BLANK && f.b == BLANK then r2
        else Recover(f, r2.(state := BAD), good - 2)
  }

  const ALL_READS := 6

  // ----- writing -----

  /** How the EEPROM behaves during one `write_record`.  Erasing either happens or does not;
      programming leaves any octets that cover the intended ones.  A power cut at some point
      leaves what a failure reported there leaves. */
  datatype Wear = Wear(
    erased: bool, eraseOk: bool, body: seq<byte>, bodyOk: bool, bodyRead: bool,
    tail: seq<byte>, tailOk: bool, tailRead: bool)

  datatype Wrote = Wrote(f: Flash, r: Ram, ok: bool)

  predicate Possible(w: Wear, target: seq<byte>)
  {
    && (w.eraseOk ==> w.erased)
    && AllCover(w.body, target)
    && AllCover(w.tail, Le(COMMIT_WORD, 4))
  }

  function NextGeneration(r: Ram): nat
    requires |r.head| == HEAD
  {
    (if r.slot < 0 then 0 else Generation(r.head)) + 1
  }

  function NextSlot(r: Ram): int
  {
    if r.slot == 0 then 1 else 0
  }

  predicate RamOk(r: Ram)
  {
    |r.head| == HEAD && StagedOk(r.staged) && -1 <= r.slot <= 1
  }

  predicate Refused(r: Ram)
    requires RamOk(r)
  {
    r.state == BAD || NextGeneration(r) > U32_MAX
  }

  /** The body of the record that `write_record` is about to write. */
  function NewBody(r: Ram, state: byte, rec: Option<Peer>, counter: u32): (s: seq<byte>)
    requires RamOk(r) && PeerOk(rec) && !Refused(r)
    ensures |s| == CRC_OFF
  {
    Body(NextGeneration(r), state, rec, counter, r.staged)
  }

  /** What `w` makes of the page that is written. */
  function NewPage(old_: seq<byte>, target: seq<byte>, w: Wear): seq<byte>
  {
    if !w.eraseOk then if w.erased then BLANK else old_
    else if !w.bodyOk || !w.bodyRead || w.body != target then w.body + Filled(4)
    else w.body + w.tail
  }

  predicate Succeeds(target: seq<byte>, w: Wear)
  {
    && w.eraseOk && w.bodyOk && w.bodyRead && w.body == target
    && w.tailOk && w.tailRead && w.tail == Le(COMMIT_WORD, 4)
  }

  /** `write_record`. */
  function WriteRecord(f: Flash, r: Ram, state: byte, rec: Option<Peer>, counter: u32, w: Wear): Wrote
    requires FlashOk(f) && RamOk(r) && PeerOk(rec)
  {
    if Refused(r) then Wrote(f, r, false)
    else
      var body := NewBody(r, state, rec, counter);
      var target := Protected(body);
      var slot := NextSlot(r);
      var f' := WithPage(f, slot, NewPage(PageOf(f, slot), target, w));
      if Succeeds(target, w) then Wrote(f', r.(slot := slot, head := Committed(body)[..HEAD], state := state), true)
      else Wrote(f', r, false)
  }

  // ----- operations -----

  function PeerCounter(r: Ram): nat
    requires RamOk(r)
  {
    if r.slot < 0 then 0 else Counter(r.head)
  }

  lemma PeerIdIs32(head: seq<byte>)
    requires |head| >= HEAD
    ensures PeerId(head) <= U32_MAX
  {
    LeBound(head[16..20]);
    assert Pow256(4) == 256 * (256 * (256 * (256 * Pow256(0))));
  }

  /** `store_load`. */
  function StoredPeer(r: Ram): Option<Peer>
    requires RamOk(r)
  {
    PeerIdIs32(r.head);
    if r.state != SAVED then None else Some(Peer(PeerId(r.head), r.head[21] != 0, r.head[32..79]))
  }

  datatype Op =
    | Pair(w: Wear)
    | Forget(w: Wear)
    | Save(rec: Peer, w: Wear)
    | Clear(w: Wear)
    | Stage(addr: seq<byte>, kind: byte)
    | Invalidate
    | HidFlags(flags: byte)
    | Reboot(good: nat)

  predicate OpOk(op: Op)
  {
    (op.Stage? ==> |op.addr| == 6) && (op.Save? ==> |op.rec.name| == 47)
  }

  lemma CounterIs32(r: Ram)
    requires RamOk(r)
    ensures PeerCounter(r) <= U32_MAX
  {
    LeBound(r.head[12..16]);
    assert Pow256(4) == 256 * (256 * (256 * (256 * Pow256(0))));
  }

  predicate PairRefused(r: Ram)
    requires RamOk(r)
  {
    r.state == BAD || (r.state == SAVED && PeerId(r.head) != 0) || PeerCounter(r) == U32_MAX
  }

  function Unstaged(r: Ram): Ram
  {
    r.(staged := r.staged.(valid := false))
  }

  function PairStaged(r: Ram): Ram
  {
    r.(staged := r.staged.(valid := false, hid := 255))
  }

  function Apply(f: Flash, r: Ram, op: Op): Wrote
    requires FlashOk(f) && RamOk(r) && OpOk(op)
  {
    CounterIs32(r);
    match op
    case Pair(w) =>
      if PairRefused(r) then Wrote(f, r, false)
      else WriteRecord(f, PairStaged(r), PAIRING, None, PeerCounter(r) + 1, w)
    case Forget(w) => WriteRecord(f, r, DELETING, None, PeerCounter(r), w)
    case Save(rec, w) =>
      if rec.id == 0 then Wrote(f, r, false) else WriteRecord(f, r, SAVED, Some(rec), PeerCounter(r), w)
    case Clear(w) => WriteRecord(f, Unstaged(r), SAVED, None, PeerCounter(r), w)
    case Stage(addr, kind) => Wrote(f, r.(staged := r.staged.(addr := addr, kind := kind, valid := true)), true)
    case Invalidate => Wrote(f, Unstaged(r), true)
    case HidFlags(flags) => Wrote(f, r.(staged := r.staged.(hid := if flags <= 3 then flags else 255)), true)
    case Reboot(good) => Wrote(f, Load(f, good), true)
  }

  /** The EEPROM does only what it can do. */
  predicate WearOk(r: Ram, op: Op)
    requires RamOk(r) && OpOk(op)
  {
    CounterIs32(r);
    match op
    case Pair(w) => PairRefused(r) || Refused(r) || Possible(w, Protected(NewBody(PairStaged(r), PAIRING, None, PeerCounter(r) + 1)))
    case Forget(w) => Refused(r) || Possible(w, Protected(NewBody(r, DELETING, None, PeerCounter(r))))
    case Save(rec, w) => Refused(r) || Possible(w, Protected(NewBody(r, SAVED, Some(rec), PeerCounter(r))))
    case Clear(w) => Refused(r) || Possible(w, Protected(NewBody(Unstaged(r), SAVED, None, PeerCounter(r))))
    case _ => true
  }
}
