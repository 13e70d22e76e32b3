/** Crash atomicity of the journal. */
module JournalProof {
  import opened Bytes
  import opened Options
  import opened Journal
  import Bits
  import Crc32c

  // ----- one page write -----

  lemma BlankInvalid()
    ensures !Valid(BLANK)
  {
    assert BLANK[..4][0] == 255 != MAGIC[0];
  }

  /** A body without its commit word is not a record, whatever the body. */
  lemma UncommittedInvalid(body: seq<byte>, tail: seq<byte>)
    requires |body| == COMMIT_OFF && |tail| == 4 && tail != Le(COMMIT_WORD, 4)
    ensures !Valid(body + tail)
  {
    TornCommit(body, tail);
  }

  lemma FilledIsNotCommit()
    ensures Filled(4) != Le(COMMIT_WORD, 4)
  {
    assert Le(COMMIT_WORD, 4)[0] == COMMIT_WORD % 256;
  }

  /** After any interruption the written page is untouched, or no record, or the whole new
      record; and it is the new record whenever the write was reported as done. */
  lemma PageAfterWrite(old_: seq<byte>, body: seq<byte>, w: Wear)
    requires PageOk(old_) && |body| == CRC_OFF && Possible(w, Protected(body))
    ensures var p := NewPage(old_, Protected(body), w);
      && PageOk(p)
      && ((p == old_ && !w.erased) || !Valid(p) || p == Committed(body))
      && (Succeeds(Protected(body), w) ==> p == Committed(body))
  {
    BlankInvalid();
    FilledIsNotCommit();
    var p := NewPage(old_, Protected(body), w);
    if w.eraseOk {
      if !w.bodyOk || !w.bodyRead || w.body != Protected(body) {
        UncommittedInvalid(w.body, Filled(4));
      } else if w.tail != Le(COMMIT_WORD, 4) {
        UncommittedInvalid(w.body, w.tail);
      }
    }
  }

  // ----- the invariant -----

  function Other(slot: int): int
  {
    if slot == 0 then 1 else 0
  }

  /** The page that is not current: no record, an older one, or the record of a write that was
      reported as failed although it had been committed. */
  predicate OtherOk(o: seq<byte>, gen: nat, issued: nat)
    requires PageOk(o)
  {
    Valid(o) ==> Generation(o) < gen || (Generation(o) == gen + 1 && issued <= Counter(o))
  }

  /** RAM mirrors a committed record, and no id above its counter was handed out. */
  predicate Live(f: Flash, r: Ram, issued: nat)
  {
    && FlashOk(f) && RamOk(r) && 0 <= r.slot <= 1
    && Valid(PageOf(f, r.slot)) && r.head == PageOf(f, r.slot)[..HEAD] && r.state == r.head[8]
    && r.staged.kind <= 1
    && issued <= Counter(r.head)
    && OtherOk(PageOf(f, Other(r.slot)), Generation(r.head), issued)
  }

  predicate InSync(f: Flash, r: Ram)
    requires FlashOk(f) && RamOk(r)
  {
    var o := PageOf(f, Other(r.slot));
    Valid(o) ==> Generation(o) < Generation(r.head)
  }

  lemma HeadReads(p: seq<byte>)
    requires PageOk(p)
    ensures Generation(p[..HEAD]) == Generation(p) && Counter(p[..HEAD]) == Counter(p) && p[..HEAD][8] == p[8]
  {
    assert p[..HEAD][4..8] == p[4..8];
    assert p[..HEAD][12..16] == p[12..16];
  }

  /** The record that a good reload picks. */
  predicate Picks(f: Flash, slot: int)
    requires FlashOk(f)
  {
    && Valid(PageOf(f, slot))
    && (Valid(PageOf(f, Other(slot))) ==> Generation(PageOf(f, Other(slot))) < Generation(PageOf(f, slot)))
  }

  /** Loading takes the committed record with the largest generation. */
  lemma LoadPicks(f: Flash, slot: int, good: nat)
    requires FlashOk(f) && 0 <= slot <= 1 && Picks(f, slot)
    ensures var r := Load(f, good);
      && RamOk(r)
      && (good < 2 ==> r.state == BAD)
      && (good >= 2 ==> r.slot == slot && r.head == PageOf(f, slot)[..HEAD] && r.state == r.head[8] && r.staged.kind <= 1)
  {
    HeadReads(f.a);
    HeadReads(f.b);
  }

  /** Reloading from a live state. */
  lemma LiveReloads(f: Flash, r: Ram, issued: nat, good: nat)
    requires Live(f, r, issued)
    ensures var r' := Load(f, good);
      && RamOk(r')
      && (good < 2 ==> r'.state == BAD)
      && (good >= 2 ==> Live(f, r', issued) && InSync(f, r') && (InSync(f, r) ==> r'.slot == r.slot))
  {
    HeadReads(PageOf(f, r.slot));
    HeadReads(PageOf(f, Other(r.slot)));
    var slot := if InSync(f, r) then r.slot else Other(r.slot);
    assert Picks(f, slot);
    LoadPicks(f, slot, good);
  }

  // ----- every write -----

  /** The record a write is about to commit. */
  function NewRecord(r: Ram, state: byte, rec: Option<Peer>, counter: u32): (p: seq<byte>)
    requires RamOk(r) && PeerOk(rec) && !Refused(r)
    ensures |p| == SIZE
  {
    Committed(NewBody(r, state, rec, counter))
  }

  lemma NewRecordReads(r: Ram, state: byte, rec: Option<Peer>, counter: u32)
    requires RamOk(r) && PeerOk(rec) && !Refused(r) && 0 <= r.slot
    ensures var p := NewRecord(r, state, rec, counter);
      && (Valid(p) <==> SAVED <= state <= PAIRING && r.staged.kind <= 1)
      && Generation(p) == Generation(r.head) + 1 && Counter(p) == counter && p[8] == state
  {
    CommittedReads(NextGeneration(r), state, rec, counter, r.staged);
  }

  /** `write_record` keeps RAM and EEPROM in step, whatever happens to it on the way; the new
      counter counts as handed out once it returns true. */
  lemma WriteLive(f: Flash, r: Ram, issued: nat, state: byte, rec: Option<Peer>, counter: u32, w: Wear)
    requires Live(f, r, issued) && PeerOk(rec) && SAVED <= state <= PAIRING && Counter(r.head) <= counter
    requires Refused(r) || Possible(w, Protected(NewBody(r, state, rec, counter)))
    ensures var o := WriteRecord(f, r, state, rec, counter, w);
      && Live(o.f, o.r, issued)
      && (o.ok ==> Live(o.f, o.r, counter) && Counter(o.r.head) == counter)
  {
    if !Refused(r) {
      var body := NewBody(r, state, rec, counter);
      PageAfterWrite(PageOf(f, Other(r.slot)), body, w);
      NewRecordReads(r, state, rec, counter);
      if Succeeds(Protected(body), w) {
        MovedLive(f, r, issued, Committed(body));
        MovedLive(f, r, counter, Committed(body));
      } else {
        StayedLive(f, r, issued, NewPage(PageOf(f, Other(r.slot)), Protected(body), w));
      }
    }
  }

  /** RAM still mirrors the old record. */
  lemma StayedLive(f: Flash, r: Ram, issued: nat, p: seq<byte>)
    requires Live(f, r, issued) && PageOk(p)
    requires p == PageOf(f, Other(r.slot)) || OtherOk(p, Generation(r.head), issued)
    ensures Live(WithPage(f, NextSlot(r), p), r, issued)
  {
  }

  /** RAM mirrors the new record. */
  lemma MovedLive(f: Flash, r: Ram, issued: nat, p: seq<byte>)
    requires Live(f, r, 0) && PageOk(p) && Valid(p)
    requires Generation(p) == Generation(r.head) + 1 && issued <= Counter(p)
    ensures Live(WithPage(f, NextSlot(r), p), r.(slot := NextSlot(r), head := p[..HEAD], state := p[8]), issued)
    ensures Counter(p[..HEAD]) == Counter(p)
  {
    HeadReads(p);
    HeadReads(PageOf(f, r.slot));
  }

  /** Cut a write anywhere and start again: exactly the old record or exactly the new one is
      there, and the new one whenever the write had returned true. */
  lemma OldOrNew(f: Flash, r: Ram, issued: nat, state: byte, rec: Option<Peer>, counter: u32, w: Wear)
    requires Live(f, r, issued) && InSync(f, r) && !Refused(r)
    requires PeerOk(rec) && SAVED <= state <= PAIRING && Counter(r.head) <= counter
    requires Possible(w, Protected(NewBody(r, state, rec, counter)))
    ensures var o := WriteRecord(f, r, state, rec, counter, w);
      FlashOk(o.f)
      && var again := Load(o.f, ALL_READS);
      && 0 <= again.slot <= 1
      && (PageOf(o.f, again.slot) == PageOf(f, r.slot) || PageOf(o.f, again.slot) == NewRecord(r, state, rec, counter))
      && (o.ok ==> PageOf(o.f, again.slot) == NewRecord(r, state, rec, counter))
      && again.head == PageOf(o.f, again.slot)[..HEAD] && again.state == again.head[8]
  {
    WriteLive(f, r, issued, state, rec, counter, w);
    PageAfterWrite(PageOf(f, Other(r.slot)), NewBody(r, state, rec, counter), w);
    NewRecordReads(r, state, rec, counter);
    var o := WriteRecord(f, r, state, rec, counter, w);
    HeadReads(PageOf(f, r.slot));
    HeadReads(NewRecord(r, state, rec, counter));
    LiveReloads(o.f, o.r, issued, ALL_READS);
  }

  /** After a write that failed although it was committed, RAM is one record behind; a further
      write then leaves the record in RAM, the one it is behind, or the newest. */
  lemma OneOfThree(f: Flash, r: Ram, issued: nat, state: byte, rec: Option<Peer>, counter: u32, w: Wear)
    requires Live(f, r, issued) && !InSync(f, r) && !Refused(r)
    requires PeerOk(rec) && SAVED <= state <= PAIRING && Counter(r.head) <= counter
    requires Possible(w, Protected(NewBody(r, state, rec, counter)))
    ensures var o := WriteRecord(f, r, state, rec, counter, w);
      FlashOk(o.f)
      && var page := PageOf(o.f, Load(o.f, ALL_READS).slot);
      && (page == PageOf(f, r.slot) || page == NewRecord(r, state, rec, counter)
          || (page == PageOf(f, Other(r.slot)) && !w.erased))
      && (o.ok ==> page == NewRecord(r, state, rec, counter))
  {
    WriteLive(f, r, issued, state, rec, counter, w);
    PageAfterWrite(PageOf(f, Other(r.slot)), NewBody(r, state, rec, counter), w);
    NewRecordReads(r, state, rec, counter);
    var o := WriteRecord(f, r, state, rec, counter, w);
    HeadReads(PageOf(f, r.slot));
    HeadReads(PageOf(f, Other(r.slot)));
    HeadReads(NewRecord(r, state, rec, counter));
    LiveReloads(o.f, o.r, issued, ALL_READS);
  }

  /** A write that reports success is found again after a reset exactly when the staged address
      type is 0 or 1; otherwise the record it replaced comes back. */
  lemma FoundAgainExactly(f: Flash, r: Ram, state: byte, rec: Option<Peer>, counter: u32, w: Wear)
    requires Live(f, r.(staged := NOTHING_STAGED), 0) && RamOk(r) && !Refused(r)
    requires PeerOk(rec) && SAVED <= state <= PAIRING
    requires Possible(w, Protected(NewBody(r, state, rec, counter)))
    requires WriteRecord(f, r, state, rec, counter, w).ok
    ensures var o := WriteRecord(f, r, state, rec, counter, w);
      FlashOk(o.f)
      && var page := PageOf(o.f, Load(o.f, ALL_READS).slot);
      && (page == NewRecord(r, state, rec, counter) <==> r.staged.kind <= 1)
      && (page == PageOf(f, r.slot) <==> r.staged.kind > 1)
  {
    PageAfterWrite(PageOf(f, Other(r.slot)), NewBody(r, state, rec, counter), w);
    NewRecordReads(r, state, rec, counter);
    var o := WriteRecord(f, r, state, rec, counter, w);
    HeadReads(PageOf(f, r.slot));
    HeadReads(NewRecord(r, state, rec, counter));
    var slot := if r.staged.kind <= 1 then Other(r.slot) else r.slot;
    assert Picks(o.f, slot);
    LoadPicks(o.f, slot, ALL_READS);
    assert PageOf(f, r.slot) != NewRecord(r, state, rec, counter);
  }

  /** What a committed record with a peer says about it. */
  lemma PeerReads(r: Ram, rec: Peer, counter: u32)
    requires RamOk(r) && |rec.name| == 47 && !Refused(r)
    ensures var h := NewRecord(r, SAVED, Some(rec), counter)[..HEAD];
      PeerId(h) == rec.id && (h[21] != 0 <==> rec.auto) && h[32..79] == rec.name
  {
    var gen := NextGeneration(r);
    CommittedReads(gen, SAVED, Some(rec), counter, r.staged);
    BodyReads(gen, SAVED, Some(rec), counter, r.staged);
    var b, p := NewBody(r, SAVED, Some(rec), counter), NewRecord(r, SAVED, Some(rec), counter);
    HeadSlices(b, p, rec.name);
    assert p[21..24][0] == p[21];
  }

  lemma HeadSlices(b: seq<byte>, p: seq<byte>, name: seq<byte>)
    requires |b| == CRC_OFF && p == Committed(b) && |name| == 47 && b[32..80] == name + [0]
    ensures p[..HEAD][16..20] == p[16..20] && p[..HEAD][21] == p[21] && p[..HEAD][32..79] == name
  {
    assert p[..HEAD] == b[..HEAD];
    assert b[32..79] == b[32..80][..47] == name;
    assert p[..HEAD][32..79] == b[32..79];
  }

  /** A peer whose save returned true is the peer that is loaded, at once and after any reset
      that can read the EEPROM. */
  lemma SavedIsLoaded(f: Flash, r: Ram, issued: nat, rec: Peer, w: Wear, good: nat)
    requires Live(f, r, issued) && OpOk(Save(rec, w)) && WearOk(r, Save(rec, w)) && good >= 2
    requires Apply(f, r, Save(rec, w)).ok
    ensures var o := Apply(f, r, Save(rec, w));
      && RamOk(o.r) && StoredPeer(o.r) == Some(rec)
      && FlashOk(o.f) && RamOk(Load(o.f, good)) && StoredPeer(Load(o.f, good)) == Some(rec)
  {
    CounterIs32(r);
    var o := Apply(f, r, Save(rec, w));
    WriteLive(f, r, issued, SAVED, Some(rec), PeerCounter(r), w);
    WrittenInSync(f, r, SAVED, Some(rec), PeerCounter(r), w);
    PeerReads(r, rec, PeerCounter(r));
    LiveReloads(o.f, o.r, issued, good);
  }

  // ----- before there is any record -----

  /** No record yet, except perhaps one that a failed first write committed. */
  predicate Virgin(f: Flash, r: Ram)
  {
    FlashOk(f) && RamOk(r) && r.staged.kind <= 1 && !Valid(PageOf(f, Other(NextSlot(r))))
  }

  lemma WriteVirgin(f: Flash, r: Ram, state: byte, rec: Option<Peer>, counter: u32, w: Wear)
    requires Virgin(f, r) && PeerOk(rec) && SAVED <= state <= PAIRING
    requires Refused(r) || Possible(w, Protected(NewBody(r, state, rec, counter)))
    ensures var o := WriteRecord(f, r, state, rec, counter, w);
      && (o.ok ==> Live(o.f, o.r, counter) && Live(o.f, o.r, 0) && Counter(o.r.head) == counter)
      && (!o.ok ==> Virgin(o.f, o.r))
  {
    if !Refused(r) {
      PageAfterWrite(PageOf(f, NextSlot(r)), NewBody(r, state, rec, counter), w);
      CommittedReads(NextGeneration(r), state, rec, counter, r.staged);
      HeadReads(NewRecord(r, state, rec, counter));
    }
  }

  lemma LoadWithoutRecord(f: Flash, good: nat)
    requires FlashOk(f) && !Valid(f.a) && !Valid(f.b)
    ensures Virgin(f, Load(f, good))
  {
  }

  lemma VirginReloads(f: Flash, r: Ram, good: nat)
    requires Virgin(f, r)
    ensures Inv(f, Load(f, good), 0)
  {
    var slot := NextSlot(r);
    if Valid(PageOf(f, slot)) {
      LoadPicks(f, slot, good);
      LoadPicks(f, slot, ALL_READS);
      HeadReads(PageOf(f, slot));
    } else {
      LoadWithoutRecord(f, good);
    }
  }

  // ----- every run -----

  /** RAM is live; or reading failed and nothing is written until the next reset; or there is
      no record yet and no id was handed out. */
  predicate Inv(f: Flash, r: Ram, issued: nat)
  {
    && FlashOk(f) && RamOk(r)
    && (Live(f, r, issued) || (r.state == BAD && Live(f, Load(f, ALL_READS), issued)) || (issued == 0 && Virgin(f, r)))
  }

  predicate Allowed(r: Ram, op: Op)
  {
    RamOk(r) && OpOk(op) && WearOk(r, op) && (op.Stage? ==> op.kind <= 1)
  }

  /** The id that a successful `board_begin_pair` hands out. */
  function Issued(r: Ram, op: Op, ok: bool): seq<nat>
    requires RamOk(r)
  {
    if op.Pair? && ok then [PeerCounter(r)] else []
  }

  function Newest(issued: nat, ids: seq<nat>): nat
  {
    if ids == [] then issued else ids[|ids| - 1]
  }

  lemma RestageLive(f: Flash, r: Ram, issued: nat, st: Staged)
    requires Live(f, r, issued) && StagedOk(st) && st.kind <= 1
    ensures Live(f, r.(staged := st), issued)
  {
  }

  lemma PairWriteLive(f: Flash, r: Ram, issued: nat, counter: u32, w: Wear)
    requires Live(f, r, issued) && counter == Counter(r.head) + 1
    requires Refused(r) || Possible(w, Protected(NewBody(r, PAIRING, None, counter)))
    ensures var o := WriteRecord(f, r, PAIRING, None, counter, w);
      && Live(o.f, o.r, Newest(issued, Issued(o.r, Pair(w), o.ok)))
      && (o.ok ==> PeerCounter(o.r) > issued)
  {
    WriteLive(f, r, issued, PAIRING, None, counter, w);
  }

  lemma PairLive(f: Flash, r: Ram, issued: nat, w: Wear)
    requires Live(f, r, issued) && WearOk(r, Pair(w))
    ensures var o := Apply(f, r, Pair(w));
      && RamOk(o.r) && Live(o.f, o.r, Newest(issued, Issued(o.r, Pair(w), o.ok)))
      && (o.ok ==> PeerCounter(o.r) > issued)
  {
    if !PairRefused(r) {
      CounterIs32(r);
      RestageLive(f, r, issued, PairStaged(r).staged);
      PairWriteLive(f, PairStaged(r), issued, PeerCounter(r) + 1, w);
    }
  }

  lemma LiveStep(f: Flash, r: Ram, issued: nat, op: Op)
    requires Live(f, r, issued) && Allowed(r, op)
    ensures var o := Apply(f, r, op);
      && RamOk(o.r) && Inv(o.f, o.r, Newest(issued, Issued(o.r, op, o.ok)))
      && (op.Pair? && o.ok ==> PeerCounter(o.r) > issued)
  {
    CounterIs32(r);
    match op
    case Pair(w) => PairLive(f, r, issued, w);
    case Forget(w) => WriteLive(f, r, issued, DELETING, None, PeerCounter(r), w);
    case Save(rec, w) =>
      if rec.id != 0 {
        WriteLive(f, r, issued, SAVED, Some(rec), PeerCounter(r), w);
      }
    case Clear(w) =>
      RestageLive(f, r, issued, Unstaged(r).staged);
      WriteLive(f, Unstaged(r), issued, SAVED, None, PeerCounter(r), w);
    case Stage(addr, kind) =>
    case Invalidate =>
    case HidFlags(flags) =>
    case Reboot(good) =>
      LiveReloads(f, r, issued, good);
      LiveReloads(f, r, issued, ALL_READS);
  }

  lemma BadStep(f: Flash, r: Ram, issued: nat, op: Op)
    requires FlashOk(f) && r.state == BAD && Live(f, Load(f, ALL_READS), issued) && Allowed(r, op)
    ensures var o := Apply(f, r, op);
      && RamOk(o.r) && Inv(o.f, o.r, issued) && (op.Pair? ==> !o.ok)
  {
    if op.Reboot? {
      LiveReloads(f, Load(f, ALL_READS), issued, op.good);
      LiveReloads(f, Load(f, ALL_READS), issued, ALL_READS);
    }
  }

  lemma VirginPairWrite(f: Flash, r: Ram, counter: u32, w: Wear)
    requires Virgin(f, r) && counter > 0
    requires Refused(r) || Possible(w, Protected(NewBody(r, PAIRING, None, counter)))
    ensures var o := WriteRecord(f, r, PAIRING, None, counter, w);
      && RamOk(o.r) && Inv(o.f, o.r, Newest(0, Issued(o.r, Pair(w), o.ok)))
      && (o.ok ==> PeerCounter(o.r) > 0)
  {
    WriteVirgin(f, r, PAIRING, None, counter, w);
  }

  lemma VirginPair(f: Flash, r: Ram, w: Wear)
    requires Virgin(f, r) && WearOk(r, Pair(w))
    ensures var o := Apply(f, r, Pair(w));
      && RamOk(o.r) && Inv(o.f, o.r, Newest(0, Issued(o.r, Pair(w), o.ok)))
      && (o.ok ==> PeerCounter(o.r) > 0)
  {
    if !PairRefused(r) {
      CounterIs32(r);
      VirginPairWrite(f, PairStaged(r), PeerCounter(r) + 1, w);
    }
  }

  lemma VirginClear(f: Flash, r: Ram, w: Wear)
    requires Virgin(f, r) && WearOk(r, Clear(w))
    ensures var o := Apply(f, r, Clear(w)); RamOk(o.r) && Inv(o.f, o.r, 0)
  {
    CounterIs32(r);
    WriteVirgin(f, Unstaged(r), SAVED, None, PeerCounter(r), w);
  }

  lemma VirginStep(f: Flash, r: Ram, op: Op)
    requires Virgin(f, r) && Allowed(r, op)
    ensures var o := Apply(f, r, op);
      && RamOk(o.r) && Inv(o.f, o.r, Newest(0, Issued(o.r, op, o.ok)))
      && (op.Pair? && o.ok ==> PeerCounter(o.r) > 0)
  {
    CounterIs32(r);
    match op
    case Pair(w) => VirginPair(f, r, w);
    case Forget(w) => WriteVirgin(f, r, DELETING, None, PeerCounter(r), w);
    case Save(rec, w) =>
      if rec.id != 0 {
        WriteVirgin(f, r, SAVED, Some(rec), PeerCounter(r), w);
      }
    case Clear(w) => VirginClear(f, r, w);
    case Stage(addr, kind) =>
    case Invalidate =>
    case HidFlags(flags) =>
    case Reboot(good) => VirginReloads(f, r, good);
  }

  lemma StepInv(f: Flash, r: Ram, issued: nat, op: Op)
    requires Inv(f, r, issued) && Allowed(r, op)
    ensures var o := Apply(f, r, op);
      && RamOk(o.r) && Inv(o.f, o.r, Newest(issued, Issued(o.r, op, o.ok)))
      && (op.Pair? && o.ok ==> PeerCounter(o.r) > issued)
  {
    if Live(f, r, issued) {
      LiveStep(f, r, issued, op);
    } else if r.state == BAD && Live(f, Load(f, ALL_READS), issued) {
      BadStep(f, r, issued, op);
    } else {
      VirginStep(f, r, op);
    }
  }

  predicate AllowedRun(f: Flash, r: Ram, ops: seq<Op>)
    requires FlashOk(f)
    decreases |ops|
  {
    ops == []
    || (Allowed(r, ops[0])
        && var o := Apply(f, r, ops[0]);
        FlashOk(o.f) && AllowedRun(o.f, o.r, ops[1..]))
  }

  /** The ids handed out over a run. */
  function Ids(f: Flash, r: Ram, ops: seq<Op>): seq<nat>
    requires FlashOk(f) && AllowedRun(f, r, ops)
    decreases |ops|
  {
    if ops == [] then []
    else
      var o := Apply(f, r, ops[0]);
      (if RamOk(o.r) then Issued(o.r, ops[0], o.ok) else []) + Ids(o.f, o.r, ops[1..])
  }

  predicate Increasing(from: nat, ids: seq<nat>)
    decreases |ids|
  {
    ids == [] || (from < ids[0] && Increasing(ids[0], ids[1..]))
  }

  /** Over any operations, failures, power cuts and resets, ids only grow: none is handed out
      twice. */
  lemma {:induction false} IdsNeverRepeat(f: Flash, r: Ram, issued: nat, ops: seq<Op>)
    requires Inv(f, r, issued) && AllowedRun(f, r, ops)
    ensures Increasing(issued, Ids(f, r, ops))
    decreases |ops|
  {
    if ops != [] {
      var o := Apply(f, r, ops[0]);
      StepInv(f, r, issued, ops[0]);
      var now := Issued(o.r, ops[0], o.ok);
      IdsNeverRepeat(o.f, o.r, Newest(issued, now), ops[1..]);
      if now != [] {
        assert Ids(f, r, ops)[1..] == Ids(o.f, o.r, ops[1..]);
      } else {
        assert Ids(f, r, ops) == Ids(o.f, o.r, ops[1..]);
      }
    }
  }

  // ----- the first pairing on a blank EEPROM -----

  lemma ErasedCovers(want: byte)
    ensures Covers(255, want)
  {
    assert Crc32c.Pow2(8) == 256;
    forall i: nat | i < 8
      ensures Bits.Bit(255, i)
    {
      OnesAt(8, i);
    }
  }

  lemma {:induction false} OnesAt(n: nat, i: nat)
    requires i < n
    ensures Bits.Bit(Crc32c.Pow2(n) - 1, i)
    decreases i
  {
    assert (Crc32c.Pow2(n) - 1) / 2 == Crc32c.Pow2(n - 1) - 1;
    if i > 0 {
      OnesAt(n - 1, i - 1);
    }
  }

  lemma FilledCovers(have: seq<byte>, want: seq<byte>)
    requires |have| == |want| && forall i :: 0 <= i < |have| ==> have[i] == 255
    ensures AllCover(have, want)
  {
    forall i | 0 <= i < |have|
      ensures Covers(have[i], want[i])
    {
      ErasedCovers(want[i]);
    }
  }

  lemma CoverConcat(a: seq<byte>, b: seq<byte>, x: seq<byte>, y: seq<byte>)
    requires AllCover(a, x) && AllCover(b, y)
    ensures AllCover(a + b, x + y)
  {
  }

  /** Whatever one write leaves on an erased page is compatible with its record. */
  lemma NewPageCovers(body: seq<byte>, w: Wear)
    requires |body| == CRC_OFF && Possible(w, Protected(body))
    ensures AllCover(NewPage(BLANK, Protected(body), w), Committed(body))
  {
    FilledCovers(BLANK, Committed(body));
    FilledCovers(Filled(4), Le(COMMIT_WORD, 4));
    CoverConcat(w.body, Filled(4), Protected(body), Le(COMMIT_WORD, 4));
    CoverConcat(w.body, w.tail, Protected(body), Le(COMMIT_WORD, 4));
  }

  const EMPTY := Flash(BLANK, BLANK)

  lemma EmptyLoads(good: nat)
    ensures Load(EMPTY, good) == if good < 2 then BOOT.(state := BAD) else BOOT
  {
    BlankInvalid();
  }

  lemma BlankNotPending()
    ensures !PendingBody(BLANK)
  {
    assert BLANK[..4][0] == 255 != MAGIC[0];
  }

  /** Pages on which a first pairing may have been cut short load as blank or as pending. */
  lemma FirstLoads(p: seq<byte>)
    requires PageOk(p) && AllCover(p, Committed(FIRST)) && (Valid(p) ==> p == Committed(FIRST))
    ensures var r := Load(Flash(p, BLANK), ALL_READS);
      && (p == BLANK ==> r == BOOT)
      && (p != BLANK ==> r.state == PAIRING && r.slot == 0 && RamOk(r) && r.staged.kind <= 1)
      && (p != BLANK && !PendingBody(p) ==> Generation(r.head) == 1)
  {
    BlankInvalid();
    BlankNotPending();
    CommittedReads(1, PAIRING, None, 1, NOTHING_STAGED);
    HeadReads(Committed(FIRST));
    HeadReads(p);
  }

  /** The EEPROM after the first pairing. */
  function AfterFirst(w: Wear): (f: Flash)
    requires Possible(w, Protected(FIRST))
    ensures FlashOk(f)
  {
    Flash(NewPage(BLANK, Protected(FIRST), w), BLANK)
  }

  lemma FirstPairWrites(w: Wear)
    requires Possible(w, Protected(FIRST))
    ensures Apply(EMPTY, BOOT, Pair(w)).f == AfterFirst(w)
    ensures Apply(EMPTY, BOOT, Pair(w)).ok == Succeeds(Protected(FIRST), w)
  {
    assert PairStaged(BOOT) == BOOT;
    assert NewBody(BOOT, PAIRING, None, 1) == FIRST;
  }

  /** The first pairing on a blank EEPROM, cut or failing anywhere, reloads as still blank or as
      a pending pairing: never as corrupt, never as a saved record. */
  lemma FirstPairing(w: Wear)
    requires Possible(w, Protected(FIRST))
    ensures var again := Load(AfterFirst(w), ALL_READS);
      && (if AfterFirst(w) == EMPTY then again == BOOT else again.state == PAIRING && again.slot == 0)
      && (Succeeds(Protected(FIRST), w) ==> again.state == PAIRING)
      && Inv(AfterFirst(w), again, 0)
  {
    var p := NewPage(BLANK, Protected(FIRST), w);
    BlankInvalid();
    PageAfterWrite(BLANK, FIRST, w);
    NewPageCovers(FIRST, w);
    FirstLoads(p);
    assert Virgin(AfterFirst(w), BOOT);
    VirginReloads(AfterFirst(w), BOOT, ALL_READS);
  }

  /** The EEPROM does all that a clear asks of it. */
  predicate Undisturbed(r: Ram, w: Wear)
    requires RamOk(r)
  {
    CounterIs32(r);
    Refused(r) || Succeeds(Protected(NewBody(Unstaged(r), SAVED, None, PeerCounter(r))), w)
  }

  /** An undisturbed clear from any state that is not bad ends in a saved record without a peer,
      exactly when the generation is not exhausted. */
  lemma ClearCommits(f: Flash, r: Ram, w: Wear)
    requires Inv(f, r, 0) && r.state != BAD && Undisturbed(r, w) && WearOk(r, Clear(w))
    ensures var o := Apply(f, r, Clear(w));
      && (o.ok <==> r.slot < 0 || Generation(r.head) < U32_MAX)
      && (o.ok ==> Live(o.f, o.r, 0) && InSync(o.f, o.r) && o.r.state == SAVED && PeerCounter(o.r) == PeerCounter(r))
  {
    CounterIs32(r);
    if !Refused(r) {
      var r1 := Unstaged(r);
      if Live(f, r, 0) {
        RestageLive(f, r, 0, r1.staged);
        WriteLive(f, r1, 0, SAVED, None, PeerCounter(r), w);
      } else {
        WriteVirgin(f, r1, SAVED, None, PeerCounter(r), w);
      }
      WrittenInSync(f, r1, SAVED, None, PeerCounter(r), w);
    }
  }

  lemma WrittenInSync(f: Flash, r: Ram, state: byte, rec: Option<Peer>, counter: u32, w: Wear)
    requires PeerOk(rec) && RamOk(r) && FlashOk(f) && !Refused(r)
    requires (exists n :: Live(f, r, n)) || Virgin(f, r)
    requires WriteRecord(f, r, state, rec, counter, w).ok && Possible(w, Protected(NewBody(r, state, rec, counter)))
    ensures var o := WriteRecord(f, r, state, rec, counter, w); FlashOk(o.f) && RamOk(o.r) && InSync(o.f, o.r)
  {
    PageAfterWrite(PageOf(f, NextSlot(r)), NewBody(r, state, rec, counter), w);
    CommittedReads(NextGeneration(r), state, rec, counter, r.staged);
    HeadReads(NewRecord(r, state, rec, counter));
    HeadReads(PageOf(f, Other(NextSlot(r))));
  }

  /** Octets are programmed in order and the cut falls at octet `k`, leaving `x` there. */
  predicate CutAt(body: seq<byte>, target: seq<byte>, k: nat, x: byte)
  {
    && |body| == |target| && k < |target|
    && body[..k] == target[..k] && body[k] == x && Covers(x, target[k])
    && forall i :: k < i < |body| ==> body[i] == 255
  }

  /** Octet 8 is programmed only after the octets before it. */
  lemma StartProgrammed(body: seq<byte>, target: seq<byte>, k: nat, x: byte)
    requires CutAt(body, target, k, x) && |body| == COMMIT_OFF && body[8] == PAIRING
    ensures body[..8] == target[..8]
  {
    assert k >= 8;
    assert body[..8] == body[..k][..8] && target[..8] == target[..k][..8];
  }

  lemma StartOfPage(old_: seq<byte>, target: seq<byte>, w: Wear)
    requires |w.body| == |target| == COMMIT_OFF && NewPage(old_, target, w) != old_ && old_ == BLANK && |w.tail| == 4
    ensures NewPage(old_, target, w)[..9] == w.body[..9]
  {
  }

  lemma OrderedStart(body: seq<byte>, w: Wear, k: nat, x: byte)
    requires |body| == CRC_OFF && Possible(w, Protected(body))
    requires CutAt(w.body, Protected(body), k, x) || w.body == Protected(body)
    requires var p := NewPage(BLANK, Protected(body), w); p != BLANK && p[8] == PAIRING
    ensures NewPage(BLANK, Protected(body), w)[..8] == Committed(body)[..8]
  {
    var p := NewPage(BLANK, Protected(body), w);
    StartOfPage(BLANK, Protected(body), w);
    assert p[8] == p[..9][8] == w.body[..9][8] == w.body[8];
    if w.body != Protected(body) {
      StartProgrammed(w.body, Protected(body), k, x);
    }
    assert p[..8] == p[..9][..8] == w.body[..9][..8] == w.body[..8];
    assert Committed(body)[..8] == Protected(body)[..8];
  }

  lemma OrderedGeneration(w: Wear, k: nat, x: byte)
    requires Possible(w, Protected(FIRST)) && (CutAt(w.body, Protected(FIRST), k, x) || w.body == Protected(FIRST))
    requires AfterFirst(w) != EMPTY
    ensures Generation(Load(AfterFirst(w), ALL_READS).head) == 1
  {
    var p := NewPage(BLANK, Protected(FIRST), w);
    PageAfterWrite(BLANK, FIRST, w);
    NewPageCovers(FIRST, w);
    BlankInvalid();
    FirstLoads(p);
    if PendingBody(p) {
      PendingHead(p);
      OrderedStart(FIRST, w, k, x);
      SameGeneration(p, Committed(FIRST));
      CommittedReads(1, PAIRING, None, 1, NOTHING_STAGED);
    }
  }

  /** A pending body is what is loaded from the first page. */
  lemma PendingHead(p: seq<byte>)
    requires PageOk(p) && PendingBody(p) && p != BLANK && (Valid(p) ==> p == Committed(FIRST))
    ensures Generation(Load(Flash(p, BLANK), ALL_READS).head) == Generation(p)
  {
    BlankInvalid();
    HeadReads(p);
  }

  lemma SameGeneration(p: seq<byte>, q: seq<byte>)
    requires PageOk(p) && PageOk(q) && p[..8] == q[..8]
    ensures Generation(p) == Generation(q)
  {
    assert p[4..8] == p[..8][4..8] == q[..8][4..8] == q[4..8];
  }

  /** Programming in order: a first pairing cut at any octet and then cleared ends in a saved
      record, always. */
  lemma FirstPairingThenClear(w: Wear, k: nat, x: byte, w2: Wear)
    requires Possible(w, Protected(FIRST)) && (CutAt(w.body, Protected(FIRST), k, x) || w.body == Protected(FIRST))
    requires var again := Load(AfterFirst(w), ALL_READS); RamOk(again) && Undisturbed(again, w2) && WearOk(again, Clear(w2))
    ensures var c := Apply(AfterFirst(w), Load(AfterFirst(w), ALL_READS), Clear(w2));
      c.ok && FlashOk(c.f) && Load(c.f, ALL_READS).state == SAVED
  {
    FirstPairing(w);
    var f, again := AfterFirst(w), Load(AfterFirst(w), ALL_READS);
    if f != EMPTY {
      OrderedGeneration(w, k, x);
    }
    ClearCommits(f, again, w2);
    var c := Apply(f, again, Clear(w2));
    LiveReloads(c.f, c.r, 0, ALL_READS);
  }

  /** From a blank EEPROM, or one with a committed record, over any operations, failures, power
      cuts and resets: ids are handed out in increasing order, above those handed out before. */
  lemma IdsOverAnyRun(f: Flash, slot: int, good: nat, ops: seq<Op>)
    requires FlashOk(f) && (f == EMPTY || (0 <= slot <= 1 && Picks(f, slot)))
    requires AllowedRun(f, Load(f, good), ops)
    ensures Increasing(if f == EMPTY then 0 else Counter(PageOf(f, slot)), Ids(f, Load(f, good), ops))
  {
    if f == EMPTY {
      BlankInvalid();
      EmptyLoads(good);
      IdsNeverRepeat(f, Load(f, good), 0, ops);
    } else {
      LoadPicks(f, slot, good);
      LoadPicks(f, slot, ALL_READS);
      HeadReads(PageOf(f, slot));
      IdsNeverRepeat(f, Load(f, good), Counter(PageOf(f, slot)), ops);
    }
  }

  // ----- what the recovery of a first pairing does not cover -----

  /** When no page is a record and the recovery finds nothing: a good reload gives up exactly
      then. */
  lemma LoadsBadExactly(a: seq<byte>, b: seq<byte>)
    requires PageOk(a) && PageOk(b)
    ensures Load(Flash(a, b), ALL_READS).state == BAD <==>
      && !Valid(a) && !Valid(b) && Flash(a, b) != EMPTY && !PendingBody(a) && !PendingBody(b)
      && !(b == BLANK && AllCover(a, Committed(FIRST)))
  {
    HeadReads(a);
    HeadReads(b);
  }

  /** The body that a clear writes after a first pairing. */
  function ClearBody(r: Ram): (b: seq<byte>)
    requires RamOk(r) && !Refused(r)
    ensures |b| == CRC_OFF
  {
    CounterIs32(r);
    NewBody(Unstaged(r), SAVED, None, PeerCounter(r))
  }

  lemma ClearWrites(f: Flash, r: Ram, w: Wear)
    requires FlashOk(f) && RamOk(r) && !Refused(r) && r.slot == 0
    ensures Apply(f, r, Clear(w)).f == f.(b := NewPage(f.b, Protected(ClearBody(r)), w))
  {
    CounterIs32(r);
  }

  /** The octets of the first pairing do not make up a body that the recovery recognises. */
  predicate TornPairing(w: Wear)
    requires Possible(w, Protected(FIRST))
  {
    AfterFirst(w).a != BLANK && !PendingBody(AfterFirst(w).a)
  }

  /** The clear had begun to program its page, and neither its commit word nor a body that the
      recovery would take for a pairing was there. */
  predicate TornClear(body: seq<byte>, w: Wear)
    requires |body| == CRC_OFF && Possible(w, Protected(body))
  {
    PageAfterWrite(BLANK, body, w);
    var b := NewPage(BLANK, Protected(body), w);
    b != BLANK && b != Committed(body) && !PendingBody(b)
  }

  lemma ClearBodyValid(r: Ram)
    requires RamOk(r) && !Refused(r) && r.staged.kind <= 1
    ensures Valid(Committed(ClearBody(r)))
  {
    CounterIs32(r);
    CommittedReads(NextGeneration(Unstaged(r)), SAVED, None, PeerCounter(r), Unstaged(r).staged);
  }

  /** A first pairing cut anywhere, a restart, a clear cut anywhere, a restart: the EEPROM is
      corrupt exactly when both writes were torn. */
  lemma SecondCutExactly(w: Wear, w2: Wear)
    requires Possible(w, Protected(FIRST)) && AfterFirst(w) != EMPTY
    requires var again := Load(AfterFirst(w), ALL_READS);
      RamOk(again) && !Refused(again) && Possible(w2, Protected(ClearBody(again)))
    ensures var again := Load(AfterFirst(w), ALL_READS);
      var o := Apply(AfterFirst(w), again, Clear(w2));
      FlashOk(o.f) && (Load(o.f, ALL_READS).state == BAD <==> TornPairing(w) && TornClear(ClearBody(again), w2))
  {
    var f, again := AfterFirst(w), Load(AfterFirst(w), ALL_READS);
    FirstPairing(w);
    BlankInvalid();
    PageAfterWrite(BLANK, FIRST, w);
    NewPageCovers(FIRST, w);
    FirstLoads(f.a);
    ClearWrites(f, again, w2);
    PageAfterWrite(BLANK, ClearBody(again), w2);
    ClearBodyValid(again);
    CommittedIsPending();
    LoadsBadExactly(f.a, NewPage(BLANK, Protected(ClearBody(again)), w2));
  }

  lemma CommittedIsPending()
    ensures PendingBody(Committed(FIRST))
  {
    CommittedReads(1, PAIRING, None, 1, NOTHING_STAGED);
    CommitReads(FIRST);
  }

  /** Nothing but the first octet of the magic was programmed when the power went. */
  function CutWear(): Wear
  {
    Wear(true, true, Started(COMMIT_OFF - 1), false, true, Filled(4), true, true)
  }

  function Started(rest: nat): (p: seq<byte>)
    ensures |p| == rest + 1
  {
    [MAGIC[0]] + Filled(rest)
  }

  lemma CutWearPossible(body: seq<byte>)
    requires |body| == CRC_OFF && body[0] == MAGIC[0]
    ensures Possible(CutWear(), Protected(body))
    ensures NewPage(BLANK, Protected(body), CutWear()) == Started(SIZE - 1)
  {
    var have, want := Started(COMMIT_OFF - 1), Protected(body);
    forall i | 0 <= i < COMMIT_OFF
      ensures Covers(have[i], want[i])
    {
      if i > 0 {
        ErasedCovers(want[i]);
      }
    }
    FilledCovers(Filled(4), Le(COMMIT_WORD, 4));
    assert have + Filled(4) == Started(SIZE - 1);
  }

  lemma StartedFacts(p: seq<byte>)
    requires p == Started(SIZE - 1)
    ensures PageOk(p) && p != BLANK && !Valid(p) && !PendingBody(p)
  {
    assert p[..4][1] == 255 != MAGIC[1];
    assert p[0] != BLANK[0];
  }

  lemma BodyStarts(gen: u32, state: byte, rec: Option<Peer>, counter: u32, st: Staged)
    requires StagedOk(st) && PeerOk(rec)
    ensures Body(gen, state, rec, counter, st)[0] == MAGIC[0]
  {
    var b := Body(gen, state, rec, counter, st);
    CommittedReads(gen, state, rec, counter, st);
    assert Committed(b)[..4][0] == b[0];
    WordsStart(gen, state, counter, IdOf(rec), Flags(rec, st));
  }

  lemma WordsStart(gen: u32, state: byte, counter: u32, id: u32, flags: seq<byte>)
    requires |flags| == 3
    ensures Words(gen, state, counter, id, flags)[0] == MAGIC[0]
  {
  }

  /** Both cut after one octet, reached by the operations themselves. */
  lemma TornTwice()
    ensures WearOk(BOOT, Pair(CutWear()))
    ensures var o := Apply(EMPTY, BOOT, Pair(CutWear()));
      FlashOk(o.f)
      && var again := Load(o.f, ALL_READS);
      && again.state == PAIRING && RamOk(again) && WearOk(again, Clear(CutWear()))
      && var c := Apply(o.f, again, Clear(CutWear()));
      FlashOk(c.f) && Load(c.f, ALL_READS).state == BAD
  {
    BodyStarts(1, PAIRING, None, 1, NOTHING_STAGED);
    CutWearPossible(FIRST);
    FirstPairWrites(CutWear());
    FirstPairing(CutWear());
    StartedFacts(Started(SIZE - 1));
    var f, again := AfterFirst(CutWear()), Load(AfterFirst(CutWear()), ALL_READS);
    PageAfterWrite(BLANK, FIRST, CutWear());
    NewPageCovers(FIRST, CutWear());
    FirstLoads(f.a);
    CounterIs32(again);
    BodyStarts(NextGeneration(Unstaged(again)), SAVED, None, PeerCounter(again), Unstaged(again).staged);
    CutWearPossible(ClearBody(again));
    NotCommitted(ClearBody(again));
    SecondCutExactly(CutWear(), CutWear());
    assert PairStaged(BOOT) == BOOT && NewBody(BOOT, PAIRING, None, 1) == FIRST;
  }

  lemma NotCommitted(body: seq<byte>)
    requires |body| == CRC_OFF
    ensures Started(SIZE - 1) != Committed(body)
  {
    FilledIsNotCommit();
    var p := Started(SIZE - 1);
    assert p[COMMIT_OFF..] == Filled(4) && Committed(body)[COMMIT_OFF..] == Le(COMMIT_WORD, 4);
  }

  // ----- other first writes -----

  /** Any first write to a blank EEPROM, cut anywhere: when it reloads as corrupt. */
  lemma FirstWriteExactly(body: seq<byte>, w: Wear)
    requires |body| == CRC_OFF && Possible(w, Protected(body))
    ensures var a := NewPage(BLANK, Protected(body), w);
      PageOk(a)
      && (Load(Flash(a, BLANK), ALL_READS).state == BAD <==>
            a != BLANK && !Valid(a) && !PendingBody(a) && !AllCover(a, Committed(FIRST)))
  {
    BlankInvalid();
    BlankNotPending();
    PageAfterWrite(BLANK, body, w);
    LoadsBadExactly(NewPage(BLANK, Protected(body), w), BLANK);
  }

  /** The body is there and verified, the commit word is not. */
  function BodyOnly(body: seq<byte>): Wear
    requires |body| == CRC_OFF
  {
    Wear(true, true, Protected(body), true, true, Filled(4), false, true)
  }

  lemma CoversItself(x: seq<byte>)
    ensures AllCover(x, x)
  {
  }

  /** A first write that is not a pairing, cut before its commit word, reloads as corrupt. */
  lemma FirstForgetCut()
    ensures var body := Body(1, DELETING, None, 0, NOTHING_STAGED);
      var w := BodyOnly(body);
      && WearOk(BOOT, Forget(w)) && FlashOk(Apply(EMPTY, BOOT, Forget(w)).f)
      && Load(Apply(EMPTY, BOOT, Forget(w)).f, ALL_READS).state == BAD
  {
    var body := Body(1, DELETING, None, 0, NOTHING_STAGED);
    var w := BodyOnly(body);
    CoversItself(Protected(body));
    FilledCovers(Filled(4), Le(COMMIT_WORD, 4));
    assert NewBody(BOOT, DELETING, None, 0) == body;
    var a := Protected(body) + Filled(4);
    assert Apply(EMPTY, BOOT, Forget(w)).f == Flash(a, BLANK);
    FilledIsNotCommit();
    UncommittedInvalid(Protected(body), Filled(4));
    StateOctet(body, DELETING);
    StateOctets();
    FirstWriteExactly(body, w);
  }

  lemma StateOctet(body: seq<byte>, state: byte)
    requires body == Body(1, state, None, 0, NOTHING_STAGED)
    ensures (Protected(body) + Filled(4))[8] == state
  {
    CommittedReads(1, state, None, 0, NOTHING_STAGED);
    assert Committed(body)[8] == Protected(body)[8];
  }

  /** A deletion does not cover a pairing at octet 8. */
  lemma StateOctets()
    ensures Committed(FIRST)[8] == PAIRING && !Covers(DELETING, PAIRING)
  {
    CommittedReads(1, PAIRING, None, 1, NOTHING_STAGED);
    assert Bits.Bit(PAIRING, 0) && !Bits.Bit(DELETING, 0);
  }

  // ----- a save that is lost -----

  /** An EEPROM that does all it is asked. */
  function Perfect(body: seq<byte>): Wear
    requires |body| == CRC_OFF
  {
    Wear(true, true, Protected(body), true, true, Le(COMMIT_WORD, 4), true, true)
  }

  lemma PerfectSucceeds(body: seq<byte>)
    requires |body| == CRC_OFF
    ensures Possible(Perfect(body), Protected(body)) && Succeeds(Protected(body), Perfect(body))
  {
    CoversItself(Protected(body));
    CoversItself(Le(COMMIT_WORD, 4));
  }

  function StagedTwo(r: Ram, addr: seq<byte>): Ram
  {
    r.(staged := r.staged.(addr := addr, kind := 2, valid := true))
  }

  /** With an address of type 2 staged, the save is not found again. */
  lemma OldComesBack(f: Flash, r: Ram, rec: Peer)
    requires Live(f, r.(staged := NOTHING_STAGED), 0) && RamOk(r) && !Refused(r) && r.staged.kind == 2
    requires |rec.name| == 47 && rec.id != 0 && PeerCounter(r) <= U32_MAX
    ensures var w := Perfect(NewBody(r, SAVED, Some(rec), PeerCounter(r)));
      && WearOk(r, Save(rec, w)) && Apply(f, r, Save(rec, w)).ok
      && var o := Apply(f, r, Save(rec, w));
      FlashOk(o.f) && PageOf(o.f, Load(o.f, ALL_READS).slot) == PageOf(f, r.slot)
  {
    var body := NewBody(r, SAVED, Some(rec), PeerCounter(r));
    PerfectSucceeds(body);
    FoundAgainExactly(f, r, SAVED, Some(rec), PeerCounter(r), Perfect(body));
  }

  lemma StageTwo(f: Flash, r: Ram, addr: seq<byte>, issued: nat)
    requires Live(f, r, issued) && !Refused(r) && |addr| == 6
    ensures Apply(f, r, Stage(addr, 2)).r == StagedTwo(r, addr)
    ensures var r1 := StagedTwo(r, addr);
      RamOk(r1) && !Refused(r1) && PeerCounter(r1) <= U32_MAX && Live(f, r1.(staged := NOTHING_STAGED), 0)
  {
    CounterIs32(StagedTwo(r, addr));
  }

  /** From any live state: an address of type 2 is staged, a peer saved with success, the board
      restarted; the record from before is back. */
  lemma SavedAndLost(f: Flash, r: Ram, issued: nat, addr: seq<byte>, rec: Peer)
    requires Live(f, r, issued) && !Refused(r) && |addr| == 6 && |rec.name| == 47 && rec.id != 0
    ensures var r1 := Apply(f, r, Stage(addr, 2)).r;
      && r1 == StagedTwo(r, addr) && RamOk(r1) && !Refused(r1) && PeerCounter(r1) <= U32_MAX
      && var w := Perfect(NewBody(r1, SAVED, Some(rec), PeerCounter(r1)));
      && WearOk(r1, Save(rec, w)) && Apply(f, r1, Save(rec, w)).ok
      && var o := Apply(f, r1, Save(rec, w));
      FlashOk(o.f) && PageOf(o.f, Load(o.f, ALL_READS).slot) == PageOf(f, r.slot)
  {
    StageTwo(f, r, addr, issued);
    OldComesBack(f, StagedTwo(r, addr), rec);
  }
}
