/** The journal as the firmware keeps it: RAM loaded on first use, one page written at a time. */
module JournalStore {
  import opened Bytes
  import opened Options
  import opened Journal
  import Bits
  import Crc32c

  /** The scan that sets `dirty`. */
  method IsBlank(page: seq<byte>) returns (blank: bool)
    requires PageOk(page)
    ensures blank <==> page == BLANK
  {
    blank := true;
    for j := 0 to SIZE
      invariant blank <==> forall i :: 0 <= i < j ==> page[i] == 255
    {
      if page[j] != 255 {
        blank := false;
      }
    }
    if blank {
      assert page == BLANK;
    } else {
      var i :| 0 <= i < SIZE && page[i] != 255;
      assert page[i] != BLANK[i];
    }
  }

  lemma OctetCovers(have: byte, want: byte)
    ensures Bits.And(have, want, 8) == want <==> Covers(have, want)
  {
    assert Crc32c.Pow2(8) == 256;
    Bits.AndWithin(have, want, 8);
  }

  /** The scan for octets that could still become the expected ones. */
  method Compatible(page: seq<byte>, expected: seq<byte>) returns (fits: bool)
    requires |page| == |expected|
    ensures fits <==> AllCover(page, expected)
  {
    for j := 0 to |page|
      invariant forall i :: 0 <= i < j ==> Covers(page[i], expected[i])
    {
      OctetCovers(page[j], expected[j]);
      if Bits.And(page[j], expected[j], 8) != expected[j] {
        return false;
      }
    }
    return true;
  }

  /** A record without a peer does not show whether an address was staged. */
  lemma ClearedBody(r: Ram)
    requires RamOk(r)
    ensures PeerCounter(r) <= U32_MAX
    ensures !Refused(r) ==> NewBody(Unstaged(r), SAVED, None, PeerCounter(r)) == NewBody(r, SAVED, None, PeerCounter(r))
  {
    CounterIs32(r);
  }

  class Store {
    var flash: Flash
    var good: nat
    var loaded: bool
    var ram: Ram

    ghost predicate Valid()
      reads this
    {
      FlashOk(flash) && (loaded ==> RamOk(ram)) && (!loaded ==> ram == BOOT)
    }

    /** RAM, or what loading will make of it. */
    ghost function Memory(): (r: Ram)
      requires Valid()
      reads this
    {
      if loaded then ram else Load(flash, good)
    }

    constructor (f: Flash, reads_: nat)
      requires FlashOk(f)
      ensures Valid() && flash == f && Memory() == Load(f, reads_)
    {
      flash, good, loaded, ram := f, reads_, false, BOOT;
    }

    method PowerUp(reads_: nat)
      requires Valid()
      modifies this
      ensures Valid() && flash == old(flash) && Memory() == Load(flash, reads_)
    {
      good, loaded, ram := reads_, false, BOOT;
    }

    /** The first pass over both pages; `ok` is false when a read failed. */
    method Scan() returns (ok: bool, dirty: bool)
      requires Valid() && !loaded
      modifies this
      ensures flash == old(flash) && !loaded
      ensures ok == (old(good) >= 2) && (ok ==> good == old(good) - 2)
      ensures ok ==> ram == Consider(Consider(BOOT, flash.a, 0), flash.b, 1)
      ensures ok ==> (dirty <==> flash.a != BLANK || flash.b != BLANK)
      ensures !ok ==> ram == if old(good) < 1 then BOOT else Consider(BOOT, flash.a, 0)
    {
      dirty := false;
      for i := 0 to 2
        invariant flash == old(flash) && !loaded && FlashOk(flash)
        invariant old(good) >= i && good == old(good) - i
        invariant ram == (if i == 0 then BOOT else if i == 1 then Consider(BOOT, flash.a, 0) else Consider(Consider(BOOT, flash.a, 0), flash.b, 1))
        invariant dirty <==> (i > 0 && flash.a != BLANK) || (i > 1 && flash.b != BLANK)
      {
        var read, page := good > 0, PageOf(flash, i);
        if !read {
          return false, dirty;
        }
        good := good - 1;
        var blank := IsBlank(page);
        if !blank {
          dirty := true;
        }
        ram := Consider(ram, page, i);
      }
      ok := true;
    }

    /** `load_slots`. */
    method LoadSlots()
      requires Valid()
      modifies this
      ensures Valid() && loaded && flash == old(flash) && ram == old(Memory())
    {
      if loaded {
        return;
      }
      var ok, dirty := Scan();
      loaded := true;
      if !ok {
        ram := ram.(state := BAD);
      } else if ram.slot >= 0 {
        ram := Adopted(ram);
      } else if dirty {
        ram := ram.(state := BAD);
        RecoverFirst();
      }
    }

    /** Looks for a pending pairing whose body is whole. */
    method RecoverBody() returns (done: bool)
      requires FlashOk(flash) && RamOk(ram)
      modifies this`ram, this`good
      ensures done ==> ram == Recover(flash, old(ram), old(good))
      ensures !done ==> ram == old(ram) && good == old(good) - 2 && !PendingBody(flash.a) && !PendingBody(flash.b)
    {
      for i := 0 to 2
        invariant ram == old(ram) && i <= old(good) && good == old(good) - i
        invariant i > 0 ==> !PendingBody(flash.a)
        invariant i > 1 ==> !PendingBody(flash.b)
      {
        if good == 0 {
          return true;
        }
        good := good - 1;
        var page := PageOf(flash, i);
        if PendingBody(page) {
          ram := ram.(slot := i, head := page[..HEAD], state := PAIRING);
          return true;
        }
      }
      done := false;
    }

    /** Looks for a first pairing torn inside its body. */
    method RecoverTornBody()
      requires FlashOk(flash) && RamOk(ram)
      modifies this`ram, this`good
      ensures ram == RecoverTorn(flash, old(ram), old(good))
    {
      if good == 0 {
        return;
      }
      good := good - 1;
      var blank := IsBlank(flash.b);
      if !blank || good == 0 {
        return;
      }
      var fits := Compatible(flash.a, Committed(FIRST));
      if fits {
        ram := ram.(slot := 0, head := Committed(FIRST)[..HEAD], state := PAIRING);
      }
    }

    method RecoverFirst()
      requires FlashOk(flash) && RamOk(ram)
      modifies this`ram, this`good
      ensures ram == Recover(flash, old(ram), old(good))
    {
      var done := RecoverBody();
      if !done {
        RecoverTornBody();
      }
    }

    /** Erase, program and verify the body, then program and verify the commit word; RAM
        follows only when all of it was seen to be there. */
    method Commit(body: seq<byte>, state: byte, w: Wear) returns (ok: bool)
      requires Valid() && loaded && |body| == CRC_OFF && Possible(w, Protected(body))
      modifies this
      ensures Valid() && loaded
      ensures ok == Succeeds(Protected(body), w)
      ensures var slot := NextSlot(old(ram));
        flash == WithPage(old(flash), slot, NewPage(PageOf(old(flash), slot), Protected(body), w))
      ensures ram == if ok then old(ram).(slot := NextSlot(old(ram)), head := Committed(body)[..HEAD], state := state) else old(ram)
    {
      var slot := NextSlot(ram);
      if w.erased {
        flash := WithPage(flash, slot, BLANK);
      }
      if !w.eraseOk {
        return false;
      }
      flash := WithPage(flash, slot, w.body + Filled(4));
      if !w.bodyOk || !w.bodyRead || w.body != Protected(body) {
        return false;
      }
      flash := WithPage(flash, slot, w.body + w.tail);
      if !w.tailOk || !w.tailRead || w.tail != Le(COMMIT_WORD, 4) {
        return false;
      }
      ram := ram.(slot := slot, head := Committed(body)[..HEAD], state := state);
      ok := true;
    }

    /** `write_record`. */
    method Write(state: byte, rec: Option<Peer>, counter: u32, w: Wear) returns (ok: bool)
      requires Valid() && loaded && PeerOk(rec)
      requires Refused(ram) || Possible(w, Protected(NewBody(ram, state, rec, counter)))
      modifies this
      ensures Valid() && loaded
      ensures Wrote(flash, ram, ok) == WriteRecord(old(flash), old(ram), state, rec, counter, w)
    {
      if ram.state == BAD || NextGeneration(ram) > U32_MAX {
        return false;
      }
      ok := Commit(Body(NextGeneration(ram), state, rec, counter, ram.staged), state, w);
    }

    method PairLoaded(w: Wear) returns (ok: bool)
      requires Valid() && loaded && WearOk(ram, Pair(w))
      modifies this
      ensures Valid() && loaded
      ensures Wrote(flash, ram, ok) == Apply(old(flash), old(ram), Pair(w))
    {
      CounterIs32(ram);
      var counter := PeerCounter(ram);
      if PairRefused(ram) {
        return false;
      }
      ram := PairStaged(ram);
      ok := Write(PAIRING, None, counter + 1, w);
    }

    /** `board_begin_pair`. */
    method BeginPair(w: Wear) returns (ok: bool)
      requires Valid() && RamOk(Memory()) && WearOk(Memory(), Pair(w))
      modifies this
      ensures Valid() && loaded
      ensures Wrote(flash, ram, ok) == Apply(old(flash), old(Memory()), Pair(w))
    {
      LoadSlots();
      ok := PairLoaded(w);
    }

    /** `board_begin_forget`. */
    method BeginForget(w: Wear) returns (ok: bool)
      requires Valid() && RamOk(Memory()) && WearOk(Memory(), Forget(w))
      modifies this
      ensures Valid() && loaded
      ensures Wrote(flash, ram, ok) == Apply(old(flash), old(Memory()), Forget(w))
    {
      LoadSlots();
      CounterIs32(ram);
      ok := Write(DELETING, None, PeerCounter(ram), w);
    }

    /** `store_save`. */
    method SavePeer(rec: Peer, w: Wear) returns (ok: bool)
      requires Valid() && RamOk(Memory()) && OpOk(Save(rec, w)) && WearOk(Memory(), Save(rec, w))
      modifies this
      ensures Valid() && Wrote(flash, Memory(), ok) == Apply(old(flash), old(Memory()), Save(rec, w))
    {
      if rec.id == 0 {
        return false;
      }
      LoadSlots();
      CounterIs32(ram);
      ok := Write(SAVED, Some(rec), PeerCounter(ram), w);
    }

    /** `store_clear`: the staged address is dropped before the record is loaded, so on first
        use loading brings it back to RAM; the record written has no peer either way. */
    method ClearPeer(w: Wear) returns (ok: bool)
      requires Valid() && RamOk(Memory()) && WearOk(Memory(), Clear(w))
      modifies this
      ensures Valid() && loaded
      ensures old(loaded) ==> Wrote(flash, ram, ok) == Apply(old(flash), old(ram), Clear(w))
      ensures PeerCounter(old(Memory())) <= U32_MAX
      ensures !old(loaded) ==>
        Wrote(flash, ram, ok) == WriteRecord(old(flash), old(Memory()), SAVED, None, PeerCounter(old(Memory())), w)
    {
      CounterIs32(Memory());
      ClearedBody(Memory());
      ram := Unstaged(ram);
      LoadSlots();
      ok := Write(SAVED, None, PeerCounter(ram), w);
    }

    /** `board_addr_stage`. */
    method StageAddress(addr: seq<byte>, kind: byte)
      requires Valid() && |addr| == 6 && RamOk(Memory())
      modifies this
      ensures Valid() && loaded
      ensures Wrote(flash, ram, true) == Apply(old(flash), old(Memory()), Stage(addr, kind))
    {
      LoadSlots();
      ram := ram.(staged := ram.staged.(addr := addr, kind := kind, valid := true));
    }
  }
}
