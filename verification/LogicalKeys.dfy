/** The host's key reducer: a catalog of keys, the bitmap it believes in, and the down, up,
    snapshot and reset events it emits. */
module LogicalKeys {
  import opened Crc32c
  import opened Bits
  import KeyServer
  import opened Options

  const KEY_ID_MAX := 65535

  datatype Key = Key(slot: int, keyId: int)

  datatype Source = Source(session: nat, peer: nat, connection: nat)

  datatype Kind = Down | Up | Snapshot | Reset

  datatype Why = Silent | Code(n: nat) | Cause(name: string)

  datatype Event = Event(source: Source, kind: Kind, keyId: int, captured: nat, inputSeq: nat,
                         synthetic: bool, pressed: seq<int>, why: Why)

  datatype Host = Host(source: Option<Source>, catalog: seq<Key>, bits: nat, inputSeq: Option<nat>)

  /** New state and emitted events, or the ValueError. */
  datatype Outcome = Done(host: Host, events: seq<Event>) | Raised

  const BLANK := Host(None, [], 0, None)

  function Pressed(catalog: seq<Key>, bits: nat): (keys: set<int>)
    requires SlotsFit(catalog)
  {
    set i | 0 <= i < |catalog| && Bit(bits, catalog[i].slot) :: catalog[i].keyId
  }

  predicate SlotsFit(catalog: seq<Key>)
  {
    forall i :: 0 <= i < |catalog| ==> catalog[i].slot >= 0
  }

  /** What `install` demands of a catalog. */
  predicate CatalogOk(catalog: seq<Key>)
  {
    && |catalog| <= 64
    && (forall i :: 0 <= i < |catalog| ==> catalog[i].slot == i && 0 < catalog[i].keyId <= KEY_ID_MAX)
    && (forall i, j :: 0 <= i < j < |catalog| ==> catalog[i].keyId != catalog[j].keyId)
  }

  /** Holds of every host that the operations below build. */
  predicate Proper(h: Host)
  {
    && CatalogOk(h.catalog)
    && h.bits < Pow2(|h.catalog|)
    && (h.source.None? ==> h == BLANK)
  }

  function Held(h: Host): set<int>
    requires Proper(h)
  {
    Pressed(h.catalog, h.bits)
  }

  // ----- ascending enumeration of a set of key ids -----

  function SortedBelow(keys: set<int>, n: nat): seq<int>
  {
    if n == 0 then [] else SortedBelow(keys, n - 1) + (if n - 1 in keys then [n - 1] else [])
  }

  function Sorted(keys: set<int>): seq<int>
  {
    SortedBelow(keys, KEY_ID_MAX + 1)
  }

  predicate KeyIds(keys: set<int>)
  {
    forall k :: k in keys ==> 0 < k <= KEY_ID_MAX
  }

  predicate StrictlyAscending(s: seq<int>)
  {
    forall i, j :: 0 <= i < j < |s| ==> s[i] < s[j]
  }

  lemma {:induction false} SortedBelowFacts(keys: set<int>, n: nat)
    ensures var s := SortedBelow(keys, n);
      && (forall i :: 0 <= i < |s| ==> s[i] in keys && 0 <= s[i] < n)
      && (forall k :: k in keys && 0 <= k < n ==> k in s)
      && StrictlyAscending(s)
  {
    if n > 0 {
      SortedBelowFacts(keys, n - 1);
    }
  }

  function Elements(s: seq<int>): set<int>
  {
    set i | 0 <= i < |s| :: s[i]
  }

  /** `sorted` lists each key id once, in increasing order. */
  lemma SortedFacts(keys: set<int>)
    requires KeyIds(keys)
    ensures Elements(Sorted(keys)) == keys && StrictlyAscending(Sorted(keys))
  {
    SortedBelowFacts(keys, KEY_ID_MAX + 1);
    var s := Sorted(keys);
    forall k | k in keys
      ensures k in Elements(s)
    {
      assert k in s;
    }
  }

  // ----- the operations -----

  function Edges(source: Source, kind: Kind, keys: seq<int>, captured: nat, inputSeq: nat, synthetic: bool, why: Why): (es: seq<Event>)
    ensures |es| == |keys|
    ensures forall i :: 0 <= i < |keys| ==> es[i] == Event(source, kind, keys[i], captured, inputSeq, synthetic, [], why)
  {
    seq(|keys|, i requires 0 <= i < |keys| => Event(source, kind, keys[i], captured, inputSeq, synthetic, [], why))
  }

  function ResetHost(h: Host, why: string): (r: Outcome)
    requires Proper(h)
    ensures r.Done? && r.host == BLANK
  {
    if h.source.None? then Done(BLANK, [])
    else
      Done(BLANK,
           Edges(h.source.value, Up, Sorted(Held(h)), 0, 0, true, Cause(why))
           + [Event(h.source.value, Reset, 0, 0, 0, true, [], Cause(why))])
  }

  function Installed(h: Host, source: Source, catalog: seq<Key>, keyCount: int): Outcome
    requires Proper(h)
  {
    if source.session == 0 || source.connection == 0 || source.peer == 0
       || !(0 <= keyCount <= 64) || |catalog| != keyCount || !CatalogOk(catalog) then Raised
    else Done(Host(Some(source), catalog, 0, None), ResetHost(h, "catalog_changed").events)
  }

  predicate Stale(h: Host, k: KeyServer.KeyState)
  {
    h.inputSeq.Some? && (k.inputSeq < h.inputSeq.value || (k.inputSeq == h.inputSeq.value && k.kind != KeyServer.RESET))
  }

  function Changes(source: Source, before: set<int>, after: set<int>, k: KeyServer.KeyState): seq<Event>
  {
    if k.kind == KeyServer.SNAPSHOT then
      [Event(source, Snapshot, 0, k.captured, k.inputSeq, true, Sorted(after), Silent)]
    else
      Edges(source, Up, Sorted(before - after), k.captured, k.inputSeq, k.kind == KeyServer.RESET, Code(k.reason))
      + Edges(source, Down, Sorted(after - before), k.captured, k.inputSeq, false, Silent)
      + if k.kind == KeyServer.RESET then [Event(source, Reset, 0, k.captured, k.inputSeq, true, [], Code(k.reason))] else []
  }

  function Fed(h: Host, k: KeyServer.KeyState): Outcome
    requires Proper(h)
  {
    if h.source.None? then Done(h, [])
    else if !KeyServer.Sane(k) || k.pressed >= Pow2(|h.catalog|) then Raised
    else if Stale(h, k) then Done(h, [])
    else
      var h1 := h.(bits := k.pressed, inputSeq := Some(k.inputSeq));
      Done(h1, Changes(h.source.value, Held(h), Held(h1), k))
  }

  // ----- what a listener makes of the events -----

  function Heard(keys: set<int>, e: Event): set<int>
  {
    match e.kind
    case Down => keys + {e.keyId}
    case Up => keys - {e.keyId}
    case Snapshot => Elements(e.pressed)
    case Reset => {}
  }

  function Replay(keys: set<int>, es: seq<Event>): set<int>
    decreases |es|
  {
    if es == [] then keys else Replay(Heard(keys, es[0]), es[1..])
  }

  /** Every release is of a key that was down, every press of one that was up, and a reset is
      said only when nothing is left down. */
  predicate Coherent(keys: set<int>, es: seq<Event>)
    decreases |es|
  {
    es == []
    || (&& (es[0].kind == Up ==> es[0].keyId in keys)
        && (es[0].kind == Down ==> es[0].keyId !in keys)
        && (es[0].kind == Reset ==> keys == {})
        && Coherent(Heard(keys, es[0]), es[1..]))
  }

  lemma {:induction false} ReplayConcat(keys: set<int>, a: seq<Event>, b: seq<Event>)
    ensures Replay(keys, a + b) == Replay(Replay(keys, a), b)
    ensures Coherent(keys, a + b) <==> Coherent(keys, a) && Coherent(Replay(keys, a), b)
    decreases |a|
  {
    if a == [] {
      assert a + b == b;
    } else {
      assert (a + b)[1..] == a[1..] + b;
      ReplayConcat(Heard(keys, a[0]), a[1..], b);
    }
  }

  lemma {:induction false} ReplayUps(keys: set<int>, list: seq<int>, es: seq<Event>)
    requires StrictlyAscending(list) && Elements(list) <= keys
    requires |es| == |list|
    requires forall i :: 0 <= i < |es| ==> es[i].kind == Up && es[i].keyId == list[i]
    ensures Replay(keys, es) == keys - Elements(list)
    ensures Coherent(keys, es)
    decreases |list|
  {
    if list != [] {
      assert list == [list[0]] + list[1..];
      ReplayUps(keys - {list[0]}, list[1..], es[1..]);
    }
  }

  lemma {:induction false} ReplayDowns(keys: set<int>, list: seq<int>, es: seq<Event>)
    requires StrictlyAscending(list) && Elements(list) !! keys
    requires |es| == |list|
    requires forall i :: 0 <= i < |es| ==> es[i].kind == Down && es[i].keyId == list[i]
    ensures Replay(keys, es) == keys + Elements(list)
    ensures Coherent(keys, es)
    decreases |list|
  {
    if list != [] {
      assert list == [list[0]] + list[1..];
      ReplayDowns(keys + {list[0]}, list[1..], es[1..]);
    }
  }

  lemma HeldIds(catalog: seq<Key>, bits: nat)
    requires CatalogOk(catalog)
    ensures KeyIds(Pressed(catalog, bits))
  {
  }

  lemma {:induction false} NoBits(i: nat)
    ensures !Bit(0, i)
  {
    if i > 0 {
      NoBits(i - 1);
    }
  }

  lemma NothingHeld(catalog: seq<Key>)
    requires CatalogOk(catalog)
    ensures Pressed(catalog, 0) == {}
  {
    forall i | 0 <= i < |catalog|
      ensures !Bit(0, catalog[i].slot)
    {
      NoBits(catalog[i].slot);
    }
  }

  /** The keys held tell the whole bitmap: two bitmaps over one catalog that hold the same keys
      are equal. */
  lemma KeysDetermineBits(catalog: seq<Key>, a: nat, b: nat)
    requires CatalogOk(catalog) && a < Pow2(|catalog|) && b < Pow2(|catalog|)
    requires Pressed(catalog, a) == Pressed(catalog, b)
    ensures a == b
  {
    forall i: nat | i < |catalog|
      ensures Bit(a, i) == Bit(b, i)
    {
      HeldExactly(catalog, a, i);
      HeldExactly(catalog, b, i);
    }
    BitsDetermine(a, b, |catalog|);
  }

  lemma HeldExactly(catalog: seq<Key>, bits: nat, i: nat)
    requires CatalogOk(catalog) && i < |catalog|
    ensures catalog[i].keyId in Pressed(catalog, bits) <==> Bit(bits, i)
  {
    if catalog[i].keyId in Pressed(catalog, bits) {
      var j :| 0 <= j < |catalog| && Bit(bits, catalog[j].slot) && catalog[j].keyId == catalog[i].keyId;
      assert i == j;
    }
    assert catalog[i].slot == i;
  }

  lemma AllUp(source: Source, before: set<int>, keys: set<int>, captured: nat, at: nat, synthetic: bool, why: Why)
    requires KeyIds(keys) && keys <= before
    ensures var es := Edges(source, Up, Sorted(keys), captured, at, synthetic, why);
      Replay(before, es) == before - keys && Coherent(before, es)
  {
    SortedFacts(keys);
    ReplayUps(before, Sorted(keys), Edges(source, Up, Sorted(keys), captured, at, synthetic, why));
  }

  lemma AllDown(source: Source, before: set<int>, keys: set<int>, captured: nat, at: nat)
    requires KeyIds(keys) && keys !! before
    ensures var es := Edges(source, Down, Sorted(keys), captured, at, false, Silent);
      Replay(before, es) == before + keys && Coherent(before, es)
  {
    SortedFacts(keys);
    ReplayDowns(before, Sorted(keys), Edges(source, Down, Sorted(keys), captured, at, false, Silent));
  }

  /** A closing reset event, after which nothing is held. */
  lemma ThenReset(keys: set<int>, es: seq<Event>, last: Event)
    requires last.kind == Reset
    requires Replay(keys, es) == {} && Coherent(keys, es)
    ensures Replay(keys, es + [last]) == {} && Coherent(keys, es + [last])
  {
    ReplayConcat(keys, es, [last]);
    assert [last][1..] == [];
  }

  lemma SnapshotReplays(before: set<int>, after: set<int>, e: Event)
    requires KeyIds(after) && e.kind == Snapshot && e.pressed == Sorted(after)
    ensures Replay(before, [e]) == after && Coherent(before, [e])
  {
    SortedFacts(after);
    assert [e][1..] == [];
    assert Heard(before, e) == Elements(Sorted(after));
  }

  /** The up and down events of one state change lead from the old keys to the new ones. */
  lemma ChangesReplay(source: Source, before: set<int>, after: set<int>, k: KeyServer.KeyState)
    requires KeyIds(before) && KeyIds(after)
    requires k.kind == KeyServer.RESET ==> after == {}
    ensures Replay(before, Changes(source, before, after, k)) == after
    ensures Coherent(before, Changes(source, before, after, k))
  {
    if k.kind == KeyServer.SNAPSHOT {
      SnapshotReplays(before, after, Event(source, Snapshot, 0, k.captured, k.inputSeq, true, Sorted(after), Silent));
    } else {
      var ups := Edges(source, Up, Sorted(before - after), k.captured, k.inputSeq, k.kind == KeyServer.RESET, Code(k.reason));
      var downs := Edges(source, Down, Sorted(after - before), k.captured, k.inputSeq, false, Silent);
      AllUp(source, before, before - after, k.captured, k.inputSeq, k.kind == KeyServer.RESET, Code(k.reason));
      AllDown(source, before - (before - after), after - before, k.captured, k.inputSeq);
      assert before - (before - after) + (after - before) == after;
      ReplayConcat(before, ups, downs);
      if k.kind == KeyServer.RESET {
        ThenReset(before, ups + downs, Event(source, Reset, 0, k.captured, k.inputSeq, true, [], Code(k.reason)));
      } else {
        assert Changes(source, before, after, k) == ups + downs;
      }
    }
  }

  /** `feed`: replaying what it emits from the keys held before gives the keys held after. */
  lemma FeedReplays(h: Host, k: KeyServer.KeyState)
    requires Proper(h) && Fed(h, k).Done?
    ensures Proper(Fed(h, k).host)
    ensures Replay(Held(h), Fed(h, k).events) == Held(Fed(h, k).host)
    ensures Coherent(Held(h), Fed(h, k).events)
  {
    if h.source.Some? && !Stale(h, k) {
      HeldIds(h.catalog, h.bits);
      HeldIds(h.catalog, k.pressed);
      NothingHeld(h.catalog);
      ChangesReplay(h.source.value, Held(h), Pressed(h.catalog, k.pressed), k);
    }
  }

  lemma BlankProper()
    ensures Proper(BLANK) && Held(BLANK) == {}
  {
    NothingHeld([]);
  }

  /** `reset` releases every held key before it says reset. */
  lemma ResetReplays(h: Host, why: string)
    requires Proper(h)
    ensures Replay(Held(h), ResetHost(h, why).events) == {}
    ensures Coherent(Held(h), ResetHost(h, why).events)
  {
    BlankProper();
    if h.source.Some? {
      HeldIds(h.catalog, h.bits);
      AllUp(h.source.value, Held(h), Held(h), 0, 0, true, Cause(why));
      ThenReset(Held(h), Edges(h.source.value, Up, Sorted(Held(h)), 0, 0, true, Cause(why)),
                Event(h.source.value, Reset, 0, 0, 0, true, [], Cause(why)));
    }
  }

  lemma InstallReplays(h: Host, source: Source, catalog: seq<Key>, keyCount: int)
    requires Proper(h) && Installed(h, source, catalog, keyCount).Done?
    ensures Proper(Installed(h, source, catalog, keyCount).host)
    ensures Replay(Held(h), Installed(h, source, catalog, keyCount).events) == Held(Installed(h, source, catalog, keyCount).host) == {}
    ensures Coherent(Held(h), Installed(h, source, catalog, keyCount).events)
  {
    ResetReplays(h, "catalog_changed");
    NothingHeld(catalog);
  }

  // ----- runs -----

  datatype Call = Install(source: Source, catalog: seq<Key>, keyCount: int) | Lose(why: string) | Feed(state: KeyServer.KeyState)

  function Apply(h: Host, c: Call): Outcome
    requires Proper(h)
  {
    match c
    case Install(source, catalog, keyCount) => Installed(h, source, catalog, keyCount)
    case Lose(why) => ResetHost(h, why)
    case Feed(state) => Fed(h, state)
  }

  lemma ApplyReplays(h: Host, c: Call)
    requires Proper(h) && Apply(h, c).Done?
    ensures Proper(Apply(h, c).host)
    ensures Replay(Held(h), Apply(h, c).events) == Held(Apply(h, c).host)
    ensures Coherent(Held(h), Apply(h, c).events)
  {
    match c
    case Install(source, catalog, keyCount) => InstallReplays(h, source, catalog, keyCount);
    case Lose(why) => ResetReplays(h, why); BlankProper();
    case Feed(state) => FeedReplays(h, state);
  }

  /** A raised ValueError leaves the reducer as it was. */
  function RunCalls(h: Host, calls: seq<Call>): (r: Outcome)
    requires Proper(h)
    ensures r.Done?
    decreases |calls|
  {
    if calls == [] then Done(h, [])
    else if Apply(h, calls[0]).Raised? then RunCalls(h, calls[1..])
    else
      ApplyReplays(h, calls[0]);
      var first := Apply(h, calls[0]);
      var rest := RunCalls(first.host, calls[1..]);
      Done(rest.host, first.events + rest.events)
  }

  /** Over any calls, a listener that only follows the emitted events knows the pressed keys. */
  lemma {:induction false} EveryRunReplays(h: Host, calls: seq<Call>)
    requires Proper(h)
    ensures Proper(RunCalls(h, calls).host)
    ensures Replay(Held(h), RunCalls(h, calls).events) == Held(RunCalls(h, calls).host)
    ensures Coherent(Held(h), RunCalls(h, calls).events)
    decreases |calls|
  {
    if calls != [] {
      if Apply(h, calls[0]).Raised? {
        EveryRunReplays(h, calls[1..]);
      } else {
        ApplyReplays(h, calls[0]);
        var first := Apply(h, calls[0]);
        EveryRunReplays(first.host, calls[1..]);
        ReplayConcat(Held(h), first.events, RunCalls(first.host, calls[1..]).events);
      }
    }
  }

  // ----- the object -----

  class Reducer {
    var source: Option<Source>
    var catalog: seq<Key>
    var bits: nat
    var inputSeq: Option<nat>
    var emitted: seq<Event>

    ghost predicate Valid()
      reads this
    {
      Proper(Abstract())
    }

    ghost function Abstract(): (h: Host)
      reads this
    {
      Host(source, catalog, bits, inputSeq)
    }

    constructor ()
      ensures Valid() && Abstract() == BLANK && emitted == []
    {
      source, catalog, bits, inputSeq, emitted := None, [], 0, None, [];
    }

    method PressedKeys() returns (keys: set<int>)
      requires Valid()
      ensures keys == Held(Abstract())
    {
      keys := Pressed(catalog, bits);
    }

    /** One loop of `emit` calls, in ascending key order. */
    method EmitEdges(s: Source, kind: Kind, keys: set<int>, captured: nat, at: nat, synthetic: bool, why: Why)
      modifies this`emitted
      ensures emitted == old(emitted) + Edges(s, kind, Sorted(keys), captured, at, synthetic, why)
    {
      var list := Sorted(keys);
      ghost var all := Edges(s, kind, list, captured, at, synthetic, why);
      for i := 0 to |list|
        invariant emitted == old(emitted) + all[..i]
      {
        emitted := emitted + [Event(s, kind, list[i], captured, at, synthetic, [], why)];
      }
    }

    method Forget(why: string)
      requires Valid()
      modifies this
      ensures Valid()
      ensures Abstract() == BLANK
      ensures emitted == old(emitted) + ResetHost(old(Abstract()), why).events
    {
      var was := source;
      var held := PressedKeys();
      source, catalog, bits, inputSeq := None, [], 0, None;
      BlankProper();
      if was.Some? {
        EmitEdges(was.value, Up, held, 0, 0, true, Cause(why));
        emitted := emitted + [Event(was.value, Reset, 0, 0, 0, true, [], Cause(why))];
      }
    }

    method Adopt(s: Source, keys: seq<Key>, keyCount: int) returns (ok: bool)
      requires Valid()
      modifies this
      ensures Valid()
      ensures ok == Installed(old(Abstract()), s, keys, keyCount).Done?
      ensures ok ==> Abstract() == Installed(old(Abstract()), s, keys, keyCount).host
      ensures ok ==> emitted == old(emitted) + Installed(old(Abstract()), s, keys, keyCount).events
      ensures !ok ==> Abstract() == old(Abstract()) && emitted == old(emitted)
    {
      if s.session == 0 || s.connection == 0 || s.peer == 0
         || !(0 <= keyCount <= 64) || |keys| != keyCount || !CatalogOk(keys) {
        return false;
      }
      Forget("catalog_changed");
      source, catalog, bits, inputSeq := Some(s), keys, 0, None;
      ok := true;
    }

    method EmitChanges(s: Source, before: set<int>, after: set<int>, k: KeyServer.KeyState)
      modifies this`emitted
      ensures emitted == old(emitted) + Changes(s, before, after, k)
    {
      if k.kind == KeyServer.SNAPSHOT {
        emitted := emitted + [Event(s, Snapshot, 0, k.captured, k.inputSeq, true, Sorted(after), Silent)];
        return;
      }
      EmitEdges(s, Up, before - after, k.captured, k.inputSeq, k.kind == KeyServer.RESET, Code(k.reason));
      EmitEdges(s, Down, after - before, k.captured, k.inputSeq, false, Silent);
      if k.kind == KeyServer.RESET {
        emitted := emitted + [Event(s, Reset, 0, k.captured, k.inputSeq, true, [], Code(k.reason))];
      }
    }

    method FeedState(k: KeyServer.KeyState) returns (ok: bool)
      requires Valid()
      modifies this
      ensures Valid()
      ensures ok == Fed(old(Abstract()), k).Done?
      ensures ok ==> Abstract() == Fed(old(Abstract()), k).host && emitted == old(emitted) + Fed(old(Abstract()), k).events
      ensures !ok ==> Abstract() == old(Abstract()) && emitted == old(emitted)
    {
      if source.None? {
        return true;
      }
      if !KeyServer.Sane(k) || k.pressed >= Pow2(|catalog|) {
        return false;
      }
      if Stale(Host(source, catalog, bits, inputSeq), k) {
        return true;
      }
      var before := PressedKeys();
      bits, inputSeq := k.pressed, Some(k.inputSeq);
      var after := PressedKeys();
      EmitChanges(source.value, before, after, k);
      ok := true;
    }
  }
}
