/** The trace ring: interrupts append, one task peeks and consumes. */
module Trace {
  import opened Bytes
  import opened Sequences
  import opened Bits
  import Rings

  const CAP := 16

  datatype Note = Note(kind: byte, level: byte, code: u16, a: u32, b: u32, c: u32, d: u32)

  datatype Record = Record(number: u32, ms: u32, note: Note)

  datatype Trace = Trace(queue: seq<Record>, number: u32, dropped: u32, high: nat, clock: u32, mask: u32, limit: byte)

  predicate Filtered(t: Trace, n: Note)
  {
    n.kind > 7 || !Bit(t.mask, n.kind) || n.level > t.limit
  }

  /** `dt_log`. */
  function Logged(t: Trace, n: Note): Trace
  {
    if Filtered(t, n) then t
    else if |t.queue| == CAP then t.(number := Next(t.number), dropped := Next(t.dropped))
    else
      t.(number := Next(t.number), queue := t.queue + [Record(Next(t.number), t.clock, n)],
         high := if |t.queue| + 1 > t.high then |t.queue| + 1 else t.high)
  }

  function LoggedAll(t: Trace, ns: seq<Note>): Trace
    decreases |ns|
  {
    if ns == [] then t else LoggedAll(Logged(t, ns[0]), ns[1..])
  }

  function Least(a: nat, b: nat): nat
  {
    if a < b then a else b
  }

  /** `dt_consume`. */
  function Consumed(t: Trace, n: nat): Trace
  {
    t.(queue := t.queue[Least(n, |t.queue|)..])
  }

  /** Interrupts only add behind what is queued. */
  lemma {:induction false} LoggingAppends(t: Trace, ns: seq<Note>)
    requires |t.queue| <= CAP
    ensures t.queue <= LoggedAll(t, ns).queue && |LoggedAll(t, ns).queue| <= CAP
    decreases |ns|
  {
    if ns != [] {
      LoggingAppends(Logged(t, ns[0]), ns[1..]);
    }
  }

  lemma {:induction false} LoggedConcat(t: Trace, a: seq<Note>, b: seq<Note>)
    ensures LoggedAll(t, a + b) == LoggedAll(LoggedAll(t, a), b)
    decreases |a|
  {
    if a == [] {
      assert a + b == b;
    } else {
      assert (a + b)[1..] == a[1..] + b;
      LoggedConcat(Logged(t, a[0]), a[1..], b);
    }
  }

  // ----- runs -----

  datatype Ev = Log(note: Note) | Consume(n: nat) | Time(ms: u32) | Config(mask: u32, limit: byte)

  function Step(t: Trace, e: Ev): Trace
  {
    match e
    case Log(note) => Logged(t, note)
    case Consume(n) => Consumed(t, n)
    case Time(ms) => t.(clock := ms)
    case Config(mask, limit) => t.(mask := mask, limit := limit)
  }

  /** The state after a run and the records consumed on the way. */
  datatype Outcome = Outcome(t: Trace, taken: seq<Record>)

  function Taken(t: Trace, e: Ev): seq<Record>
  {
    if e.Consume? then t.queue[..Least(e.n, |t.queue|)] else []
  }

  function Run(t: Trace, es: seq<Ev>): Outcome
    decreases |es|
  {
    if es == [] then Outcome(t, [])
    else
      var rest := Run(Step(t, es[0]), es[1..]);
      Outcome(rest.t, Taken(t, es[0]) + rest.taken)
  }

  const BOOT := Trace([], 0, 0, 0, 0, 255, 3)

  predicate Conserved(t: Trace, taken: nat)
  {
    (taken + |t.queue| + t.dropped - t.number) % (U32_MAX + 1) == 0
  }

  lemma StepConserves(t: Trace, e: Ev, taken: nat)
    requires Conserved(t, taken)
    ensures Conserved(Step(t, e), taken + |Taken(t, e)|)
  {
  }

  /** Every number given out belongs to a record that was consumed, is queued or was dropped. */
  lemma {:induction false} EveryNumberAccounted(t: Trace, es: seq<Ev>, taken: nat)
    requires Conserved(t, taken)
    ensures Conserved(Run(t, es).t, taken + |Run(t, es).taken|)
    decreases |es|
  {
    if es != [] {
      StepConserves(t, es[0], taken);
      EveryNumberAccounted(Step(t, es[0]), es[1..], taken + |Taken(t, es[0])|);
    }
  }

  /** Numbers ascend from `from` on and do not exceed `to`. */
  predicate Numbered(rs: seq<Record>, from: nat, to: nat)
  {
    if rs == [] then from <= to else from < rs[0].number && Numbered(rs[1..], rs[0].number, to)
  }

  lemma {:induction false} NumberedSnoc(rs: seq<Record>, from: nat, to: nat, r: Record)
    requires Numbered(rs, from, to) && to < r.number
    ensures Numbered(rs + [r], from, r.number)
  {
    if rs == [] {
      assert rs + [r] == [r];
    } else {
      assert (rs + [r])[1..] == rs[1..] + [r];
      NumberedSnoc(rs[1..], rs[0].number, to, r);
    }
  }

  lemma {:induction false} NumberedLater(rs: seq<Record>, from: nat, to: nat, to': nat)
    requires Numbered(rs, from, to) && to <= to'
    ensures Numbered(rs, from, to')
  {
    if rs != [] {
      NumberedLater(rs[1..], rs[0].number, to, to');
    }
  }

  lemma StepOrdered(t: Trace, e: Ev, taken: seq<Record>)
    requires Numbered(taken + t.queue, 0, t.number) && t.number < U32_MAX && |t.queue| <= CAP
    ensures var t1 := Step(t, e); Numbered(taken + Taken(t, e) + t1.queue, 0, t1.number) && |t1.queue| <= CAP
  {
    var t1 := Step(t, e);
    if e.Log? && !Filtered(t, e.note) && |t.queue| < CAP {
      var r := Record(t.number + 1, t.clock, e.note);
      NumberedSnoc(taken + t.queue, 0, t.number, r);
      assert taken + Taken(t, e) + t1.queue == taken + t.queue + [r];
    } else {
      NumberedLater(taken + t.queue, 0, t.number, t1.number);
      assert taken + Taken(t, e) + t1.queue == taken + t.queue;
    }
  }

  /** Before the counter wraps, consumed and queued records carry ascending numbers: nothing is
      reordered or repeated. */
  lemma {:induction false} OrderKept(t: Trace, es: seq<Ev>, taken: seq<Record>)
    requires Numbered(taken + t.queue, 0, t.number) && t.number + |es| <= U32_MAX && |t.queue| <= CAP
    ensures var o := Run(t, es); Numbered(taken + o.taken + o.t.queue, 0, o.t.number)
    decreases |es|
  {
    if es == [] {
      assert taken + [] == taken;
    } else {
      hide Step, Numbered;
      var t1, now := Step(t, es[0]), Taken(t, es[0]);
      StepOrdered(t, es[0], taken);
      OrderKept(t1, es[1..], taken + now);
      assert taken + now + Run(t1, es[1..]).taken == taken + (now + Run(t1, es[1..]).taken);
    }
  }

  // ----- the static variables -----

  class Ring {
    const records: array<Record>
    var head: nat
    var count: nat
    var number: u32
    var dropped: u32
    var high: nat
    var clock: u32
    var mask: u32
    var limit: byte

    ghost predicate Valid()
      reads this
    {
      records.Length == CAP && head < CAP && count <= CAP
    }

    ghost function Abstract(): (t: Trace)
      requires Valid()
      reads this, records
    {
      Trace(Rings.View(records, head)[..count], number, dropped, high, clock, mask, limit)
    }

    constructor (blank: Record)
      ensures Valid() && fresh(records) && Abstract() == BOOT
    {
      records := new Record[CAP](i => blank);
      head, count, number, dropped, high, clock, mask, limit := 0, 0, 0, 0, 0, 0, 255, 3;
    }

    /** `dt_log`, between taking and releasing the lock. */
    method LogNote(n: Note)
      requires Valid()
      modifies this, records
      ensures Valid() && head == old(head)
      ensures Abstract() == Logged(old(Abstract()), n)
    {
      if n.kind > 7 || !Bit(mask, n.kind) || n.level > limit {
        return;
      }
      number := Next(number);
      if count == CAP {
        dropped := Next(dropped);
        return;
      }
      ghost var before := Rings.View(records, head);
      var r := Record(number, clock, n);
      Rings.RingSet(records, head, count, r);
      SetPrefix(before, count, r);
      count := count + 1;
      if count > high {
        high := count;
      }
    }

    /** Interrupts that happen to run now. */
    method Interrupts(ns: seq<Note>)
      requires Valid()
      modifies this, records
      ensures Valid() && head == old(head)
      ensures Abstract() == LoggedAll(old(Abstract()), ns)
    {
      for i := 0 to |ns|
        invariant Valid() && head == old(head)
        invariant LoggedAll(old(Abstract()), ns) == LoggedAll(Abstract(), ns[i..])
      {
        assert ns[i..][1..] == ns[i + 1..];
        LogNote(ns[i]);
      }
    }

    /** `dt_peek`: the indexes are taken under the lock, then the records are copied one by one
        while interrupts go on appending (`bursts[i]` just before the `i`-th copy).  What comes
        out are the oldest records that were queued when the lock was held. */
    method Peek(cap: nat, bursts: seq<seq<Note>>) returns (out: seq<Record>)
      requires Valid() && |bursts| >= Least(cap, count)
      modifies this, records
      ensures Valid()
      ensures out == old(Abstract()).queue[..Least(cap, |old(Abstract()).queue|)]
      ensures Abstract() == LoggedAll(old(Abstract()), Joined(bursts, Least(cap, |old(Abstract()).queue|)))
    {
      var n, first := Least(cap, count), head;
      ghost var was := Abstract();
      out := [];
      for i := 0 to n
        invariant Valid() && head == first && was == old(Abstract()) && |was.queue| <= CAP
        invariant Abstract() == LoggedAll(was, Joined(bursts, i))
        invariant out == was.queue[..i]
      {
        Interrupts(bursts[i]);
        LoggedConcat(was, Joined(bursts, i), bursts[i]);
        LoggingAppends(was, Joined(bursts, i + 1));
        var r := Rings.RingGet(records, first, i);
        assert r == Abstract().queue[i];
        out := out + [r];
      }
    }

    /** `dt_consume`. */
    method ConsumeRecords(n: nat)
      requires Valid()
      modifies this
      ensures Valid()
      ensures Abstract() == Consumed(old(Abstract()), n)
    {
      var m := Least(n, count);
      Skipped(records[..], head, count, m);
      head := Wrap(head + m, CAP);
      count := count - m;
    }

    method Stats() returns (given: u32, lost: u32, most: nat)
      requires Valid()
      ensures given == Abstract().number && lost == Abstract().dropped && most == Abstract().high
    {
      given, lost, most := number, dropped, high;
    }
  }

  /** The notes of the first `n` bursts, in order. */
  function Joined(bursts: seq<seq<Note>>, n: nat): seq<Note>
    requires n <= |bursts|
  {
    if n == 0 then [] else Joined(bursts, n - 1) + bursts[n - 1]
  }
}
