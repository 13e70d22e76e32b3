/** Reading key states out of a report by the table of its fields. */
module ReportDecoder {
  import opened Bytes
  import opened Options
  import opened Bits
  import opened Crc32c
  import opened ReportMap
  import opened ReportMapProof

  // ----- numbers as bits -----

  /** `v >> n`. */
  function Shift(v: nat, n: nat): nat
  {
    if n == 0 then v else Shift(v / 2, n - 1)
  }

  /** The low `n` bits of `v`. */
  function Low(v: nat, n: nat): nat
  {
    if n == 0 then 0 else v % 2 + 2 * Low(v / 2, n - 1)
  }

  function Extract(v: nat, bit: nat, size: nat): nat
  {
    Low(Shift(v, bit), size)
  }

  lemma {:induction false} BitShift(v: nat, b: nat, k: nat)
    ensures Bit(Shift(v, b), k) == Bit(v, b + k)
    decreases b
  {
    if b > 0 {
      BitShift(v / 2, b - 1, k);
    }
  }

  /** One more bit on top. */
  lemma {:induction false} LowStep(v: nat, k: nat)
    ensures Low(v, k + 1) == Low(v, k) + (if Bit(v, k) then Pow2(k) else 0)
    decreases k
  {
    if k > 0 {
      LowStep(v / 2, k - 1);
    } else {
      assert Low(v / 2, 0) == 0;
    }
  }

  lemma {:induction false} ShiftTwice(v: nat, a: nat, b: nat)
    ensures Shift(v, a + b) == Shift(Shift(v, a), b)
    decreases a
  {
    if a > 0 {
      ShiftTwice(v / 2, a - 1, b);
    }
  }

  lemma HalfSum(x: nat, p: nat, m: nat)
    ensures (x + 2 * p * m) / 2 == x / 2 + p * m && (x + 2 * p * m) % 2 == x % 2
  {
    assert 2 * p * m == 2 * (p * m);
  }

  /** A low part below a high part: each can be taken out again. */
  lemma {:induction false} SplitNumber(x: nat, s: nat, m: nat)
    requires x < Pow2(s)
    ensures Shift(x + Pow2(s) * m, s) == m && Low(x + Pow2(s) * m, s) == x
    decreases s
  {
    if s > 0 {
      HalfSum(x, Pow2(s - 1), m);
      assert Pow2(s) * m == 2 * Pow2(s - 1) * m;
      SplitNumber(x / 2, s - 1, m);
    }
  }

  lemma {:induction false} BitSplit(x: nat, s: nat, m: nat, n: nat)
    requires x < Pow2(s)
    ensures Bit(x + Pow2(s) * m, n) == if n < s then Bit(x, n) else Bit(m, n - s)
    decreases s
  {
    if s > 0 {
      HalfSum(x, Pow2(s - 1), m);
      assert Pow2(s) * m == 2 * Pow2(s - 1) * m;
      if n > 0 {
        BitSplit(x / 2, s - 1, m, n - 1);
      }
    }
  }

  /** Bit `n` of a report is bit `n % 8` of its octet `n / 8`. */
  lemma {:induction false} BitOfOctets(data: seq<byte>, n: nat)
    requires n < 8 * |data|
    ensures Bit(LeValue(data), n) == Bit(data[n / 8], n % 8)
    decreases |data|
  {
    assert Pow2(8) == 256;
    BitSplit(data[0], 8, LeValue(data[1..]), n);
    if n >= 8 {
      BitOfOctets(data[1..], n - 8);
      assert data[1..][(n - 8) / 8] == data[n / 8];
    }
  }

  // ----- usages and keys -----

  const NO_KEY := 0xFFFF

  /** `hogp_usage_to_key`. */
  function UsageToKey(page: nat, usage: nat): nat
  {
    if page == 0x07 then
      match usage
      case 0x4F => 6
      case 0x50 => 5
      case 0x51 => 4
      case 0x52 => 3
      case 0x28 => 7
      case 0x29 => 8
      case 0x4A => 9
      case 0x65 => 10
      case 0x66 => 1
      case 0x80 => 12
      case 0x81 => 13
      case 0x3E => 2
      case 0xF1 => 8
      case 0x35 => 11
      case _ => NO_KEY
    else if page == 0x0C then
      match usage
      case 0x30 => 1
      case 0x41 => 7
      case 0x42 => 3
      case 0x43 => 4
      case 0x44 => 5
      case 0x45 => 6
      case 0xCF => 2
      case 0xE9 => 12
      case 0xEA => 13
      case 0x40 => 10
      case 0x223 => 9
      case 0x224 => 8
      case _ => NO_KEY
    else NO_KEY
  }

  datatype Reading = Bad | Silent | Pressed(key: nat)

  function KeyOf(page: nat, usage: nat): Reading
  {
    var key := UsageToKey(page, usage);
    if key != NO_KEY && key < 64 && key != 0 then Pressed(key) else Silent
  }

  /** What one control says with this value. */
  function Read(f: Field, value: nat): Reading
    requires f.umin <= f.umax
  {
    if f.variable then if value == 0 then Silent else KeyOf(f.page, f.umin)
    else if value < f.lmin || value - f.lmin > f.umax - f.umin then Bad
    else
      var usage := f.umin + value - f.lmin;
      if f.page == 7 && 1 <= usage <= 3 then Bad else KeyOf(f.page, usage)
  }

  // ----- slots: every control of a report, in table order -----

  datatype Slot = Slot(f: Field, bit: nat)

  function FieldSlots(f: Field, j: nat): seq<Slot>
    decreases f.count - j
  {
    if j >= f.count then [] else [Slot(f, f.offset + j * f.size)] + FieldSlots(f, j + 1)
  }

  function Slots(fields: seq<Field>, id: nat, i: nat): seq<Slot>
    decreases |fields| - i
  {
    if i >= |fields| then []
    else (if fields[i].id == id then FieldSlots(fields[i], 0) else []) + Slots(fields, id, i + 1)
  }

  predicate SlotsOk(slots: seq<Slot>)
  {
    forall i :: 0 <= i < |slots| ==> FieldOk(slots[i].f)
  }

  function Values(slots: seq<Slot>, v: nat): (vs: seq<nat>)
    ensures |vs| == |slots|
  {
    if slots == [] then [] else [Extract(v, slots[0].bit, slots[0].f.size)] + Values(slots[1..], v)
  }

  /** The keys that the controls name with these values, added to `held`. */
  function Keys(slots: seq<Slot>, values: seq<nat>, held: set<nat>): Option<set<nat>>
    requires |slots| == |values| && SlotsOk(slots)
  {
    if slots == [] then Some(held)
    else
      match Read(slots[0].f, values[0])
      case Bad => None
      case Silent => Keys(slots[1..], values[1..], held)
      case Pressed(key) => Keys(slots[1..], values[1..], held + {key})
  }

  lemma {:induction false} FieldSlotsOk(f: Field, j: nat)
    requires FieldOk(f)
    ensures SlotsOk(FieldSlots(f, j))
    decreases f.count - j
  {
    if j < f.count {
      FieldSlotsOk(f, j + 1);
    }
  }

  lemma {:induction false} AllSlotsOk(fields: seq<Field>, id: nat, i: nat)
    requires forall k :: 0 <= k < |fields| ==> FieldOk(fields[k])
    ensures SlotsOk(Slots(fields, id, i))
    decreases |fields| - i
  {
    if i < |fields| {
      FieldSlotsOk(fields[i], 0);
      AllSlotsOk(fields, id, i + 1);
    }
  }

  /** `hogp_decode_report`, over the report as one number. */
  function Decode(t: Tables, id: nat, data: seq<byte>): Option<set<nat>>
    requires Decodable(t)
  {
    var r := Find(t.reports, id);
    if r == |t.reports| || |data| != t.reports[r].bytes then None
    else
      AllSlotsOk(t.fields, id, 0);
      var slots := Slots(t.fields, id, 0);
      Keys(slots, Values(slots, LeValue(data)), {})
  }

  // ----- layout: slots come in increasing bit order without overlap -----

  predicate Ascending(slots: seq<Slot>, pos: nat, end: nat)
  {
    if slots == [] then pos <= end
    else pos <= slots[0].bit && Ascending(slots[1..], slots[0].bit + slots[0].f.size, end)
  }

  lemma {:induction false} AscendingConcat(a: seq<Slot>, b: seq<Slot>, pos: nat, mid: nat, end: nat)
    requires Ascending(a, pos, mid) && Ascending(b, mid, end)
    ensures Ascending(a + b, pos, end)
  {
    if a == [] {
      assert a + b == b;
      Earlier(b, mid, pos, end);
    } else {
      assert (a + b)[1..] == a[1..] + b;
      AscendingConcat(a[1..], b, a[0].bit + a[0].f.size, mid, end);
    }
  }

  lemma Earlier(slots: seq<Slot>, pos: nat, before: nat, end: nat)
    requires Ascending(slots, pos, end) && before <= pos
    ensures Ascending(slots, before, end)
  {
  }

  lemma {:induction false} FieldAscends(f: Field, j: nat)
    requires j <= f.count
    ensures Ascending(FieldSlots(f, j), f.offset + j * f.size, f.offset + Width(f))
    decreases f.count - j
  {
    if j < f.count {
      assert (j + 1) * f.size == j * f.size + f.size;
      FieldAscends(f, j + 1);
    }
  }

  /** Where the slots from the `i`-th table entry on may begin. */
  predicate Clear(fields: seq<Field>, id: nat, i: nat, pos: nat)
  {
    forall k :: i <= k < |fields| && fields[k].id == id ==> pos <= fields[k].offset
  }

  lemma {:induction false} SlotsAscend(t: Tables, id: nat, i: nat, pos: nat)
    requires TablesOk(t) && i <= |t.fields| && Clear(t.fields, id, i, pos) && pos <= BitsOf(t.reports, id)
    ensures Ascending(Slots(t.fields, id, i), pos, BitsOf(t.reports, id))
    decreases |t.fields| - i
  {
    if i < |t.fields| {
      var f := t.fields[i];
      if f.id == id {
        FieldAscends(f, 0);
        Earlier(FieldSlots(f, 0), f.offset, pos, f.offset + Width(f));
        SlotsAscend(t, id, i + 1, f.offset + Width(f));
        AscendingConcat(FieldSlots(f, 0), Slots(t.fields, id, i + 1), pos, f.offset + Width(f), BitsOf(t.reports, id));
      } else {
        assert Slots(t.fields, id, i) == Slots(t.fields, id, i + 1);
        SlotsAscend(t, id, i + 1, pos);
      }
    }
  }

  // ----- assembling a report -----

  predicate Fit(slots: seq<Slot>, values: seq<nat>)
  {
    |slots| == |values| && forall i :: 0 <= i < |slots| ==> values[i] < Pow2(slots[i].f.size)
  }

  /** The number whose bits from `pos` on hold the values in their slots. */
  function Assemble(slots: seq<Slot>, values: seq<nat>, pos: nat, end: nat): nat
    requires Ascending(slots, pos, end) && |slots| == |values|
  {
    if slots == [] then 0
    else
      Pow2(slots[0].bit - pos)
      * (values[0] + Pow2(slots[0].f.size) * Assemble(slots[1..], values[1..], slots[0].bit + slots[0].f.size, end))
  }

  /** Values read from `v`, whose bit 0 is bit `pos` of the report. */
  predicate Holds(slots: seq<Slot>, values: seq<nat>, v: nat, pos: nat)
    requires |slots| == |values|
  {
    slots == []
    || (pos <= slots[0].bit && Extract(v, slots[0].bit - pos, slots[0].f.size) == values[0]
        && Holds(slots[1..], values[1..], v, pos))
  }

  lemma {:induction false} HoldsAbove(slots: seq<Slot>, values: seq<nat>, v: nat, n: nat, pos: nat)
    requires |slots| == |values| && Holds(slots, values, Shift(v, n), pos + n)
    ensures Holds(slots, values, v, pos)
  {
    if slots != [] {
      ShiftTwice(v, n, slots[0].bit - (pos + n));
      HoldsAbove(slots[1..], values[1..], v, n, pos);
    }
  }

  lemma {:induction false} AssembleHolds(slots: seq<Slot>, values: seq<nat>, pos: nat, end: nat)
    requires Ascending(slots, pos, end) && Fit(slots, values)
    ensures Holds(slots, values, Assemble(slots, values, pos, end), pos)
  {
    if slots != [] {
      var gap, size := slots[0].bit - pos, slots[0].f.size;
      var next := slots[0].bit + size;
      var rest := Assemble(slots[1..], values[1..], next, end);
      var inner := values[0] + Pow2(size) * rest;
      var v := Assemble(slots, values, pos, end);
      assert v == 0 + Pow2(gap) * inner;
      SplitNumber(0, gap, inner);
      SplitNumber(values[0], size, rest);
      AssembleHolds(slots[1..], values[1..], next, end);
      ShiftTwice(v, gap, size);
      HoldsAbove(slots[1..], values[1..], v, gap + size, pos);
    }
  }

  lemma {:induction false} PowSum(a: nat, b: nat)
    ensures Pow2(a + b) == Pow2(a) * Pow2(b)
  {
    if a > 0 {
      PowSum(a - 1, b);
      assert Pow2(a) * Pow2(b) == 2 * (Pow2(a - 1) * Pow2(b));
    }
  }

  lemma Below(x: nat, p: nat, y: nat, q: nat)
    requires x < p && y < q
    ensures x + p * y < p * q
  {
    assert p * y <= p * (q - 1) == p * q - p;
  }

  lemma Scaled(p: nat, x: nat, q: nat)
    requires x < q && p > 0
    ensures p * x < p * q
  {
  }

  lemma {:induction false} AssembleBelow(slots: seq<Slot>, values: seq<nat>, pos: nat, end: nat)
    requires Ascending(slots, pos, end) && Fit(slots, values)
    ensures pos <= end && Assemble(slots, values, pos, end) < Pow2(end - pos)
  {
    if slots != [] {
      var gap, size := slots[0].bit - pos, slots[0].f.size;
      var next := slots[0].bit + size;
      var rest := Assemble(slots[1..], values[1..], next, end);
      AssembleBelow(slots[1..], values[1..], next, end);
      Below(values[0], Pow2(size), rest, Pow2(end - next));
      PowSum(size, end - next);
      Scaled(Pow2(gap), values[0] + Pow2(size) * rest, Pow2(size + (end - next)));
      PowSum(gap, size + (end - next));
    }
  }

  lemma {:induction false} HoldsIsValues(slots: seq<Slot>, values: seq<nat>, v: nat)
    requires |slots| == |values| && Holds(slots, values, v, 0)
    ensures Values(slots, v) == values
  {
    if slots != [] {
      HoldsIsValues(slots[1..], values[1..], v);
    }
  }

  lemma {:induction false} OctetsHold(bits: nat, bytes: nat)
    requires bits <= 8 * bytes
    ensures Pow2(bits) <= Pow256(bytes)
    decreases bytes
  {
    if bytes > 0 {
      if bits >= 8 {
        OctetsHold(bits - 8, bytes - 1);
        PowSum(8, bits - 8);
        assert Pow2(8) == 256;
      } else {
        PowSum(bits, 8 - bits);
        assert Pow2(8) == 256;
        assert Pow2(bits) <= Pow2(bits) * Pow2(8 - bits);
      }
    }
  }

  /** Whatever values are put into the controls of a report, decoding the report gives the keys
      of exactly those values: no control disturbs another. */
  lemma DecodeAssembled(t: Tables, r: nat, values: seq<nat>)
    requires Decodable(t) && r < |t.reports|
    requires Fit(Slots(t.fields, t.reports[r].id, 0), values)
    ensures var id, slots := t.reports[r].id, Slots(t.fields, t.reports[r].id, 0);
      && SlotsOk(slots) && Ascending(slots, 0, t.reports[r].bits)
      && Decode(t, id, Le(Assemble(slots, values, 0, t.reports[r].bits), t.reports[r].bytes)) == Keys(slots, values, {})
  {
    var id, bits, bytes := t.reports[r].id, t.reports[r].bits, t.reports[r].bytes;
    var slots := Slots(t.fields, id, 0);
    FindFirst(t.reports, r);
    AllSlotsOk(t.fields, id, 0);
    SlotsAscend(t, id, 0, 0);
    var v := Assemble(slots, values, 0, bits);
    AssembleHolds(slots, values, 0, bits);
    AssembleBelow(slots, values, 0, bits);
    HoldsIsValues(slots, values, v);
    OctetsHold(bits, bytes);
    LeRoundTrip(v, bytes);
  }

  // ----- the decoder as it runs -----

  /** The bit loop: octets in, one number out. */
  method ReadBits(data: seq<byte>, bit: nat, size: nat) returns (value: nat)
    requires bit + size <= 8 * |data|
    ensures value == Extract(LeValue(data), bit, size)
  {
    value := 0;
    ghost var v := LeValue(data);
    for k := 0 to size
      invariant value == Extract(v, bit, k)
    {
      BitOfOctets(data, bit + k);
      BitShift(v, bit, k);
      LowStep(Shift(v, bit), k);
      if Bit(data[(bit + k) / 8], (bit + k) % 8) {
        value := value + Pow2(k);
      }
    }
  }

  lemma ControlInside(f: Field, j: nat)
    requires j < f.count
    ensures f.offset + j * f.size + f.size <= f.offset + Width(f)
  {
    Steps(f.size, j, f.count);
  }

  /** What the controls from `slots` on still say about the report `v`. */
  function Left(slots: seq<Slot>, v: nat, held: set<nat>): Option<set<nat>>
    requires SlotsOk(slots)
  {
    Keys(slots, Values(slots, v), held)
  }

  /** One field: its controls are read in turn; `None` when the report is refused. */
  method ReadField(f: Field, data: seq<byte>, held: set<nat>, ghost rest: seq<Slot>) returns (keys: Option<set<nat>>)
    requires FieldOk(f) && f.offset + Width(f) <= 8 * |data| && SlotsOk(rest) && SlotsOk(FieldSlots(f, 0))
    ensures keys.Some? ==> Left(FieldSlots(f, 0) + rest, LeValue(data), held) == Left(rest, LeValue(data), keys.value)
    ensures keys.None? ==> Left(FieldSlots(f, 0) + rest, LeValue(data), held) == None
  {
    var now := held;
    ghost var v := LeValue(data);
    for j := 0 to f.count
      invariant SlotsOk(FieldSlots(f, j))
      invariant Left(FieldSlots(f, 0) + rest, v, held) == Left(FieldSlots(f, j) + rest, v, now)
    {
      ControlInside(f, j);
      FieldSlotsOk(f, j + 1);
      var value := ReadBits(data, f.offset + j * f.size, f.size);
      NextControl(f, j, rest, v, now);
      match Read(f, value)
      case Bad => return None;
      case Silent =>
      case Pressed(key) => now := now + {key};
    }
    assert FieldSlots(f, f.count) + rest == rest;
    keys := Some(now);
  }

  lemma NextControl(f: Field, j: nat, rest: seq<Slot>, v: nat, held: set<nat>)
    requires FieldOk(f) && j < f.count && SlotsOk(rest) && SlotsOk(FieldSlots(f, j)) && SlotsOk(FieldSlots(f, j + 1))
    ensures Left(FieldSlots(f, j) + rest, v, held) ==
      match Read(f, Extract(v, f.offset + j * f.size, f.size))
      case Bad => None
      case Silent => Left(FieldSlots(f, j + 1) + rest, v, held)
      case Pressed(key) => Left(FieldSlots(f, j + 1) + rest, v, held + {key})
  {
    var slots := FieldSlots(f, j) + rest;
    assert slots[0] == Slot(f, f.offset + j * f.size);
    assert slots[1..] == FieldSlots(f, j + 1) + rest;
  }

  /** `hogp_decode_report`: every octet it looks at is inside the report. */
  method DecodeReport(t: Tables, id: nat, data: seq<byte>) returns (keys: Option<set<nat>>)
    requires Decodable(t)
    ensures keys == Decode(t, id, data)
  {
    var r := FindReport(t.reports, id);
    if r.None? || |data| != t.reports[r.value].bytes {
      return None;
    }
    var held := {};
    AllSlotsOk(t.fields, id, 0);
    ghost var v := LeValue(data);
    for i := 0 to |t.fields|
      invariant SlotsOk(Slots(t.fields, id, i))
      invariant Decode(t, id, data) == Left(Slots(t.fields, id, i), v, held)
    {
      AllSlotsOk(t.fields, id, i + 1);
      var f := t.fields[i];
      if f.id == id {
        FieldSlotsOk(f, 0);
        var more := ReadField(f, data, held, Slots(t.fields, id, i + 1));
        if more.None? {
          return None;
        }
        held := more.value;
      } else {
        assert Slots(t.fields, id, i) == Slots(t.fields, id, i + 1);
      }
    }
    keys := Some(held);
  }

  /** The search loop remembers the last match; there is at most one. */
  method FindReport(reports: seq<Report>, id: nat) returns (r: Option<nat>)
    requires ReportsOk(reports)
    ensures r == if Find(reports, id) < |reports| then Some(Find(reports, id)) else None
  {
    r := None;
    for i := 0 to |reports|
      invariant r.Some? ==> r.value < i && reports[r.value].id == id
      invariant r.None? ==> forall k :: 0 <= k < i ==> reports[k].id != id
    {
      if reports[i].id == id {
        r := Some(i);
      }
    }
    if r.Some? {
      FindFirst(reports, r.value);
    }
  }
}
