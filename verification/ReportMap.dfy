/** HID report descriptors: short items in, a bounded table of button and keyboard fields out
    (section 6.2.2 of the USB Device Class Definition for HID 1.11). */
module ReportMap {
  import opened Bytes
  import opened Options
  import opened Bits

  const MAX_MAP_SIZE := 512
  const MAX_FIELDS := 64
  const MAX_INPUTS := 8
  const MAX_USAGES := 32
  const MAX_STACK := 4
  const MAX_DEPTH := 16
  const MAX_REPORT_BITS := 512
  const VENDOR_PAGE := 0xFF00

  datatype Globals = Globals(page: nat, size: nat, count: nat, id: nat, lmin: nat, lmax: nat)

  datatype Locals = Locals(usages: seq<nat>, umin: Option<nat>, umax: Option<nat>)

  datatype Field = Field(id: nat, offset: nat, size: nat, count: nat, page: nat, umin: nat, umax: nat, lmin: nat, variable: bool)

  datatype Report = Report(id: nat, page: nat, bits: nat, bytes: nat)

  datatype Tables = Tables(fields: seq<Field>, reports: seq<Report>, usesIds: bool)

  datatype State = State(g: Globals, stack: seq<Globals>, depth: nat, l: Locals, t: Tables)

  const NO_LOCALS := Locals([], None, None)
  const EMPTY := State(Globals(0, 0, 0, 0, 0, 0), [], 0, NO_LOCALS, Tables([], [], false))

  // ----- one item -----

  function DataSize(prefix: byte): nat
  {
    if prefix % 4 == 3 then 4 else prefix % 4
  }

  function OnGlobal(s: State, tag: nat, v: nat): Option<State>
  {
    match tag
    case 0 => if v > U16_MAX then None else Some(s.(g := s.g.(page := v)))
    case 1 => Some(s.(g := s.g.(lmin := v)))
    case 2 => Some(s.(g := s.g.(lmax := v)))
    case 7 => Some(s.(g := s.g.(size := v)))
    case 8 => if v == 0 || v > 255 then None else Some(s.(g := s.g.(id := v), t := s.t.(usesIds := true)))
    case 9 => Some(s.(g := s.g.(count := v)))
    case 10 => if |s.stack| == MAX_STACK then None else Some(s.(stack := s.stack + [s.g]))
    case 11 => if s.stack == [] then None else Some(s.(g := s.stack[|s.stack| - 1], stack := s.stack[..|s.stack| - 1]))
    case _ => Some(s)
  }

  /** A usage of fewer than four octets is completed by the current page. */
  function Usage(s: State, n: nat, v: nat): nat
  {
    if n == 4 then v else s.g.page * 0x1_0000 + v
  }

  function OnLocal(s: State, tag: nat, n: nat, v: nat): Option<State>
  {
    match tag
    case 0 => if |s.l.usages| == MAX_USAGES then None else Some(s.(l := s.l.(usages := s.l.usages + [Usage(s, n, v)])))
    case 1 => Some(s.(l := s.l.(umin := Some(Usage(s, n, v)))))
    case 2 => Some(s.(l := s.l.(umax := Some(Usage(s, n, v)))))
    case 10 => None
    case _ => Some(s)
  }

  // ----- the Input item -----

  function Page(usage: nat): nat
  {
    usage / 0x1_0000
  }

  predicate Vendor(s: State)
  {
    && s.g.page >= VENDOR_PAGE
    && (s.l.umin.Some? ==> Page(s.l.umin.value) >= VENDOR_PAGE)
    && (forall i :: 0 <= i < |s.l.usages| ==> Page(s.l.usages[i]) >= VENDOR_PAGE)
  }

  predicate SizesOk(s: State)
  {
    && 0 < s.g.size <= U16_MAX && 0 < s.g.count <= U16_MAX
    && (!Vendor(s) ==> s.g.size <= 16 && s.g.count <= 64)
  }

  /** Where the report with this id stands in the table; the table's length when it is new. */
  function Find(reports: seq<Report>, id: nat): (i: nat)
    ensures i <= |reports|
    ensures i < |reports| ==> reports[i].id == id
  {
    if reports == [] then 0
    else if reports[0].id == id then 0
    else 1 + Find(reports[1..], id)
  }

  lemma {:induction false} FindAppended(reports: seq<Report>, r: Report, id: nat)
    ensures Find(reports + [r], id) ==
      if Find(reports, id) < |reports| then Find(reports, id) else if r.id == id then |reports| else |reports| + 1
  {
    if reports == [] {
      assert reports + [r] == [r];
      assert [r][1..] == [];
    } else {
      assert (reports + [r])[1..] == reports[1..] + [r];
      FindAppended(reports[1..], r, id);
    }
  }

  function BitsOf(reports: seq<Report>, id: nat): nat
  {
    var i := Find(reports, id);
    if i < |reports| then reports[i].bits else 0
  }

  function Opened(t: Tables, id: nat, page: nat): (o: Option<Tables>)
    ensures o.Some? ==> Find(o.value.reports, id) < |o.value.reports|
  {
    FindAppended(t.reports, Report(id, page, 0, 0), id);
    if Find(t.reports, id) < |t.reports| then Some(t)
    else if |t.reports| == MAX_INPUTS then None
    else Some(t.(reports := t.reports + [Report(id, page, 0, 0)]))
  }

  predicate UsageRangeOk(l: Locals)
  {
    && (l.umin.Some? <==> l.umax.Some?)
    && (l.umin.Some? ==> l.umin.value <= l.umax.value && Page(l.umin.value) == Page(l.umax.value))
  }

  /** The usage of the `j`-th control of a variable field; the last one repeats. */
  function UsageAt(l: Locals, j: nat): nat
    requires l.usages != [] || (l.umin.Some? && UsageRangeOk(l))
  {
    if l.usages != [] then l.usages[if j < |l.usages| then j else |l.usages| - 1]
    else l.umin.value + (if j <= l.umax.value - l.umin.value then j else l.umax.value - l.umin.value)
  }

  function Control(g: Globals, l: Locals, base: nat, j: nat): Field
    requires l.usages != [] || (l.umin.Some? && UsageRangeOk(l))
  {
    var usage := UsageAt(l, j);
    Field(g.id, base + j * g.size, g.size, 1, Page(usage), usage % 0x1_0000, usage % 0x1_0000, 0, true)
  }

  /** One field per control. */
  function Controls(g: Globals, l: Locals, base: nat, n: nat): (fs: seq<Field>)
    requires l.usages != [] || (l.umin.Some? && UsageRangeOk(l))
    ensures |fs| == n
    ensures forall j :: 0 <= j < n ==> fs[j] == Control(g, l, base, j)
  {
    seq(n, j requires 0 <= j < n => Control(g, l, base, j))
  }

  function Selector(g: Globals, l: Locals, base: nat): Field
    requires l.umin.Some? && l.umax.Some?
  {
    Field(g.id, base, g.size, g.count, Page(l.umin.value), l.umin.value % 0x1_0000, l.umax.value % 0x1_0000, g.lmin, false)
  }

  /** The fields that a data Input item adds at bit `base`. */
  function NewFields(g: Globals, l: Locals, v: nat, base: nat): Option<seq<Field>>
  {
    if Bit(v, 2) || Bit(v, 8) || !UsageRangeOk(l) then None
    else if Bit(v, 1) then
      if l.usages == [] && l.umin.None? then None else Some(Controls(g, l, base, g.count))
    else if l.umin.None? || g.lmin > U16_MAX || g.lmax > U16_MAX || g.lmax < g.lmin then None
    else Some([Selector(g, l, base)])
  }

  function Grown(reports: seq<Report>, i: nat, end: nat): seq<Report>
    requires i < |reports|
  {
    reports[i := reports[i].(bits := end, bytes := (end + 7) / 8)]
  }

  function OnInput(s: State, v: nat): Option<State>
  {
    var t := Opened(s.t, s.g.id, s.g.page);
    if !SizesOk(s) || t.None? then None else Placed(s.(t := t.value), v)
  }

  function Span(g: Globals): nat
  {
    g.size * g.count
  }

  /** Bits that are passed over: constant or vendor data. */
  function PassedOver(t: Tables, i: nat, end: nat): Tables
    requires i < |t.reports|
  {
    t.(reports := Grown(t.reports, i, end))
  }

  function Extended(t: Tables, i: nat, end: nat, new_: seq<Field>): Tables
    requires i < |t.reports|
  {
    t.(fields := t.fields + new_, reports := Grown(t.reports, i, end))
  }

  /** The report is in the table; the item takes the next bits of it. */
  function Placed(s: State, v: nat): Option<State>
    requires Find(s.t.reports, s.g.id) < |s.t.reports|
  {
    var i := Find(s.t.reports, s.g.id);
    var base := s.t.reports[i].bits;
    var end := base + Span(s.g);
    if end > U16_MAX then None
    else if v % 2 == 1 || Vendor(s) then Some(s.(t := PassedOver(s.t, i, end)))
    else
      var new_ := NewFields(s.g, s.l, v, base);
      if end > MAX_REPORT_BITS || new_.None? || |s.t.fields| + |new_.value| > MAX_FIELDS then None
      else Some(s.(t := Extended(s.t, i, end, new_.value)))
  }

  function OnMain(s: State, tag: nat, v: nat): Option<State>
  {
    var r :=
      if tag == 10 then if s.depth == MAX_DEPTH then None else Some(s.(depth := s.depth + 1))
      else if tag == 12 then if s.depth == 0 then None else Some(s.(depth := s.depth - 1))
      else if tag == 8 then OnInput(s, v)
      else Some(s);
    if r.None? then None else Some(r.value.(l := NO_LOCALS))
  }

  function OnItem(s: State, prefix: byte, v: nat): Option<State>
  {
    var kind, tag := prefix / 4 % 4, prefix / 16;
    if kind == 1 then OnGlobal(s, tag, v)
    else if kind == 2 then OnLocal(s, tag, DataSize(prefix), v)
    else if kind == 0 then OnMain(s, tag, v)
    else Some(s)
  }

  // ----- the whole descriptor -----

  function Items(s: State, d: seq<byte>): Option<State>
    decreases |d|
  {
    if d == [] then Some(s)
    else
      var n := DataSize(d[0]);
      if d[0] == 0xFE || 1 + n > |d| then None
      else
        var r := OnItem(s, d[0], LeValue(d[1..1 + n]));
        if r.None? then None else Items(r.value, d[1 + n..])
  }

  predicate Useful(fields: seq<Field>, id: nat)
  {
    exists j :: 0 <= j < |fields| && fields[j].id == id
  }

  /** Only reports with decodable fields are kept; such a report must be short enough. */
  function Kept(fields: seq<Field>, reports: seq<Report>): Option<seq<Report>>
  {
    if reports == [] then Some([])
    else if !Useful(fields, reports[0].id) then Kept(fields, reports[1..])
    else if reports[0].bits > MAX_REPORT_BITS || Kept(fields, reports[1..]).None? then None
    else Some([reports[0]] + Kept(fields, reports[1..]).value)
  }

  predicate IdsUsed(t: Tables)
  {
    t.usesIds ==> forall i :: 0 <= i < |t.reports| ==> t.reports[i].id != 0
  }

  function Finish(s: State): Option<Tables>
  {
    if s.depth != 0 || s.stack != [] || s.t.reports == [] || !IdsUsed(s.t) then None
    else
      var kept := Kept(s.t.fields, s.t.reports);
      if kept.None? || kept.value == [] then None else Some(s.t.(reports := kept.value))
  }

  function Parse(d: seq<byte>): Option<Tables>
  {
    if d == [] || |d| > MAX_MAP_SIZE then None
    else
      var s := Items(EMPTY, d);
      if s.None? then None else Finish(s.value)
  }

  // ----- what holds of every table -----

  function Width(f: Field): nat
  {
    f.size * f.count
  }

  predicate FieldOk(f: Field)
  {
    && 1 <= f.size <= 16 && 1 <= f.count <= 64 && f.id <= 255
    && f.page <= U16_MAX && f.umin <= f.umax <= U16_MAX && f.lmin <= U16_MAX
  }

  predicate ReportOk(r: Report)
  {
    r.id <= 255 && r.page <= U16_MAX && r.bits <= U16_MAX && r.bytes == (r.bits + 7) / 8
  }

  /** Within its report, and within what a decodable report may hold. */
  predicate Inside(f: Field, reports: seq<Report>)
  {
    f.offset + Width(f) <= MAX_REPORT_BITS && f.offset + Width(f) <= BitsOf(reports, f.id)
  }

  predicate Ordered(fields: seq<Field>)
  {
    forall i, j :: 0 <= i < j < |fields| && fields[i].id == fields[j].id ==>
      fields[i].offset + Width(fields[i]) <= fields[j].offset
  }

  predicate FieldsOk(fields: seq<Field>, reports: seq<Report>)
  {
    forall i :: 0 <= i < |fields| ==> FieldOk(fields[i]) && Inside(fields[i], reports)
  }

  predicate ReportsOk(reports: seq<Report>)
  {
    && (forall i :: 0 <= i < |reports| ==> ReportOk(reports[i]))
    && (forall i, j :: 0 <= i < j < |reports| ==> reports[i].id != reports[j].id)
  }

  predicate TablesOk(t: Tables)
  {
    && |t.fields| <= MAX_FIELDS && |t.reports| <= MAX_INPUTS
    && ReportsOk(t.reports) && FieldsOk(t.fields, t.reports) && Ordered(t.fields)
  }

  predicate GlobalsOk(g: Globals)
  {
    g.page <= U16_MAX && g.id <= 255
  }

  predicate UsageOk(u: nat)
  {
    u <= U32_MAX
  }

  predicate LocalsOk(l: Locals)
  {
    && |l.usages| <= MAX_USAGES
    && (forall i :: 0 <= i < |l.usages| ==> UsageOk(l.usages[i]))
    && (l.umin.Some? ==> UsageOk(l.umin.value)) && (l.umax.Some? ==> UsageOk(l.umax.value))
  }

  predicate StateOk(s: State)
  {
    && GlobalsOk(s.g) && |s.stack| <= MAX_STACK && (forall i :: 0 <= i < |s.stack| ==> GlobalsOk(s.stack[i]))
    && s.depth <= MAX_DEPTH && LocalsOk(s.l) && TablesOk(s.t)
  }
}
