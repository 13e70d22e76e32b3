/** What every accepted descriptor guarantees to the decoder. */
module ReportMapProof {
  import opened Bytes
  import opened Options
  import opened Bits
  import opened ReportMap

  // ----- reports -----

  lemma {:induction false} FindSame(a: seq<Report>, b: seq<Report>, id: nat)
    requires |a| == |b| && forall i :: 0 <= i < |a| ==> a[i].id == b[i].id
    ensures Find(a, id) == Find(b, id)
  {
    if a != [] {
      FindSame(a[1..], b[1..], id);
    }
  }

  lemma {:induction false} FindFirst(reports: seq<Report>, i: nat)
    requires ReportsOk(reports) && i < |reports|
    ensures Find(reports, reports[i].id) == i
  {
    if i > 0 {
      assert reports[0].id != reports[i].id;
      FindFirst(reports[1..], i - 1);
    }
  }

  /** Growing one report leaves the others as they were. */
  lemma GrownBits(reports: seq<Report>, i: nat, end: nat, id: nat)
    requires ReportsOk(reports) && i < |reports|
    ensures BitsOf(Grown(reports, i, end), id) == if id == reports[i].id then end else BitsOf(reports, id)
  {
    FindSame(reports, Grown(reports, i, end), id);
    FindFirst(reports, i);
  }

  lemma GrownOk(reports: seq<Report>, i: nat, end: nat)
    requires ReportsOk(reports) && i < |reports| && end <= U16_MAX
    ensures ReportsOk(Grown(reports, i, end))
  {
  }

  lemma OpenedOk(t: Tables, id: nat, page: nat)
    requires TablesOk(t) && id <= 255 && page <= U16_MAX && Opened(t, id, page).Some?
    ensures TablesOk(Opened(t, id, page).value)
  {
    var r := Report(id, page, 0, 0);
    var i := Find(t.reports, id);
    if i == |t.reports| {
      NotFound(t.reports, id);
      forall j | 0 <= j < |t.fields|
        ensures Inside(t.fields[j], t.reports + [r])
      {
        FindAppended(t.reports, r, t.fields[j].id);
      }
    }
  }

  lemma {:induction false} NotFound(reports: seq<Report>, id: nat)
    requires Find(reports, id) == |reports|
    ensures forall i :: 0 <= i < |reports| ==> reports[i].id != id
  {
    if reports != [] {
      NotFound(reports[1..], id);
      forall i | 0 <= i < |reports|
        ensures reports[i].id != id
      {
        if i > 0 {
          assert reports[i] == reports[1..][i - 1];
        }
      }
    }
  }

  // ----- new fields -----

  lemma UsageAtOk(l: Locals, j: nat)
    requires LocalsOk(l) && (l.usages != [] || (l.umin.Some? && UsageRangeOk(l)))
    ensures UsageOk(UsageAt(l, j))
  {
  }

  /** Fields of one report that fill [base, end) in order. */
  predicate Fill(fs: seq<Field>, id: nat, base: nat, end: nat)
  {
    && (forall i :: 0 <= i < |fs| ==> FieldOk(fs[i]) && fs[i].id == id && base <= fs[i].offset && fs[i].offset + Width(fs[i]) <= end)
    && Ordered(fs)
  }

  lemma Steps(size: nat, i: nat, j: nat)
    requires i < j
    ensures i * size + size <= j * size
  {
    assert (i + 1) * size <= j * size;
  }

  lemma ControlsFill(g: Globals, l: Locals, base: nat)
    requires GlobalsOk(g) && LocalsOk(l) && 1 <= g.size <= 16 && (l.usages != [] || (l.umin.Some? && UsageRangeOk(l)))
    ensures Fill(Controls(g, l, base, g.count), g.id, base, base + Span(g))
  {
    var fs := Controls(g, l, base, g.count);
    forall j | 0 <= j < |fs|
      ensures FieldOk(fs[j]) && base <= fs[j].offset && fs[j].offset + Width(fs[j]) <= base + Span(g)
    {
      UsageAtOk(l, j);
      Steps(g.size, j, g.count);
    }
    forall i, j | 0 <= i < j < |fs|
      ensures fs[i].offset + Width(fs[i]) <= fs[j].offset
    {
      Steps(g.size, i, j);
    }
  }

  lemma SelectorOk(g: Globals, l: Locals, base: nat)
    requires GlobalsOk(g) && LocalsOk(l) && 1 <= g.size <= 16 && 1 <= g.count <= 64
    requires l.umin.Some? && UsageRangeOk(l) && g.lmin <= U16_MAX
    ensures FieldOk(Selector(g, l, base))
  {
    var a, b := l.umin.value, l.umax.value;
    assert a == Page(a) * 0x1_0000 + a % 0x1_0000 && b == Page(b) * 0x1_0000 + b % 0x1_0000;
  }

  lemma NewFieldsFill(g: Globals, l: Locals, v: nat, base: nat)
    requires GlobalsOk(g) && LocalsOk(l) && 1 <= g.size <= 16 && 1 <= g.count <= 64
    requires NewFields(g, l, v, base).Some?
    ensures Fill(NewFields(g, l, v, base).value, g.id, base, base + Span(g))
  {
    if Bit(v, 1) {
      ControlsFill(g, l, base);
    } else {
      SelectorOk(g, l, base);
    }
  }

  lemma AppendedFields(fields: seq<Field>, new_: seq<Field>, reports: seq<Report>, i: nat, end: nat)
    requires ReportsOk(reports) && FieldsOk(fields, reports) && Ordered(fields) && i < |reports|
    requires reports[i].bits <= end <= MAX_REPORT_BITS && Fill(new_, reports[i].id, reports[i].bits, end)
    ensures FieldsOk(fields + new_, Grown(reports, i, end)) && Ordered(fields + new_)
  {
    var all := fields + new_;
    FindFirst(reports, i);
    forall j | 0 <= j < |all|
      ensures FieldOk(all[j]) && Inside(all[j], Grown(reports, i, end))
    {
      GrownBits(reports, i, end, all[j].id);
    }
  }

  lemma KeptFields(fields: seq<Field>, reports: seq<Report>, i: nat, end: nat)
    requires ReportsOk(reports) && FieldsOk(fields, reports) && i < |reports| && reports[i].bits <= end
    ensures FieldsOk(fields, Grown(reports, i, end))
  {
    FindFirst(reports, i);
    forall j | 0 <= j < |fields|
      ensures Inside(fields[j], Grown(reports, i, end))
    {
      GrownBits(reports, i, end, fields[j].id);
    }
  }

  lemma TablesGrown(t: Tables, i: nat, end: nat)
    requires TablesOk(t) && i < |t.reports| && t.reports[i].bits <= end <= U16_MAX
    ensures TablesOk(PassedOver(t, i, end))
  {
    GrownOk(t.reports, i, end);
    KeptFields(t.fields, t.reports, i, end);
  }

  lemma TablesExtended(t: Tables, i: nat, end: nat, new_: seq<Field>)
    requires TablesOk(t) && i < |t.reports| && t.reports[i].bits <= end <= MAX_REPORT_BITS
    requires Fill(new_, t.reports[i].id, t.reports[i].bits, end) && |t.fields| + |new_| <= MAX_FIELDS
    ensures TablesOk(Extended(t, i, end, new_))
  {
    GrownOk(t.reports, i, end);
    AppendedFields(t.fields, new_, t.reports, i, end);
  }

  lemma WithTables(s: State, t: Tables)
    requires StateOk(s) && TablesOk(t)
    ensures StateOk(s.(t := t))
  {
  }

  lemma PassedOverOk(s: State, i: nat, end: nat)
    requires StateOk(s) && i < |s.t.reports| && s.t.reports[i].bits <= end <= U16_MAX
    ensures StateOk(s.(t := PassedOver(s.t, i, end)))
  {
    TablesGrown(s.t, i, end);
    WithTables(s, PassedOver(s.t, i, end));
  }

  lemma ExtendedOk(s: State, i: nat, end: nat, v: nat)
    requires StateOk(s) && i < |s.t.reports| && s.t.reports[i].id == s.g.id
    requires end == s.t.reports[i].bits + Span(s.g) <= MAX_REPORT_BITS && 1 <= s.g.size <= 16 && 1 <= s.g.count <= 64
    requires var new_ := NewFields(s.g, s.l, v, s.t.reports[i].bits); new_.Some? && |s.t.fields| + |new_.value| <= MAX_FIELDS
    ensures StateOk(s.(t := Extended(s.t, i, end, NewFields(s.g, s.l, v, s.t.reports[i].bits).value)))
  {
    var new_ := NewFields(s.g, s.l, v, s.t.reports[i].bits).value;
    NewFieldsFill(s.g, s.l, v, s.t.reports[i].bits);
    TablesExtended(s.t, i, end, new_);
    WithTables(s, Extended(s.t, i, end, new_));
  }

  lemma PlacedOk(s: State, v: nat)
    requires StateOk(s) && SizesOk(s) && Find(s.t.reports, s.g.id) < |s.t.reports| && Placed(s, v).Some?
    ensures StateOk(Placed(s, v).value)
  {
    var i := Find(s.t.reports, s.g.id);
    var end := s.t.reports[i].bits + Span(s.g);
    var o := Placed(s, v);
    if v % 2 == 1 || Vendor(s) {
      PassedOverOk(s, i, end);
      assert o == Some(s.(t := PassedOver(s.t, i, end)));
    } else {
      ExtendedOk(s, i, end, v);
      assert o == Some(s.(t := Extended(s.t, i, end, NewFields(s.g, s.l, v, s.t.reports[i].bits).value)));
    }
  }

  // ----- items -----

  lemma LocalOk(s: State, tag: nat, n: nat, v: nat)
    requires StateOk(s) && OnLocal(s, tag, n, v).Some? && v <= U32_MAX && n <= 4 && (n < 4 ==> v <= U16_MAX)
    ensures StateOk(OnLocal(s, tag, n, v).value)
  {
    assert UsageOk(Usage(s, n, v));
  }

  lemma GlobalOk(s: State, tag: nat, v: nat)
    requires StateOk(s) && OnGlobal(s, tag, v).Some?
    ensures StateOk(OnGlobal(s, tag, v).value)
  {
  }

  lemma MainOk(s: State, tag: nat, v: nat)
    requires StateOk(s) && OnMain(s, tag, v).Some?
    ensures StateOk(OnMain(s, tag, v).value)
  {
    if tag == 8 {
      var t := Opened(s.t, s.g.id, s.g.page).value;
      OpenedOk(s.t, s.g.id, s.g.page);
      PlacedOk(s.(t := t), v);
    }
  }

  lemma ItemOk(s: State, prefix: byte, data: seq<byte>)
    requires StateOk(s) && |data| == DataSize(prefix) && OnItem(s, prefix, LeValue(data)).Some?
    ensures StateOk(OnItem(s, prefix, LeValue(data)).value)
  {
    var v := LeValue(data);
    var kind, tag := prefix / 4 % 4, prefix / 16;
    LeBound(data);
    assert Pow256(2) == 0x1_0000 && Pow256(1) == 256 && Pow256(0) == 1;
    assert Pow256(4) == 256 * (256 * Pow256(2));
    if kind == 0 {
      MainOk(s, tag, v);
    } else if kind == 1 {
      GlobalOk(s, tag, v);
    } else if kind == 2 {
      LocalOk(s, tag, DataSize(prefix), v);
    }
  }

  /** Capacities and ranges hold after any accepted items. */
  lemma {:induction false} ItemsOk(s: State, d: seq<byte>)
    requires StateOk(s) && Items(s, d).Some?
    ensures StateOk(Items(s, d).value)
    decreases |d|
  {
    if d != [] {
      var n := DataSize(d[0]);
      ItemOk(s, d[0], d[1..1 + n]);
      ItemsOk(OnItem(s, d[0], LeValue(d[1..1 + n])).value, d[1 + n..]);
    }
  }

  // ----- the end -----

  lemma {:induction false} KeptAmong(fields: seq<Field>, reports: seq<Report>)
    requires Kept(fields, reports).Some?
    ensures var kept := Kept(fields, reports).value;
      |kept| <= |reports| && forall i :: 0 <= i < |kept| ==> kept[i] in reports
  {
    if reports != [] {
      KeptAmong(fields, reports[1..]);
    }
  }

  lemma {:induction false} KeptOk(fields: seq<Field>, reports: seq<Report>)
    requires ReportsOk(reports) && Kept(fields, reports).Some?
    ensures var kept := Kept(fields, reports).value;
      ReportsOk(kept) && forall i :: 0 <= i < |kept| ==> kept[i].bits <= MAX_REPORT_BITS && Useful(fields, kept[i].id)
  {
    if reports != [] {
      KeptOk(fields, reports[1..]);
      KeptAmong(fields, reports[1..]);
    }
  }

  lemma {:induction false} KeptBits(fields: seq<Field>, reports: seq<Report>, id: nat)
    requires Kept(fields, reports).Some? && Useful(fields, id)
    ensures var kept := Kept(fields, reports).value;
      BitsOf(kept, id) == BitsOf(reports, id) && (Find(kept, id) < |kept| <==> Find(reports, id) < |reports|)
  {
    if reports != [] {
      KeptBits(fields, reports[1..], id);
    }
  }

  lemma InsideFound(f: Field, reports: seq<Report>)
    requires FieldOk(f) && Inside(f, reports)
    ensures Find(reports, f.id) < |reports|
  {
    assert Width(f) >= 1 by {
      Steps(f.size, 0, f.count);
    }
  }

  /** Two fields of one report share no bit. */
  predicate Disjoint(f: Field, g: Field)
  {
    f.offset + Width(f) <= g.offset || g.offset + Width(g) <= f.offset
  }

  /** A table as the decoder needs it. */
  predicate Decodable(t: Tables)
  {
    && TablesOk(t)
    && (forall i :: 0 <= i < |t.reports| ==> t.reports[i].bits <= MAX_REPORT_BITS && Useful(t.fields, t.reports[i].id))
    && (forall i :: 0 <= i < |t.fields| ==> Find(t.reports, t.fields[i].id) < |t.reports|)
    && (forall i, j :: 0 <= i < j < |t.fields| && t.fields[i].id == t.fields[j].id ==> Disjoint(t.fields[i], t.fields[j]))
  }

  lemma FinishOk(s: State)
    requires StateOk(s) && Finish(s).Some?
    ensures Decodable(Finish(s).value)
  {
    var t := Finish(s).value;
    KeptOk(s.t.fields, s.t.reports);
    KeptAmong(s.t.fields, s.t.reports);
    forall i | 0 <= i < |t.fields|
      ensures FieldOk(t.fields[i]) && Inside(t.fields[i], t.reports) && Find(t.reports, t.fields[i].id) < |t.reports|
    {
      assert Useful(t.fields, t.fields[i].id);
      KeptBits(s.t.fields, s.t.reports, t.fields[i].id);
      InsideFound(t.fields[i], s.t.reports);
    }
  }

  /** Every accepted descriptor gives a decodable table: capacities hold, no 16-bit size
      overflows, the fields of one report lie inside it without overlap, and no report exceeds
      512 bits. */
  lemma AcceptedIsDecodable(d: seq<byte>)
    requires Parse(d).Some?
    ensures Decodable(Parse(d).value)
  {
    ItemsOk(EMPTY, d);
    FinishOk(Items(EMPTY, d).value);
  }
}
