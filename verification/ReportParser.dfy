/** The descriptor parser as it runs: one pass over the octets, tables filled as it goes. */
module ReportParser {
  import opened Bytes
  import opened Options
  import opened Bits
  import opened ReportMap

  lemma {:induction false} LeSnoc(s: seq<byte>, b: byte)
    ensures LeValue(s + [b]) == LeValue(s) + b * Pow256(|s|)
  {
    if s == [] {
      assert s + [b] == [b];
      assert LeValue([b]) == b + 256 * LeValue([b][1..]);
    } else {
      assert (s + [b])[1..] == s[1..] + [b];
      LeSnoc(s[1..], b);
      assert LeValue(s + [b]) == s[0] + 256 * (LeValue(s[1..]) + b * Pow256(|s| - 1));
      assert 256 * (b * Pow256(|s| - 1)) == b * Pow256(|s|);
    }
  }

  /** The data octets of one item, least significant first. */
  method ReadValue(d: seq<byte>, pos: nat, n: nat) returns (v: nat)
    requires pos + n <= |d|
    ensures v == LeValue(d[pos..pos + n])
  {
    v := 0;
    for i := 0 to n
      invariant v == LeValue(d[pos..pos + i])
    {
      LeSnoc(d[pos..pos + i], d[pos + i]);
      assert d[pos..pos + i + 1] == d[pos..pos + i] + [d[pos + i]];
      v := v + d[pos + i] * Pow256(i);
    }
  }

  method IsVendor(s: State) returns (vendor: bool)
    ensures vendor == Vendor(s)
  {
    vendor := s.g.page >= VENDOR_PAGE;
    if s.l.umin.Some? && Page(s.l.umin.value) < VENDOR_PAGE {
      vendor := false;
    }
    ghost var before := vendor;
    for i := 0 to |s.l.usages|
      invariant vendor == (before && forall k :: 0 <= k < i ==> Page(s.l.usages[k]) >= VENDOR_PAGE)
    {
      if Page(s.l.usages[i]) < VENDOR_PAGE {
        vendor := false;
      }
    }
  }

  lemma {:induction false} FindFrom(reports: seq<Report>, id: nat, n: nat)
    requires n <= |reports| && forall k :: 0 <= k < n ==> reports[k].id != id
    ensures Find(reports, id) == n + Find(reports[n..], id)
  {
    if n > 0 {
      FindFrom(reports[1..], id, n - 1);
      assert reports[1..][n - 1..] == reports[n..];
    }
  }

  /** Looks the report up, or makes an entry for it. */
  method OpenReport(t: Tables, id: nat, page: nat) returns (o: Option<Tables>)
    ensures o == Opened(t, id, page)
  {
    for i := 0 to |t.reports|
      invariant forall k :: 0 <= k < i ==> t.reports[k].id != id
    {
      if t.reports[i].id == id {
        FindFrom(t.reports, id, i);
        return Some(t);
      }
    }
    FindFrom(t.reports, id, |t.reports|);
    if |t.reports| == MAX_INPUTS {
      return None;
    }
    o := Some(t.(reports := t.reports + [Report(id, page, 0, 0)]));
  }

  /** One table entry per control, until the table is full. */
  method AddControls(fields: seq<Field>, g: Globals, l: Locals, base: nat) returns (o: Option<seq<Field>>)
    requires l.usages != [] || (l.umin.Some? && UsageRangeOk(l))
    requires |fields| <= MAX_FIELDS
    ensures o == if |fields| + g.count > MAX_FIELDS then None else Some(fields + Controls(g, l, base, g.count))
  {
    var all := fields;
    ghost var new_ := Controls(g, l, base, g.count);
    for j := 0 to g.count
      invariant all == fields + new_[..j] && |all| <= MAX_FIELDS
    {
      if |all| == MAX_FIELDS {
        return None;
      }
      all := all + [Control(g, l, base, j)];
      assert new_[..j + 1] == new_[..j] + [new_[j]];
    }
    assert new_[..g.count] == new_;
    o := Some(all);
  }

  method AddFields(fields: seq<Field>, g: Globals, l: Locals, v: nat, base: nat) returns (o: Option<seq<Field>>)
    requires |fields| <= MAX_FIELDS
    ensures var new_ := NewFields(g, l, v, base);
      o == if new_.None? || |fields| + |new_.value| > MAX_FIELDS then None else Some(fields + new_.value)
  {
    if Bit(v, 2) || Bit(v, 8) || !UsageRangeOk(l) {
      return None;
    }
    if Bit(v, 1) {
      if l.usages == [] && l.umin.None? {
        return None;
      }
      o := AddControls(fields, g, l, base);
      return;
    }
    if l.umin.None? || g.lmin > U16_MAX || g.lmax > U16_MAX || g.lmax < g.lmin || |fields| == MAX_FIELDS {
      return None;
    }
    o := Some(fields + [Selector(g, l, base)]);
  }

  method TakeInput(s: State, v: nat) returns (o: Option<State>)
    requires |s.t.fields| <= MAX_FIELDS
    ensures o == OnInput(s, v)
    ensures o.Some? ==> |o.value.t.fields| <= MAX_FIELDS
  {
    var vendor := IsVendor(s);
    if s.g.size == 0 || s.g.size > U16_MAX || s.g.count == 0 || s.g.count > U16_MAX {
      return None;
    }
    if !vendor && (s.g.size > 16 || s.g.count > 64) {
      return None;
    }
    var entry := OpenReport(s.t, s.g.id, s.g.page);
    if entry.None? {
      return None;
    }
    o := Place(s.(t := entry.value), v, vendor);
  }

  method Place(s: State, v: nat, vendor: bool) returns (o: Option<State>)
    requires |s.t.fields| <= MAX_FIELDS && Find(s.t.reports, s.g.id) < |s.t.reports| && vendor == Vendor(s)
    ensures o == Placed(s, v)
    ensures o.Some? ==> |o.value.t.fields| <= MAX_FIELDS
  {
    var i := Find(s.t.reports, s.g.id);
    var base := s.t.reports[i].bits;
    var end := base + Span(s.g);
    if end > U16_MAX {
      return None;
    }
    var fields := s.t.fields;
    if v % 2 == 0 && !vendor {
      if end > MAX_REPORT_BITS {
        return None;
      }
      var added := AddFields(fields, s.g, s.l, v, base);
      if added.None? {
        return None;
      }
      fields := added.value;
    }
    o := Some(s.(t := s.t.(fields := fields, reports := Grown(s.t.reports, i, end))));
  }

  method TakeItem(s: State, prefix: byte, v: nat) returns (o: Option<State>)
    requires |s.t.fields| <= MAX_FIELDS
    ensures o == OnItem(s, prefix, v)
    ensures o.Some? ==> |o.value.t.fields| <= MAX_FIELDS
  {
    var kind, tag := prefix / 4 % 4, prefix / 16;
    if kind == 0 && tag == 8 {
      o := TakeInput(s, v);
      if o.Some? {
        o := Some(o.value.(l := NO_LOCALS));
      }
    } else {
      o := OnItem(s, prefix, v);
    }
  }

  lemma {:induction false} KeptConcat(fields: seq<Field>, a: seq<Report>, b: seq<Report>)
    ensures Kept(fields, a + b) ==
      if Kept(fields, a).None? || Kept(fields, b).None? then None else Some(Kept(fields, a).value + Kept(fields, b).value)
  {
    if a == [] {
      assert a + b == b;
      if Kept(fields, b).Some? {
        assert [] + Kept(fields, b).value == Kept(fields, b).value;
      }
    } else {
      assert (a + b)[1..] == a[1..] + b;
      KeptConcat(fields, a[1..], b);
      if Kept(fields, a[1..]).Some? && Kept(fields, b).Some? {
        var x, y := Kept(fields, a[1..]).value, Kept(fields, b).value;
        assert [a[0]] + (x + y) == ([a[0]] + x) + y;
      }
    }
  }

  lemma KeptOne(fields: seq<Field>, r: Report)
    ensures Kept(fields, [r]) ==
      if !Useful(fields, r.id) then Some([]) else if r.bits > MAX_REPORT_BITS then None else Some([r])
  {
    assert [r][1..] == [];
    assert [r] + [] == [r];
  }

  /** The loop that moves the useful reports to the front of the table. */
  method KeepUseful(fields: seq<Field>, reports: seq<Report>) returns (o: Option<seq<Report>>)
    ensures o == Kept(fields, reports)
  {
    var kept := [];
    for i := 0 to |reports|
      invariant Kept(fields, reports[..i]) == Some(kept)
    {
      assert reports[..i + 1] == reports[..i] + [reports[i]];
      KeptConcat(fields, reports[..i], [reports[i]]);
      KeptOne(fields, reports[i]);
      var useful := false;
      for j := 0 to |fields|
        invariant useful <==> exists k :: 0 <= k < j && fields[k].id == reports[i].id
      {
        if fields[j].id == reports[i].id {
          useful := true;
        }
      }
      assert useful <==> Useful(fields, reports[i].id);
      if useful {
        if reports[i].bits > MAX_REPORT_BITS {
          KeptConcat(fields, reports[..i + 1], reports[i + 1..]);
          assert reports == reports[..i + 1] + reports[i + 1..];
          return None;
        }
        kept := kept + [reports[i]];
      } else {
        assert kept + [] == kept;
      }
    }
    assert reports[..|reports|] == reports;
    o := Some(kept);
  }

  /** One turn of the loop: the item at `pos`, and where the next one begins. */
  method TakeNext(s: State, d: seq<byte>, pos: nat) returns (o: Option<State>, next: nat)
    requires pos < |d| && |s.t.fields| <= MAX_FIELDS
    ensures o.None? ==> Items(s, d[pos..]) == None
    ensures o.Some? ==> pos < next <= |d| && |o.value.t.fields| <= MAX_FIELDS && Items(s, d[pos..]) == Items(o.value, d[next..])
  {
    var prefix, n := d[pos], DataSize(d[pos]);
    ItemSplit(d, pos);
    next := pos + 1 + n;
    if prefix == 0xFE || next > |d| {
      return None, pos;
    }
    var v := ReadValue(d, pos + 1, n);
    o := TakeItem(s, prefix, v);
  }

  /** `hogp_report_map_parse`. */
  method ParseMap(d: seq<byte>) returns (r: Option<Tables>)
    ensures r == Parse(d)
  {
    if d == [] || |d| > MAX_MAP_SIZE {
      return None;
    }
    var s, pos := EMPTY, 0;
    assert d[0..] == d;
    while pos < |d|
      invariant pos <= |d| && Items(EMPTY, d) == Items(s, d[pos..]) && |s.t.fields| <= MAX_FIELDS
      decreases |d| - pos
    {
      var o, next := TakeNext(s, d, pos);
      if o.None? {
        return None;
      }
      s, pos := o.value, next;
    }
    assert d[|d|..] == [];
    r := CloseMap(s);
  }

  lemma ItemSplit(d: seq<byte>, pos: nat)
    requires pos < |d|
    ensures var n := DataSize(d[pos]);
      d[pos..][0] == d[pos] && (pos + 1 + n <= |d| ==> d[pos..][1..1 + n] == d[pos + 1..pos + 1 + n] && d[pos..][1 + n..] == d[pos + 1 + n..])
  {
  }

  method CloseMap(s: State) returns (r: Option<Tables>)
    ensures r == Finish(s)
  {
    if s.depth != 0 || s.stack != [] || s.t.reports == [] {
      return None;
    }
    if s.t.usesIds {
      for i := 0 to |s.t.reports|
        invariant forall k :: 0 <= k < i ==> s.t.reports[k].id != 0
      {
        if s.t.reports[i].id == 0 {
          return None;
        }
      }
    }
    var kept := KeepUseful(s.t.fields, s.t.reports);
    if kept.None? || kept.value == [] {
      return None;
    }
    r := Some(s.t.(reports := kept.value));
  }
}
