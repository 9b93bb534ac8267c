/** What the connector takes and what it refuses, reason by reason, and what a
    report says (src/integrations/ksp_gateway/mapping.py). */
module KspAcceptance {
  import opened Outcomes
  import opened Ordering
  import opened Sums
  import opened KspMapping
  import opened KspTracking

  // ---------------------------------------------------------------- releases

  predicate Applies(r: PackRule, x: AllocationLine) { x.sku == Some(r.sku) && x.uom == Some(r.uom) }

  /** A named SKU, a full identity, a positive quantity, and a rule for its packs. */
  predicate LineComplete(rules: seq<PackRule>, x: AllocationLine) {
    && x.sku.Some? && Positive(x.saleLine) && Positive(x.location) && Positive(x.product) && Positive(x.uom)
    && x.quantity.Some? && x.quantity.value > 0.0
    && exists r :: r in rules && Applies(r, x)
  }

  predicate Positive(i: Option<int>) { i.Some? && i.value > 0 }

  predicate NoRuleTwice(rules: seq<PackRule>) {
    forall i, j | 0 <= i < j < |rules| :: rules[i].sku != rules[j].sku || rules[i].uom != rules[j].uom
  }

  /** Lines of one SKU have one sale line, location, product and unit. */
  predicate NoSkuSplit(lines: seq<AllocationLine>) {
    forall x, y | x in lines && y in lines && x.sku == y.sku ::
      x.saleLine == y.saleLine && x.location == y.location && x.product == y.product && x.uom == y.uom
  }

  /** The units in so many packs. */
  function InPacks(n: int, units: real): real { n as real * units }

  /** The quantities released of a SKU fill whole packs. */
  ghost predicate FillsPacks(lines: seq<AllocationLine>, sku: string, units: real) {
    exists n: int :: InPacks(n, units) == SumSeq(lines, OfSku(sku))
  }

  /** A release is taken exactly if its header is of the one supported kind, no
      rule is given twice, there are lines, each of them is complete, no SKU is
      split over identities, and every SKU fills whole packs. */
  lemma ReleaseTakenExactly(p: Payload, a: Allocation, rules: seq<PackRule>)
    ensures AllocationAccepted(p, a, rules) <==>
      && p.schemaVersion == 3 && p.fulfillmentMode == "reserved_only" && a.wmsCode == "ksp"
      && Positive(a.warehouseId) && Positive(p.pickingId) && a in p.allocations && a.submissionKey.Some?
      && NoRuleTwice(rules) && a.lines != [] && (forall x | x in a.lines :: LineComplete(rules, x)) && NoSkuSplit(a.lines)
      && forall x, r | x in a.lines && r in rules && Applies(r, x) :: FillsPacks(a.lines, r.sku, r.units)
  {
    hide RuleTable, FillsPacks, NoSkuSplit, Summarises, WholePacks, LineComplete, SameIdentityPerSku;
    TableIsFull(rules);
    if NoRuleTwice(rules) {
      forall x | x in a.lines ensures LineAccepted(RuleTable(rules), x) <==> LineComplete(rules, x) { LineTakenExactly(rules, x); }
      if forall x | x in a.lines :: LineAccepted(RuleTable(rules), x) {
        SplitExactly(a.lines, RuleTable(rules));
        if SameIdentityPerSku(a.lines) {
          var m := SummaryExists(RuleTable(rules), a.lines);
          forall n | Summarises(RuleTable(rules), a.lines, n) ensures n == m { SummaryUnique(RuleTable(rules), a.lines, m, n); }
          WholeExactly(rules, a.lines, m);
        }
      }
    }
  }

  predicate HasRule(rules: seq<PackRule>, k: RuleKey) { exists i :: 0 <= i < |rules| && rules[i].sku == k.sku && rules[i].uom == k.uom }

  /** The look-up table: what it has, and that it is as long as the list exactly
      if nothing was overwritten. */
  lemma {:induction false} TableIsFull(rules: seq<PackRule>)
    ensures forall k :: k in RuleTable(rules) <==> HasRule(rules, k)
    ensures |RuleTable(rules)| <= |rules| && (|RuleTable(rules)| == |rules| <==> NoRuleTwice(rules))
  {
    hide HasRule, NoRuleTwice;
    NoRules();
    if rules != [] {
      var n := |rules| - 1;
      var k, rest := RuleKey(rules[n].sku, rules[n].uom), RuleTable(rules[..n]);
      TableIsFull(rules[..n]);
      forall x ensures HasRule(rules, x) <==> HasRule(rules[..n], x) || x == k { OneMoreRule(rules, x); }
      assert RuleTable(rules).Keys == rest.Keys + {k};
      assert |RuleTable(rules)| == if k in rest then |rest| else |rest| + 1 by {
        if k in rest { assert rest.Keys + {k} == rest.Keys; }
      }
      MoreRules(rules, k);
    }
  }

  lemma NoRules()
    ensures NoRuleTwice([]) && forall k :: !HasRule([], k)
  {
  }

  lemma OneMoreRule(rules: seq<PackRule>, x: RuleKey)
    requires rules != []
    ensures var last := rules[|rules| - 1]; HasRule(rules, x) <==> HasRule(rules[..|rules| - 1], x) || x == RuleKey(last.sku, last.uom)
  {
    var n := |rules| - 1;
    if HasRule(rules[..n], x) {
      var i :| 0 <= i < n && rules[..n][i].sku == x.sku && rules[..n][i].uom == x.uom;
      assert rules[i] == rules[..n][i];
    }
    if HasRule(rules, x) && x != RuleKey(rules[n].sku, rules[n].uom) {
      var i :| 0 <= i < |rules| && rules[i].sku == x.sku && rules[i].uom == x.uom;
      assert rules[..n][i] == rules[i];
    }
    if x == RuleKey(rules[n].sku, rules[n].uom) { assert rules[n].sku == x.sku; }
  }

  lemma MoreRules(rules: seq<PackRule>, k: RuleKey)
    requires rules != [] && k == RuleKey(rules[|rules| - 1].sku, rules[|rules| - 1].uom)
    ensures NoRuleTwice(rules) <==> NoRuleTwice(rules[..|rules| - 1]) && !HasRule(rules[..|rules| - 1], k)
  {
    var n := |rules| - 1;
    assert forall i | 0 <= i < n :: rules[..n][i] == rules[i];
    if i :| 0 <= i < n && rules[..n][i].sku == k.sku && rules[..n][i].uom == k.uom { assert rules[i].sku == rules[n].sku && rules[i].uom == rules[n].uom; }
  }

  lemma LineTakenExactly(rules: seq<PackRule>, x: AllocationLine)
    ensures LineAccepted(RuleTable(rules), x) <==> LineComplete(rules, x)
  {
    TableIsFull(rules);
    if x.sku.Some? && x.uom.Some? {
      var k := RuleKey(x.sku.value, x.uom.value);
      if HasRule(rules, k) {
        var i :| 0 <= i < |rules| && rules[i].sku == k.sku && rules[i].uom == k.uom;
        assert rules[i] in rules && Applies(rules[i], x);
      }
      if r :| r in rules && Applies(r, x) {
        var i :| 0 <= i < |rules| && rules[i] == r;
        assert HasRule(rules, k);
      }
    }
  }

  lemma SplitExactly(lines: seq<AllocationLine>, rm: RuleMap)
    requires forall x | x in lines :: LineAccepted(rm, x)
    ensures SameIdentityPerSku(lines) <==> NoSkuSplit(lines)
  {
    forall x | x in lines ensures Identified(x) { assert LineAccepted(rm, x); }
    if SameIdentityPerSku(lines) {
      forall x, y | x in lines && y in lines && x.sku == y.sku ensures SameLine(x, y) {
        var i :| 0 <= i < |lines| && lines[i] == x;
        var j :| 0 <= j < |lines| && lines[j] == y;
        if i < j { assert IdentityOf(lines[i]) == IdentityOf(lines[j]); }
        if j < i { assert IdentityOf(lines[j]) == IdentityOf(lines[i]); }
      }
    }
    if NoSkuSplit(lines) {
      forall i, j | 0 <= i < j < |lines| && lines[i].sku == lines[j].sku ensures IdentityOf(lines[i]) == IdentityOf(lines[j]) {
        assert lines[i] in lines && lines[j] in lines;
      }
    }
  }

  predicate SameLine(x: AllocationLine, y: AllocationLine) {
    x.saleLine == y.saleLine && x.location == y.location && x.product == y.product && x.uom == y.uom
  }

  lemma {:induction false} SummaryExists(rm: RuleMap, lines: seq<AllocationLine>) returns (m: map<string, Mapped>)
    requires LinesAccepted(rm, lines)
    ensures Summarises(rm, lines, m)
  {
    if lines == [] {
      m := map[];
    } else {
      var n := |lines| - 1;
      var done, l := lines[..n], lines[n];
      assert forall i | 0 <= i < n :: done[i] == lines[i];
      assert l in lines;
      m := SummaryExists(rm, done);
      var sku, rule := l.sku.value, rm[RuleKey(l.sku.value, l.uom.value)];
      if sku in m {
        var k := KeyHasLine(done, sku);
        assert done[k] in done && lines[k] == done[k];
        assert IdentityOf(lines[k]) == IdentityOf(lines[n]);
      }
      var entry := if sku in m then m[sku] else Mapped(IdentityOf(l), rule.packType, rule.units, 0.0);
      var before := m;
      m := m[sku := entry.(quantity := entry.quantity + l.quantity.value)];
      assert lines[..n + 1] == lines;
      SummaryStep(rm, lines, n, before, m);
    }
  }

  lemma WholeExactly(rules: seq<PackRule>, lines: seq<AllocationLine>, m: map<string, Mapped>)
    requires NoRuleTwice(rules) && Summarises(RuleTable(rules), lines, m)
    ensures WholePacks(m) <==> forall x, r | x in lines && r in rules && Applies(r, x) :: FillsPacks(lines, r.sku, r.units)
  {
    hide RuleTable, FillsPacks, NoRuleTwice;
    forall x, r | x in lines && r in rules && Applies(r, x)
      ensures r.sku in m && (WholePack(m[r.sku]) <==> FillsPacks(lines, r.sku, r.units))
    {
      SoleRule(rules, x, r);
      assert LineAccepted(RuleTable(rules), x) && Explains(RuleTable(rules), x, m[r.sku]);
      WholeIsMultiple(lines, m[r.sku], r.sku);
    }
    if forall x, r | x in lines && r in rules && Applies(r, x) :: FillsPacks(lines, r.sku, r.units) {
      forall sku | sku in m ensures WholePack(m[sku]) {
        var k := KeyHasLine(lines, sku);
        var x := lines[k];
        assert x in lines && LineAccepted(RuleTable(rules), x);
        var r := RuleOf(rules, x, m[sku]);
        assert Applies(r, x);
      }
    }
  }

  lemma SoleRule(rules: seq<PackRule>, x: AllocationLine, r: PackRule)
    requires NoRuleTwice(rules) && r in rules && Applies(r, x)
    ensures var k := RuleKey(r.sku, r.uom); k in RuleTable(rules) && RuleTable(rules)[k] == r
  {
    var k := RuleKey(r.sku, r.uom);
    TableIsFull(rules);
    var i :| 0 <= i < |rules| && rules[i] == r;
    assert HasRule(rules, k);
    TableHasRules(rules, k);
    var j :| 0 <= j < |rules| && rules[j] == RuleTable(rules)[k];
  }

  lemma WholeIsMultiple(lines: seq<AllocationLine>, e: Mapped, sku: string)
    requires e.units > 0.0 && e.quantity == SumSeq(lines, OfSku(sku))
    ensures WholePack(e) <==> FillsPacks(lines, sku, e.units)
  {
    var q := e.quantity / e.units;
    assert q * e.units == e.quantity;
    if WholePack(e) { assert InPacks(q.Floor, e.units) == e.quantity; }
    if n: int :| InPacks(n, e.units) == SumSeq(lines, OfSku(sku)) { SameQuotient(n as real, e.units, e.quantity); }
  }

  lemma SameQuotient(n: real, units: real, quantity: real)
    requires units > 0.0 && n * units == quantity
    ensures quantity / units == n
  {
  }

  // --------------------------------------------------------------- snapshots

  /** An item of the release: no lot or expiry, a released SKU in its pack type,
      and a whole positive number of packs. */
  predicate ItemComplete(b: Binding, it: Item) {
    && !it.lotted && it.sku.Some? && it.sku.value in b.lines && it.packType == Some(b.lines[it.sku.value].packType)
    && it.quantity.Some? && it.quantity.value > 0.0 && it.quantity.value.Floor as real == it.quantity.value
  }

  predicate PackageComplete(b: Binding, p: Package) {
    p.tracking.Some? && p.dated && p.carrier.Some? && p.items != [] && forall it | it in p.items :: ItemComplete(b, it)
  }

  /** The units of a SKU that an item brings. */
  function Brings(b: Binding, sku: string): Item -> real {
    (it: Item) => if it.sku == Some(sku) && it.quantity.Some? && sku in b.lines then it.quantity.value * b.lines[sku].units else 0.0
  }

  function BroughtBy(b: Binding, sku: string): Package -> real { (p: Package) => SumSeq(p.items, Brings(b, sku)) }

  /** A snapshot is taken exactly if it is of this order and shipped, every
      package and item is complete, no tracking number repeats, and no SKU
      exceeds its release, packs times pack size over all packages. */
  lemma SnapshotTakenExactly(t: Tracking, b: Binding, order: string)
    ensures SnapshotAccepted(t, b, order) <==>
      && t.orderId == Some(order) && t.shipments.Some? && t.status == Sent
      && (forall p | p in t.shipments.value :: PackageComplete(b, p))
      && (forall i, j | 0 <= i < j < |t.shipments.value| :: t.shipments.value[i].tracking != t.shipments.value[j].tracking)
      && forall sku | sku in b.lines :: SumSeq(t.shipments.value, BroughtBy(b, sku)) <= b.lines[sku].quantity
  {
    if t.shipments.Some? {
      var ps := t.shipments.value;
      forall p | p in ps ensures PackageAccepted(b, p) <==> PackageComplete(b, p) { PackageTakenExactly(b, p); }
      if forall p | p in ps :: PackageAccepted(b, p) {
        forall sku | sku in b.lines ensures SumSeq(ps, BroughtBy(b, sku)) == SumSeq(ps, Shipping(b, sku)) { AllBrought(b, ps, sku); }
      }
    }
  }

  lemma PackageTakenExactly(b: Binding, p: Package)
    ensures PackageAccepted(b, p) <==> PackageComplete(b, p)
  {
    forall it ensures ItemAccepted(b, it) <==> ItemComplete(b, it) { }
  }

  lemma {:induction false} AllBrought(b: Binding, ps: seq<Package>, sku: string)
    requires forall p | p in ps :: PackageAccepted(b, p)
    ensures SumSeq(ps, BroughtBy(b, sku)) == SumSeq(ps, Shipping(b, sku))
  {
    if ps != [] {
      var n := |ps| - 1;
      assert ps[n] in ps;
      AllBrought(b, ps[..n], sku);
      PackageBrings(b, ps[n], sku);
    }
  }

  lemma PackageBrings(b: Binding, p: Package, sku: string)
    requires PackageAccepted(b, p)
    ensures BroughtBy(b, sku)(p) == Shipping(b, sku)(p)
  {
    ItemsBring(b, p.items, sku);
  }

  lemma {:induction false} ItemsBring(b: Binding, items: seq<Item>, sku: string)
    requires forall it | it in items :: ItemAccepted(b, it)
    ensures SumSeq(items, Brings(b, sku)) == SumSeq(items, UnitsOf(b, sku))
  {
    if items != [] {
      var n := |items| - 1;
      assert items[n] in items;
      ItemsBring(b, items[..n], sku);
    }
  }

  // ----------------------------------------------------------------- reports

  /** The report of a package names the package and the order, and has one line
      for each SKU of its items, in string order, on the SKU's Odoo line and
      with the units that the items bring. */
  ghost predicate ReportSays(b: Binding, order: string, p: Package, r: Report, skus: seq<string>) {
    && r.eventId == EventId(order, r.tracking) && p.tracking == Some(r.tracking) && p.carrier == Some(r.carrier)
    && r.warehouseId == b.warehouseId && r.code == b.code && r.orderRef == order && LinesSay(b, p, r.lines, skus)
  }

  ghost predicate LinesSay(b: Binding, p: Package, lines: seq<Line>, skus: seq<string>) {
    && (forall i, j | 0 <= i < j < |skus| :: StrLess(skus[i], skus[j])) && (forall sku :: sku in skus <==> exists it :: it in p.items && it.sku == Some(sku))
    && |lines| == |skus| && forall k | 0 <= k < |skus| ::
         skus[k] in b.lines && lines[k].identity == b.lines[skus[k]].identity && lines[k].quantity == BroughtBy(b, skus[k])(p)
  }

  /** Every report of an accepted snapshot is such a report of one of its
      packages, and every package has one. */
  lemma ReportsSay(b: Binding, order: string, ps: seq<Package>)
    requires UnitsPositive(b) && forall p | p in ps :: PackageAccepted(b, p)
    ensures forall r | r in SnapshotReports(b, order, ps) :: exists p, skus :: p in ps && ReportSays(b, order, p, r, skus)
    ensures forall p | p in ps :: exists r, skus :: r in SnapshotReports(b, order, ps) && ReportSays(b, order, p, r, skus)
  {
    hide ReportSays, ReportOf;
    var rs, all := SnapshotReports(b, order, ps), Map(ReportOf(b, order), ps);
    forall r ensures r in rs <==> r in all { assert r in multiset(rs) <==> r in multiset(all); }
    forall r | r in rs ensures exists p, skus :: p in ps && ReportSays(b, order, p, r, skus) {
      var k :| 0 <= k < |all| && all[k] == r;
      assert ps[k] in ps;
      var skus := OneReportSays(b, order, ps[k]);
    }
    forall p | p in ps ensures exists r, skus :: r in rs && ReportSays(b, order, p, r, skus) {
      var k :| 0 <= k < |ps| && ps[k] == p;
      assert all[k] in all;
      var skus := OneReportSays(b, order, p);
    }
  }

  lemma OneReportSays(b: Binding, order: string, p: Package) returns (skus: seq<string>)
    requires UnitsPositive(b) && PackageAccepted(b, p)
    ensures ReportSays(b, order, p, ReportOf(b, order)(p), skus)
  {
    skus := OneLineEach(b, p, LinesOf(b, p));
    SaysFields(b, order, p, LinesOf(b, p), skus);
  }

  lemma SaysFields(b: Binding, order: string, p: Package, lines: seq<Line>, skus: seq<string>)
    requires p.tracking.Some? && p.carrier.Some? && lines == LinesOf(b, p) && LinesSay(b, p, lines, skus)
    ensures ReportSays(b, order, p, ReportOf(b, order)(p), skus)
  {
    hide LinesSay;
  }

  lemma OneLineEach(b: Binding, p: Package, lines: seq<Line>) returns (skus: seq<string>)
    requires UnitsPositive(b) && PackageAccepted(b, p) && lines == LinesOf(b, p)
    ensures LinesSay(b, p, lines, skus)
  {
    hide SumSeq, PackageSkus, PackageAccepted, StrLess, LinesOf, LineFor, BroughtBy;
    skus := SkuOrder(b, p);
    forall sku ensures sku in skus <==> exists it :: it in p.items && it.sku == Some(sku) { SkusOfItems(b, p, sku); }
    forall k | 0 <= k < |skus|
      ensures skus[k] in b.lines && lines[k].identity == b.lines[skus[k]].identity && lines[k].quantity == BroughtBy(b, skus[k])(p)
    {
      assert skus[k] in skus;
      LineOfSku(b, p, skus[k]);
    }
  }

  lemma SkuOrder(b: Binding, p: Package) returns (skus: seq<string>)
    ensures forall i, j | 0 <= i < j < |skus| :: StrLess(skus[i], skus[j])
    ensures forall sku :: sku in skus <==> sku in PackageSkus(b, p)
    ensures LinesOf(b, p) == Map(LineFor(b, p), skus)
  {
    hide PackageSkus;
    StrLessTotal();
    skus := Sorted(StrLess, PackageSkus(b, p));
  }

  lemma LineOfSku(b: Binding, p: Package, sku: string)
    requires PackageAccepted(b, p) && sku in PackageSkus(b, p)
    ensures sku in b.lines && LineFor(b, p)(sku).identity == b.lines[sku].identity && LineFor(b, p)(sku).quantity == BroughtBy(b, sku)(p)
  {
    PackageBrings(b, p, sku);
  }

  /** A package ships a SKU exactly if one of its items is of it. */
  lemma SkusOfItems(b: Binding, p: Package, sku: string)
    requires UnitsPositive(b) && PackageAccepted(b, p)
    ensures sku in PackageSkus(b, p) <==> exists it :: it in p.items && it.sku == Some(sku)
  {
    ItemsShip(b, p.items, sku);
    if it :| it in p.items && it.sku == Some(sku) { assert ItemAccepted(b, it); }
  }

  lemma {:induction false} ItemsShip(b: Binding, items: seq<Item>, sku: string)
    requires UnitsPositive(b) && forall it | it in items :: ItemAccepted(b, it)
    ensures SumSeq(items, UnitsOf(b, sku)) >= 0.0
    ensures SumSeq(items, UnitsOf(b, sku)) > 0.0 <==> exists it :: it in items && it.sku == Some(sku)
  {
    if items != [] {
      var n := |items| - 1;
      assert items == items[..n] + [items[n]];
      assert items[n] in items;
      ItemsShip(b, items[..n], sku);
      UnitsArePositive(b, items[n]);
    }
  }
}
