/** What a validated snapshot guarantees: it never reports more than was
    released, and the order in which KSP lists packages and items is immaterial. */
module KspTrackingLaws {
  import opened Outcomes
  import opened Ordering
  import opened Sums
  import opened KspMapping
  import opened KspTracking

  // --------------------------------------------------------- conservation

  function OnIdentity(id: Identity): Line -> real {
    (l: Line) => if l.identity == id then l.quantity else 0.0
  }

  /** What one report ships of a released Odoo line. */
  function ReportTotal(id: Identity): Report -> real {
    (r: Report) => SumSeq(r.lines, OnIdentity(id))
  }

  function Share(b: Binding, id: Identity, amount: string -> real): string -> real {
    (sku: string) => if sku in b.lines && b.lines[sku].identity == id then amount(sku) else 0.0
  }

  function Quantity(b: Binding): string -> real {
    (sku: string) => if sku in b.lines then b.lines[sku].quantity else 0.0
  }

  /** What was released of an Odoo line, over all SKUs bound to it. */
  ghost function Released(b: Binding, id: Identity): real {
    SumSet(b.lines.Keys, Share(b, id, Quantity(b)))
  }

  function ShippedBy(b: Binding, p: Package): string -> real { (sku: string) => Shipping(b, sku)(p) }

  function ShippedByAll(b: Binding, ps: seq<Package>): string -> real { (sku: string) => SumSeq(ps, Shipping(b, sku)) }

  lemma OneReportTotal(b: Binding, order: string, p: Package, id: Identity)
    requires UnitsPositive(b)
    ensures ReportTotal(id)(ReportOf(b, order)(p)) == SumSet(b.lines.Keys, Share(b, id, ShippedBy(b, p)))
  {
    StrLessTotal();
    var skus, share := Sorted(StrLess, PackageSkus(b, p)), Share(b, id, ShippedBy(b, p));
    AscendingDistinct(StrLess, skus);
    SumOfMap(LineFor(b, p), skus, OnIdentity(id), share) by {
      forall sku | sku in skus ensures share(sku) == OnIdentity(id)(LineFor(b, p)(sku)) {
        assert sku in PackageSkus(b, p);
      }
    }
    SumSeqIsSumSet(skus, PackageSkus(b, p), share);
    SumSetSupport(PackageSkus(b, p), b.lines.Keys, share) by {
      forall sku | sku in b.lines.Keys - PackageSkus(b, p) ensures share(sku) == 0.0 {
        UnitsNonNegative(b, p, sku);
      }
    }
  }

  lemma {:induction false} AllReportsTotal(b: Binding, order: string, ps: seq<Package>, id: Identity)
    requires UnitsPositive(b)
    ensures SumSeq(Map(ReportOf(b, order), ps), ReportTotal(id)) == SumSet(b.lines.Keys, Share(b, id, ShippedByAll(b, ps)))
  {
    hide Share, ReportTotal, ReportOf, Shipping;
    if ps == [] {
      NoPackages(b, id, ps);
    } else {
      var init, p := ps[..|ps| - 1], ps[|ps| - 1];
      AllReportsTotal(b, order, init, id);
      OneReportTotal(b, order, p, id);
      SumSeqSnoc(Map(ReportOf(b, order), init), ReportOf(b, order)(p), ReportTotal(id));
      forall sku | sku in b.lines.Keys { ShareGrows(b, id, ps, sku); }
      SumSetAdd(b.lines.Keys, Share(b, id, ShippedByAll(b, init)), Share(b, id, ShippedBy(b, p)), Share(b, id, ShippedByAll(b, ps)));
    }
  }

  lemma NoPackages(b: Binding, id: Identity, ps: seq<Package>)
    requires ps == []
    ensures SumSet(b.lines.Keys, Share(b, id, ShippedByAll(b, ps))) == 0.0
  {
    SumSetZero(b.lines.Keys, Share(b, id, ShippedByAll(b, ps)));
  }

  lemma ShareGrows(b: Binding, id: Identity, ps: seq<Package>, sku: string)
    requires ps != []
    ensures var init, p := ps[..|ps| - 1], ps[|ps| - 1];
      Share(b, id, ShippedByAll(b, ps))(sku) == Share(b, id, ShippedByAll(b, init))(sku) + Share(b, id, ShippedBy(b, p))(sku)
  {
  }

  /** Conservation: an accepted snapshot never reports more of a SKU, or of an
      Odoo line, than was released. */
  lemma SnapshotWithinRelease(b: Binding, order: string, ps: seq<Package>, id: Identity)
    requires UnitsPositive(b) && PackagesAccepted(b, ps)
    ensures forall sku | sku in b.lines :: SumSeq(ps, SkuTotal(b, sku)) <= b.lines[sku].quantity
    ensures SumSeq(SnapshotReports(b, order, ps), ReportTotal(id)) <= Released(b, id)
  {
    forall sku | sku in b.lines ensures SumSeq(ps, SkuTotal(b, sku)) <= b.lines[sku].quantity { SkuWithinRelease(b, ps, sku); }
    LineWithinRelease(b, order, ps, id);
  }

  lemma SkuWithinRelease(b: Binding, ps: seq<Package>, sku: string)
    requires UnitsPositive(b) && PackagesAccepted(b, ps) && sku in b.lines
    ensures SumSeq(ps, SkuTotal(b, sku)) <= b.lines[sku].quantity
  {
    AllShipped(b, ps, sku);
  }

  lemma LineWithinRelease(b: Binding, order: string, ps: seq<Package>, id: Identity)
    requires UnitsPositive(b) && PackagesAccepted(b, ps)
    ensures SumSeq(SnapshotReports(b, order, ps), ReportTotal(id)) <= Released(b, id)
  {
    SumSeqPermute(SnapshotReports(b, order, ps), Map(ReportOf(b, order), ps), ReportTotal(id));
    AllReportsTotal(b, order, ps, id);
    SumSetAtMost(b.lines.Keys, Share(b, id, ShippedByAll(b, ps)), Share(b, id, Quantity(b)));
  }

  lemma {:induction false} AllShipped(b: Binding, ps: seq<Package>, sku: string)
    requires UnitsPositive(b) && sku in b.lines
    ensures SumSeq(ps, SkuTotal(b, sku)) == SumSeq(ps, Shipping(b, sku))
  {
    if ps != [] {
      AllShipped(b, ps[..|ps| - 1], sku);
      SkuTotalIsShipped(b, ps[|ps| - 1], sku);
    }
  }

  // ------------------------------------------------------ by SKU

  function OnSku(sku: string): Labelled -> real {
    (l: Labelled) => if l.sku == sku then l.line.quantity else 0.0
  }

  /** What the report of a package ships of a SKU. */
  ghost function SkuTotal(b: Binding, sku: string): Package -> real {
    (p: Package) => SumSeq(LabelledLines(b, p), OnSku(sku))
  }

  /** The labels are exactly the lines of the report, each with the Odoo line
      that its SKU is bound to. */
  lemma LabelsAreTheLines(b: Binding, order: string, p: Package)
    ensures var ls := LabelledLines(b, p); var lines := ReportOf(b, order)(p).lines;
      |ls| == |lines| && forall k | 0 <= k < |ls| :: ls[k].line == lines[k] && ls[k].sku in b.lines && ls[k].line.identity == b.lines[ls[k].sku].identity
  {
    var skus := InOrder(PackageSkus(b, p));
    forall k | 0 <= k < |skus| ensures skus[k] in b.lines {
      assert skus[k] in skus;
      assert skus[k] in PackageSkus(b, p);
    }
  }

  lemma LabelQuantity(b: Binding, p: Package, sku: string)
    ensures LabelFor(b, p)(sku).sku == sku && LabelFor(b, p)(sku).line.quantity == Shipping(b, sku)(p)
  {
    assert Shipping(b, sku)(p) == SumSeq(p.items, UnitsOf(b, sku));
    assert LineFor(b, p)(sku).quantity == SumSeq(p.items, UnitsOf(b, sku));
  }

  lemma SkuTotalIsShipped(b: Binding, p: Package, sku: string)
    requires UnitsPositive(b) && sku in b.lines
    ensures SkuTotal(b, sku)(p) == Shipping(b, sku)(p)
  {
    hide Shipping, InOrder;
    var skus, ls := InOrder(PackageSkus(b, p)), LabelledLines(b, p);
    UnitsNonNegative(b, p, sku);
    forall k | 0 <= k < |ls| ensures ls[k].sku == skus[k] && ls[k].line.quantity == Shipping(b, skus[k])(p) {
      assert ls[k] == LabelFor(b, p)(skus[k]);
      LabelQuantity(b, p, skus[k]);
    }
    assert SkuTotal(b, sku)(p) == SumSeq(ls, OnSku(sku));
    if sku in PackageSkus(b, p) {
      assert sku in skus;
      var k :| 0 <= k < |skus| && skus[k] == sku;
      SumSeqOne(ls, OnSku(sku), k);
    } else {
      forall k | 0 <= k < |ls| ensures OnSku(sku)(ls[k]) == 0.0 { assert skus[k] in skus; }
      SumSeqZero(ls, OnSku(sku));
    }
  }

  /** When no other SKU shares its Odoo line, that line is released by the SKU alone. */
  lemma ReleasedOfSku(b: Binding, sku: string)
    requires sku in b.lines && forall other | other in b.lines && other != sku :: b.lines[other].identity != b.lines[sku].identity
    ensures Released(b, b.lines[sku].identity) == b.lines[sku].quantity
  {
    var share := Share(b, b.lines[sku].identity, Quantity(b));
    SumSetSupport({sku}, b.lines.Keys, share);
    SumSetTake({sku}, share, sku);
    assert {sku} - {sku} == {};
  }

  // ------------------------------------------------------------ whole packs

  function PacksIn(b: Binding, sku: string): Item -> real {
    (it: Item) => if it.sku == Some(sku) && ItemAccepted(b, it) then it.quantity.value else 0.0
  }

  /** The packs of a SKU in a package. */
  function PacksOf(b: Binding, sku: string): Package -> real {
    (p: Package) => SumSeq(p.items, PacksIn(b, sku))
  }

  lemma {:induction false} ScaledSum<T>(s: seq<T>, f: T -> real, g: T -> real, u: real)
    requires forall x | x in s :: g(x) == f(x) * u
    ensures SumSeq(s, g) == SumSeq(s, f) * u
  {
    if s != [] {
      var n := |s| - 1;
      assert s[n] in s;
      ScaledSum(s[..n], f, g, u);
      Distributes(SumSeq(s[..n], f), f(s[n]), u);
    }
  }

  lemma Distributes(x: real, y: real, u: real)
    ensures (x + y) * u == x * u + y * u
  {
  }

  lemma UnitsArePacks(b: Binding, sku: string, p: Package)
    requires sku in b.lines
    ensures Shipping(b, sku)(p) == PacksOf(b, sku)(p) * b.lines[sku].units
  {
    ScaledSum(p.items, PacksIn(b, sku), UnitsOf(b, sku), b.lines[sku].units);
  }

  /** Packs shipped of a SKU in an accepted snapshot never exceed the packs ordered. */
  lemma PacksWithinOrder(b: Binding, order: seq<OrderLine>, ps: seq<Package>, l: OrderLine)
    requires WholePacks(b.lines) && OrderOf(b, order) && forall sku | sku in b.lines :: b.lines[sku].quantity > 0.0
    requires PackagesAccepted(b, ps) && l in order
    ensures SumSeq(ps, PacksOf(b, l.sku)) <= l.packs as real
  {
    hide WholePacks, OrderOf;
    OrderPacks(b, order, l);
    AllUnitsArePacks(b, ps, l.sku);
    PositiveUnits(b, l.sku);
    Monotone(SumSeq(ps, PacksOf(b, l.sku)), l.packs as real, b.lines[l.sku].units);
  }

  lemma AllUnitsArePacks(b: Binding, ps: seq<Package>, sku: string)
    requires sku in b.lines
    ensures SumSeq(ps, Shipping(b, sku)) == SumSeq(ps, PacksOf(b, sku)) * b.lines[sku].units
  {
    forall p | p in ps { UnitsArePacks(b, sku, p); }
    ScaledSum(ps, PacksOf(b, sku), Shipping(b, sku), b.lines[sku].units);
  }

  lemma PositiveUnits(b: Binding, sku: string)
    requires WholePacks(b.lines) && sku in b.lines
    ensures b.lines[sku].units > 0.0
  {
  }

  lemma Monotone(x: real, y: real, u: real)
    requires u > 0.0 && x * u <= y * u
    ensures x <= y
  {
  }

  // ------------------------------------------------- distinct, sorted ids

  lemma EventLessTotal()
    ensures StrictTotal(EventLess)
    ensures StrictOrder(ReportLess)
  {
    StrLessTotal();
    assert forall a, b :: a == b || EventLess(a, b) || EventLess(b, a);
    assert forall a, b, c :: EventLess(a, b) && EventLess(b, c) ==> EventLess(a, c);
  }

  /** The reports of an accepted snapshot are listed by event id, each id once,
      and are exactly the reports of its packages. */
  lemma SnapshotSorted(b: Binding, order: string, ps: seq<Package>)
    requires PackagesAccepted(b, ps)
    ensures Ascending(ReportLess, SnapshotReports(b, order, ps))
    ensures multiset(SnapshotReports(b, order, ps)) == multiset(Map(ReportOf(b, order), ps))
  {
    EventLessTotal();
    var rs := Map(ReportOf(b, order), ps);
    forall i, j | 0 <= i < j < |rs| ensures ReportLess(rs[i], rs[j]) || ReportLess(rs[j], rs[i]) {
      ComparableReports(b, order, ps, i, j);
    }
    SortAscending(ReportLess, rs);
  }

  /** A report as this connector writes them: of the binding's code, shipping
      only positive quantities. */
  predicate Proper(code: string, r: Report) {
    r.code == code && forall l | l in r.lines :: l.quantity > 0.0
  }

  lemma SnapshotProper(b: Binding, order: string, ps: seq<Package>)
    ensures forall r | r in SnapshotReports(b, order, ps) :: Proper(b.code, r)
  {
    var rs := Map(ReportOf(b, order), ps);
    SameElements(SnapshotReports(b, order, ps), rs);
    forall r | r in rs ensures Proper(b.code, r) {
      var i :| 0 <= i < |rs| && rs[i] == r;
      LinesPositive(b, ps[i]);
    }
  }

  lemma LinesPositive(b: Binding, p: Package)
    ensures forall l | l in LinesOf(b, p) :: l.quantity > 0.0
  {
    StrLessTotal();
    var skus, lines := Sorted(StrLess, PackageSkus(b, p)), LinesOf(b, p);
    forall l | l in lines ensures l.quantity > 0.0 {
      var k :| 0 <= k < |lines| && lines[k] == l;
      assert skus[k] in skus;
      assert skus[k] in PackageSkus(b, p);
    }
  }

  predicate DistinctIds(reports: seq<Report>) {
    forall i, k | 0 <= i < k < |reports| :: reports[i].eventId != reports[k].eventId
  }

  lemma SnapshotDistinct(b: Binding, order: string, ps: seq<Package>)
    requires PackagesAccepted(b, ps)
    ensures DistinctIds(SnapshotReports(b, order, ps))
  {
    var rs := SnapshotReports(b, order, ps);
    SnapshotSorted(b, order, ps);
    EventLessTotal();
    forall i, k | 0 <= i < k < |rs| ensures rs[i].eventId != rs[k].eventId {
      assert ReportLess(rs[i], rs[k]) && !ReportLess(rs[i], rs[i]);
    }
  }

  lemma ComparableReports(b: Binding, order: string, ps: seq<Package>, i: nat, j: nat)
    requires PackagesAccepted(b, ps) && i < j < |ps|
    ensures var f := ReportOf(b, order); ReportLess(f(ps[i]), f(ps[j])) || ReportLess(f(ps[j]), f(ps[i]))
  {
    assert ps[i] in ps && ps[j] in ps;
    StrLessConnected(ps[i].tracking.value, ps[j].tracking.value);
  }

  // ------------------------------------------------ order does not matter

  /** The same package with its items listed in another order. */
  ghost predicate SamePackage(p: Package, q: Package) {
    p.(items := []) == q.(items := []) && multiset(p.items) == multiset(q.items)
  }

  /** Items reordered inside packages (giving `mid`), then packages reordered. */
  ghost predicate Reordered(ps: seq<Package>, mid: seq<Package>, qs: seq<Package>) {
    && |ps| == |mid| && (forall i | 0 <= i < |ps| :: SamePackage(ps[i], mid[i]))
    && multiset(mid) == multiset(qs)
  }

  lemma SamePackageSameReport(b: Binding, order: string, p: Package, q: Package)
    requires SamePackage(p, q)
    ensures PackageAccepted(b, p) <==> PackageAccepted(b, q)
    ensures forall sku :: Shipping(b, sku)(p) == Shipping(b, sku)(q)
    ensures ReportOf(b, order)(p) == ReportOf(b, order)(q)
  {
    SameElements(p.items, q.items);
    forall sku ensures Shipping(b, sku)(p) == Shipping(b, sku)(q) {
      SumSeqPermute(p.items, q.items, UnitsOf(b, sku));
    }
    assert PackageSkus(b, p) == PackageSkus(b, q);
    assert LinesOf(b, p) == LinesOf(b, q);
  }

  lemma {:induction false} PointwiseSums(b: Binding, ps: seq<Package>, mid: seq<Package>, sku: string)
    requires |ps| == |mid| && forall i | 0 <= i < |ps| :: SamePackage(ps[i], mid[i])
    ensures SumSeq(ps, Shipping(b, sku)) == SumSeq(mid, Shipping(b, sku))
  {
    if ps != [] {
      var n := |ps| - 1;
      SamePackageSameReport(b, "", ps[n], mid[n]);
      PointwiseSums(b, ps[..n], mid[..n], sku);
    }
  }

  lemma ItemOrderIrrelevant(b: Binding, order: string, ps: seq<Package>, mid: seq<Package>)
    requires |ps| == |mid| && forall i | 0 <= i < |ps| :: SamePackage(ps[i], mid[i])
    ensures PackagesAccepted(b, ps) <==> PackagesAccepted(b, mid)
    ensures Map(ReportOf(b, order), ps) == Map(ReportOf(b, order), mid)
  {
    hide PackageAccepted, ReportOf, Shipping;
    SameReports(b, order, ps, mid);
    forall i | 0 <= i < |ps|
      ensures PackageAccepted(b, ps[i]) <==> PackageAccepted(b, mid[i])
      ensures ps[i].tracking == mid[i].tracking
    {
      SamePackageSameReport(b, order, ps[i], mid[i]);
    }
    forall sku ensures SumSeq(ps, Shipping(b, sku)) == SumSeq(mid, Shipping(b, sku)) { PointwiseSums(b, ps, mid, sku); }
    AllAccepted(b, ps);
    AllAccepted(b, mid);
  }

  lemma {:induction false} SameReports(b: Binding, order: string, ps: seq<Package>, mid: seq<Package>)
    requires |ps| == |mid| && forall i | 0 <= i < |ps| :: SamePackage(ps[i], mid[i])
    ensures Map(ReportOf(b, order), ps) == Map(ReportOf(b, order), mid)
  {
    if ps != [] {
      var n := |ps| - 1;
      SamePackageSameReport(b, order, ps[n], mid[n]);
      SameReports(b, order, ps[..n], mid[..n]);
    }
  }

  lemma AllAccepted(b: Binding, ps: seq<Package>)
    ensures (forall p | p in ps :: PackageAccepted(b, p)) <==> (forall i | 0 <= i < |ps| :: PackageAccepted(b, ps[i]))
  {
    if forall p | p in ps :: PackageAccepted(b, p) {
      forall i | 0 <= i < |ps| ensures PackageAccepted(b, ps[i]) { assert ps[i] in ps; }
    }
  }

  /** Having no repeated tracking number is a property of the bag of packages. */
  lemma DistinctIsCount(ps: seq<Package>)
    ensures (forall i, j | 0 <= i < j < |ps| :: ps[i].tracking != ps[j].tracking) <==>
      forall t :: multiset(Map(Track, ps))[t] <= 1
  {
    if i, j :| 0 <= i < j < |ps| && ps[i].tracking == ps[j].tracking {
      TwiceCounted(Map(Track, ps), i, j);
      assert !(multiset(Map(Track, ps))[ps[i].tracking] <= 1);
    } else {
      forall t ensures multiset(Map(Track, ps))[t] <= 1 {
        if multiset(Map(Track, ps))[t] > 1 { TwoPositions(Map(Track, ps), t); }
      }
    }
  }

  lemma TwiceCounted<T>(s: seq<T>, i: nat, j: nat)
    requires i < j < |s| && s[i] == s[j]
    ensures multiset(s)[s[i]] > 1
  {
    assert s == s[..i] + [s[i]] + s[i + 1..j] + [s[j]] + s[j + 1..];
  }

  function Track(p: Package): Option<string> { p.tracking }

  lemma TwoPositions<T>(s: seq<T>, t: T)
    requires multiset(s)[t] > 1
    ensures exists i, j :: 0 <= i < j < |s| && s[i] == s[j] == t
  {
    assert t in multiset(s);
    var i :| 0 <= i < |s| && s[i] == t;
    assert s == s[..i] + [s[i]] + s[i + 1..];
    assert t in multiset(s[..i] + s[i + 1..]);
    var r := s[..i] + s[i + 1..];
    var j :| 0 <= j < |r| && r[j] == t;
    var k := if j < i then j else j + 1;
    assert s[k] == t;
    if k < i { assert s[k] == s[i] == t; } else { assert s[i] == s[k] == t; }
  }

  lemma PackageOrderIrrelevant(b: Binding, ps: seq<Package>, qs: seq<Package>)
    requires multiset(ps) == multiset(qs)
    ensures PackagesAccepted(b, ps) <==> PackagesAccepted(b, qs)
  {
    SameElements(ps, qs);
    forall sku ensures SumSeq(ps, Shipping(b, sku)) == SumSeq(qs, Shipping(b, sku)) {
      SumSeqPermute(ps, qs, Shipping(b, sku));
    }
    MapPermute(Track, ps, qs);
    DistinctIsCount(ps);
    DistinctIsCount(qs);
  }

  /** Permutation invariance: a reordered snapshot is accepted iff the original
      is, and then gives the identical list of reports. */
  lemma ReorderedSnapshot(b: Binding, order: string, ps: seq<Package>, mid: seq<Package>, qs: seq<Package>)
    requires Reordered(ps, mid, qs)
    ensures PackagesAccepted(b, ps) <==> PackagesAccepted(b, qs)
    ensures PackagesAccepted(b, ps) ==> SnapshotReports(b, order, ps) == SnapshotReports(b, order, qs)
  {
    ItemOrderIrrelevant(b, order, ps, mid);
    PackageOrderIrrelevant(b, mid, qs);
    if PackagesAccepted(b, ps) {
      SnapshotSorted(b, order, ps);
      SnapshotSorted(b, order, qs);
      MapPermute(ReportOf(b, order), mid, qs);
      SameElements(SnapshotReports(b, order, ps), SnapshotReports(b, order, qs));
      EventLessTotal();
      AscendingUnique(ReportLess, SnapshotReports(b, order, ps), SnapshotReports(b, order, qs));
    }
  }
}
