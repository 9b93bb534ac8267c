/** Package reports from a tracking snapshot (`package_reports` of
    src/integrations/ksp_gateway/mapping.py). */
module KspTracking {
  import opened Outcomes
  import opened Ordering
  import opened Sums
  import opened KspMapping

  /** `lotted`: lot or expiry data is present. */
  datatype Item = Item(lotted: bool, sku: Option<string>, packType: Option<PackType>, quantity: Option<real>)

  /** `dated`: the shipment date is an ISO timestamp with a zone. A missing
      item list is the empty one, which is refused as well. */
  datatype Package = Package(tracking: Option<string>, dated: bool, carrier: Option<string>, items: seq<Item>)

  /** `Sent` is "sent" or "fulfilled", `Received` is "received". */
  datatype Status = Sent | Received | Other

  datatype Tracking = Tracking(orderId: Option<string>, shipments: Option<seq<Package>>, status: Status)

  /** The digest of the order id and the tracking number, which is treated as
      injective, is represented by the pair itself. */
  datatype EventId = EventId(orderId: string, tracking: string)

  datatype Line = Line(identity: Identity, quantity: real)

  datatype Report = Report(
    eventId: EventId, warehouseId: int, code: string, orderRef: string,
    carrier: string, tracking: string, lines: seq<Line>)

  // -------------------------------------------------------- specification

  predicate ItemAccepted(b: Binding, it: Item) {
    && !it.lotted && it.sku.Some? && it.sku.value in b.lines
    && it.packType == Some(b.lines[it.sku.value].packType)
    && PositiveNumber(it.quantity) && Whole(it.quantity.value)
  }

  function Units(b: Binding, it: Item): real {
    if ItemAccepted(b, it) then it.quantity.value * b.lines[it.sku.value].units else 0.0
  }

  function UnitsOf(b: Binding, sku: string): Item -> real {
    (it: Item) => if it.sku == Some(sku) then Units(b, it) else 0.0
  }

  function Shipping(b: Binding, sku: string): Package -> real {
    (p: Package) => SumSeq(p.items, UnitsOf(b, sku))
  }

  predicate PackageAccepted(b: Binding, p: Package) {
    && p.tracking.Some? && p.dated && p.carrier.Some? && p.items != []
    && forall it | it in p.items :: ItemAccepted(b, it)
  }

  /** Every SKU a binding maps has a positive pack size. */
  predicate UnitsPositive(b: Binding) { forall sku | sku in b.lines :: b.lines[sku].units > 0.0 }

  ghost function PackageSkus(b: Binding, p: Package): set<string> {
    set sku | sku in b.lines && Shipping(b, sku)(p) > 0.0
  }

  function LineFor(b: Binding, p: Package): string -> Line {
    (sku: string) => Line(if sku in b.lines then b.lines[sku].identity else Identity(0, 0, 0, 0), Shipping(b, sku)(p))
  }

  ghost function LinesOf(b: Binding, p: Package): seq<Line> {
    StrLessTotal();
    Map(LineFor(b, p), Sorted(StrLess, PackageSkus(b, p)))
  }

  /** A report line together with the SKU it stands for. Reports do not carry
      the SKU, so this is for the proofs only. */
  datatype Labelled = Labelled(sku: string, line: Line)

  function LabelFor(b: Binding, p: Package): string -> Labelled {
    (sku: string) => Labelled(sku, LineFor(b, p)(sku))
  }

  ghost function LabelledLines(b: Binding, p: Package): seq<Labelled> {
    Map(LabelFor(b, p), InOrder(PackageSkus(b, p)))
  }

  /** A set of SKUs as a list in string order. */
  ghost function InOrder(skus: set<string>): (r: seq<string>)
    ensures forall sku :: sku in r <==> sku in skus
    ensures forall i, j | 0 <= i < j < |r| :: r[i] != r[j]
  {
    StrLessTotal();
    AscendingDistinct(StrLess, Sorted(StrLess, skus));
    Sorted(StrLess, skus)
  }

  function Default(o: Option<string>): string { if o.Some? then o.value else "" }

  ghost function ReportOf(b: Binding, order: string): Package -> Report {
    (p: Package) => Report(EventId(order, Default(p.tracking)), b.warehouseId, b.code, order,
                           Default(p.carrier), Default(p.tracking), LinesOf(b, p))
  }

  predicate EventLess(a: EventId, b: EventId) {
    StrLess(a.orderId, b.orderId) || (a.orderId == b.orderId && StrLess(a.tracking, b.tracking))
  }

  predicate ReportLess(a: Report, b: Report) { EventLess(a.eventId, b.eventId) }

  ghost predicate WithinRelease(b: Binding, ps: seq<Package>) {
    forall sku | sku in b.lines :: SumSeq(ps, Shipping(b, sku)) <= b.lines[sku].quantity
  }

  ghost predicate PackagesAccepted(b: Binding, ps: seq<Package>) {
    && (forall p | p in ps :: PackageAccepted(b, p))
    && (forall i, j | 0 <= i < j < |ps| :: ps[i].tracking != ps[j].tracking)
    && WithinRelease(b, ps)
  }

  /** The snapshots the connector accepts, said without any order of processing. */
  ghost predicate SnapshotAccepted(t: Tracking, b: Binding, order: string) {
    && t.orderId == Some(order) && t.shipments.Some? && t.status == Sent
    && PackagesAccepted(b, t.shipments.value)
  }

  ghost function SnapshotReports(b: Binding, order: string, ps: seq<Package>): seq<Report> {
    Sort(ReportLess, Map(ReportOf(b, order), ps))
  }

  // ------------------------------------------------------------ algorithm

  /** The inner loop over items: packs times pack size, per SKU. */
  method SumItems(b: Binding, items: seq<Item>) returns (r: Outcome<map<string, real>>)
    requires UnitsPositive(b)
    ensures r.Ok? <==> forall it | it in items :: ItemAccepted(b, it)
    ensures r.Ok? ==> Quantities(b, items, r.value)
  {
    var q: map<string, real> := map[];
    for i := 0 to |items|
      invariant forall k | 0 <= k < i :: ItemAccepted(b, items[k])
      invariant Quantities(b, items[..i], q)
    {
      var it := items[i];
      assert it in items;
      if !ItemAccepted(b, it) { return Review; }
      ghost var before := q;
      q := q[it.sku.value := Get(q, it.sku.value) + Units(b, it)];
      QuantityStep(b, items, i, before, q);
    }
    assert items[..|items|] == items;
    return Ok(q);
  }

  lemma QuantityStep(b: Binding, items: seq<Item>, i: nat, q: map<string, real>, r: map<string, real>)
    requires UnitsPositive(b) && i < |items| && ItemAccepted(b, items[i]) && Quantities(b, items[..i], q)
    requires r == q[items[i].sku.value := Get(q, items[i].sku.value) + Units(b, items[i])]
    ensures Quantities(b, items[..i + 1], r)
  {
    var it := items[i];
    UnitsArePositive(b, it);
    assert items[..i + 1] == items[..i] + [it];
    forall s ensures Get(r, s) == SumSeq(items[..i + 1], UnitsOf(b, s)) {
      SumSeqSnoc(items[..i], it, UnitsOf(b, s));
      assert Get(q, s) == SumSeq(items[..i], UnitsOf(b, s));
    }
  }

  lemma UnitsArePositive(b: Binding, it: Item)
    requires UnitsPositive(b)
    ensures Units(b, it) >= 0.0 && (ItemAccepted(b, it) ==> Units(b, it) > 0.0)
  {
    if ItemAccepted(b, it) { Product(it.quantity.value, b.lines[it.sku.value].units); }
  }

  lemma Product(x: real, y: real)
    requires x > 0.0 && y > 0.0
    ensures x * y > 0.0
  {
  }

  ghost predicate Quantities(b: Binding, items: seq<Item>, q: map<string, real>) {
    && (forall sku | sku in q :: sku in b.lines && q[sku] > 0.0)
    && (forall sku :: Get(q, sku) == SumSeq(items, UnitsOf(b, sku)))
  }

  function Get(m: map<string, real>, k: string): real { if k in m then m[k] else 0.0 }

  ghost predicate Bounded(b: Binding, m: map<string, real>) {
    forall sku | sku in b.lines :: Get(m, sku) <= b.lines[sku].quantity
  }

  /** The inner loop over the sorted quantities, with the running totals checked. */
  method AddLines(b: Binding, q: map<string, real>, cumulative: map<string, real>)
    returns (ok: bool, skus: seq<string>, lines: seq<Line>, total: map<string, real>)
    requires Bounded(b, cumulative) && forall sku | sku in q :: sku in b.lines
    ensures !ok ==> exists sku :: sku in b.lines && Get(cumulative, sku) + Get(q, sku) > b.lines[sku].quantity
    ensures ok ==> Ascending(StrLess, skus) && forall k :: k in skus <==> k in q
    ensures ok ==> Bounded(b, total) && forall sku :: Get(total, sku) == Get(cumulative, sku) + Get(q, sku)
    ensures ok ==> |lines| == |skus| && forall k | 0 <= k < |skus| ::
      skus[k] in b.lines && lines[k] == Line(b.lines[skus[k]].identity, Get(q, skus[k]))
  {
    skus := SortedKeys(q.Keys);
    assert forall i, j | 0 <= i < j < |skus| :: skus[i] != skus[j] by {
      StrLessTotal();
      AscendingDistinct(StrLess, skus);
    }
    total, lines := cumulative, [];
    ghost var done: set<string> := {};
    for i := 0 to |skus|
      invariant |lines| == i
      invariant forall k | 0 <= k < |skus| :: skus[k] in done <==> k < i
      invariant forall k | 0 <= k < i :: lines[k] == Line(b.lines[skus[k]].identity, q[skus[k]])
      invariant Adds(b, q, cumulative, done, total)
    {
      var sku := skus[i];
      assert sku in skus;
      ghost var before := total;
      total := total[sku := Get(total, sku) + q[sku]];
      OneAdded(b, q, cumulative, done, before, sku);
      if total[sku] > b.lines[sku].quantity { return false, skus, lines, total; }
      done := done + {sku};
      lines := lines + [Line(b.lines[sku].identity, q[sku])];
    }
    forall sku ensures Get(total, sku) == Get(cumulative, sku) + Get(q, sku) {
      if sku in q { var k :| 0 <= k < |skus| && skus[k] == sku; }
    }
    ok := true;
  }

  /** The totals so far, with the SKUs in `done` added. */
  ghost predicate Adds(b: Binding, q: map<string, real>, cumulative: map<string, real>, done: set<string>, total: map<string, real>) {
    Bounded(b, total) && forall sku :: Get(total, sku) == Get(cumulative, sku) + if sku in done then Get(q, sku) else 0.0
  }

  lemma OneAdded(b: Binding, q: map<string, real>, cumulative: map<string, real>, done: set<string>, total: map<string, real>, sku: string)
    requires Adds(b, q, cumulative, done, total) && sku in q && sku in b.lines && sku !in done
    ensures Get(total, sku) == Get(cumulative, sku)
    ensures var t := total[sku := Get(total, sku) + q[sku]]; t[sku] <= b.lines[sku].quantity ==> Adds(b, q, cumulative, done + {sku}, t)
  {
  }

  /** One package: its report, and the running totals with it included. */
  method OnePackage(b: Binding, order: string, p: Package, seen: set<string>, cumulative: map<string, real>)
    returns (r: Outcome<Report>, total: map<string, real>)
    requires UnitsPositive(b) && Bounded(b, cumulative)
    ensures r.Ok? ==>
      && PackageAccepted(b, p) && p.tracking.value !in seen
      && r.value == ReportOf(b, order)(p) && Bounded(b, total)
      && forall sku :: Get(total, sku) == Get(cumulative, sku) + Shipping(b, sku)(p)
    ensures r.Review? ==>
      || !PackageAccepted(b, p) || p.tracking.value in seen
      || exists sku :: sku in b.lines && Get(cumulative, sku) + Shipping(b, sku)(p) > b.lines[sku].quantity
  {
    total := cumulative;
    if p.tracking.None? || p.tracking.value in seen || !p.dated || p.items == [] { return Review, total; }
    var q := SumItems(b, p.items);
    if q.Review? { return Review, total; }
    forall sku ensures Get(q.value, sku) == Shipping(b, sku)(p) { QuantityIsShipping(b, p, q.value, sku); }
    var ok, skus, lines, t := AddLines(b, q.value, cumulative);
    if !ok {
      var sku :| sku in b.lines && Get(cumulative, sku) + Get(q.value, sku) > b.lines[sku].quantity;
      assert Get(cumulative, sku) + Shipping(b, sku)(p) > b.lines[sku].quantity;
      return Review, total;
    }
    SameSkus(b, p, q.value, skus, lines);
    if p.carrier.None? { return Review, total; }
    total := t;
    r := Ok(Report(EventId(order, p.tracking.value), b.warehouseId, b.code, order,
                   p.carrier.value, p.tracking.value, lines));
  }

  lemma QuantityIsShipping(b: Binding, p: Package, q: map<string, real>, sku: string)
    requires Quantities(b, p.items, q)
    ensures Get(q, sku) == Shipping(b, sku)(p)
  {
  }

  lemma SameSkus(b: Binding, p: Package, q: map<string, real>, skus: seq<string>, lines: seq<Line>)
    requires Quantities(b, p.items, q) && Ascending(StrLess, skus) && forall k :: k in skus <==> k in q
    requires |lines| == |skus|
    requires forall k | 0 <= k < |skus| :: skus[k] in b.lines && lines[k] == Line(b.lines[skus[k]].identity, Get(q, skus[k]))
    ensures lines == LinesOf(b, p)
  {
    StrLessTotal();
    forall k ensures k in q <==> k in PackageSkus(b, p) {
      assert Get(q, k) == SumSeq(p.items, UnitsOf(b, k));
    }
    AscendingUnique(StrLess, skus, Sorted(StrLess, PackageSkus(b, p)));
    forall k | 0 <= k < |skus| ensures lines[k] == LineFor(b, p)(skus[k]) {
      assert Get(q, skus[k]) == SumSeq(p.items, UnitsOf(b, skus[k]));
    }
  }

  method PackageReports(t: Tracking, b: Binding, order: string) returns (r: Outcome<seq<Report>>)
    requires UnitsPositive(b) && Bounded(b, map[])
    ensures r.Ok? <==> SnapshotAccepted(t, b, order)
    ensures r.Ok? ==> r.value == SnapshotReports(b, order, t.shipments.value)
  {
    if t.orderId != Some(order) || t.shipments.None? || t.status != Sent { return Review; }
    var ps := t.shipments.value;
    var reports: seq<Report> := [];
    var seen: set<string> := {};
    ghost var where: map<string, nat> := map[];
    var cumulative: map<string, real> := map[];
    for i := 0 to |ps|
      invariant PackagesAccepted(b, ps[..i]) && Bounded(b, cumulative)
      invariant Seen(ps, i, seen, where)
      invariant forall sku :: Get(cumulative, sku) == SumSeq(ps[..i], Shipping(b, sku))
      invariant reports == Map(ReportOf(b, order), ps[..i])
    {
      var report, total := OnePackage(b, order, ps[i], seen, cumulative);
      if report.Review? {
        Refused(b, ps, i, seen, where, cumulative);
        return Review;
      }
      SeenStep(ps, i, seen, where);
      SnapshotStep(b, order, ps, i, cumulative, total);
      seen := seen + {ps[i].tracking.value};
      where := where[ps[i].tracking.value := i];
      cumulative := total;
      reports := reports + [report.value];
    }
    assert ps[..|ps|] == ps;
    return Ok(Sort(ReportLess, reports));
  }

  /** `seen` holds exactly the tracking numbers of the first `i` packages. */
  ghost predicate Seen(ps: seq<Package>, i: nat, seen: set<string>, where: map<string, nat>)
    requires i <= |ps|
  {
    && seen == where.Keys
    && (forall tr | tr in where :: where[tr] < i && ps[where[tr]].tracking == Some(tr))
    && (forall k | 0 <= k < i :: ps[k].tracking.Some? && ps[k].tracking.value in seen)
  }

  lemma SeenStep(ps: seq<Package>, i: nat, seen: set<string>, where: map<string, nat>)
    requires i < |ps| && Seen(ps, i, seen, where) && ps[i].tracking.Some? && ps[i].tracking.value !in seen
    ensures forall k | 0 <= k < i :: ps[k].tracking != ps[i].tracking
    ensures Seen(ps, i + 1, seen + {ps[i].tracking.value}, where[ps[i].tracking.value := i])
  {
  }

  lemma Refused(b: Binding, ps: seq<Package>, i: nat, seen: set<string>, where: map<string, nat>, cumulative: map<string, real>)
    requires UnitsPositive(b) && i < |ps| && Seen(ps, i, seen, where)
    requires forall sku :: Get(cumulative, sku) == SumSeq(ps[..i], Shipping(b, sku))
    requires
      || !PackageAccepted(b, ps[i]) || ps[i].tracking.value in seen
      || exists sku :: sku in b.lines && Get(cumulative, sku) + Shipping(b, sku)(ps[i]) > b.lines[sku].quantity
    ensures !PackagesAccepted(b, ps)
  {
    assert ps[i] in ps;
    if PackageAccepted(b, ps[i]) && ps[i].tracking.value !in seen { OverRelease(b, ps, i); }
  }

  lemma SnapshotStep(b: Binding, order: string, ps: seq<Package>, i: nat, before: map<string, real>, after: map<string, real>)
    requires i < |ps| && PackagesAccepted(b, ps[..i]) && PackageAccepted(b, ps[i])
    requires forall k | 0 <= k < i :: ps[k].tracking != ps[i].tracking
    requires forall sku :: Get(before, sku) == SumSeq(ps[..i], Shipping(b, sku))
    requires forall sku :: Get(after, sku) == Get(before, sku) + Shipping(b, sku)(ps[i])
    requires Bounded(b, after)
    ensures PackagesAccepted(b, ps[..i + 1])
    ensures forall sku :: Get(after, sku) == SumSeq(ps[..i + 1], Shipping(b, sku))
    ensures Map(ReportOf(b, order), ps[..i + 1]) == Map(ReportOf(b, order), ps[..i]) + [ReportOf(b, order)(ps[i])]
  {
    assert ps[..i + 1] == ps[..i] + [ps[i]];
    forall sku ensures Get(after, sku) == SumSeq(ps[..i + 1], Shipping(b, sku)) {
      SumSeqSnoc(ps[..i], ps[i], Shipping(b, sku));
    }
  }

  lemma UnitsNonNegative(b: Binding, p: Package, sku: string)
    requires UnitsPositive(b)
    ensures Shipping(b, sku)(p) >= 0.0
  {
    forall i | 0 <= i < |p.items| ensures UnitsOf(b, sku)(p.items[i]) >= 0.0 {
      UnitsArePositive(b, p.items[i]);
    }
    SumSeqPrefix(p.items, 0, UnitsOf(b, sku));
  }

  /** A prefix that ships too much makes the whole snapshot ship too much. */
  lemma OverRelease(b: Binding, ps: seq<Package>, i: nat)
    requires UnitsPositive(b) && i < |ps|
    requires exists sku :: sku in b.lines && SumSeq(ps[..i], Shipping(b, sku)) + Shipping(b, sku)(ps[i]) > b.lines[sku].quantity
    ensures !WithinRelease(b, ps)
  {
    var sku :| sku in b.lines && SumSeq(ps[..i], Shipping(b, sku)) + Shipping(b, sku)(ps[i]) > b.lines[sku].quantity;
    forall k | 0 <= k < |ps| ensures Shipping(b, sku)(ps[k]) >= 0.0 { UnitsNonNegative(b, ps[k], sku); }
    SumSeqPrefix(ps, i + 1, Shipping(b, sku));
    assert ps[..i + 1] == ps[..i] + [ps[i]];
    SumSeqSnoc(ps[..i], ps[i], Shipping(b, sku));
  }
}
