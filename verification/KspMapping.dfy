/** Turning a frozen allocation into whole packs, and a tracking snapshot into
    package reports (src/integrations/ksp_gateway/mapping.py). Quantities are
    exact rationals. A text field holds the stripped text, or None when the JSON
    value is missing, blank or not a string; a number field is None when the
    value is missing or not a finite number. */
module KspMapping {
  import opened Outcomes
  import opened Ordering
  import opened Sums

  predicate PositiveNumber(value: Option<real>) { value.Some? && value.value > 0.0 }

  predicate Whole(q: real) { q.Floor as real == q }

  // ---------------------------------------------------------------- inputs

  datatype Identity = Identity(saleLine: int, location: int, product: int, uom: int)

  datatype AllocationLine = AllocationLine(
    sku: Option<string>, saleLine: Option<int>, location: Option<int>,
    product: Option<int>, uom: Option<int>, quantity: Option<real>)

  datatype Allocation = Allocation(
    wmsCode: string, warehouseId: Option<int>, submissionKey: Option<string>, lines: seq<AllocationLine>)

  datatype Payload = Payload(
    schemaVersion: int, fulfillmentMode: string, pickingId: Option<int>, allocations: seq<Allocation>)

  /** The pack types KSP knows. */
  datatype PackType = Piece | Unit | Case | Pack | MasterCase

  datatype RawRule = PackRule(sku: string, uom: int, packType: PackType, units: real)

  predicate RuleAccepted(r: RawRule) { r.uom > 0 && r.sku != "" && r.units > 0.0 }

  /** A rule that passed the constructor's own checks. */
  type PackRule = r: RawRule | RuleAccepted(r) witness PackRule("A", 1, Unit, 1.0)

  datatype Mapped = Mapped(identity: Identity, packType: PackType, units: real, quantity: real)

  datatype Binding = Binding(code: string, anchorId: int, warehouseId: int, lines: map<string, Mapped>)

  datatype OrderLine = OrderLine(sku: string, packType: PackType, packs: int)

  /** `rest` is the validated customer, address and shipping-option part. */
  datatype OrderBody = OrderBody(code: string, rest: string, lines: seq<OrderLine>)

  // ------------------------------------------------------------ allocation

  predicate PositiveId(i: Option<int>) { i.Some? && i.value > 0 }

  predicate Identified(l: AllocationLine) {
    PositiveId(l.saleLine) && PositiveId(l.location) && PositiveId(l.product) && PositiveId(l.uom)
  }

  function IdentityOf(l: AllocationLine): Identity
    requires Identified(l)
  {
    Identity(l.saleLine.value, l.location.value, l.product.value, l.uom.value)
  }

  datatype RuleKey = RuleKey(sku: string, uom: int)

  type RuleMap = map<RuleKey, PackRule>

  /** The look-up table of the rules; a later duplicate replaces an earlier one. */
  function RuleTable(rules: seq<PackRule>): RuleMap {
    if rules == [] then map[] else
      var r := rules[|rules| - 1];
      RuleTable(rules[..|rules| - 1])[RuleKey(r.sku, r.uom) := r]
  }

  predicate LineAccepted(rm: RuleMap, l: AllocationLine) {
    && l.sku.Some? && Identified(l) && RuleKey(l.sku.value, l.uom.value) in rm && PositiveNumber(l.quantity)
  }

  predicate HeaderAccepted(p: Payload, a: Allocation) {
    && p.schemaVersion == 3 && p.fulfillmentMode == "reserved_only"
    && a.wmsCode == "ksp"
    && PositiveId(a.warehouseId) && PositiveId(p.pickingId)
    && a in p.allocations
    && a.submissionKey.Some?
  }

  /** What a SKU's lines add up to. */
  function OfSku(sku: string): AllocationLine -> real {
    (l: AllocationLine) => if l.sku == Some(sku) && l.quantity.Some? then l.quantity.value else 0.0
  }

  ghost predicate SameIdentityPerSku(lines: seq<AllocationLine>) {
    forall i, j | 0 <= i < j < |lines| && Identified(lines[i]) && Identified(lines[j]) && lines[i].sku == lines[j].sku ::
      IdentityOf(lines[i]) == IdentityOf(lines[j])
  }

  ghost predicate LinesAccepted(rm: RuleMap, lines: seq<AllocationLine>) {
    (forall l | l in lines :: LineAccepted(rm, l)) && SameIdentityPerSku(lines)
  }

  /** `m` maps exactly the SKUs of `lines`, each with its one identity, its
      rule's pack type and size, and the sum of its quantities (which is
      positive, so every key has a line: `KeyHasLine`). */
  ghost predicate Summarises(rm: RuleMap, lines: seq<AllocationLine>, m: map<string, Mapped>) {
    && (forall l | l in lines :: LineAccepted(rm, l) && l.sku.value in m && Explains(rm, l, m[l.sku.value]))
    && (forall sku | sku in m :: 0.0 < m[sku].quantity == SumSeq(lines, OfSku(sku)))
  }

  predicate Explains(rm: RuleMap, l: AllocationLine, e: Mapped)
    requires LineAccepted(rm, l)
  {
    var r := rm[RuleKey(l.sku.value, l.uom.value)];
    IdentityOf(l) == e.identity && e.units == r.units && e.packType == r.packType
  }

  predicate WholePack(e: Mapped) { e.units > 0.0 && Whole(e.quantity / e.units) }

  ghost predicate WholePacks(m: map<string, Mapped>) {
    forall sku | sku in m :: WholePack(m[sku])
  }

  /** A release this connector takes: explicit mapping for every line, one
      identity per SKU, and nothing but whole packs. */
  ghost predicate AllocationAccepted(p: Payload, a: Allocation, rules: seq<PackRule>) {
    && HeaderAccepted(p, a) && |RuleTable(rules)| == |rules|
    && LinesAccepted(RuleTable(rules), a.lines) && a.lines != []
    && exists m :: Summarises(RuleTable(rules), a.lines, m) && WholePacks(m)
  }

  method AllocationBinding(p: Payload, a: Allocation, rules: seq<PackRule>) returns (r: Outcome<Binding>)
    ensures r.Ok? <==> AllocationAccepted(p, a, rules)
    ensures r.Ok? ==>
      && Some(r.value.code) == a.submissionKey
      && Some(r.value.anchorId) == p.pickingId && Some(r.value.warehouseId) == a.warehouseId
      && Summarises(RuleTable(rules), a.lines, r.value.lines) && WholePacks(r.value.lines)
  {
    var rm := RuleTable(rules);
    if !HeaderAccepted(p, a) || |rm| != |rules| { return Review; }
    var lines := SumLines(rm, a.lines);
    if lines.Review? || |lines.value| == 0 {
      if lines.Ok? { SummaryUnits(rm, a.lines, lines.value); }
      return Review;
    }
    SummaryUnits(rm, a.lines, lines.value);
    var whole := AllWhole(lines.value);
    if !whole {
      forall n | Summarises(rm, a.lines, n) ensures n == lines.value { SummaryUnique(rm, a.lines, lines.value, n); }
      return Review;
    }
    return Ok(Binding(a.submissionKey.value, p.pickingId.value, a.warehouseId.value, lines.value));
  }

  /** The loop that fills `by_sku`. */
  method SumLines(rm: RuleMap, lines: seq<AllocationLine>) returns (r: Outcome<map<string, Mapped>>)
    ensures r.Ok? <==> LinesAccepted(rm, lines)
    ensures r.Ok? ==> Summarises(rm, lines, r.value)
  {
    var bySku: map<string, Mapped> := map[];
    for i := 0 to |lines|
      invariant LinesAccepted(rm, lines[..i])
      invariant Summarises(rm, lines[..i], bySku)
    {
      var l := lines[i];
      assert l in lines;
      if l.sku.None? || !Identified(l) || RuleKey(l.sku.value, l.uom.value) !in rm { return Review; }
      var sku, rule := l.sku.value, rm[RuleKey(l.sku.value, l.uom.value)];
      if sku in bySku && bySku[sku].identity != IdentityOf(l) {
        IdentityClash(rm, lines, i, bySku);
        return Review;
      }
      if !PositiveNumber(l.quantity) { return Review; }
      var entry := if sku in bySku then bySku[sku] else Mapped(IdentityOf(l), rule.packType, rule.units, 0.0);
      ghost var before := bySku;
      bySku := bySku[sku := entry.(quantity := entry.quantity + l.quantity.value)];
      SummaryStep(rm, lines, i, before, bySku);
    }
    assert lines[..|lines|] == lines;
    return Ok(bySku);
  }

  lemma KeyHasLine(lines: seq<AllocationLine>, sku: string) returns (i: nat)
    requires SumSeq(lines, OfSku(sku)) > 0.0
    ensures i < |lines| && lines[i].sku == Some(sku)
  {
    if forall l | l in lines :: l.sku != Some(sku) { NoneOfSku(lines, sku); }
    var l :| l in lines && l.sku == Some(sku);
    i :| 0 <= i < |lines| && lines[i] == l;
  }

  lemma IdentityClash(rm: RuleMap, lines: seq<AllocationLine>, i: nat, m: map<string, Mapped>)
    requires i < |lines| && Summarises(rm, lines[..i], m)
    requires lines[i].sku.Some? && Identified(lines[i]) && lines[i].sku.value in m
    requires m[lines[i].sku.value].identity != IdentityOf(lines[i])
    ensures !SameIdentityPerSku(lines)
  {
    var k := KeyHasLine(lines[..i], lines[i].sku.value);
    assert lines[..i][k] in lines[..i] && lines[..i][k] == lines[k];
  }

  method AllWhole(m: map<string, Mapped>) returns (whole: bool)
    requires forall sku | sku in m :: m[sku].units > 0.0
    ensures whole <==> WholePacks(m)
  {
    var todo := m.Keys;
    while todo != {}
      invariant todo <= m.Keys
      invariant forall sku | sku in m.Keys - todo :: WholePack(m[sku])
      decreases todo
    {
      var sku :| sku in todo;
      if !WholePack(m[sku]) { return false; }
      todo := todo - {sku};
    }
    return true;
  }

  lemma SummaryStep(rm: RuleMap, lines: seq<AllocationLine>, i: nat, before: map<string, Mapped>, after: map<string, Mapped>)
    requires i < |lines| && LinesAccepted(rm, lines[..i]) && Summarises(rm, lines[..i], before)
    requires LineAccepted(rm, lines[i])
    requires var l := lines[i]; var sku, id, rule := l.sku.value, IdentityOf(l), rm[RuleKey(l.sku.value, l.uom.value)];
      && (sku in before ==> before[sku].identity == id)
      && var entry := if sku in before then before[sku] else Mapped(id, rule.packType, rule.units, 0.0);
      after == before[sku := entry.(quantity := entry.quantity + l.quantity.value)]
    ensures LinesAccepted(rm, lines[..i + 1]) && Summarises(rm, lines[..i + 1], after)
  {
    var done, l, sku := lines[..i], lines[i], lines[i].sku.value;
    assert lines[..i + 1] == done + [l];
    forall s | s in after ensures 0.0 < after[s].quantity == SumSeq(done + [l], OfSku(s)) {
      SumSeqSnoc(done, l, OfSku(s));
      if s !in before { NoneOfSku(done, s); }
    }
    if sku in before { SameSku(rm, done, l, before); }
    assert LinesAccepted(rm, done + [l]) by {
      forall k | 0 <= k < i && Identified(done[k]) && done[k].sku == l.sku ensures IdentityOf(done[k]) == IdentityOf(l) {
        assert done[k] in done;
      }
    }
  }

  lemma SameSku(rm: RuleMap, done: seq<AllocationLine>, l: AllocationLine, m: map<string, Mapped>)
    requires Summarises(rm, done, m) && LineAccepted(rm, l) && l.sku.value in m && m[l.sku.value].identity == IdentityOf(l)
    ensures Explains(rm, l, m[l.sku.value])
  {
    var k := KeyHasLine(done, l.sku.value);
    assert done[k] in done;
  }

  lemma {:induction false} NoneOfSku(lines: seq<AllocationLine>, sku: string)
    requires forall l | l in lines :: l.sku != Some(sku)
    ensures SumSeq(lines, OfSku(sku)) == 0.0
  {
    if lines != [] {
      assert lines[|lines| - 1] in lines;
      NoneOfSku(lines[..|lines| - 1], sku);
    }
  }

  lemma SummaryUnits(rm: RuleMap, lines: seq<AllocationLine>, m: map<string, Mapped>)
    requires Summarises(rm, lines, m)
    ensures forall sku | sku in m :: m[sku].units > 0.0
    ensures |m| == 0 <==> lines == []
  {
    forall sku | sku in m ensures m[sku].units > 0.0 {
      var k := KeyHasLine(lines, sku);
      assert lines[k] in lines;
    }
    if lines != [] {
      assert lines[0] in lines;
      assert lines[0].sku.value in m.Keys;
    } else {
      assert forall sku :: sku in m ==> SumSeq(lines, OfSku(sku)) == 0.0;
      assert m == map[];
    }
  }

  /** The summary of a list of lines is unique, so "some summary is whole"
      and "the computed summary is whole" say the same. */
  lemma SummaryUnique(rm: RuleMap, lines: seq<AllocationLine>, m: map<string, Mapped>, n: map<string, Mapped>)
    requires Summarises(rm, lines, m) && Summarises(rm, lines, n)
    ensures n == m
  {
    forall sku | sku in m ensures sku in n && n[sku] == m[sku] {
      var k := KeyHasLine(lines, sku);
      assert lines[k] in lines;
    }
    forall sku | sku in n ensures sku in m {
      var k := KeyHasLine(lines, sku);
      assert lines[k] in lines;
    }
  }

  /** Lines of the order in SKU order, and the rest of the body unchanged. */
  method BuildOrder(p: Payload, a: Allocation, rules: seq<PackRule>, rest: Outcome<string>)
    returns (r: Outcome<(OrderBody, Binding)>)
    ensures r.Ok? <==> AllocationAccepted(p, a, rules) && rest.Ok?
    ensures r.Ok? ==>
      && Summarises(RuleTable(rules), a.lines, r.value.1.lines) && WholePacks(r.value.1.lines)
      && Some(r.value.1.code) == a.submissionKey
      && Some(r.value.1.anchorId) == p.pickingId && Some(r.value.1.warehouseId) == a.warehouseId
      && r.value.0.code == r.value.1.code && Ok(r.value.0.rest) == rest
      && OrderOf(r.value.1, r.value.0.lines)
    ensures r.Ok? ==> ByTheRules(rules, a.lines, r.value.0.lines)
  {
    hide AllocationAccepted, Summarises, RuleTable, OrderOf, ByTheRules;
    var b := AllocationBinding(p, a, rules);
    if b.Review? || rest.Review? { return Review; }
    var lines := PackLines(b.value);
    OrderIsByTheRules(rules, a.lines, b.value, lines);
    return Ok((OrderBody(b.value.code, rest.value, lines), b.value));
  }

  /** The `lineItems` comprehension of the body. */
  method PackLines(b: Binding) returns (lines: seq<OrderLine>)
    requires WholePacks(b.lines)
    ensures OrderOf(b, lines)
  {
    var skus := SortedKeys(b.lines.Keys);
    lines := [];
    for i := 0 to |skus|
      invariant |lines| == i
      invariant forall k | 0 <= k < i :: lines[k] == PackLine(b, skus[k])
    {
      assert skus[i] in skus;
      lines := lines + [PackLine(b, skus[i])];
    }
  }

  function PackLine(b: Binding, sku: string): OrderLine
    requires sku in b.lines && b.lines[sku].units > 0.0
  {
    OrderLine(sku, b.lines[sku].packType, (b.lines[sku].quantity / b.lines[sku].units).Floor)
  }

  /** Ascending, hence distinct, SKUs of the binding, and as many as it has:
      each SKU exactly once. */
  ghost predicate OrderOf(b: Binding, lines: seq<OrderLine>) {
    && (forall i, j | 0 <= i < j < |lines| :: StrLess(lines[i].sku, lines[j].sku))
    && |lines| == |b.lines|
    && (forall l | l in lines :: l.sku in b.lines && b.lines[l.sku].units > 0.0 && l == PackLine(b, l.sku))
  }

  /** Some rule for this SKU and unit of measure has the line's pack type, and
      its pack size times the packs is the total. */
  ghost predicate Ruled(rules: seq<PackRule>, x: AllocationLine, l: OrderLine, total: real) {
    exists r :: r in rules && r.sku == l.sku && Some(r.uom) == x.uom && r.packType == l.packType && l.packs as real * r.units == total
  }

  /** The rules give every order line its pack type and its number of packs, so
      that it asks for what the released lines of its SKU add up to. The order
      has the SKUs of the lines. */
  ghost predicate ByTheRules(rules: seq<PackRule>, lines: seq<AllocationLine>, order: seq<OrderLine>) {
    && (forall l, x | l in order && x in lines && x.sku == Some(l.sku) :: Ruled(rules, x, l, SumSeq(lines, OfSku(l.sku))))
    && (forall l | l in order :: exists x :: x in lines && x.sku == Some(l.sku))
    && (forall x | x in lines :: exists l :: l in order && x.sku == Some(l.sku))
  }

  lemma {:induction false} TableHasRules(rules: seq<PackRule>, k: RuleKey)
    requires k in RuleTable(rules)
    ensures RuleTable(rules)[k] in rules && RuleTable(rules)[k].sku == k.sku && RuleTable(rules)[k].uom == k.uom
  {
    var n := |rules| - 1;
    if k != RuleKey(rules[n].sku, rules[n].uom) { TableHasRules(rules[..n], k); }
  }

  lemma LineIsRuled(rules: seq<PackRule>, lines: seq<AllocationLine>, b: Binding, order: seq<OrderLine>, l: OrderLine, x: AllocationLine)
    requires Summarises(RuleTable(rules), lines, b.lines) && WholePacks(b.lines) && OrderOf(b, order)
    requires l in order && x in lines && x.sku == Some(l.sku)
    ensures Ruled(rules, x, l, SumSeq(lines, OfSku(l.sku)))
  {
    hide RuleTable, OrderOf, WholePacks;
    OrderPacks(b, order, l);
    var e := b.lines[l.sku];
    assert l.packType == e.packType by { TypeIsFrozen(b, order, l); }
    var r := RuleOf(rules, x, e);
    assert l.packs as real * r.units == l.packs as real * e.units;
  }

  lemma TypeIsFrozen(b: Binding, order: seq<OrderLine>, l: OrderLine)
    requires OrderOf(b, order) && l in order
    ensures l.sku in b.lines && l.packType == b.lines[l.sku].packType
  {
  }

  lemma RuleOf(rules: seq<PackRule>, x: AllocationLine, e: Mapped) returns (r: PackRule)
    requires LineAccepted(RuleTable(rules), x) && Explains(RuleTable(rules), x, e)
    ensures r in rules && Some(r.sku) == x.sku && Some(r.uom) == x.uom && r.packType == e.packType && r.units == e.units
  {
    var k := RuleKey(x.sku.value, x.uom.value);
    TableHasRules(rules, k);
    r := RuleTable(rules)[k];
  }

  lemma OrderIsByTheRules(rules: seq<PackRule>, lines: seq<AllocationLine>, b: Binding, order: seq<OrderLine>)
    requires Summarises(RuleTable(rules), lines, b.lines) && WholePacks(b.lines) && OrderOf(b, order)
    ensures ByTheRules(rules, lines, order)
  {
    hide RuleTable, WholePacks, Ruled;
    forall l, x | l in order && x in lines && x.sku == Some(l.sku) ensures Ruled(rules, x, l, SumSeq(lines, OfSku(l.sku))) {
      LineIsRuled(rules, lines, b, order, l, x);
    }
    forall l | l in order ensures exists x :: x in lines && x.sku == Some(l.sku) {
      var k := KeyHasLine(lines, l.sku);
      assert lines[k] in lines;
    }
    forall x | x in lines ensures exists l :: l in order && x.sku == Some(l.sku) {
      var k := OrderListsEvery(b, order, x.sku.value);
      assert order[k] in order;
    }
  }

  /** `sorted(...)` of dictionary keys. */
  method SortedKeys(keys: set<string>) returns (r: seq<string>)
    ensures Ascending(StrLess, r) && |r| == |keys|
    ensures forall k :: k in r <==> k in keys
  {
    StrLessTotal();
    r := SortedList(StrLess, keys);
  }

  /** The units of a SKU that an order line asks for. */
  function UnitsOrdered(b: Binding, sku: string): OrderLine -> real {
    (l: OrderLine) => if l.sku == sku && sku in b.lines then l.packs as real * b.lines[sku].units else 0.0
  }

  /** Pack conservation: over the whole order, packs times the units in a pack
      are exactly what the allocation's lines release of each SKU. */
  lemma PackConservation(lines: seq<AllocationLine>, rm: RuleMap, b: Binding, order: seq<OrderLine>, sku: string)
    requires Summarises(rm, lines, b.lines) && WholePacks(b.lines) && OrderOf(b, order)
    ensures SumSeq(order, UnitsOrdered(b, sku)) == SumSeq(lines, OfSku(sku))
  {
    OrderConserves(b, order, sku);
    if sku !in b.lines { NoneOfSku(lines, sku); }
  }

  lemma {:induction false} OrderConserves(b: Binding, order: seq<OrderLine>, sku: string)
    requires WholePacks(b.lines) && OrderOf(b, order) && forall s | s in b.lines :: b.lines[s].quantity > 0.0
    ensures SumSeq(order, UnitsOrdered(b, sku)) == if sku in b.lines then b.lines[sku].quantity else 0.0
  {
    if sku in b.lines {
      var k := OrderListsEvery(b, order, sku);
      SumSeqOne(order, UnitsOrdered(b, sku), k);
      OrderPacks(b, order, order[k]);
    } else {
      SumSeqZero(order, UnitsOrdered(b, sku));
    }
  }

  /** Every SKU of the binding has its one line. */
  lemma OrderListsEvery(b: Binding, order: seq<OrderLine>, sku: string) returns (k: nat)
    requires OrderOf(b, order) && sku in b.lines
    ensures k < |order| && order[k].sku == sku && forall i | 0 <= i < |order| && i != k :: order[i].sku != sku
  {
    var skus := set i | 0 <= i < |order| :: order[i].sku;
    StrLessTotal();
    forall i, j | 0 <= i < j < |order| ensures order[i].sku != order[j].sku {
      assert StrLess(order[i].sku, order[j].sku) && !StrLess(order[i].sku, order[i].sku);
    }
    assert forall i | 0 <= i < |order| :: order[i] in order;
    AsManySkus(order);
    SubsetOfSameSize(skus, b.lines.Keys);
    assert sku in skus;
    k :| 0 <= k < |order| && order[k].sku == sku;
  }

  lemma {:induction false} AsManySkus(order: seq<OrderLine>)
    requires forall i, j | 0 <= i < j < |order| :: order[i].sku != order[j].sku
    ensures |set i | 0 <= i < |order| :: order[i].sku| == |order|
  {
    var skus := set i | 0 <= i < |order| :: order[i].sku;
    if order == [] {
      assert skus == {};
    } else {
      var n := |order| - 1;
      var init := order[..n];
      AsManySkus(init);
      var before := set i | 0 <= i < |init| :: init[i].sku;
      forall x ensures x in skus <==> x in before + {order[n].sku} {
        if x in skus { var i :| 0 <= i < |order| && order[i].sku == x; if i < n { assert init[i].sku == x; } }
        if x in before { var i :| 0 <= i < |init| && init[i].sku == x; assert order[i].sku == x; }
      }
      assert skus == before + {order[n].sku};
    }
  }

  lemma {:induction false} SubsetOfSameSize<T>(a: set<T>, b: set<T>)
    requires a <= b && |a| == |b|
    ensures a == b
  {
    if a != {} {
      var x :| x in a;
      SubsetOfSameSize(a - {x}, b - {x});
    }
  }

  lemma OrderLineOf(b: Binding, order: seq<OrderLine>, l: OrderLine)
    requires WholePacks(b.lines) && OrderOf(b, order)
    requires l in order
    ensures l.sku in b.lines
    ensures var e := b.lines[l.sku]; WholePack(e) && l.packs == (e.quantity / e.units).Floor
  {
  }

  lemma OrderPacks(b: Binding, order: seq<OrderLine>, l: OrderLine)
    requires WholePacks(b.lines) && OrderOf(b, order)
    requires forall sku | sku in b.lines :: b.lines[sku].quantity > 0.0
    requires l in order
    ensures l.sku in b.lines
    ensures l.packs as real * b.lines[l.sku].units == b.lines[l.sku].quantity && l.packs >= 1
  {
    OrderLineOf(b, order, l);
    PackExact(b.lines[l.sku], l.packs);
  }

  lemma PackExact(e: Mapped, packs: int)
    requires e.quantity > 0.0 && WholePack(e) && packs == (e.quantity / e.units).Floor
    ensures packs as real * e.units == e.quantity && packs >= 1
  {
    assert (e.quantity / e.units) * e.units == e.quantity;
    assert e.quantity / e.units > 0.0;
  }
}
