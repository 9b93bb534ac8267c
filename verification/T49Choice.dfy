/** Choosing an existing container, tracking request or shipment listing from a
    provider document (src/integrations/terminal49_client/initiation.py,
    shipments.py and core.py). Text fields are already cleaned (blanks removed,
    upper case), "" when missing; identifiers are canonical. */
module T49Choice {
  import opened Outcomes
  import opened Ordering
  import opened Counting

  datatype Kind = ByContainer | ByBill | ByBooking

  /** What Odoo asked to track. An empty `scac` means any carrier. */
  datatype Terms = Terms(number: string, kind: Kind, reference: string, scac: string)

  datatype Type = ContainerType | ShipmentType | RequestType | OtherType

  datatype Link = Link(type_: Type, id: string)

  /** `bill` and `booking` are None when the key is absent. `stopped` is None
      when the provider does not say whether tracking was stopped. */
  datatype Resource =
    | Container(id: string, number: string, returned: bool, shipments: seq<Link>)
    | Shipment(id: string, carrier: string, bill: Option<string>, booking: Option<string>, stopped: Option<bool>, containers: seq<Link>)
    | Request(id: string, kind: Option<Kind>, reference: string, scac: string, markers: set<string>, dead: bool, tracked: seq<Link>)
    | Other(id: string)

  datatype Doc = Doc(data: seq<Resource>, included: seq<Resource>)

  function KeyOf(r: Resource): Link {
    Link(match r case Container(_, _, _, _) => ContainerType case Shipment(_, _, _, _, _, _) => ShipmentType
                 case Request(_, _, _, _, _, _, _) => RequestType case Other(_) => OtherType, r.id)
  }

  type Lookup = map<Link, Resource>

  /** `resources`: by type and identifier, a later entry replaces an earlier. */
  function IndexOf(rs: seq<Resource>): (m: Lookup)
    ensures forall k | k in m :: KeyOf(m[k]) == k && m[k] in rs
    ensures forall r | r in rs :: KeyOf(r) in m
  {
    if rs == [] then map[] else
      var n := |rs| - 1;
      assert rs == rs[..n] + [rs[n]];
      IndexOf(rs[..n])[KeyOf(rs[n]) := rs[n]]
  }

  function Resources(doc: Doc): Lookup { IndexOf(doc.data + doc.included) }

  // ------------------------------------------------------------- containers

  predicate Exact(q: Terms, r: Resource) { r.Container? && r.number == q.number }

  /** The shipment a container belongs to, when there is exactly one and it is known. */
  function ShipmentOf(m: Lookup, c: Resource): Option<Resource>
    requires c.Container?
  {
    if |c.shipments| == 1 && Link(ShipmentType, c.shipments[0].id) in m
    then Some(m[Link(ShipmentType, c.shipments[0].id)]) else None
  }

  predicate CarrierFits(q: Terms, s: Resource)
    requires s.Shipment?
  {
    q.scac == "" || s.carrier == q.scac
  }

  function ReferenceOf(q: Terms, s: Resource): Option<string>
    requires s.Shipment?
  {
    if q.kind.ByBill? then s.bill else s.booking
  }

  predicate IsShipment(o: Option<Resource>) { o.Some? && o.value.Shipment? }

  /** Enough is known about an exact-number container to judge it. */
  predicate WellFormed(m: Lookup, q: Terms, c: Resource)
    requires c.Container?
  {
    var s := ShipmentOf(m, c);
    IsShipment(s) && (CarrierFits(q, s.value) && !q.kind.ByContainer? ==> ReferenceOf(q, s.value).Some?)
  }

  predicate Passes(m: Lookup, q: Terms, c: Resource) {
    && Exact(q, c) && IsShipment(ShipmentOf(m, c))
    && var s := ShipmentOf(m, c).value;
       CarrierFits(q, s) && (q.kind.ByContainer? || ReferenceOf(q, s) == Some(q.reference))
  }

  /** Explicitly active: not stopped by the line and not returned empty. */
  function Live(m: Lookup, q: Terms): Resource -> bool {
    (c: Resource) => Passes(m, q, c) && ShipmentOf(m, c).value.stopped == Some(false) && !c.returned
  }

  ghost predicate Judgeable(doc: Doc, q: Terms) {
    forall c | c in doc.data && Exact(q, c) :: WellFormed(Resources(doc), q, c)
  }

  ghost predicate NonePasses(doc: Doc, q: Terms) {
    forall c | c in doc.data :: !Passes(Resources(doc), q, c)
  }

  ghost predicate OneLive(doc: Doc, q: Terms, id: string) {
    exists c :: Sole(doc.data, Live(Resources(doc), q), c) && c.id == id
  }

  datatype Verdict = Skip | Doubt | Past | Active

  /** The loop body: what one listed resource contributes. */
  method Judge(m: Lookup, q: Terms, c: Resource) returns (v: Verdict)
    requires forall k | k in m :: KeyOf(m[k]) == k
    ensures v == Doubt <==> Exact(q, c) && !WellFormed(m, q, c)
    ensures v != Doubt ==> (v == Active <==> Live(m, q)(c)) && (v == Skip <==> !Passes(m, q, c))
  {
    if !Exact(q, c) { return Skip; }
    if |c.shipments| != 1 { return Doubt; }
    var s := ShipmentOf(m, c);
    if s.None? { return Doubt; }
    if !CarrierFits(q, s.value) { return Skip; }
    if !q.kind.ByContainer? {
      if ReferenceOf(q, s.value).None? { return Doubt; }
      if ReferenceOf(q, s.value) != Some(q.reference) { return Skip; }
    }
    v := if s.value.stopped != Some(false) || c.returned then Past else Active;
  }

  /** The loop: the active and the other passing resources. */
  method Sift(m: Lookup, q: Terms, data: seq<Resource>) returns (doubt: bool, matches: seq<Resource>, historical: seq<Resource>)
    requires forall k | k in m :: KeyOf(m[k]) == k
    ensures doubt <==> exists i :: 0 <= i < |data| && Exact(q, data[i]) && !WellFormed(m, q, data[i])
    ensures !doubt ==> matches == Filter(data, Live(m, q))
    ensures !doubt ==> (historical == [] && matches == [] <==> forall k | 0 <= k < |data| :: !Passes(m, q, data[k]))
  {
    hide Live, Passes, WellFormed;
    matches, historical := [], [];
    for i := 0 to |data|
      invariant forall k | 0 <= k < i && Exact(q, data[k]) :: WellFormed(m, q, data[k])
      invariant matches == Filter(data[..i], Live(m, q))
      invariant historical == [] && matches == [] <==> forall k | 0 <= k < i :: !Passes(m, q, data[k])
    {
      var c := data[i];
      assert data[..i + 1][..i] == data[..i];
      var v := Judge(m, q, c);
      if v == Doubt { return true, matches, historical; }
      if v == Past { historical := historical + [c]; }
      if v == Active { matches := matches + [c]; }
    }
    assert data[..|data|] == data;
    doubt := false;
  }

  method ChooseContainer(doc: Doc, q: Terms) returns (r: Outcome<Option<string>>)
    ensures forall id :: r == Ok(Some(id)) <==> Judgeable(doc, q) && OneLive(doc, q, id)
    ensures r == Ok(None) <==> Judgeable(doc, q) && NonePasses(doc, q)
  {
    hide Live, Passes, WellFormed, OneLive;
    var doubt, matches, historical := Sift(Resources(doc), q, doc.data);
    if doubt { return Review; }
    ChosenFromMatches(doc, q, matches);
    assert Judgeable(doc, q);
    if |matches| > 1 { return Review; }
    if |matches| == 1 { return Ok(Some(matches[0].id)); }
    if historical != [] { return Review; }
    return Ok(None);
  }

  lemma ChosenFromMatches(doc: Doc, q: Terms, matches: seq<Resource>)
    requires matches == Filter(doc.data, Live(Resources(doc), q))
    ensures forall id :: OneLive(doc, q, id) <==> |matches| == 1 && matches[0].id == id
    ensures matches != [] ==> !NonePasses(doc, q)
  {
    var live := Live(Resources(doc), q);
    forall id ensures OneLive(doc, q, id) <==> |matches| == 1 && matches[0].id == id {
      if OneLive(doc, q, id) {
        var c :| Sole(doc.data, live, c) && c.id == id;
        FilterSole(doc.data, live, c);
      }
      if |matches| == 1 { FilterSole(doc.data, live, matches[0]); assert matches == [matches[0]]; }
    }
    if matches != [] {
      FilterMembers(doc.data, live);
      assert matches[0] in matches;
    }
  }

  /** No two different resources share a type and identifier. */
  ghost predicate Consistent(rs: seq<Resource>) {
    forall r, s | r in rs && s in rs && KeyOf(r) == KeyOf(s) :: r == s
  }

  /** The choice depends neither on the order of the listed containers nor,
      in a consistent document, on the order of the included resources. */
  lemma ChoiceIgnoresOrder(d: Doc, e: Doc, q: Terms)
    requires multiset(d.data) == multiset(e.data) && multiset(d.included) == multiset(e.included)
    requires Consistent(d.data + d.included)
    ensures Judgeable(d, q) <==> Judgeable(e, q)
    ensures NonePasses(d, q) <==> NonePasses(e, q)
    ensures forall id :: OneLive(d, q, id) <==> OneLive(e, q, id)
  {
    SameElements(d.data, e.data);
    SameElements(d.included, e.included);
    SameIndex(d.data + d.included, e.data + e.included);
    forall id ensures OneLive(d, q, id) <==> OneLive(e, q, id) {
      var live := Live(Resources(d), q);
      forall c ensures Sole(d.data, live, c) <==> Sole(e.data, live, c) { SolePermute(d.data, e.data, live, c); }
    }
  }

  lemma SameIndex(rs: seq<Resource>, ss: seq<Resource>)
    requires forall r :: r in rs <==> r in ss
    requires Consistent(rs)
    ensures IndexOf(rs) == IndexOf(ss)
  {
    var m, n := IndexOf(rs), IndexOf(ss);
    forall k | k in m ensures k in n && n[k] == m[k] {
      assert m[k] in ss && KeyOf(m[k]) == k;
      assert n[k] in rs && KeyOf(n[k]) == k;
    }
    forall k | k in n ensures k in m { assert n[k] in rs && KeyOf(n[k]) == k; }
  }

  // ------------------------------------------------------- tracking requests

  function Matches(q: Terms): Resource -> bool {
    (r: Resource) => r.Request? && r.reference == q.reference && r.kind == Some(q.kind)
      && (q.scac == "" || r.scac == "" || r.scac == q.scac)
  }

  function Own(q: Terms, marker: string): Resource -> bool {
    (r: Resource) => Matches(q)(r) && marker in r.markers
  }

  /** One request of our own wins; otherwise a sole match; anything else that
      matches asks for review. */
  method ChooseRequest(data: seq<Resource>, q: Terms, marker: string) returns (r: Outcome<Option<Resource>>)
    ensures forall x :: r == Ok(Some(x)) <==>
      Sole(data, Own(q, marker), x) || (Sole(data, Matches(q), x) && !Own(q, marker)(x))
    ensures r == Ok(None) <==> forall x | x in data :: !Matches(q)(x)
  {
    var matches, own: seq<Resource> := [], [];
    for i := 0 to |data|
      invariant matches == Filter(data[..i], Matches(q))
    {
      assert data[..i + 1][..i] == data[..i];
      if Matches(q)(data[i]) { matches := matches + [data[i]]; }
    }
    assert data[..|data|] == data;
    for i := 0 to |matches|
      invariant own == Filter(matches[..i], Own(q, marker))
    {
      assert matches[..i + 1][..i] == matches[..i];
      FilterMembers(data, Matches(q));
      assert matches[i] in matches;
      if marker in matches[i].markers { own := own + [matches[i]]; }
    }
    assert matches[..|matches|] == matches;
    ChosenRequest(data, q, marker, matches, own);
    if |own| == 1 { return Ok(Some(own[0])); }
    if |own| > 1 || |matches| > 1 { return Review; }
    if matches != [] { return Ok(Some(matches[0])); }
    return Ok(None);
  }

  lemma ChosenRequest(data: seq<Resource>, q: Terms, marker: string, matches: seq<Resource>, own: seq<Resource>)
    requires matches == Filter(data, Matches(q)) && own == Filter(matches, Own(q, marker))
    ensures forall x :: Sole(data, Own(q, marker), x) <==> own == [x]
    ensures forall x :: Sole(data, Matches(q), x) <==> matches == [x]
    ensures matches == [] <==> forall x | x in data :: !Matches(q)(x)
    ensures |matches| == 1 ==> matches[0].Request? && own == if marker in matches[0].markers then matches else []
  {
    FilterTwice(data, Matches(q), Own(q, marker));
    forall x ensures Sole(data, Own(q, marker), x) <==> own == [x] { FilterSole(data, Own(q, marker), x); }
    forall x ensures Sole(data, Matches(q), x) <==> matches == [x] { FilterSole(data, Matches(q), x); }
    FilterMembers(data, Matches(q));
    if matches != [] { assert matches[0] in matches; }
    if |matches| == 1 { assert matches == [] + [matches[0]]; FilterSnoc([], matches[0], Own(q, marker)); assert matches[0] in matches; }
  }

  // --------------------------------------------------- shipments of a bill

  function OnBill(q: Terms): Resource -> bool {
    (s: Resource) => s.Shipment? && (if s.bill.Some? then s.bill.value else "") == q.reference && CarrierFits(q, s)
  }

  /** The existing shipment of a master bill: all that fit must be explicitly
      active, and at most one may. */
  method ChooseShipment(data: seq<Resource>, q: Terms) returns (r: Outcome<Option<Resource>>)
    ensures forall x :: r == Ok(Some(x)) <==> Sole(data, OnBill(q), x) && x.stopped == Some(false)
    ensures r == Ok(None) <==> forall s | s in data :: !OnBill(q)(s)
  {
    var matches: seq<Resource> := [];
    for i := 0 to |data|
      invariant matches == Filter(data[..i], OnBill(q))
      invariant forall s | s in matches :: s.Shipment? && s.stopped == Some(false)
    {
      assert data[..i + 1][..i] == data[..i];
      if OnBill(q)(data[i]) {
        if data[i].stopped != Some(false) {
          StoppedSpoils(data, q, i);
          return Review;
        }
        matches := matches + [data[i]];
      }
    }
    assert data[..|data|] == data;
    forall x ensures Sole(data, OnBill(q), x) <==> matches == [x] { FilterSole(data, OnBill(q), x); }
    FilterMembers(data, OnBill(q));
    if |matches| > 1 { assert matches[0] in matches; return Review; }
    if |matches| == 1 { assert matches[0] in matches; return Ok(Some(matches[0])); }
    return Ok(None);
  }

  lemma StoppedSpoils(data: seq<Resource>, q: Terms, i: nat)
    requires i < |data| && OnBill(q)(data[i]) && data[i].stopped != Some(false)
    ensures forall x :: !(Sole(data, OnBill(q), x) && x.stopped == Some(false))
    ensures data[i] in data
  {
    forall x | Sole(data, OnBill(q), x) ensures x == data[i] {
      var k :| SoleAt(data, OnBill(q), x, k);
    }
  }

  lemma {:induction false} FilterTwice<T>(s: seq<T>, p: T -> bool, o: T -> bool)
    requires forall x :: o(x) ==> p(x)
    ensures Filter(Filter(s, p), o) == Filter(s, o)
  {
    if s != [] {
      var n := |s| - 1;
      FilterTwice(s[..n], p, o);
      FilterConcat(Filter(s[..n], p), if p(s[n]) then [s[n]] else [], o);
      FilterSnoc([], s[n], o);
      assert [] + [s[n]] == [s[n]];
    }
  }
}
