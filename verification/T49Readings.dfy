/** What the reading of provider documents amounts to, test by test: when a
    listed container counts as the requested one, when it is live, when a
    shipment has the container, and when a listing is complete. */
module T49Readings {
  import opened Outcomes
  import opened Sums
  import opened Counting
  import opened T49Choice
  import opened T49Discovery

  // ------------------------------------------------------------ the documents

  /** The last resource of the document with this type and identifier. */
  predicate Stands(rs: seq<Resource>, r: Resource) { exists i :: 0 <= i < |rs| && StandsAt(rs, r, i) }

  predicate StandsAt(rs: seq<Resource>, r: Resource, i: int) {
    0 <= i < |rs| && rs[i] == r && forall k | i < k < |rs| :: KeyOf(rs[k]) != KeyOf(r)
  }

  lemma {:induction false} IndexHoldsTheLast(rs: seq<Resource>, r: Resource)
    ensures Stands(rs, r) <==> KeyOf(r) in IndexOf(rs) && IndexOf(rs)[KeyOf(r)] == r
  {
    hide KeyOf;
    if rs != [] {
      IndexHoldsTheLast(rs[..|rs| - 1], r);
      LastStands(rs, r);
    }
  }

  lemma LastStands(rs: seq<Resource>, r: Resource)
    requires rs != []
    ensures var last := rs[|rs| - 1]; Stands(rs, r) <==> if KeyOf(last) == KeyOf(r) then last == r else Stands(rs[..|rs| - 1], r)
  {
    hide KeyOf;
    var n := |rs| - 1;
    if KeyOf(rs[n]) == KeyOf(r) {
      if rs[n] == r { assert StandsAt(rs, r, n); }
    } else {
      if i :| StandsAt(rs, r, i) { assert StandsAt(rs[..n], r, i); }
      if i :| StandsAt(rs[..n], r, i) { assert StandsAt(rs, r, i); }
    }
  }

  predicate IsShipmentWith(rs: seq<Resource>, s: Resource, id: string) { s.Shipment? && s.id == id && Stands(rs, s) }

  // --------------------------------------------------------- listed containers

  /** The container has this number and names one shipment, which the document knows. */
  predicate Sits(doc: Doc, q: Terms, c: Resource, s: Resource) {
    c.Container? && c.number == q.number && |c.shipments| == 1 && IsShipmentWith(doc.data + doc.included, s, c.shipments[0].id)
  }

  predicate OursByCarrier(q: Terms, s: Resource)
    requires s.Shipment?
  {
    q.scac == "" || q.scac == s.carrier
  }

  /** The shipment has the reference that was asked for: the bill of lading for
      a bill, the booking for a booking, and anything for a container. */
  predicate OursByReference(q: Terms, s: Resource)
    requires s.Shipment?
  {
    match q.kind
    case ByContainer => true
    case ByBill => s.bill == Some(q.reference)
    case ByBooking => s.booking == Some(q.reference)
  }

  predicate ReferenceKnown(q: Terms, s: Resource)
    requires s.Shipment?
  {
    match q.kind
    case ByContainer => true
    case ByBill => s.bill.Some?
    case ByBooking => s.booking.Some?
  }

  lemma ShipmentFound(doc: Doc, c: Resource)
    requires c.Container?
    ensures var o := ShipmentOf(Resources(doc), c);
      && (IsShipment(o) ==> |c.shipments| == 1 && IsShipmentWith(doc.data + doc.included, o.value, c.shipments[0].id))
      && forall s | |c.shipments| == 1 && IsShipmentWith(doc.data + doc.included, s, c.shipments[0].id) :: o == Some(s)
  {
    var rs, o := doc.data + doc.included, ShipmentOf(Resources(doc), c);
    if IsShipment(o) { IndexHoldsTheLast(rs, o.value); }
    forall s | |c.shipments| == 1 && IsShipmentWith(rs, s, c.shipments[0].id) ensures o == Some(s) { IndexHoldsTheLast(rs, s); }
  }

  /** A listed container passes exactly if it sits on a shipment of ours. */
  lemma PassesExactly(doc: Doc, q: Terms, c: Resource)
    ensures Passes(Resources(doc), q, c) <==> exists s :: Sits(doc, q, c, s) && OursByCarrier(q, s) && OursByReference(q, s)
  {
    hide Resources, Stands;
    if c.Container? { ShipmentFound(doc, c); }
    if Passes(Resources(doc), q, c) {
      var s := ShipmentOf(Resources(doc), c).value;
      assert Sits(doc, q, c, s) && OursByCarrier(q, s) && OursByReference(q, s);
    }
  }

  /** It is live exactly if that shipment is explicitly not stopped, and the
      container not returned. */
  lemma LiveExactly(doc: Doc, q: Terms, c: Resource)
    ensures Live(Resources(doc), q)(c) <==>
      exists s :: Sits(doc, q, c, s) && OursByCarrier(q, s) && OursByReference(q, s) && s.stopped == Some(false) && !c.returned
  {
    hide Resources, Stands;
    if c.Container? { ShipmentFound(doc, c); }
    PassesExactly(doc, q, c);
    if Passes(Resources(doc), q, c) {
      var s := ShipmentOf(Resources(doc), c).value;
      assert Sits(doc, q, c, s) && OursByCarrier(q, s) && OursByReference(q, s);
    }
  }

  /** A container of the number can be judged exactly if its shipment is known,
      and has the asked kind of reference unless the carrier is another one. */
  lemma JudgedExactly(doc: Doc, q: Terms, c: Resource)
    requires c.Container? && c.number == q.number
    ensures WellFormed(Resources(doc), q, c) <==> exists s :: Sits(doc, q, c, s) && (OursByCarrier(q, s) ==> ReferenceKnown(q, s))
  {
    hide Resources, Stands;
    ShipmentFound(doc, c);
    if WellFormed(Resources(doc), q, c) {
      var s := ShipmentOf(Resources(doc), c).value;
      assert Sits(doc, q, c, s) && (OursByCarrier(q, s) ==> ReferenceKnown(q, s));
    }
  }

  // ----------------------------------------------------- the container of a shipment

  /** A container of the number, as the shipment document has it. */
  predicate HasNumber(doc: ShipmentDoc, q: Terms, c: Resource) {
    c.Container? && c.number == q.number && Stands([doc.primary] + doc.included, c)
  }

  /** There is no candidate exactly if the document has no container of the number. */
  lemma NoCandidateExactly(doc: ShipmentDoc, q: Terms)
    ensures Candidates(doc, q) == {} <==> forall c :: !HasNumber(doc, q, c)
  {
    if k :| k in Candidates(doc, q) {
      IndexHoldsTheLast([doc.primary] + doc.included, Known(doc)[k]);
      assert HasNumber(doc, q, Known(doc)[k]);
    }
    forall c | HasNumber(doc, q, c) ensures KeyOf(c) in Candidates(doc, q) { IndexHoldsTheLast([doc.primary] + doc.included, c); }
  }

  /** The container is found exactly if the shipment is not stopped, and it is
      the only one of the number there and names the shipment. */
  lemma FoundExactly(doc: ShipmentDoc, q: Terms, sid: string, cid: string)
    ensures TheContainer(doc, q, sid, cid) <==>
      !(doc.primary.Shipment? && doc.primary.stopped == Some(true)) && exists c :: OnlyNumber(doc, q, c) && c.id == cid && NamesShipment(c, sid)
  {
    hide Candidates, OnlyNumber, Known;
    forall c | OnlyNumber(doc, q, c) && c.id == cid ensures Candidates(doc, q) == {KeyOf(c)} && KeyOf(c) in Known(doc) && Known(doc)[KeyOf(c)] == c && c.Container? {
      OnlyCandidate(doc, q, c);
    }
    if Candidates(doc, q) == {Link(ContainerType, cid)} { CandidateIsOnly(doc, q, Link(ContainerType, cid)); }
  }

  /** The document has this container and no other of the number. */
  predicate OnlyNumber(doc: ShipmentDoc, q: Terms, c: Resource) {
    HasNumber(doc, q, c) && forall d | d in [doc.primary] + doc.included && HasNumber(doc, q, d) :: d == c
  }

  predicate NamesShipment(c: Resource, sid: string)
    requires c.Container?
  {
    exists l :: l in c.shipments && l.id == sid
  }

  lemma OnlyCandidate(doc: ShipmentDoc, q: Terms, c: Resource)
    requires OnlyNumber(doc, q, c)
    ensures Candidates(doc, q) == {KeyOf(c)} && KeyOf(c) in Known(doc) && Known(doc)[KeyOf(c)] == c && c.Container?
  {
    hide Stands;
    var rs := [doc.primary] + doc.included;
    IndexHoldsTheLast(rs, c);
    forall k | k in Candidates(doc, q) ensures k == KeyOf(c) {
      IndexHoldsTheLast(rs, Known(doc)[k]);
      assert HasNumber(doc, q, Known(doc)[k]);
    }
  }

  lemma CandidateIsOnly(doc: ShipmentDoc, q: Terms, k: Link)
    requires Candidates(doc, q) == {k}
    ensures k in Known(doc) && OnlyNumber(doc, q, Known(doc)[k]) && KeyOf(Known(doc)[k]) == k
  {
    hide Stands;
    var rs := [doc.primary] + doc.included;
    assert k in Candidates(doc, q);
    IndexHoldsTheLast(rs, Known(doc)[k]);
    forall d | d in rs && HasNumber(doc, q, d) ensures d == Known(doc)[k] {
      IndexHoldsTheLast(rs, d);
      assert KeyOf(d) in Candidates(doc, q);
    }
  }

  // ------------------------------------------------------------------ listings

  /** A listing is taken exactly if the shipment is explicitly active and of our
      carrier and bill, is not cut off, and each link is to a known container
      with a valid number that names this shipment, no two of them alike. */
  lemma ListedExactly(doc: ShipmentDoc, q: Terms)
    ensures DiscoveryAccepted(doc, q) <==>
      && doc.primary.Shipment? && doc.primary.stopped == Some(false) && OursByCarrier(q, doc.primary)
      && (q.kind == ByBill ==> doc.primary.bill == Some(q.reference) || (doc.primary.bill.None? && q.reference == ""))
      && |doc.primary.containers| <= 1000 && !doc.truncated
      && (forall i | 0 <= i < |doc.primary.containers| :: AnyListed(doc, doc.primary.containers[i]))
      && DistinctLinks(doc)
  {
    hide Known, LinkFits, Distinct, IsListed, DistinctLinks, AnyListed;
    if doc.primary.Shipment? {
      forall i | 0 <= i < |doc.primary.containers|
        ensures LinkFits(Known(doc), doc.primary.id, doc.primary.containers[i]) <==> AnyListed(doc, doc.primary.containers[i])
      {
        LinkExactly(doc, doc.primary.containers[i]);
      }
      if forall i | 0 <= i < |doc.primary.containers| :: AnyListed(doc, doc.primary.containers[i]) { DistinctExactly(doc); }
    }
  }

  lemma DistinctExactly(doc: ShipmentDoc)
    requires doc.primary.Shipment? && forall i | 0 <= i < |doc.primary.containers| :: AnyListed(doc, doc.primary.containers[i])
    ensures Distinct(Map(FoundAt(Known(doc)), doc.primary.containers)) <==> DistinctLinks(doc)
  {
    hide Known, IsListed;
    var links, fs := doc.primary.containers, Map(FoundAt(Known(doc)), doc.primary.containers);
    forall i, c | 0 <= i < |links| && IsListed(doc, links[i], c) ensures c.Container? && fs[i] == Found(c.id, c.number) {
      LinkExactly(doc, links[i]);
      ListedIsContainer(doc, links[i], c);
    }
    if DistinctLinks(doc) {
      forall i, j | 0 <= i < j < |fs| ensures fs[i].containerId != fs[j].containerId && fs[i].number != fs[j].number {
        assert AnyListed(doc, links[i]) && AnyListed(doc, links[j]);
        var c :| IsListed(doc, links[i], c);
        var d :| IsListed(doc, links[j], d);
        assert Unlike(c, d);
      }
    }
    if Distinct(fs) {
      forall i, j, c, d | 0 <= i < j < |links| && IsListed(doc, links[i], c) && IsListed(doc, links[j], d) ensures Unlike(c, d) {
        assert fs[i].containerId != fs[j].containerId;
      }
    }
  }

  lemma ListedIsContainer(doc: ShipmentDoc, l: Link, c: Resource)
    requires IsListed(doc, l, c)
    ensures c.Container?
  {
  }

  predicate Unlike(c: Resource, d: Resource) { c.Container? && d.Container? && c.id != d.id && c.number != d.number }

  ghost predicate AnyListed(doc: ShipmentDoc, l: Link)
    requires doc.primary.Shipment?
  {
    exists c :: IsListed(doc, l, c)
  }

  predicate IsListed(doc: ShipmentDoc, l: Link, c: Resource) {
    && l == Link(ContainerType, c.id) && c.Container? && Stands([doc.primary] + doc.included, c)
    && ValidNumber(c.number) && Link(ShipmentType, doc.primary.id) in c.shipments
  }

  ghost predicate DistinctLinks(doc: ShipmentDoc)
    requires doc.primary.Shipment?
  {
    forall i, j, c, d | 0 <= i < j < |doc.primary.containers|
      && IsListed(doc, doc.primary.containers[i], c) && IsListed(doc, doc.primary.containers[j], d) :: Unlike(c, d)
  }

  lemma LinkExactly(doc: ShipmentDoc, l: Link)
    requires doc.primary.Shipment?
    ensures LinkFits(Known(doc), doc.primary.id, l) <==> AnyListed(doc, l)
    ensures forall c | IsListed(doc, l, c) :: FoundAt(Known(doc))(l) == Found(c.id, c.number)
  {
    hide ValidNumber, Stands;
    var rs := [doc.primary] + doc.included;
    if LinkFits(Known(doc), doc.primary.id, l) {
      IndexHoldsTheLast(rs, Known(doc)[l]);
      assert IsListed(doc, l, Known(doc)[l]);
    }
    forall c | IsListed(doc, l, c) ensures l in Known(doc) && Known(doc)[l] == c { IndexHoldsTheLast(rs, c); }
  }

  /** A link to a known container whose number is no container number. */
  predicate IsMisnumbered(doc: ShipmentDoc, l: Link, c: Resource) {
    l == Link(ContainerType, c.id) && c.Container? && Stands([doc.primary] + doc.included, c) && !ValidNumber(c.number)
  }

  /** A listing fails as an ordinary error only if it has such a link, and does
      so if such a link comes first. */
  lemma MisnumberedListing(doc: ShipmentDoc, q: Terms)
    ensures DiscoveryInvalid(doc, q) ==> ShipmentFits(doc, q) && AnyMisnumbered(doc)
    ensures ShipmentFits(doc, q) && FirstMisnumbered(doc) ==> DiscoveryInvalid(doc, q)
  {
    hide ShipmentFits, BadNumberAt, AnyMisnumbered;
    if DiscoveryInvalid(doc, q) {
      FitsIsShipment(doc, q);
      var i: nat :| BadNumberAt(Known(doc), doc.primary.id, doc.primary.containers, i);
      BadIsMisnumbered(doc, i);
    }
    if ShipmentFits(doc, q) && FirstMisnumbered(doc) { FirstIsBad(doc); }
  }

  ghost predicate AnyMisnumbered(doc: ShipmentDoc) {
    doc.primary.Shipment? && exists i, c :: 0 <= i < |doc.primary.containers| && IsMisnumbered(doc, doc.primary.containers[i], c)
  }

  ghost predicate FirstMisnumbered(doc: ShipmentDoc) {
    doc.primary.Shipment? && doc.primary.containers != [] && exists c :: IsMisnumbered(doc, doc.primary.containers[0], c)
  }

  lemma BadIsMisnumbered(doc: ShipmentDoc, i: nat)
    requires doc.primary.Shipment? && BadNumberAt(Known(doc), doc.primary.id, doc.primary.containers, i)
    ensures AnyMisnumbered(doc)
  {
    hide ValidNumber, Stands, FineUpTo;
    var l := doc.primary.containers[i];
    IndexHoldsTheLast([doc.primary] + doc.included, Known(doc)[l]);
    assert IsMisnumbered(doc, l, Known(doc)[l]);
  }

  lemma FirstIsBad(doc: ShipmentDoc)
    requires FirstMisnumbered(doc)
    ensures BadNumberAt(Known(doc), doc.primary.id, doc.primary.containers, 0)
  {
    hide ValidNumber, Stands, FineUpTo;
    var l := doc.primary.containers[0];
    var c :| IsMisnumbered(doc, l, c);
    IndexHoldsTheLast([doc.primary] + doc.included, c);
    NothingYet(Known(doc), doc.primary.id, doc.primary.containers);
  }

  // --------------------------------------------------------- container numbers

  /** The values of the letters, with the multiples of eleven left out. */
  const LETTERS: seq<nat> := [10, 12, 13, 14, 15, 16, 17, 18, 19, 20, 21, 23, 24, 25, 26, 27, 28, 29, 30, 31, 32, 34, 35, 36, 37, 38]

  lemma LetterValues(i: nat)
    requires i < 26
    ensures CharValue('A' + i as char) == LETTERS[i] && LETTERS[i] % 11 != 0
  {
  }

  /** The check sum, written out. */
  lemma CheckSum(n: string)
    requires NumberShaped(n)
    ensures Weighted(n, 10) ==
      CharValue(n[0]) + 2 * CharValue(n[1]) + 4 * CharValue(n[2]) + 8 * CharValue(n[3]) + 16 * CharValue(n[4])
      + 32 * CharValue(n[5]) + 64 * CharValue(n[6]) + 128 * CharValue(n[7]) + 256 * CharValue(n[8]) + 512 * CharValue(n[9])
  {
    hide CharValue;
    var w := [1, 2, 4, 8, 16, 32, 64, 128, 256, 512];
    forall k | 0 < k <= 10 ensures Weighted(n, k) == Weighted(n, k - 1) + CharValue(n[k - 1]) * w[k - 1] { }
    assert w[0] == 1 && w[1] == 2 && w[2] == 4 && w[3] == 8 && w[4] == 16 && w[5] == 32 && w[6] == 64 && w[7] == 128 && w[8] == 256 && w[9] == 512;
    assert Weighted(n, 1) == CharValue(n[0]);
    assert Weighted(n, 2) == CharValue(n[0]) + 2 * CharValue(n[1]);
    assert Weighted(n, 3) == Weighted(n, 2) + 4 * CharValue(n[2]);
    assert Weighted(n, 4) == Weighted(n, 3) + 8 * CharValue(n[3]);
    assert Weighted(n, 5) == Weighted(n, 4) + 16 * CharValue(n[4]);
    assert Weighted(n, 6) == Weighted(n, 5) + 32 * CharValue(n[5]);
    assert Weighted(n, 7) == Weighted(n, 6) + 64 * CharValue(n[6]);
    assert Weighted(n, 8) == Weighted(n, 7) + 128 * CharValue(n[7]);
    assert Weighted(n, 9) == Weighted(n, 8) + 256 * CharValue(n[8]);
  }

  /** The first ten characters decide the last one. */
  lemma OneCheckDigit(n: string, m: string)
    requires ValidNumber(n) && ValidNumber(m) && n[..10] == m[..10]
    ensures n == m
  {
    hide Weighted;
    forall i | 0 <= i < 10 ensures n[i] == m[i] { assert n[..10][i] == m[..10][i]; }
    SameSum(n, m, 10);
    assert n[10] == m[10];
  }

  lemma {:induction false} SameSum(n: string, m: string, k: nat)
    requires NumberShaped(n) && NumberShaped(m) && k <= 10 && forall i | 0 <= i < 10 :: n[i] == m[i]
    ensures Weighted(n, k) == Weighted(m, k)
  {
    hide CharValue;
    if k > 0 { SameSum(n, m, k - 1); }
  }
}
