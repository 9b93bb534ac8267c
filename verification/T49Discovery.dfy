/** Reading what a tracking request or a shipment resolved to: `resolve_request`,
    `resolve` and `discovery` of src/integrations/terminal49_client/initiation.py
    and shipments.py. */
module T49Discovery {
  import opened Outcomes
  import opened Sums
  import opened Counting
  import opened T49Choice

  // -------------------------------------------------- ISO container numbers

  /** ISO 6346 letter values omit multiples of eleven. */
  function CharValue(c: char): nat
    requires 'A' <= c <= 'Z' || '0' <= c <= '9'
  {
    if c <= '9' then c as int - '0' as int else
      var i := c as int - 'A' as int;
      10 + i + (i + 9) / 10
  }

  predicate NumberShaped(n: string) {
    && |n| == 11
    && (forall i | 0 <= i < 3 :: 'A' <= n[i] <= 'Z')
    && n[3] in ['U', 'J', 'Z']
    && (forall i | 4 <= i < 11 :: '0' <= n[i] <= '9')
  }

  /** The first `k` characters, weighted by powers of two. */
  function Weighted(n: string, k: nat): nat
    requires NumberShaped(n) && k <= 10
  {
    if k == 0 then 0 else Weighted(n, k - 1) + CharValue(n[k - 1]) * [1, 2, 4, 8, 16, 32, 64, 128, 256, 512][k - 1]
  }

  predicate ValidNumber(n: string) {
    NumberShaped(n) && Weighted(n, 10) % 11 % 10 == CharValue(n[10])
  }

  // -------------------------------------------------- what a request resolved to

  datatype Resolution = Reject | Fails | Waits | Names(shipment: string)

  predicate ToShipment(l: Link) { l.type_ == ShipmentType }

  function Agrees(q: Terms, r: Resource): bool {
    r.Request? && r.reference == q.reference && r.kind == Some(q.kind) && (q.scac == "" || r.scac == "" || r.scac == q.scac)
  }

  /** The container workflow looks at the shipments among the tracked objects. */
  function ResolveForContainer(q: Terms, r: Resource): Resolution {
    if !Agrees(q, r) then Reject
    else if r.dead then Fails
    else Single(Filter(r.tracked, ToShipment))
  }

  /** The shipment workflow accepts no other tracked object. */
  function ResolveForShipment(q: Terms, r: Resource): Resolution {
    if !Agrees(q, r) then Reject
    else if r.dead then Fails
    else if r.tracked != [] && (|r.tracked| != 1 || !ToShipment(r.tracked[0])) then Reject
    else Single(r.tracked)
  }

  function Single(links: seq<Link>): Resolution {
    if links == [] then Waits else if |links| == 1 then Names(links[0].id) else Reject
  }

  /** Whenever the stricter reading names a shipment, so does the other. */
  lemma ResolutionsAgree(q: Terms, r: Resource, id: string)
    requires ResolveForShipment(q, r) == Names(id)
    ensures ResolveForContainer(q, r) == Names(id)
  {
    assert r.tracked == [] + [r.tracked[0]];
    FilterSnoc([], r.tracked[0], ToShipment);
  }

  /** An answer of the provider, as a workflow step sees it: an ordinary error,
      a case for review, nothing found, or something found. */
  datatype Answer = Broken | Doubtful | Nothing | Hit(id: string, resolution: Resolution)

  // --------------------------------------------- the container of a shipment

  datatype ShipmentDoc = ShipmentDoc(primary: Resource, included: seq<Resource>, truncated: bool)

  function Known(doc: ShipmentDoc): Lookup { IndexOf([doc.primary] + doc.included) }

  function Candidates(doc: ShipmentDoc, q: Terms): set<Link> {
    set k | k in Known(doc) && Exact(q, Known(doc)[k])
  }

  predicate StoppedNow(doc: ShipmentDoc) { doc.primary.Shipment? && doc.primary.stopped == Some(true) }

  predicate BelongsTo(c: Resource, sid: string) {
    c.Container? && exists l :: l in c.shipments && l.id == sid
  }

  /** `cid` is the sole container of the requested number on a shipment that is
      not stopped, and itself names that shipment. */
  predicate TheContainer(doc: ShipmentDoc, q: Terms, sid: string, cid: string) {
    && !StoppedNow(doc) && Candidates(doc, q) == {Link(ContainerType, cid)}
    && BelongsTo(Known(doc)[Link(ContainerType, cid)], sid)
  }

  method ContainerOn(doc: ShipmentDoc, q: Terms, sid: string) returns (r: Answer)
    ensures forall cid :: TheContainer(doc, q, sid, cid) <==> r.Hit? && r.id == cid
    ensures r == Nothing <==> !StoppedNow(doc) && Candidates(doc, q) == {}
    ensures r.Hit? || r == Nothing || r == Doubtful
  {
    if StoppedNow(doc) { return Doubtful; }
    var m, cands := Known(doc), Candidates(doc, q);
    if cands == {} { return Nothing; }
    var k :| k in cands;
    assert k == KeyOf(m[k]) == Link(ContainerType, m[k].id);
    if cands - {k} != {} {
      var other :| other in cands - {k};
      return Doubtful;
    }
    assert cands == {k};
    var c := m[k];
    for i := 0 to |c.shipments|
      invariant forall j | 0 <= j < i :: c.shipments[j].id != sid
    {
      if c.shipments[i].id == sid {
        assert c.shipments[i] in c.shipments;
        return Hit(c.id, Waits);
      }
    }
    return Doubtful;
  }

  // -------------------------------------------------------------- discovery

  datatype Found = Found(containerId: string, number: string)

  datatype Discovered = Listing(shipment: string, containers: seq<Found>) | NeedsReview | Invalid

  predicate ShipmentFits(doc: ShipmentDoc, q: Terms) {
    && doc.primary.Shipment? && doc.primary.stopped == Some(false)
    && CarrierFits(q, doc.primary)
    && (q.kind.ByBill? ==> (if doc.primary.bill.Some? then doc.primary.bill.value else "") == q.reference)
    && |doc.primary.containers| <= 1000 && !doc.truncated
  }

  predicate LinkFits(m: Lookup, sid: string, l: Link) {
    && l.type_ == ContainerType && l in m && m[l].Container? && ValidNumber(m[l].number)
    && Link(ShipmentType, sid) in m[l].shipments
  }

  function FoundAt(m: Lookup): Link -> Found {
    (l: Link) => Found(l.id, if l in m && m[l].Container? then m[l].number else "")
  }

  predicate Distinct(fs: seq<Found>) {
    forall i, j | 0 <= i < j < |fs| :: fs[i].containerId != fs[j].containerId && fs[i].number != fs[j].number
  }

  /** Every listed container is known, valid, of this shipment, and listed once. */
  predicate DiscoveryAccepted(doc: ShipmentDoc, q: Terms) {
    && ShipmentFits(doc, q)
    && (forall i | 0 <= i < |doc.primary.containers| :: LinkFits(Known(doc), doc.primary.id, doc.primary.containers[i]))
    && Distinct(Map(FoundAt(Known(doc)), doc.primary.containers))
  }

  function IdsOf(fs: seq<Found>): set<string> { set k | 0 <= k < |fs| :: fs[k].containerId }

  function NumbersOf(fs: seq<Found>): set<string> { set k | 0 <= k < |fs| :: fs[k].number }

  /** The listed links before `i` are all fine. */
  predicate FineUpTo(m: Lookup, sid: string, links: seq<Link>, i: nat)
    requires i <= |links|
  {
    (forall k | 0 <= k < i :: LinkFits(m, sid, links[k])) && Distinct(Map(FoundAt(m), links)[..i])
  }

  /** The link names a known container, whose number is no container number. */
  predicate BadNumber(m: Lookup, l: Link) {
    l.type_ == ContainerType && l in m && m[l].Container? && !ValidNumber(m[l].number)
  }

  predicate BadNumberAt(m: Lookup, sid: string, links: seq<Link>, i: nat) {
    i < |links| && FineUpTo(m, sid, links, i) && BadNumber(m, links[i])
  }

  /** The first link that is not fine has an invalid number: this raises an
      ordinary error, every other refusal asks for review. */
  ghost predicate DiscoveryInvalid(doc: ShipmentDoc, q: Terms) {
    ShipmentFits(doc, q) && exists i: nat :: BadNumberAt(Known(doc), doc.primary.id, doc.primary.containers, i)
  }

  /** Nothing listed is dropped or reordered, and nothing is taken twice. */
  method Discover(doc: ShipmentDoc, q: Terms) returns (r: Discovered)
    ensures r.Listing? <==> DiscoveryAccepted(doc, q)
    ensures r.Invalid? <==> DiscoveryInvalid(doc, q)
    ensures r.Listing? ==> r.shipment == doc.primary.id && r.containers == Map(FoundAt(Known(doc)), doc.primary.containers)
  {
    hide Known, LinkFits, Distinct, Map, FineUpTo, BadNumberAt, DiscoveryAccepted;
    AcceptedIsFine(doc, q);
    if !ShipmentFits(doc, q) { return NeedsReview; }
    forall l | l in Known(doc) && l.type_ == ContainerType ensures Known(doc)[l].Container? { KnownKeys(doc, l); }
    r := ReadLinks(Known(doc), doc.primary.id, doc.primary.containers);
  }

  lemma AcceptedIsFine(doc: ShipmentDoc, q: Terms)
    ensures DiscoveryAccepted(doc, q) <==>
      ShipmentFits(doc, q) && FineUpTo(Known(doc), doc.primary.id, doc.primary.containers, |doc.primary.containers|)
  {
    hide Known, LinkFits, Distinct, ShipmentFits;
    if ShipmentFits(doc, q) {
      FitsIsShipment(doc, q);
      var all := Map(FoundAt(Known(doc)), doc.primary.containers);
      assert all[..|all|] == all;
    }
  }

  lemma FitsIsShipment(doc: ShipmentDoc, q: Terms)
    requires ShipmentFits(doc, q)
    ensures doc.primary.Shipment?
  {
  }

  /** The loop over the listed containers. */
  method ReadLinks(m: Lookup, sid: string, links: seq<Link>) returns (r: Discovered)
    requires forall l | l in m && l.type_ == ContainerType :: m[l].Container?
    ensures r.Listing? <==> FineUpTo(m, sid, links, |links|)
    ensures r.Invalid? <==> exists i: nat :: BadNumberAt(m, sid, links, i)
    ensures r.Listing? ==> r.shipment == sid && r.containers == Map(FoundAt(m), links)
  {
    hide ValidNumber, Distinct, LinkFits, Map, FineUpTo, BadNumberAt, IdsOf, NumbersOf;
    var result: seq<Found> := [];
    var numbers: set<string>, ids: set<string> := {}, {};
    ghost var all := Map(FoundAt(m), links);
    NothingYet(m, sid, links);
    for i := 0 to |links|
      invariant FineUpTo(m, sid, links, i)
      invariant result == all[..i] && ids == IdsOf(result) && numbers == NumbersOf(result)
    {
      var l := links[i];
      OneMoreLink(m, sid, links, i);
      if l.type_ != ContainerType || l !in m {
        StopsHere(m, sid, links, i);
        return NeedsReview;
      }
      var number := m[l].number;
      if !ValidNumber(number) {
        StopsHere(m, sid, links, i);
        return Invalid;
      }
      if l.id in ids || number in numbers || Link(ShipmentType, sid) !in m[l].shipments {
        StopsHere(m, sid, links, i);
        return NeedsReview;
      }
      ids, numbers := ids + {l.id}, numbers + {number};
      result := result + [Found(l.id, number)];
    }
    assert all[..|links|] == all;
    FineHasNoBadNumber(m, sid, links);
    return Listing(sid, result);
  }

  lemma NothingYet(m: Lookup, sid: string, links: seq<Link>)
    ensures FineUpTo(m, sid, links, 0)
    ensures Map(FoundAt(m), links)[..0] == [] && IdsOf([]) == {} && NumbersOf([]) == {}
  {
  }

  /** The tests of the loop body, for the link after a fine prefix. */
  predicate Fine(m: Lookup, sid: string, l: Link, before: seq<Found>) {
    && l.type_ == ContainerType && l in m && m[l].Container? && ValidNumber(m[l].number)
    && l.id !in IdsOf(before) && m[l].number !in NumbersOf(before) && Link(ShipmentType, sid) in m[l].shipments
  }

  lemma OneMoreLink(m: Lookup, sid: string, links: seq<Link>, i: nat)
    requires i < |links| && FineUpTo(m, sid, links, i)
    ensures var (l, all) := (links[i], Map(FoundAt(m), links));
      && (FineUpTo(m, sid, links, i + 1) <==> Fine(m, sid, l, all[..i]))
      && all[..i + 1] == all[..i] + [all[i]] && all[i] == FoundAt(m)(l)
      && IdsOf(all[..i + 1]) == IdsOf(all[..i]) + {all[i].containerId} && NumbersOf(all[..i + 1]) == NumbersOf(all[..i]) + {all[i].number}
  {
    hide ValidNumber, IdsOf, NumbersOf, Distinct;
    var all := Map(FoundAt(m), links);
    OneMore(all, i);
    if all[i].containerId in IdsOf(all[..i]) || all[i].number in NumbersOf(all[..i]) { StaysRepeated(all, i); }
  }

  lemma StaysRepeated(all: seq<Found>, i: nat)
    requires i < |all| && Distinct(all[..i])
    requires all[i].containerId in IdsOf(all[..i]) || all[i].number in NumbersOf(all[..i])
    ensures !Distinct(all[..i + 1])
  {
    OneMore(all[..i + 1], i);
    assert all[..i + 1][..i] == all[..i];
  }

  /** Where the prefix ends is the only place at which the list can be refused. */
  lemma StopsHere(m: Lookup, sid: string, links: seq<Link>, i: nat)
    requires i < |links| && FineUpTo(m, sid, links, i) && !FineUpTo(m, sid, links, i + 1)
    ensures !FineUpTo(m, sid, links, |links|)
    ensures (exists k: nat :: BadNumberAt(m, sid, links, k)) <==> BadNumber(m, links[i])
  {
    hide ValidNumber, Distinct, Map;
    forall k: nat | k <= |links| && FineUpTo(m, sid, links, k) ensures k <= i {
      if k > i { ShorterIsFine(m, sid, links, i + 1, k); }
    }
    forall k: nat | k < i ensures !BadNumber(m, links[k]) { assert LinkFits(m, sid, links[k]); }
    if BadNumber(m, links[i]) { assert BadNumberAt(m, sid, links, i); }
  }

  lemma ShorterIsFine(m: Lookup, sid: string, links: seq<Link>, i: nat, k: nat)
    requires i <= k <= |links| && FineUpTo(m, sid, links, k)
    ensures FineUpTo(m, sid, links, i)
  {
    var all := Map(FoundAt(m), links);
    assert forall x | 0 <= x < i :: all[..i][x] == all[..k][x];
  }

  lemma FineHasNoBadNumber(m: Lookup, sid: string, links: seq<Link>)
    requires FineUpTo(m, sid, links, |links|)
    ensures forall k: nat :: !BadNumberAt(m, sid, links, k)
  {
    forall k: nat | k < |links| ensures !BadNumber(m, links[k]) { assert LinkFits(m, sid, links[k]); }
  }

  lemma KnownKeys(doc: ShipmentDoc, l: Link)
    requires l in Known(doc)
    ensures KeyOf(Known(doc)[l]) == l
  {
  }

  /** Adding the next entry keeps a prefix distinct exactly if neither of its
      identities was seen; otherwise the whole list is not distinct. */
  lemma OneMore(all: seq<Found>, i: nat)
    requires i < |all| && Distinct(all[..i])
    ensures var seen := all[i].containerId in IdsOf(all[..i]) || all[i].number in NumbersOf(all[..i]);
      (seen ==> !Distinct(all)) && (!seen ==> Distinct(all[..i + 1]))
    ensures all[..i + 1] == all[..i] + [all[i]]
    ensures IdsOf(all[..i + 1]) == IdsOf(all[..i]) + {all[i].containerId}
    ensures NumbersOf(all[..i + 1]) == NumbersOf(all[..i]) + {all[i].number}
  {
    var s, t := all[..i], all[..i + 1];
    assert forall k | 0 <= k < i :: s[k] == all[k] == t[k];
    if all[i].containerId in IdsOf(s) {
      var k :| 0 <= k < |s| && s[k].containerId == all[i].containerId;
      assert all[k].containerId == all[i].containerId;
    } else if all[i].number in NumbersOf(s) {
      var k :| 0 <= k < |s| && s[k].number == all[i].number;
      assert all[k].number == all[i].number;
    }
    forall x ensures x in IdsOf(t) <==> x in IdsOf(s) + {all[i].containerId} {
      if x in IdsOf(s) { var k :| 0 <= k < |s| && s[k].containerId == x; assert t[k].containerId == x; }
      if x == all[i].containerId { assert t[i].containerId == x; }
    }
    forall x ensures x in NumbersOf(t) <==> x in NumbersOf(s) + {all[i].number} {
      if x in NumbersOf(s) { var k :| 0 <= k < |s| && s[k].number == x; assert t[k].number == x; }
      if x == all[i].number { assert t[i].number == x; }
    }
  }
}
