/** From what a step reads to what the attempt comes to: each question of the
    workflows, answered. */
module T49Endings {
  import opened Outcomes
  import opened Sums
  import opened Counting
  import opened T49Choice
  import opened T49Discovery
  import opened T49Tables
  import opened T49Machine
  import opened T49Invariant
  import opened T49Store
  import opened T49Outcomes
  import opened T49Inputs

  /** An attempt that raises leaves its row to the handlers. */
  lemma Raises(t: Tables, who: Owner, op: Op, e: End)
    ensures e.mappings == t.mappings && e.op == Handled(Refused, Some(op)) ==> ForReview(AroundOf(t, who), op, e)
    ensures e.mappings == t.mappings && e.op == Handled(Broke, Some(op)) ==> PutOff(AroundOf(t, who), op, e)
  {
  }

  /** A change of the operation's own row changes nothing around it. */
  lemma SameAround(t: Tables, u: Tables, who: Owner)
    requires u.company == t.company && u.mappings == t.mappings
    requires forall other | other != who :: OpOf(u, other) == OpOf(t, other)
    ensures AroundOf(u, who) == AroundOf(t, who)
  {
    forall o | o != who.odooId || who.Box?
      ensures (o in u.freights <==> o in t.freights) && (o in t.freights ==> u.freights[o] == t.freights[o])
    {
      assert OpOf(u, Freight(o)) == OpOf(t, Freight(o));
    }
  }

  /** What a request is read as. */
  lemma ReadAs(who: Owner, q: Terms, r: Resource)
    ensures var res := ResolveFor(who, q, r);
      if !Fits(q, r) then res == Reject
      else if r.dead then res == Fails
      else if TracksNone(who, r) then res == Waits
      else (res == Reject || res.Names?) && forall sid :: TracksOne(who, r, sid) <==> res == Names(sid)
  {
    if Fits(q, r) && !r.dead && who.Box? { ShipmentsAmong(who, r); }
  }

  /** The shipments among the tracked objects. */
  lemma ShipmentsAmong(who: Owner, r: Resource)
    requires r.Request? && who.Box?
    ensures var ls := Filter(r.tracked, ToShipment);
      && (ls == [] <==> TracksNone(who, r))
      && forall sid :: TracksOne(who, r, sid) <==> |ls| == 1 && ls[0].id == sid
  {
    var ls := Filter(r.tracked, ToShipment);
    FilterMembers(r.tracked, ToShipment);
    if ls != [] { assert ls[0] in ls; }
    forall sid ensures TracksOne(who, r, sid) <==> |ls| == 1 && ls[0].id == sid {
      var l := Link(ShipmentType, sid);
      FilterSole(r.tracked, ToShipment, l);
      if |ls| == 1 && ls[0].id == sid {
        assert ls[0] in ls && ls == [l];
        var i :| SoleAt(r.tracked, ToShipment, l, i);
        assert NoOther(r.tracked, i);
      }
      if i :| 0 <= i < |r.tracked| && r.tracked[i] == l && NoOther(r.tracked, i) {
        assert SoleAt(r.tracked, ToShipment, l, i);
      }
    }
  }

  /** How a judged request ends does not depend on how it was read. */
  lemma JudgedAsRead(w: Around, who: Owner, op: Op, r: Resource, o: Outside, e: End)
    requires ResolvedEnds(w, who, op, ResolveFor(who, op.terms, r), o, e)
    ensures JudgedEnds(w, who, op, r, o, e)
  {
    hide ShipmentEnds, ForReview, EndsAs, ResolveFor, TracksOne, TracksNone, Fits;
    ReadAs(who, op.terms, r);
  }

  // -------------------------------------------------------- the provider's lists

  lemma OwnFits(q: Terms, marker: string, x: Resource)
    ensures Matches(q)(x) <==> Fits(q, x)
    ensures Own(q, marker)(x) <==> Ours(q, marker, x)
  {
    assert Own(q, marker)(x) <==> Matches(q)(x) && marker in x.markers;
  }

  lemma PickedIsChosen(data: seq<Resource>, q: Terms, marker: string, i: nat)
    requires i < |data| && PickedAt(data, q, marker, i)
    ensures Chosen(data, q, marker, data[i])
  {
    hide Fits, Matches, Own;
    forall k | 0 <= k < |data|
      ensures Matches(q)(data[k]) <==> Fits(q, data[k])
      ensures Own(q, marker)(data[k]) <==> Ours(q, marker, data[k])
    {
      OwnFits(q, marker, data[k]);
    }
    if Ours(q, marker, data[i]) { assert SoleAt(data, Own(q, marker), data[i], i); }
    else { assert SoleAt(data, Matches(q), data[i], i); }
  }

  lemma ChosenIsPicked(data: seq<Resource>, q: Terms, marker: string, x: Resource) returns (i: nat)
    requires Chosen(data, q, marker, x)
    ensures i < |data| && data[i] == x && PickedAt(data, q, marker, i)
  {
    hide Matches, Own;
    forall k | 0 <= k < |data|
      ensures Matches(q)(data[k]) <==> Fits(q, data[k])
      ensures Own(q, marker)(data[k]) <==> Ours(q, marker, data[k])
    {
      OwnFits(q, marker, data[k]);
    }
    OwnFits(q, marker, x);
    if Sole(data, Own(q, marker), x) {
      i :| SoleAt(data, Own(q, marker), x, i);
    } else {
      i :| SoleAt(data, Matches(q), x, i);
    }
  }

  /** What the worker does with an answer to the list of requests. */
  ghost predicate ListedEnds(w: Around, ps: seq<Post>, who: Owner, row: Op, answer: Answer, o: Outside, e: End, otherwise: bool) {
    match answer
    case Broken => e.posts == ps && PutOff(w, row, e)
    case Doubtful => e.posts == ps && ForReview(w, row, e)
    case Nothing => otherwise
    case Hit(id, res) => e.posts == ps && ResolvedEnds(w, who, Joins(row, id), res, o, e)
  }

  lemma RequestsRead(w: Around, ps: seq<Post>, who: Owner, row: Op, answer: Answer, o: Outside, e: End, otherwise: bool)
    requires FromRequests(o.requests, who, row.terms, o.marker, answer) && ListedEnds(w, ps, who, row, answer, o, e, otherwise)
    ensures RequestsEnd(w, ps, who, row, o, e, otherwise)
  {
    hide ResolvedEnds, JudgedEnds, ForReview, PutOff, ResolveFor, PickedAt, Chosen, Matches;
    if o.requests.Some? {
      var data, q := o.requests.value, row.terms;
      AllFit(data, q);
      forall i: nat | i < |data| && PickedAt(data, q, o.marker, i)
        ensures answer.Hit? && e.posts == ps && JudgedEnds(w, who, Joins(row, data[i].id), data[i], o, e)
      {
        PickedIsChosen(data, q, o.marker, i);
        var x :| Chosen(data, q, o.marker, x) && answer == Hit(x.id, ResolveFor(who, q, x));
        ChosenIsOne(data, q, o.marker, x, data[i]);
        JudgedAsRead(w, who, Joins(row, x.id), x, o, e);
      }
      if answer.Hit? {
        var x :| Chosen(data, q, o.marker, x);
        var i := ChosenIsPicked(data, q, o.marker, x);
      }
    }
  }

  lemma AllFit(data: seq<Resource>, q: Terms)
    ensures (forall x | x in data :: !Matches(q)(x)) <==> !exists x :: x in data && Fits(q, x)
  {
    forall x ensures Matches(q)(x) <==> Fits(q, x) { }
  }

  /** What the worker does with an answer to the list of containers. */
  ghost predicate NumberEnds(t: Tables, ps: seq<Post>, who: Owner, row: Op, answer: Answer, o: Outside, e: End) {
    var w := AroundOf(t, who);
    match answer
    case Broken => e.posts == ps && PutOff(w, row, e)
    case Doubtful => e.posts == ps && ForReview(w, row, e)
    case Nothing => RequestsEnd(w, ps, who, row, o, e, NoRequestEnds(t, ps, who, row, o, e))
    case Hit(id, _) => e.posts == ps && BoxLinked(w, who.odooId, row, id, e)
  }

  lemma ContainersRead(t: Tables, ps: seq<Post>, who: Owner, row: Op, answer: Answer, o: Outside, e: End)
    requires who.Box? && FromContainers(o.containers, row.terms, answer) && NumberEnds(t, ps, who, row, answer, o, e)
    ensures ContainersEnd(t, ps, who.odooId, row, o, e)
  {
    hide BoxLinked, ForReview, PutOff, RequestsEnd, NoRequestEnds, Judgeable, NonePasses, OneLive, AroundOf;
    assert who == Box(who.odooId);
    if o.containers.Some? {
      forall id | Judgeable(o.containers.value, row.terms) && OneLive(o.containers.value, row.terms, id) ensures answer == Hit(id, Waits) { }
      if answer.Hit? { assert answer == Hit(answer.id, Waits); }
    }
  }

  lemma BillFits(q: Terms, s: Resource)
    ensures OnBill(q)(s) <==> ForBill(q, s)
  {
  }

  /** What the worker does with an answer to the list of shipments. */
  ghost predicate BillEnds(w: Around, ps: seq<Post>, who: Owner, row: Op, answer: Answer, o: Outside, e: End) {
    match answer
    case Broken => e.posts == ps && PutOff(w, row, e)
    case Doubtful => e.posts == ps && ForReview(w, row, e)
    case Nothing => GateEnds(w, ps, who, row, o, e)
    case Hit(id, _) => e.posts == ps && ShipmentEnds(w, who, row, id, o.shipment, e)
  }

  lemma ShipmentsRead(w: Around, ps: seq<Post>, who: Owner, row: Op, answer: Answer, o: Outside, e: End)
    requires FromShipments(o.shipments, row.terms, answer) && BillEnds(w, ps, who, row, answer, o, e)
    ensures ShipmentsEnd(w, ps, who, row, o, e)
  {
    hide ShipmentEnds, GateEnds, ForReview, PutOff, OnBill;
    if o.shipments.Some? {
      var data, q := o.shipments.value, row.terms;
      forall k | 0 <= k < |data| ensures OnBill(q)(data[k]) <==> ForBill(q, data[k]) { BillFits(q, data[k]); }
      forall x ensures Sole(data, OnBill(q), x) <==> exists i: nat :: OnlyForBill(data, q, i) && data[i] == x {
        if Sole(data, OnBill(q), x) {
          var i :| SoleAt(data, OnBill(q), x, i);
          assert OnlyForBill(data, q, i);
        }
        if i: nat :| OnlyForBill(data, q, i) && data[i] == x { assert SoleAt(data, OnBill(q), x, i); }
      }
      NoneOnBill(data, q);
      forall i: nat | ActiveForBill(data, q, i)
        ensures answer.Hit? && answer.id == data[i].id
      {
        assert Sole(data, OnBill(q), data[i]);
        var x :| Sole(data, OnBill(q), x) && answer.id == x.id;
        SoleIsOne(data, OnBill(q), x, data[i]);
      }
      if answer.Hit? {
        var x :| Sole(data, OnBill(q), x) && x.Shipment? && x.stopped == Some(false);
        var i: nat :| OnlyForBill(data, q, i) && data[i] == x;
        assert ActiveForBill(data, q, i);
      }
    }
  }

  lemma NoneOnBill(data: seq<Resource>, q: Terms)
    ensures (forall s | s in data :: !OnBill(q)(s)) <==> forall i | 0 <= i < |data| :: !ForBill(q, data[i])
  {
    forall s ensures OnBill(q)(s) <==> ForBill(q, s) { BillFits(q, s); }
    if forall s | s in data :: !OnBill(q)(s) {
      forall i | 0 <= i < |data| ensures !ForBill(q, data[i]) { assert data[i] in data; }
    }
  }

  // ------------------------------------------------------------ the shipment

  /** What the worker does with an answer about the shipment. */
  ghost predicate LookedEnds(w: Around, who: Owner, op: Op, sid: string, answer: Answer, e: End) {
    match answer
    case Broken => PutOff(w, op, e)
    case Doubtful => ForReview(w, op, e)
    case Nothing => EndsAs(w, op, Pending, e)
    case Hit(id, _) =>
      if who.Box? then BoxLinked(w, who.odooId, op, id, e)
      else if id != sid then ForReview(w, op, e)
      else FreightLinked(w, op, id, e)
  }

  lemma ShipmentRead(w: Around, who: Owner, op: Op, sid: string, answer: Answer, doc: Option<ShipmentDoc>, e: End)
    requires FromShipment(doc, who, op.terms, sid, answer) && LookedEnds(w, who, op, sid, answer, e)
    ensures ShipmentEnds(w, who, op, sid, doc, e)
  {
    hide BoxLinked, FreightLinked, ForReview, PutOff, EndsAs, StoppedNow, Candidates, DiscoveryAccepted, DiscoveryInvalid, TheContainer;
    if doc.Some? && who.Box? {
      StoppedHasNone(doc.value, op.terms, sid);
      if answer.Hit? { assert TheContainer(doc.value, op.terms, sid, answer.id); }
    }
  }

  lemma StoppedHasNone(doc: ShipmentDoc, q: Terms, sid: string)
    ensures StoppedNow(doc) || Candidates(doc, q) == {} ==> forall cid :: !TheContainer(doc, q, sid, cid)
  {
  }

  // ------------------------------------------------ the other workflow's rows

  /** What the worker makes of the other table. */
  ghost predicate FoundEnds(w: Around, ps: seq<Post>, who: Owner, row: Op, found: Outcome<Option<string>>, o: Outside, e: End, otherwise: bool) {
    match found
    case Review => e.posts == ps && ForReview(w, row, e)
    case Ok(None) => otherwise
    case Ok(Some(id)) => e.posts == ps && FetchEnds(w, who, if who.Box? then Joins(row, id) else row, id, o, e)
  }

  lemma FreightsRead(t: Tables, ps: seq<Post>, odooId: int, row: Op, o: Outside, e: End, otherwise: bool)
    requires KeysOk(t)
    requires FoundEnds(AroundOf(t, Box(odooId)), ps, Box(odooId), row, OtherRequest(t, Box(odooId), row.terms), o, e, otherwise)
    ensures FreightsEnd(t, ps, odooId, row, o, e, otherwise)
  {
    hide FetchEnds, ForReview, AroundOf, Submissions, Joined, RequestIds;
    var q := row.terms;
    FreightJoined(t, q);
  }

  /** At most one shipment row uses a reference; its request is the one to join. */
  lemma FreightJoined(t: Tables, q: Terms)
    requires KeysOk(t)
    ensures var rows := Submissions(t, q);
      if forall f | f in t.freights :: !Uses(t.freights[f], q) then Joined(rows, RequestIds(t.freights, rows)) == Ok(None)
      else forall f | f in t.freights && Uses(t.freights[f], q) ::
        Joined(rows, RequestIds(t.freights, rows)) == if t.freights[f].requestId.None? then Review else Ok(t.freights[f].requestId)
  {
    var rows := Submissions(t, q);
    assert forall f :: f in rows <==> f in t.freights && Uses(t.freights[f], q);
    if forall f | f in t.freights :: !Uses(t.freights[f], q) {
      assert rows == {};
      assert RequestIds(t.freights, rows) == {};
    }
    forall f | f in t.freights && Uses(t.freights[f], q)
      ensures Joined(rows, RequestIds(t.freights, rows)) == if t.freights[f].requestId.None? then Review else Ok(t.freights[f].requestId)
    {
      assert rows == {f} by {
        forall g | g in rows ensures g == f { assert SameReference(t.freights[g].terms, t.freights[f].terms); }
      }
      OnlyRow(t.freights, rows, f);
    }
  }

  /** One row names at most its own request. */
  lemma OnlyRow(ops: map<int, Op>, rows: set<int>, f: int)
    requires rows == {f} && f in ops
    ensures Joined(rows, RequestIds(ops, rows)) == if ops[f].requestId.None? then Review else Ok(ops[f].requestId)
  {
    var ids := RequestIds(ops, rows);
    assert ids == if ops[f].requestId.Some? then {ops[f].requestId.value} else {};
  }

  lemma BoxesRead(t: Tables, ps: seq<Post>, odooId: int, row: Op, o: Outside, e: End, otherwise: bool)
    requires FoundEnds(AroundOf(t, Freight(odooId)), ps, Freight(odooId), row, OtherRequest(t, Freight(odooId), row.terms), o, e, otherwise)
    ensures BoxesEnd(t, ps, odooId, row, o, e, otherwise)
  {
    hide FetchEnds, ForReview, AroundOf, Legacy, RequestIds, SeveralIds;
    var ids := RequestIds(t.boxes, Legacy(t, row.terms));
    BoxJoined(t, row.terms, ids);
    if ids != {} {
      var b, id :| b in t.boxes && UsesId(t.boxes[b], row.terms, id);
      assert Uses(t.boxes[b], row.terms);
      if |ids| <= 1 {
        JoinsOne(Legacy(t, row.terms), ids, id);
        forall c, x | c in t.boxes && UsesId(t.boxes[c], row.terms, x) ensures x == id { assert x in ids; }
      }
    }
  }

  lemma BoxJoined(t: Tables, q: Terms, ids: set<string>)
    requires ids == RequestIds(t.boxes, Legacy(t, q))
    ensures Legacy(t, q) == {} <==> forall b | b in t.boxes :: !Uses(t.boxes[b], q)
    ensures ids == {} <==> forall b | b in t.boxes && Uses(t.boxes[b], q) :: t.boxes[b].requestId.None?
    ensures ids != {} ==> exists b, id :: b in t.boxes && UsesId(t.boxes[b], q, id)
    ensures |ids| > 1 <==> SeveralIds(t, q)
    ensures forall b, id | b in t.boxes && UsesId(t.boxes[b], q, id) :: id in ids && (|ids| <= 1 ==> ids == {id})
  {
    RequestsUsed(t, q, ids);
    LegacyUses(t, q);
    forall b, id | b in t.boxes && UsesId(t.boxes[b], q, id) ensures id in ids && (|ids| <= 1 ==> ids == {id}) {
      if |ids| <= 1 { SoleMember(ids, id); }
    }
  }

  lemma JoinsOne(rows: set<int>, ids: set<string>, id: string)
    requires ids == {id}
    ensures Joined(rows, ids) == Ok(Some(id))
  {
  }

  lemma LegacyUses(t: Tables, q: Terms)
    ensures Legacy(t, q) == {} <==> forall b | b in t.boxes :: !Uses(t.boxes[b], q)
  {
    var rows := Legacy(t, q);
    assert forall b :: b in rows <==> b in t.boxes && Uses(t.boxes[b], q);
    if forall b | b in t.boxes :: !Uses(t.boxes[b], q) { assert rows == {}; }
    else {
      var b :| b in t.boxes && Uses(t.boxes[b], q);
      assert b in rows;
    }
  }

  /** The requests that the container rows of a reference use. */
  lemma RequestsUsed(t: Tables, q: Terms, ids: set<string>)
    requires ids == RequestIds(t.boxes, Legacy(t, q))
    ensures forall id :: id in ids <==> exists b :: b in t.boxes && UsesId(t.boxes[b], q, id)
    ensures ids == {} <==> forall b | b in t.boxes && Uses(t.boxes[b], q) :: t.boxes[b].requestId.None?
    ensures |ids| > 1 <==> SeveralIds(t, q)
  {
    forall b | b in t.boxes && Uses(t.boxes[b], q) && t.boxes[b].requestId.Some? ensures t.boxes[b].requestId.value in ids {
      assert b in Legacy(t, q);
    }
    forall id | id in ids ensures exists b :: b in t.boxes && UsesId(t.boxes[b], q, id) {
      var b :| b in Legacy(t, q) && b in t.boxes && t.boxes[b].requestId == Some(id);
      assert UsesId(t.boxes[b], q, id);
    }
    if SeveralIds(t, q) {
      var b, c :| b in t.boxes && c in t.boxes && Uses(t.boxes[b], q) && Uses(t.boxes[c], q)
        && t.boxes[b].requestId.Some? && t.boxes[c].requestId.Some? && t.boxes[b].requestId != t.boxes[c].requestId;
      TwoIn(ids, t.boxes[b].requestId.value, t.boxes[c].requestId.value);
    } else {
      forall x, y | x in ids && y in ids ensures x == y {
        var b :| b in t.boxes && UsesId(t.boxes[b], q, x);
        var c :| c in t.boxes && UsesId(t.boxes[c], q, y);
      }
      AtMostOneIn(ids);
    }
  }

  lemma TwoIn<T>(s: set<T>, x: T, y: T)
    requires x in s && y in s && x != y
    ensures |s| > 1
  {
    assert |s - {x}| == |s| - 1 && y in s - {x};
  }

  lemma AtMostOneIn<T>(s: set<T>)
    requires forall x, y | x in s && y in s :: x == y
    ensures |s| <= 1
  {
    if x :| x in s { assert s == {x}; }
  }
}
