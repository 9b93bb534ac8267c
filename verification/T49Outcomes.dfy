/** What one attempt at an operation comes to, said as the workflows promise it
    and without the steps that lead there
    (src/integrations/terminal49_client/initiation.py:93-184 and
    shipments.py:138-211): which request it judges, which status, ids and
    mapping it leaves, and when it sends a POST. */
module T49Outcomes {
  import opened Outcomes
  import opened Counting
  import opened T49Choice
  import opened T49Discovery
  import opened T49Tables
  import opened T49Machine
  import opened T49Store

  /** Which database call, or the POST, fails and how. */
  datatype Faults = Faults(other: Db, claim: Db, post: Db, save: Db, bind: Db, settle: Db, link: Db, handler: Db)

  /** None is an error of the request. */
  datatype Outside = Outside(
    containers: Option<Doc>, requests: Option<seq<Resource>>, shipments: Option<seq<Resource>>,
    request: Option<Resource>, created: Option<Resource>, shipment: Option<ShipmentDoc>,
    marker: string, faults: Faults, now: int)

  /** Everything that is written commits. */
  predicate Smooth(f: Faults) { f == Faults(Commits, Commits, Commits, Commits, Commits, Commits, Commits, Commits) }

  // ------------------------------------------------------------- how it ends

  /** The operation's row, the mappings and the POSTs when the attempt is over. */
  datatype End = End(op: Option<Op>, mappings: map<Slot, Mapping>, posts: seq<Post>)

  /** What else an attempt meets: the mappings, and the shipments linked elsewhere. */
  datatype Around = Around(company: int, mappings: map<Slot, Mapping>, taken: set<string>)

  function AroundOf(t: Tables, who: Owner): Around {
    Around(t.company, t.mappings, set o | o in t.freights && o != who.odooId && t.freights[o].link.Some? :: t.freights[o].link.value)
  }

  /** What the `except` clauses make of the row. */
  function Handled(r: Reply, op: Option<Op>): Option<Op> {
    if op.None? then op else
      match r
      case Fine => op
      case Refused => Some(op.value.(status := Attention, attempts := 0))
      case Broke => Some(op.value.(attempts := op.value.attempts + 1, status := if op.value.attempts >= 7 then Attention else op.value.status))
  }

  predicate EndsAs(w: Around, op: Op, status: Status, e: End) { e.op == Some(op.(status := status, attempts := 0)) && e.mappings == w.mappings }

  predicate ForReview(w: Around, op: Op, e: End) { EndsAs(w, op, Attention, e) }

  /** Tried again later; the eighth failure in a row asks for attention. */
  predicate PutOff(w: Around, op: Op, e: End) {
    && e.op == Some(op.(attempts := op.attempts + 1, status := if op.attempts >= 7 then Attention else op.status))
    && e.mappings == w.mappings
  }

  // ---------------------------------------------------------------- linking

  /** Another container, or another Odoo record, has half of the pair already. */
  predicate HalfTaken(w: Around, odooId: int, container: string) {
    exists s :: s in w.mappings && s.company == w.company && (s.container == container) != (w.mappings[s].odooId == odooId)
  }

  predicate BoxLinked(w: Around, odooId: int, op: Op, container: string, e: End) {
    var slot := Slot(w.company, container);
    if HalfTaken(w, odooId, container) then ForReview(w, op, e) else
      && e.op == Some(op.(status := Linked, link := Some(container), attempts := 0))
      && e.mappings.Keys == w.mappings.Keys + {slot}
      && e.mappings[slot].odooId == odooId && e.mappings[slot].number == op.terms.number && e.mappings[slot].active
      && forall s | s in w.mappings && s != slot :: e.mappings[s] == w.mappings[s]
  }

  predicate FreightLinked(w: Around, op: Op, shipment: string, e: End) {
    if shipment in w.taken then ForReview(w, op, e)
    else e.op == Some(op.(status := Linked, link := Some(shipment), attempts := 0)) && e.mappings == w.mappings
  }

  /** The fetched shipment: a container is looked for on it, a shipment
      operation takes its whole listing. */
  ghost predicate ShipmentEnds(w: Around, who: Owner, op: Op, sid: string, doc: Option<ShipmentDoc>, e: End) {
    if doc.None? then PutOff(w, op, e)
    else if who.Box? then
      if StoppedNow(doc.value) then ForReview(w, op, e)
      else if Candidates(doc.value, op.terms) == {} then EndsAs(w, op, Pending, e)
      else
        && (forall cid | TheContainer(doc.value, op.terms, sid, cid) :: BoxLinked(w, who.odooId, op, cid, e))
        && ((forall cid :: !TheContainer(doc.value, op.terms, sid, cid)) ==> ForReview(w, op, e))
    else if DiscoveryInvalid(doc.value, op.terms) then PutOff(w, op, e)
    else if DiscoveryAccepted(doc.value, op.terms) && doc.value.primary.id == sid then FreightLinked(w, op, sid, e)
    else ForReview(w, op, e)
  }

  // ------------------------------------------------------ the judged request

  /** The request is for this reference, and its carrier, if both name one, is ours. */
  predicate Fits(q: Terms, r: Resource) {
    r.Request? && r.reference == q.reference && r.kind == Some(q.kind) && (q.scac == r.scac || q.scac == "" || r.scac == "")
  }

  predicate TracksNone(who: Owner, r: Resource)
    requires r.Request?
  {
    if who.Box? then forall l | l in r.tracked :: l.type_ != ShipmentType else r.tracked == []
  }

  predicate TracksOne(who: Owner, r: Resource, sid: string)
    requires r.Request?
  {
    if who.Freight? then r.tracked == [Link(ShipmentType, sid)]
    else exists i :: 0 <= i < |r.tracked| && r.tracked[i] == Link(ShipmentType, sid) && NoOther(r.tracked, i)
  }

  /** No other tracked object is a shipment. */
  predicate NoOther(tracked: seq<Link>, i: nat) { forall k | 0 <= k < |tracked| && k != i :: tracked[k].type_ != ShipmentType }

  ghost predicate JudgedEnds(w: Around, who: Owner, op: Op, r: Resource, o: Outside, e: End) {
    if !Fits(op.terms, r) then ForReview(w, op, e)
    else if r.dead then EndsAs(w, op, Failed, e)
    else if TracksNone(who, r) then EndsAs(w, op, Pending, e)
    else
      && (forall sid | TracksOne(who, r, sid) :: ShipmentEnds(w, who, op, sid, o.shipment, e))
      && ((forall sid :: !TracksOne(who, r, sid)) ==> ForReview(w, op, e))
  }

  /** The row once a request id has been stored. */
  function Joins(op: Op, id: string): Op { op.(status := Pending, requestId := Some(id), attempts := 0) }

  ghost predicate FetchEnds(w: Around, who: Owner, op: Op, id: string, o: Outside, e: End) {
    if o.request.None? then PutOff(w, op, e)
    else JudgedEnds(w, who, if who.Box? then op else Joins(op, id), o.request.value, o, e)
  }

  /** The same, once the request has been read as `r`. */
  ghost predicate ResolvedEnds(w: Around, who: Owner, op: Op, r: Resolution, o: Outside, e: End) {
    match r
    case Reject => ForReview(w, op, e)
    case Fails => EndsAs(w, op, Failed, e)
    case Waits => EndsAs(w, op, Pending, e)
    case Names(sid) => ShipmentEnds(w, who, op, sid, o.shipment, e)
  }

  // ------------------------------------------------- a row without a request

  /** The POST, unless an earlier one may have reached the provider. */
  ghost predicate GateEnds(w: Around, ps: seq<Post>, who: Owner, row: Op, o: Outside, e: End) {
    if row.status == Submitting then e.posts == ps && ForReview(w, row, e) else
      var sent := row.(status := Submitting, attempts := 0);
      && e.posts == ps + [Post(who, row.terms)]
      && if o.created.None? then PutOff(w, sent, e) else JudgedEnds(w, who, Joins(sent, o.created.value.id), o.created.value, o, e)
  }

  /** A fitting request that carries this operation's marker. */
  predicate Ours(q: Terms, marker: string, r: Resource) { Fits(q, r) && marker in r.markers }

  /** The only one of our own, or else the only one for this reference. */
  predicate PickedAt(data: seq<Resource>, q: Terms, marker: string, i: nat)
    requires i < |data|
  {
    if Ours(q, marker, data[i]) then forall k | 0 <= k < |data| && k != i :: !Ours(q, marker, data[k])
    else Fits(q, data[i]) && forall k | 0 <= k < |data| && k != i :: !Fits(q, data[k])
  }

  /** The provider's list of requests; `otherwise` if none fits. */
  ghost predicate RequestsEnd(w: Around, ps: seq<Post>, who: Owner, row: Op, o: Outside, e: End, otherwise: bool) {
    if o.requests.None? then e.posts == ps && PutOff(w, row, e) else
      var data := o.requests.value;
      && (forall i: nat | i < |data| && PickedAt(data, row.terms, o.marker, i) :: e.posts == ps && JudgedEnds(w, who, Joins(row, data[i].id), data[i], o, e))
      && (if exists x :: x in data && Fits(row.terms, x)
          then (forall i: nat | i < |data| :: !PickedAt(data, row.terms, o.marker, i)) ==> e.posts == ps && ForReview(w, row, e)
          else otherwise)
  }

  /** A row of the other workflow whose reference the provider may know. */
  predicate Uses(op: Op, q: Terms) {
    op.terms.kind == q.kind && op.terms.reference == q.reference && op.status in {Submitting, Pending, Linked, Attention}
  }

  predicate UsesId(op: Op, q: Terms, id: string) { Uses(op, q) && op.requestId == Some(id) }

  /** A container operation joins the shipment operation's request. */
  ghost predicate FreightsEnd(t: Tables, ps: seq<Post>, odooId: int, row: Op, o: Outside, e: End, otherwise: bool) {
    var w := AroundOf(t, Box(odooId));
    if exists f :: f in t.freights && Uses(t.freights[f], row.terms) then
      && e.posts == ps
      && forall f | f in t.freights && Uses(t.freights[f], row.terms) ::
           match t.freights[f].requestId
           case None => ForReview(w, row, e)
           case Some(id) => FetchEnds(w, Box(odooId), Joins(row, id), id, o, e)
    else otherwise
  }

  /** A shipment operation joins the one request that container operations use. */
  ghost predicate BoxesEnd(t: Tables, ps: seq<Post>, odooId: int, row: Op, o: Outside, e: End, otherwise: bool) {
    var w := AroundOf(t, Freight(odooId));
    if exists b :: b in t.boxes && Uses(t.boxes[b], row.terms) then
      && e.posts == ps
      && if forall b | b in t.boxes && Uses(t.boxes[b], row.terms) :: t.boxes[b].requestId.None? then ForReview(w, row, e)
         else if SeveralIds(t, row.terms) then ForReview(w, row, e)
         else forall b, id | b in t.boxes && UsesId(t.boxes[b], row.terms, id) :: FetchEnds(w, Freight(odooId), row, id, o, e)
    else otherwise
  }

  predicate SeveralIds(t: Tables, q: Terms) {
    exists b, c :: b in t.boxes && c in t.boxes && Uses(t.boxes[b], q) && Uses(t.boxes[c], q)
      && t.boxes[b].requestId.Some? && t.boxes[c].requestId.Some? && t.boxes[b].requestId != t.boxes[c].requestId
  }

  /** A listed shipment of the master bill, whose carrier is ours if we name one. */
  predicate ForBill(q: Terms, s: Resource) {
    s.Shipment? && (s.bill == Some(q.reference) || (s.bill.None? && q.reference == "")) && (q.scac == "" || q.scac == s.carrier)
  }

  /** The listed shipments of a master bill: only a single one, explicitly active, will do. */
  ghost predicate ShipmentsEnd(w: Around, ps: seq<Post>, who: Owner, row: Op, o: Outside, e: End) {
    if o.shipments.None? then e.posts == ps && PutOff(w, row, e) else
      var data := o.shipments.value;
      if forall i | 0 <= i < |data| :: !ForBill(row.terms, data[i]) then GateEnds(w, ps, who, row, o, e) else
        && e.posts == ps
        && (forall i: nat | ActiveForBill(data, row.terms, i) :: ShipmentEnds(w, who, row, data[i].id, o.shipment, e))
        && ((forall i: nat :: !ActiveForBill(data, row.terms, i)) ==> ForReview(w, row, e))
  }

  predicate OnlyForBill(data: seq<Resource>, q: Terms, i: nat) {
    i < |data| && ForBill(q, data[i]) && forall k | 0 <= k < |data| && k != i :: !ForBill(q, data[k])
  }

  predicate ActiveForBill(data: seq<Resource>, q: Terms, i: nat) { OnlyForBill(data, q, i) && data[i].stopped == Some(false) }

  /** The listed containers of the number. */
  ghost predicate ContainersEnd(t: Tables, ps: seq<Post>, odooId: int, row: Op, o: Outside, e: End) {
    var w, who := AroundOf(t, Box(odooId)), Box(odooId);
    if o.containers.None? then e.posts == ps && PutOff(w, row, e)
    else if !Judgeable(o.containers.value, row.terms) then e.posts == ps && ForReview(w, row, e)
    else if NonePasses(o.containers.value, row.terms) then
      RequestsEnd(w, ps, who, row, o, e, NoRequestEnds(t, ps, who, row, o, e))
    else
      && e.posts == ps
      && (forall id | OneLive(o.containers.value, row.terms, id) :: BoxLinked(w, odooId, row, id, e))
      && ((forall id :: !OneLive(o.containers.value, row.terms, id)) ==> ForReview(w, row, e))
  }

  /** Neither the lists nor the rows of the other workflow know of a request. */
  ghost predicate NoRequestEnds(t: Tables, ps: seq<Post>, who: Owner, row: Op, o: Outside, e: End) {
    var w := AroundOf(t, who);
    match row.terms.kind
    case ByContainer => GateEnds(w, ps, who, row, o, e)
    case ByBill => if who.Box? then FreightsEnd(t, ps, who.odooId, row, o, e, GateEnds(w, ps, who, row, o, e)) else ShipmentsEnd(w, ps, who, row, o, e)
    case ByBooking => if who.Box? then FreightsEnd(t, ps, who.odooId, row, o, e, GateEnds(w, ps, who, row, o, e)) else GateEnds(w, ps, who, row, o, e)
  }

  ghost predicate OtherEnds(t: Tables, ps: seq<Post>, who: Owner, row: Op, o: Outside, e: End) {
    var w := AroundOf(t, who);
    match who
    case Box(odooId) => FreightsEnd(t, ps, odooId, row, o, e, GateEnds(w, ps, who, row, o, e))
    case Freight(odooId) => BoxesEnd(t, ps, odooId, row, o, e, RequestsEnd(w, ps, who, row, o, e, NoRequestEnds(t, ps, who, row, o, e)))
  }

  /** The whole attempt, in the order in which the workflows ask. */
  ghost predicate AttemptEnds(t: Tables, ps: seq<Post>, who: Owner, row: Op, o: Outside, e: End) {
    var w := AroundOf(t, who);
    if who.Freight? && row.link.Some? then e.posts == ps && ShipmentEnds(w, who, row, row.link.value, o.shipment, e)
    else if row.requestId.Some? then e.posts == ps && FetchEnds(w, who, row, row.requestId.value, o, e)
    else if who.Box? then ContainersEnd(t, ps, who.odooId, row, o, e)
    else OtherEnds(t, ps, who, row, o, e)
  }
}
