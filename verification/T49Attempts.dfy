/** What an attempt promises: the request it judges decides the status, FAILED
    comes from a dead request only, and a POST is sent exactly when nothing is
    known of the reference anywhere. */
module T49Attempts {
  import opened Outcomes
  import opened T49Choice
  import opened T49Discovery
  import opened T49Tables
  import opened T49Machine
  import opened T49Outcomes
  import opened T49Inputs
  import opened T49Endings

  // ------------------------------------------------------ what the attempt meets

  /** The row has no request and no shipment yet. */
  predicate Fresh(who: Owner, row: Op) { row.requestId.None? && (who.Freight? ==> row.link.None?) }

  /** The provider lists requests, none of them for this reference. */
  predicate Unlisted(o: Outside, q: Terms) { o.requests.Some? && forall x | x in o.requests.value :: !Fits(q, x) }

  /** The listed request that the attempt takes. */
  predicate Takes(o: Outside, q: Terms, r: Resource) {
    o.requests.Some? && exists i :: 0 <= i < |o.requests.value| && PickedAt(o.requests.value, q, o.marker, i) && o.requests.value[i] == r
  }

  predicate UnusedByFreights(t: Tables, q: Terms) { forall f | f in t.freights :: !Uses(t.freights[f], q) }

  predicate UnusedByBoxes(t: Tables, q: Terms) { forall b | b in t.boxes :: !Uses(t.boxes[b], q) }

  /** The other workflow has a request of this id to join. */
  predicate Joinable(t: Tables, who: Owner, q: Terms, id: string) {
    match who
    case Box(_) => exists f :: f in t.freights && UsesId(t.freights[f], q, id)
    case Freight(_) => (exists b :: b in t.boxes && UsesId(t.boxes[b], q, id)) && !SeveralIds(t, q)
  }

  /** No listed container passes, as far as that can be judged. */
  ghost predicate NoContainer(o: Outside, q: Terms) {
    o.containers.Some? && Judgeable(o.containers.value, q) && NonePasses(o.containers.value, q)
  }

  predicate NoShipment(o: Outside, q: Terms) {
    o.shipments.Some? && forall i | 0 <= i < |o.shipments.value| :: !ForBill(q, o.shipments.value[i])
  }

  /** Nothing is known of the reference: not here, not in the other workflow's
      table, not at the provider. */
  ghost predicate Unknown(t: Tables, who: Owner, row: Op, o: Outside) {
    var q := row.terms;
    && Fresh(who, row) && Unlisted(o, q)
    && if who.Box? then NoContainer(o, q) && (q.kind.ByContainer? || UnusedByFreights(t, q))
       else UnusedByBoxes(t, q) && (q.kind.ByBill? ==> NoShipment(o, q))
  }

  /** The request `r`, known by `id`, is the one that the attempt judges: the
      row's own, one that the provider lists, one of the other workflow, or the
      answer to its POST. */
  ghost predicate Judges(t: Tables, who: Owner, row: Op, o: Outside, id: string, r: Resource) {
    var q := row.terms;
    if !Fresh(who, row) then (who.Freight? ==> row.link.None?) && row.requestId == Some(id) && o.request == Some(r)
    else if who.Box? then NoContainer(o, q) && (
      || (Takes(o, q, r) && id == r.id)
      || (Unlisted(o, q) && !q.kind.ByContainer? && Joinable(t, who, q, id) && o.request == Some(r))
      || (Unknown(t, who, row, o) && row.status != Submitting && o.created == Some(r) && id == r.id))
    else
      || (Joinable(t, who, q, id) && o.request == Some(r))
      || (UnusedByBoxes(t, q) && Takes(o, q, r) && id == r.id)
      || (Unknown(t, who, row, o) && row.status != Submitting && o.created == Some(r) && id == r.id)
  }

  // --------------------------------------------------------------- the promises

  /** The judged request decides: one for another reference or carrier, or one
      that tracks something else than one shipment, asks for review; a dead one
      fails the operation; a live one that tracks nothing yet leaves it pending.
      Its id is stored. */
  lemma JudgedRequest(t: Tables, ps: seq<Post>, who: Owner, row: Op, o: Outside, e: End, id: string, r: Resource)
    requires AttemptEnds(t, ps, who, row, o, e) && Judges(t, who, row, o, id, r)
    ensures var q := row.terms;
      && (!Fits(q, r) ==> Left(e, Attention, id))
      && (Fits(q, r) && r.dead ==> Left(e, Failed, id))
      && (Fits(q, r) && !r.dead && TracksNone(who, r) ==> Left(e, Pending, id))
      && (Fits(q, r) && !r.dead && !TracksNone(who, r) && (forall sid :: !TracksOne(who, r, sid)) ==> Left(e, Attention, id))
  {
    hide JudgedEnds, ForReview, PutOff, Judgeable, NonePasses, OneLive, ShipmentEnds, BoxLinked, Fits, AroundOf;
    var op := JudgedFrom(t, ps, who, row, o, e, id, r);
    JudgedSays(AroundOf(t, who), who, op, r, o, e);
  }

  predicate Left(e: End, status: Status, id: string) { e.op.Some? && e.op.value.status == status && e.op.value.requestId == Some(id) }

  lemma JudgedSays(w: Around, who: Owner, op: Op, r: Resource, o: Outside, e: End)
    requires JudgedEnds(w, who, op, r, o, e) && op.requestId.Some?
    ensures var (q, id) := (op.terms, op.requestId.value);
      && (!Fits(q, r) ==> Left(e, Attention, id))
      && (Fits(q, r) && r.dead ==> Left(e, Failed, id))
      && (Fits(q, r) && !r.dead && TracksNone(who, r) ==> Left(e, Pending, id))
      && (Fits(q, r) && !r.dead && !TracksNone(who, r) && (forall sid :: !TracksOne(who, r, sid)) ==> Left(e, Attention, id))
  {
    hide ShipmentEnds;
  }

  /** The row as it is when the request is judged. */
  lemma JudgedFrom(t: Tables, ps: seq<Post>, who: Owner, row: Op, o: Outside, e: End, id: string, r: Resource) returns (op: Op)
    requires AttemptEnds(t, ps, who, row, o, e) && Judges(t, who, row, o, id, r)
    ensures op.terms == row.terms && op.requestId == Some(id) && JudgedEnds(AroundOf(t, who), who, op, r, o, e)
  {
    hide JudgedEnds, ForReview, PutOff, Judgeable, NonePasses, OneLive, ShipmentEnds, BoxLinked, Fits, AroundOf;
    var q := row.terms;
    if !Fresh(who, row) {
      op := if who.Box? then row else Joins(row, id);
      assert JudgedEnds(AroundOf(t, who), who, op, r, o, e);
    } else if Joinable(t, who, q, id) && o.request == Some(r) && (who.Box? ==> Unlisted(o, q) && !q.kind.ByContainer?) {
      op := Joins(row, id);
      JoinedUse(t, who, q, id);
      assert FetchEnds(AroundOf(t, who), who, if who.Box? then op else row, id, o, e);
    } else if Takes(o, q, r) && id == r.id {
      op := Joins(row, id);
      var i: nat :| i < |o.requests.value| && PickedAt(o.requests.value, q, o.marker, i) && o.requests.value[i] == r;
      PickedFits(o.requests.value, q, o.marker, i);
      assert JudgedEnds(AroundOf(t, who), who, op, r, o, e);
    } else {
      op := Joins(row.(status := Submitting, attempts := 0), id);
    }
  }

  lemma JoinedUse(t: Tables, who: Owner, q: Terms, id: string)
    requires Joinable(t, who, q, id)
    ensures who.Box? ==> exists f :: f in t.freights && Uses(t.freights[f], q) && t.freights[f].requestId == Some(id)
    ensures who.Freight? ==> exists b :: b in t.boxes && Uses(t.boxes[b], q) && UsesId(t.boxes[b], q, id) && t.boxes[b].requestId.Some?
  {
  }

  lemma PickedFits(data: seq<Resource>, q: Terms, marker: string, i: nat)
    requires i < |data| && PickedAt(data, q, marker, i)
    ensures Fits(q, data[i]) && data[i] in data
  {
  }

  /** A POST is sent exactly when nothing is known of the reference and none may
      have been sent before. */
  lemma PostsExactlyWhenUnknown(t: Tables, ps: seq<Post>, who: Owner, row: Op, o: Outside, e: End)
    requires AttemptEnds(t, ps, who, row, o, e)
    ensures e.posts == ps + if Unknown(t, who, row, o) && row.status != Submitting then [Post(who, row.terms)] else []
    ensures Unknown(t, who, row, o) && row.status == Submitting ==> e.op == Some(row.(status := Attention, attempts := 0))
  {
    hide JudgedEnds, PutOff, Judgeable, NonePasses, OneLive, ShipmentEnds, BoxLinked, Fits, PickedAt, FetchEnds, ForBill;
  }

  /** FAILED is only ever written for a judged request that is for this
      reference and dead. */
  lemma FailsOnlyWhenDead(t: Tables, ps: seq<Post>, who: Owner, row: Op, o: Outside, e: End)
    requires AttemptEnds(t, ps, who, row, o, e) && row.status != Failed && FailedIn(e)
    ensures exists id, r :: Judges(t, who, row, o, id, r) && Fits(row.terms, r) && r.dead
  {
    hide JudgedEnds, Judgeable, NonePasses, ShipmentEnds, BoxLinked, Fits, ForBill, AroundOf, RequestsEnd, FetchEnds, BoxesEnd, ContainersEnd, NoRequestEnds;
    var w := AroundOf(t, who);
    if who.Freight? && row.link.Some? {
      ShipmentNeverFails(w, who, row, row.link.value, o.shipment, e);
    } else if row.requestId.Some? {
      FetchFails(w, who, row, row.requestId.value, o, e);
      assert Judges(t, who, row, o, row.requestId.value, o.request.value);
    } else if who.Box? {
      ContainersFail(t, ps, who, row, o, e);
    } else {
      BoxesFail(t, ps, who, row, o, e);
    }
  }

  predicate FailedIn(e: End) { e.op.Some? && e.op.value.status == Failed }

  predicate DeadOne(q: Terms, o: Option<Resource>) { o.Some? && Fits(q, o.value) && o.value.dead }

  lemma ShipmentNeverFails(w: Around, who: Owner, op: Op, sid: string, doc: Option<ShipmentDoc>, e: End)
    requires ShipmentEnds(w, who, op, sid, doc, e) && op.status != Failed
    ensures !FailedIn(e)
  {
    hide StoppedNow, Candidates, TheContainer, DiscoveryInvalid, DiscoveryAccepted;
  }

  lemma JudgedFails(w: Around, who: Owner, op: Op, r: Resource, o: Outside, e: End)
    requires JudgedEnds(w, who, op, r, o, e) && op.status != Failed && FailedIn(e)
    ensures Fits(op.terms, r) && r.dead
  {
    hide ShipmentEnds;
    if Fits(op.terms, r) && !TracksNone(who, r) {
      forall sid | TracksOne(who, r, sid) && ShipmentEnds(w, who, op, sid, o.shipment, e) ensures false {
        ShipmentNeverFails(w, who, op, sid, o.shipment, e);
      }
    }
  }

  lemma FetchFails(w: Around, who: Owner, op: Op, id: string, o: Outside, e: End)
    requires FetchEnds(w, who, op, id, o, e) && op.status != Failed && FailedIn(e)
    ensures DeadOne(op.terms, o.request)
  {
    hide JudgedEnds;
    if o.request.Some? { JudgedFails(w, who, if who.Box? then op else Joins(op, id), o.request.value, o, e); }
  }

  lemma GateFails(w: Around, ps: seq<Post>, who: Owner, row: Op, o: Outside, e: End)
    requires GateEnds(w, ps, who, row, o, e) && row.status != Failed && FailedIn(e)
    ensures row.status != Submitting && DeadOne(row.terms, o.created)
  {
    hide JudgedEnds;
    var sent := row.(status := Submitting, attempts := 0);
    if row.status != Submitting && o.created.Some? { JudgedFails(w, who, Joins(sent, o.created.value.id), o.created.value, o, e); }
  }

  /** A taken request that is dead, or none is listed. */
  lemma RequestsFail(w: Around, ps: seq<Post>, who: Owner, row: Op, o: Outside, e: End, otherwise: bool) returns (r: Option<Resource>)
    requires RequestsEnd(w, ps, who, row, o, e, otherwise) && row.status != Failed && FailedIn(e)
    ensures if r.Some? then Takes(o, row.terms, r.value) && DeadOne(row.terms, r) else Unlisted(o, row.terms) && otherwise
  {
    hide JudgedEnds, PickedAt, Fits;
    r := None;
    var q := row.terms;
    if o.requests.Some? && exists i: nat :: i < |o.requests.value| && PickedAt(o.requests.value, q, o.marker, i) {
      var i: nat :| i < |o.requests.value| && PickedAt(o.requests.value, q, o.marker, i);
      r := Some(o.requests.value[i]);
      PickedFits(o.requests.value, q, o.marker, i);
      JudgedFails(w, who, Joins(row, r.value.id), r.value, o, e);
    }
  }

  lemma ContainersFail(t: Tables, ps: seq<Post>, who: Owner, row: Op, o: Outside, e: End)
    requires who.Box? && Fresh(who, row) && ContainersEnd(t, ps, who.odooId, row, o, e) && row.status != Failed && FailedIn(e)
    ensures exists id, r :: Judges(t, who, row, o, id, r) && Fits(row.terms, r) && r.dead
  {
    hide JudgedEnds, Judgeable, NonePasses, Fits, AroundOf, RequestsEnd, FetchEnds, GateEnds, OneLive;
    var w, q := AroundOf(t, who), row.terms;
    assert who == Box(who.odooId);
    assert NoContainer(o, q);
    var r := RequestsFail(w, ps, who, row, o, e, NoRequestEnds(t, ps, who, row, o, e));
    if r.Some? {
      assert Judges(t, who, row, o, r.value.id, r.value);
    } else if !q.kind.ByContainer? && exists f :: f in t.freights && Uses(t.freights[f], q) {
      var f :| f in t.freights && Uses(t.freights[f], q);
      var id := t.freights[f].requestId.value;
      FetchFails(w, who, Joins(row, id), id, o, e);
      assert UsesId(t.freights[f], q, id);
      assert Judges(t, who, row, o, id, o.request.value);
    } else {
      GateFails(w, ps, who, row, o, e);
      assert Judges(t, who, row, o, o.created.value.id, o.created.value);
    }
  }

  lemma BoxesFail(t: Tables, ps: seq<Post>, who: Owner, row: Op, o: Outside, e: End)
    requires who.Freight? && Fresh(who, row) && OtherEnds(t, ps, who, row, o, e) && row.status != Failed && FailedIn(e)
    ensures exists id, r :: Judges(t, who, row, o, id, r) && Fits(row.terms, r) && r.dead
  {
    hide JudgedEnds, Fits, AroundOf, RequestsEnd, FetchEnds, GateEnds, ShipmentsEnd, SeveralIds, NoShipment;
    var w, q := AroundOf(t, who), row.terms;
    assert who == Freight(who.odooId);
    if exists b :: b in t.boxes && Uses(t.boxes[b], q) {
      var b :| b in t.boxes && Uses(t.boxes[b], q) && t.boxes[b].requestId.Some?;
      var id := t.boxes[b].requestId.value;
      assert UsesId(t.boxes[b], q, id);
      FetchFails(w, who, row, id, o, e);
      assert Judges(t, who, row, o, id, o.request.value);
    } else {
      var r := RequestsFail(w, ps, who, row, o, e, NoRequestEnds(t, ps, who, row, o, e));
      if r.Some? {
        assert Judges(t, who, row, o, r.value.id, r.value);
      } else {
        if q.kind.ByBill? { ShipmentsFail(w, ps, who, row, o, e); }
        GateFails(w, ps, who, row, o, e);
        assert Judges(t, who, row, o, o.created.value.id, o.created.value);
      }
    }
  }

  lemma ShipmentsFail(w: Around, ps: seq<Post>, who: Owner, row: Op, o: Outside, e: End)
    requires ShipmentsEnd(w, ps, who, row, o, e) && row.status != Failed && FailedIn(e)
    ensures NoShipment(o, row.terms) && GateEnds(w, ps, who, row, o, e)
  {
    hide GateEnds, ShipmentEnds, ForBill;
    if o.shipments.Some? {
      forall i: nat | ActiveForBill(o.shipments.value, row.terms, i) && ShipmentEnds(w, who, row, o.shipments.value[i].id, o.shipment, e) ensures false {
        ShipmentNeverFails(w, who, row, o.shipments.value[i].id, o.shipment, e);
      }
    }
  }

  // ------------------------------------------------------ whatever call fails

  predicate Offered(o: Outside, r: Resource) {
    o.request == Some(r) || o.created == Some(r) || (o.requests.Some? && r in o.requests.value)
  }

  /** The provider shows a dead request for this reference. */
  ghost predicate DeadOffered(o: Outside, q: Terms) { exists r :: Offered(o, r) && Fits(q, r) && r.dead }

  predicate HasFailed(t: Tables, who: Owner) { OpOf(t, who).Some? && OpOf(t, who).value.status == Failed }

  /** The worker is at this operation, and about to write FAILED only if that is so. */
  ghost predicate Tame(pc: Pc, who: Owner, q: Terms, o: Outside) {
    match pc
    case Idle => true
    case AskContainers(w, row) => w == who && row.terms == q
    case AskRequests(w, row) => w == who && row.terms == q
    case AskShipments(w, row) => w == who && row.terms == q
    case AskRequest(w, row, _) => w == who && row.terms == q
    case AskShipment(w, row, _) => w == who && row.terms == q
    case ReadOther(w, row) => w == who && row.terms == q
    case Claim(w, row) => w == who && row.terms == q
    case Sending(w, row) => w == who && row.terms == q
    case Save(w, row, _, next) => w == who && row.terms == q && (next == Some(Fails) ==> DeadOffered(o, q))
    case Waiting(w, row) => w == who && row.terms == q
    case Failing(w, row) => w == who && row.terms == q && DeadOffered(o, q)
    case Binding(w, row, _) => w == who && row.terms == q
    case Linking(w, _) => w == who
    case Refusing(w) => w == who
    case Deferring(w) => w == who
  }

  lemma ReadsDead(who: Owner, q: Terms, r: Resource, o: Outside)
    requires Offered(o, r)
    ensures ResolveFor(who, q, r) == Fails ==> DeadOffered(o, q)
  {
    ReadAs(who, q, r);
  }

  /** An answer that is read as dead shows a dead request. */
  lemma HonestAboutDeath(s: Sys, o: Outside, l: Label, who: Owner, q: Terms)
    requires Honest(s.pc, o, l) && Tame(s.pc, who, q, o)
    ensures l.Go? && (s.pc.AskRequests? || s.pc.AskRequest? || s.pc.Sending? ==> (l.answer.Hit? && l.answer.resolution == Fails ==> DeadOffered(o, q)))
  {
    hide ResolveFor, Fits, DeadOffered;
    match s.pc
    case AskRequests(w, row) =>
      if l.answer.Hit? {
        var x :| Chosen(o.requests.value, q, o.marker, x) && l.answer == Hit(x.id, ResolveFor(who, q, x));
        var i := ChosenIsPicked(o.requests.value, q, o.marker, x);
        ReadsDead(who, q, x, o);
      }
    case AskRequest(w, row, id) => if o.request.Some? { ReadsDead(who, q, o.request.value, o); }
    case Sending(w, row) => if o.created.Some? { ReadsDead(who, q, o.created.value, o); }
    case _ =>
  }

  lemma StaysTame(s: Sys, o: Outside, l: Label, who: Owner, q: Terms)
    requires Honest(s.pc, o, l) && Tame(s.pc, who, q, o)
    ensures Tame(Step(s, l.answer, l.db, l.now).pc, who, q, o)
  {
    hide Honest, DeadOffered, Update, BindIn, OtherRequest, Defer;
    HonestAboutDeath(s, o, l, who, q);
    match s.pc
    case AskRequest(_, _, _) =>
    case Save(_, _, _, _) =>
    case _ =>
  }

  lemma FailsIfTame(s: Sys, o: Outside, l: Label, who: Owner, q: Terms)
    requires Honest(s.pc, o, l) && Tame(s.pc, who, q, o)
    requires HasFailed(s.t, who) ==> DeadOffered(o, q)
    ensures HasFailed(Step(s, l.answer, l.db, l.now).t, who) ==> DeadOffered(o, q)
  {
    hide Honest, DeadOffered, Bind, OtherRequest;
  }

  /** Whatever call fails, and wherever the run stops: FAILED is written only if
      the provider showed a dead request for this reference. */
  lemma {:induction false} NeverFailsAlive(s: Sys, steps: seq<Label>, o: Outside, who: Owner)
    requires OpOf(s.t, who).Some? && s.pc == First(who, OpOf(s.t, who).value) && OpOf(s.t, who).value.status != Failed
    requires Follows(s, steps, o)
    ensures HasFailed(Run(s, steps).t, who) ==> DeadOffered(o, OpOf(s.t, who).value.terms)
    ensures Tame(Run(s, steps).pc, who, OpOf(s.t, who).value.terms, o)
  {
    hide Honest, Step, DeadOffered;
    if steps != [] {
      var n := |steps| - 1;
      forall i | 0 <= i < n ensures Honest(Run(s, steps[..n][..i]).pc, o, steps[..n][i]) { assert steps[..n][..i] == steps[..i]; }
      NeverFailsAlive(s, steps[..n], o, who);
      GoesOn(s, steps, o, n);
      StaysTame(Run(s, steps[..n]), o, steps[n], who, OpOf(s.t, who).value.terms);
      FailsIfTame(Run(s, steps[..n]), o, steps[n], who, OpOf(s.t, who).value.terms);
    }
  }
}
