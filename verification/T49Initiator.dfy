/** The workflows as written (`Initiator` and `ShipmentInitiator` of
    src/integrations/terminal49_client/initiation.py and shipments.py). Each
    method is shown to be a run of the step machine, so everything proved of the
    machine holds of this code. What the provider answers, and which calls fail,
    are arguments. */
module T49Initiator {
  import opened Outcomes
  import opened Sums
  import opened Counting
  import opened T49Choice
  import opened T49Discovery
  import opened T49Tables
  import opened T49Machine
  import opened T49Invariant
  import opened T49Steps
  import opened T49Store
  import opened T49Outcomes
  import opened T49Inputs
  import opened T49Endings
  import opened T49Attempts
  import opened T49Theorems

  class Provider {
    var posts: seq<Post>

    constructor () ensures posts == [] { posts := []; }

    /** `create_tracking_request`: one attempt. */
    method CreateTrackingRequest(who: Owner, terms: Terms, db: Db)
      modifies this
      ensures posts == old(posts) + if db == Aborts then [] else [Post(who, terms)]
    {
      if db != Aborts { posts := posts + [Post(who, terms)]; }
    }
  }

  method ReadRequests(listed: Option<seq<Resource>>, who: Owner, q: Terms, marker: string) returns (answer: Answer)
    ensures FromRequests(listed, who, q, marker, answer)
  {
    if listed.None? { return Broken; }
    var c := ChooseRequest(listed.value, q, marker);
    assert forall x :: Chosen(listed.value, q, marker, x) <==> c == Ok(Some(x));
    if c.Review? { return Doubtful; }
    if c.value.None? { return Nothing; }
    assert Chosen(listed.value, q, marker, c.value.value);
    return Hit(c.value.value.id, ResolveFor(who, q, c.value.value));
  }

  method ReadShipment(fetched: Option<ShipmentDoc>, who: Owner, q: Terms, sid: string) returns (answer: Answer)
    ensures FromShipment(fetched, who, q, sid, answer)
  {
    if fetched.None? { return Broken; }
    if who.Box? {
      answer := ContainerOn(fetched.value, q, sid);
    } else {
      var d := Discover(fetched.value, q);
      answer := match d case Listing(id, _) => Hit(id, Waits) case NeedsReview => Doubtful case Invalid => Broken;
    }
  }

  class Initiator {
    const store: TrackingStore
    const provider: Provider

    constructor (store: TrackingStore, provider: Provider)
      ensures this.store == store && this.provider == provider
    {
      this.store, this.provider := store, provider;
    }

    ghost function World(pc: Pc): Sys
      reads store, provider
    {
      Sys(store.Contents(), provider.posts, pc)
    }

    /** What the handlers will leave of an attempt that ended with `r`. */
    ghost function Ending(r: Reply, who: Owner): End
      reads store, provider
    {
      End(Handled(r, OpOf(store.Contents(), who)), store.mappings, provider.posts)
    }

    /** One operation that is due: the attempt and, if it raises, a handler. The
        inputs decide every step. An operation past `queued` sends nothing. */
    method Once(who: Owner, o: Outside) returns (ghost steps: seq<Label>)
      requires Inv(World(Idle))
      requires OpOf(store.Contents(), who).Some?
      requires OpOf(store.Contents(), who).value.status in if who.Box? then {Queued, Submitting, Pending} else {Queued, Submitting, Pending, Linked}
      modifies store`boxes, store`freights, store`mappings, provider
      ensures World(Idle) == Run(old(World(Idle)), [Begin(who)] + steps) && Inv(World(Idle))
      ensures Follows(old(World(First(who, OpOf(store.Contents(), who).value))), steps, o)
      ensures old(OpOf(store.Contents(), who).value.status) != Queued ==> Posted(provider.posts, who) == Posted(old(provider.posts), who)
      ensures Smooth(o.faults) ==>
        AttemptEnds(old(store.Contents()), old(provider.posts), who, old(OpOf(store.Contents(), who).value), o,
                    End(OpOf(store.Contents(), who), store.mappings, provider.posts))
      ensures HasFailed(store.Contents(), who) ==> DeadOffered(o, old(OpOf(store.Contents(), who).value.terms))
    {
      hide Step, Run, Update, KeysOk, Inv, Spent, Follows, Honest, AttemptEnds, DeadOffered, Tame;
      ghost var start := World(Idle);
      ghost var spent := OpOf(store.Contents(), who).value.status != Queued;
      InvKeys(start);
      var row := OpOf(store.Contents(), who).value;
      ghost var first := World(First(who, row));
      Beginning(start, who);
      var r;
      r, steps := Attempt(who, row, o);
      if r != Fine {
        ghost var more := Recover(who, r, o);
        steps := ContinuedBy(first, steps, more, o);
      }
      NeverFailsAlive(first, steps, o, who);
      RunConcat(start, [Begin(who)], steps);
      RunKeeps(start, [Begin(who)] + steps);
      if spent {
        IdleIsSpent(start, who);
        SpentForever(start, [Begin(who)] + steps, who);
      }
    }

    /** The two `except` clauses. */
    method Recover(who: Owner, r: Reply, o: Outside) returns (ghost steps: seq<Label>)
      requires r != Fine
      modifies store`boxes, store`freights
      ensures World(Idle) == Run(old(World(Stands(r, who, Idle))), steps)
      ensures Follows(old(World(Stands(r, who, Idle))), steps, o)
      ensures o.faults.handler == Commits ==> OpOf(store.Contents(), who) == Handled(r, old(OpOf(store.Contents(), who))) && store.mappings == old(store.mappings)
    {
      hide Run, Follows;
      steps := OneStep(World(Stands(r, who, Idle)), o, Broken, o.faults.handler);
      if r == Refused {
        var _ := store.UpdateRow(who, Attention, None, None, o.faults.handler);
      } else {
        store.DeferRow(who, o.faults.handler);
      }
    }

    method Attempt(who: Owner, row: Op, o: Outside) returns (r: Reply, ghost steps: seq<Label>)
      requires KeysOk(store.Contents())
      modifies store`boxes, store`freights, store`mappings, provider
      ensures World(Stands(r, who, Idle)) == Run(old(World(First(who, row))), steps)
      ensures Follows(old(World(First(who, row))), steps, o)
      ensures Smooth(o.faults) && old(OpOf(store.Contents(), who)) == Some(row) ==>
        AttemptEnds(old(store.Contents()), old(provider.posts), who, row, o, Ending(r, who))
    {
      if who.Freight? && row.link.Some? {
        r, steps := LookAtShipment(who, row, row.link.value, o);
      } else if row.requestId.Some? {
        r, steps := Fetch(who, row, row.requestId.value, o);
      } else if who.Box? {
        r, steps := FindContainer(who, row, o);
      } else {
        r, steps := AskOther(who, row, o);
      }
    }

    method FindContainer(who: Owner, row: Op, o: Outside) returns (r: Reply, ghost steps: seq<Label>)
      requires who.Box? && KeysOk(store.Contents())
      modifies store`boxes, store`freights, store`mappings, provider
      ensures World(Stands(r, who, Idle)) == Run(old(World(AskContainers(who, row))), steps)
      ensures Follows(old(World(AskContainers(who, row))), steps, o)
      ensures Smooth(o.faults) && old(OpOf(store.Contents(), who)) == Some(row) ==>
        ContainersEnd(old(store.Contents()), old(provider.posts), who.odooId, row, o, Ending(r, who))
    {
      hide Run, Follows, KeysOk, AroundOf, ForReview, PutOff, BoxLinked, RequestsEnd, NoRequestEnds, ContainersEnd, Handled, Judgeable,
           NonePasses, OneLive;
      ghost var plain := Smooth(o.faults) && OpOf(store.Contents(), who) == Some(row);
      ghost var (t, ps) := (store.Contents(), provider.posts);
      var answer := Broken;
      if o.containers.Some? {
        var c := ChooseContainer(o.containers.value, row.terms);
        answer := if c.Review? then Doubtful else if c.value.None? then Nothing else Hit(c.value.value, Waits);
      }
      ghost var start := World(AskContainers(who, row));
      steps := OneStep(start, o, answer, Commits);
      assert World(SeenContainers(who, row, answer)) == Run(start, steps);
      ghost var more := [];
      match answer {
        case Broken => r := Broke;
        case Doubtful => r := Refused;
        case Nothing => r, more := FindRequest(who, row, o); steps := ContinuedBy(start, steps, more, o);
        case Hit(container, _) => r, more := LinkContainer(who, row, container, o); steps := ContinuedBy(start, steps, more, o);
      }
      if plain {
        Raises(t, who, row, Ending(r, who));
        ContainersRead(t, ps, who, row, answer, o, Ending(r, who));
      }
    }

    method FindRequest(who: Owner, row: Op, o: Outside) returns (r: Reply, ghost steps: seq<Label>)
      requires KeysOk(store.Contents())
      modifies store`boxes, store`freights, store`mappings, provider
      ensures World(Stands(r, who, Idle)) == Run(old(World(AskRequests(who, row))), steps)
      ensures Follows(old(World(AskRequests(who, row))), steps, o)
      ensures Smooth(o.faults) && old(OpOf(store.Contents(), who)) == Some(row) ==>
        var (t, ps, e) := (old(store.Contents()), old(provider.posts), Ending(r, who));
        RequestsEnd(AroundOf(t, who), ps, who, row, o, e, NoRequestEnds(t, ps, who, row, o, e))
      decreases if who.Box? then 3 else 1
    {
      hide Run, Follows, KeysOk, AroundOf, ForReview, PutOff, EndsAs, BoxLinked, FreightLinked, ShipmentEnds, JudgedEnds, ResolvedEnds,
           FetchEnds, GateEnds, RequestsEnd, FreightsEnd, BoxesEnd, ShipmentsEnd, Handled;
      ghost var plain := Smooth(o.faults) && OpOf(store.Contents(), who) == Some(row);
      ghost var (t, ps, w) := (store.Contents(), provider.posts, AroundOf(store.Contents(), who));
      var answer := ReadRequests(o.requests, who, row.terms, o.marker);
      ghost var start := World(AskRequests(who, row));
      steps := OneStep(start, o, answer, Commits);
      assert World(SeenRequests(who, row, answer)) == Run(start, steps);
      ghost var more := [];
      match answer {
        case Broken => r := Broke;
        case Doubtful => r := Refused;
        case Nothing =>
          if who.Box? && !row.terms.kind.ByContainer? { r, more := AskOther(who, row, o); }
          else if who.Freight? && row.terms.kind.ByBill? { r, more := FindShipment(who, row, o); }
          else { r, more := Submit(who, row, o); }
          steps := ContinuedBy(start, steps, more, o);
        case Hit(requestId, resolution) =>
          r, more := SaveRequest(who, row, requestId, Some(resolution), o); steps := ContinuedBy(start, steps, more, o);
      }
      if plain {
        Raises(t, who, row, Ending(r, who));
        RequestsRead(w, ps, who, row, answer, o, Ending(r, who), NoRequestEnds(t, ps, who, row, o, Ending(r, who)));
      }
    }

    method FindShipment(who: Owner, row: Op, o: Outside) returns (r: Reply, ghost steps: seq<Label>)
      requires who.Freight?
      modifies store`boxes, store`freights, store`mappings, provider
      ensures World(Stands(r, who, Idle)) == Run(old(World(AskShipments(who, row))), steps)
      ensures Follows(old(World(AskShipments(who, row))), steps, o)
      ensures Smooth(o.faults) && old(OpOf(store.Contents(), who)) == Some(row) ==>
        ShipmentsEnd(AroundOf(old(store.Contents()), who), old(provider.posts), who, row, o, Ending(r, who))
    {
      hide Run, Follows, AroundOf, ForReview, PutOff, EndsAs, BoxLinked, FreightLinked, ShipmentEnds, JudgedEnds, ResolvedEnds, FetchEnds,
           GateEnds, ShipmentsEnd, Handled;
      ghost var plain := Smooth(o.faults) && OpOf(store.Contents(), who) == Some(row);
      ghost var (t, ps, w) := (store.Contents(), provider.posts, AroundOf(store.Contents(), who));
      var answer := Broken;
      if o.shipments.Some? {
        var c := ChooseShipment(o.shipments.value, row.terms);
        answer := if c.Review? then Doubtful else if c.value.None? then Nothing else Hit(c.value.value.id, Waits);
      }
      ghost var start := World(AskShipments(who, row));
      steps := OneStep(start, o, answer, Commits);
      assert World(SeenShipments(who, row, answer)) == Run(start, steps);
      ghost var more := [];
      match answer {
        case Broken => r := Broke;
        case Doubtful => r := Refused;
        case Nothing => r, more := Submit(who, row, o); steps := ContinuedBy(start, steps, more, o);
        case Hit(shipment, _) => r, more := LookAtShipment(who, row, shipment, o); steps := ContinuedBy(start, steps, more, o);
      }
      if plain {
        Raises(t, who, row, Ending(r, who));
        ShipmentsRead(w, ps, who, row, answer, o, Ending(r, who));
      }
    }

    /** What the other workflow has done with this reference. */
    method AskOther(who: Owner, row: Op, o: Outside) returns (r: Reply, ghost steps: seq<Label>)
      requires KeysOk(store.Contents())
      modifies store`boxes, store`freights, store`mappings, provider
      ensures World(Stands(r, who, Idle)) == Run(old(World(ReadOther(who, row))), steps)
      ensures Follows(old(World(ReadOther(who, row))), steps, o)
      ensures Smooth(o.faults) && old(OpOf(store.Contents(), who)) == Some(row) ==>
        OtherEnds(old(store.Contents()), old(provider.posts), who, row, o, Ending(r, who))
      decreases 2
    {
      hide Run, Follows, KeysOk, OtherRequest, AroundOf, ForReview, PutOff, EndsAs, BoxLinked, FreightLinked, ShipmentEnds, JudgedEnds,
           ResolvedEnds, FetchEnds, GateEnds, RequestsEnd, NoRequestEnds, FreightsEnd, BoxesEnd, Handled;
      ghost var plain := Smooth(o.faults) && OpOf(store.Contents(), who) == Some(row);
      ghost var (t, ps, w) := (store.Contents(), provider.posts, AroundOf(store.Contents(), who));
      ghost var start := World(ReadOther(who, row));
      steps := OneStep(start, o, Broken, o.faults.other);
      if o.faults.other != Commits { return Broke, steps; }
      var found;
      if who.Box? { found := store.ShipmentSubmission(who.odooId, row.terms); } else { found := store.LegacyRequest(who.odooId, row.terms); }
      assert World(SeenOther(who, row, found)) == Run(start, steps);
      ghost var more := [];
      match found {
        case Review => r := Refused;
        case Ok(None) =>
          if who.Box? { r, more := Submit(who, row, o); } else { r, more := FindRequest(who, row, o); }
          steps := ContinuedBy(start, steps, more, o);
        case Ok(Some(requestId)) =>
          if who.Box? { r, more := SaveRequest(who, row, requestId, None, o); } else { r, more := Fetch(who, row, requestId, o); }
          steps := ContinuedBy(start, steps, more, o);
      }
      if plain {
        ghost var e := Ending(r, who);
        Raises(t, who, row, e);
        if who.Box? { FreightsRead(t, ps, who.odooId, row, o, e, GateEnds(w, ps, who, row, o, e)); }
        else { BoxesRead(t, ps, who.odooId, row, o, e, RequestsEnd(w, ps, who, row, o, e, NoRequestEnds(t, ps, who, row, o, e))); }
      }
    }

    /** `submitting` is committed before the one POST. */
    method Submit(who: Owner, row: Op, o: Outside) returns (r: Reply, ghost steps: seq<Label>)
      modifies store`boxes, store`freights, store`mappings, provider
      ensures World(Stands(r, who, Idle)) == Run(old(World(Gate(who, row))), steps)
      ensures Follows(old(World(Gate(who, row))), steps, o)
      ensures row.status == Submitting ==> provider.posts == old(provider.posts)
      ensures provider.posts == old(provider.posts) || provider.posts == old(provider.posts) + [Post(who, row.terms)]
      ensures Smooth(o.faults) && old(OpOf(store.Contents(), who)) == Some(row) ==>
        GateEnds(AroundOf(old(store.Contents()), who), old(provider.posts), who, row, o, Ending(r, who))
    {
      hide Run, Follows, Update, AroundOf, JudgedEnds, Handled, ForReview, PutOff;
      ghost var plain := Smooth(o.faults) && OpOf(store.Contents(), who) == Some(row);
      ghost var (t, ps, w) := (store.Contents(), provider.posts, AroundOf(store.Contents(), who));
      steps := [];
      if row.status == Submitting {
        Nowhere(World(Refusing(who)), o);
        if plain { Raises(t, who, row, Ending(Refused, who)); }
        return Refused, steps;
      }
      ghost var start := World(Claim(who, row));
      steps := OneStep(start, o, Broken, o.faults.claim);
      r := store.UpdateRow(who, Submitting, None, None, o.faults.claim);
      assert World(Stands(r, who, Sending(who, row))) == Run(start, steps);
      SameAround(t, store.Contents(), who);
      if r != Fine { return; }
      ghost var more := [];
      r, more := SendRequest(who, row, o);
      steps := ContinuedBy(start, steps, more, o);
    }

    method SendRequest(who: Owner, row: Op, o: Outside) returns (r: Reply, ghost steps: seq<Label>)
      modifies store`boxes, store`freights, store`mappings, provider
      ensures World(Stands(r, who, Idle)) == Run(old(World(Sending(who, row))), steps)
      ensures Follows(old(World(Sending(who, row))), steps, o)
      ensures provider.posts == old(provider.posts) || provider.posts == old(provider.posts) + [Post(who, row.terms)]
      ensures Smooth(o.faults) && old(OpOf(store.Contents(), who).Some? && OpOf(store.Contents(), who).value.terms == row.terms) ==>
        var (w, op, e) := (AroundOf(old(store.Contents()), who), old(OpOf(store.Contents(), who)).value, Ending(r, who));
        && e.posts == old(provider.posts) + [Post(who, row.terms)]
        && if o.created.None? then PutOff(w, op, e) else JudgedEnds(w, who, Joins(op, o.created.value.id), o.created.value, o, e)
    {
      hide Run, Follows, AroundOf, JudgedEnds, ResolvedEnds, ResolveFor, Handled, PutOff;
      ghost var plain := Smooth(o.faults) && OpOf(store.Contents(), who).Some? && OpOf(store.Contents(), who).value.terms == row.terms;
      ghost var (t, w, op) := (store.Contents(), AroundOf(store.Contents(), who), OpOf(store.Contents(), who));
      var answer := if o.created.None? then Broken else Hit(o.created.value.id, ResolveFor(who, row.terms, o.created.value));
      ghost var start := World(Sending(who, row));
      steps := OneStep(start, o, answer, o.faults.post);
      provider.CreateTrackingRequest(who, row.terms, o.faults.post);
      if o.faults.post != Commits || answer.Broken? {
        if plain { Raises(t, who, op.value, Ending(Broke, who)); }
        return Broke, steps;
      }
      assert World(Save(who, row, answer.id, Some(answer.resolution))) == Run(start, steps);
      ghost var more;
      r, more := SaveRequest(who, row, answer.id, Some(answer.resolution), o);
      steps := ContinuedBy(start, steps, more, o);
      if plain { JudgedAsRead(w, who, Joins(op.value, answer.id), o.created.value, o, Ending(r, who)); }
    }

    method Fetch(who: Owner, row: Op, requestId: string, o: Outside) returns (r: Reply, ghost steps: seq<Label>)
      modifies store`boxes, store`freights, store`mappings
      ensures World(Stands(r, who, Idle)) == Run(old(World(AskRequest(who, row, requestId))), steps)
      ensures Follows(old(World(AskRequest(who, row, requestId))), steps, o)
      ensures Smooth(o.faults) && old(OpOf(store.Contents(), who).Some? && OpOf(store.Contents(), who).value.terms == row.terms) ==>
        FetchEnds(AroundOf(old(store.Contents()), who), who, old(OpOf(store.Contents(), who)).value, requestId, o, Ending(r, who))
      decreases 1
    {
      hide Run, Follows, AroundOf, JudgedEnds, ResolvedEnds, ResolveFor, Handled, PutOff;
      ghost var plain := Smooth(o.faults) && OpOf(store.Contents(), who).Some? && OpOf(store.Contents(), who).value.terms == row.terms;
      ghost var (t, w, op) := (store.Contents(), AroundOf(store.Contents(), who), OpOf(store.Contents(), who));
      var answer := if o.request.None? then Broken else Hit(requestId, ResolveFor(who, row.terms, o.request.value));
      ghost var start := World(AskRequest(who, row, requestId));
      steps := OneStep(start, o, answer, Commits);
      assert World(SeenRequest(who, row, requestId, answer)) == Run(start, steps);
      if answer.Broken? {
        if plain { Raises(t, who, op.value, Ending(Broke, who)); }
        return Broke, steps;
      }
      ghost var more;
      if who.Box? { r, more := Resolve(who, row, answer.resolution, o); }
      else { r, more := SaveRequest(who, row, requestId, Some(answer.resolution), o); }
      steps := ContinuedBy(start, steps, more, o);
      if plain { JudgedAsRead(w, who, if who.Box? then op.value else Joins(op.value, requestId), o.request.value, o, Ending(r, who)); }
    }

    method SaveRequest(who: Owner, row: Op, requestId: string, next: Option<Resolution>, o: Outside) returns (r: Reply, ghost steps: seq<Label>)
      requires next.None? ==> who.Box?
      modifies store`boxes, store`freights, store`mappings
      ensures World(Stands(r, who, Idle)) == Run(old(World(Save(who, row, requestId, next))), steps)
      ensures Follows(old(World(Save(who, row, requestId, next))), steps, o)
      ensures Smooth(o.faults) && old(OpOf(store.Contents(), who).Some? && OpOf(store.Contents(), who).value.terms == row.terms) ==>
        var (w, op, e) := (AroundOf(old(store.Contents()), who), Joins(old(OpOf(store.Contents(), who)).value, requestId), Ending(r, who));
        if next.Some? then ResolvedEnds(w, who, op, next.value, o, e) else FetchEnds(w, who, op, requestId, o, e)
      decreases if next.None? then 2 else 0
    {
      hide Run, Follows, Update, AroundOf, ResolvedEnds, FetchEnds, Handled;
      ghost var plain := Smooth(o.faults) && OpOf(store.Contents(), who).Some? && OpOf(store.Contents(), who).value.terms == row.terms;
      ghost var (t, w, op) := (store.Contents(), AroundOf(store.Contents(), who), OpOf(store.Contents(), who));
      ghost var start := World(Save(who, row, requestId, next));
      steps := OneStep(start, o, Broken, o.faults.save);
      r := store.UpdateRow(who, Pending, Some(requestId), None, o.faults.save);
      assert World(Stands(r, who, if next.Some? then After(who, row, next.value) else AskRequest(who, row, requestId))) == Run(start, steps);
      SameAround(t, store.Contents(), who);
      if r != Fine { return; }
      ghost var more;
      if next.Some? { r, more := Resolve(who, row, next.value, o); } else { r, more := Fetch(who, row, requestId, o); }
      steps := ContinuedBy(start, steps, more, o);
    }

    /** `resolve_request` and `resolve`, once the request has been judged. */
    method Resolve(who: Owner, row: Op, resolution: Resolution, o: Outside) returns (r: Reply, ghost steps: seq<Label>)
      modifies store`boxes, store`freights, store`mappings
      ensures World(Stands(r, who, Idle)) == Run(old(World(After(who, row, resolution))), steps)
      ensures Follows(old(World(After(who, row, resolution))), steps, o)
      ensures Smooth(o.faults) && old(OpOf(store.Contents(), who).Some? && OpOf(store.Contents(), who).value.terms == row.terms) ==>
        ResolvedEnds(AroundOf(old(store.Contents()), who), who, old(OpOf(store.Contents(), who)).value, resolution, o, Ending(r, who))
    {
      hide Run, Follows, Update;
      steps := [];
      match resolution {
        case Reject => Nowhere(World(Refusing(who)), o); r := Refused;
        case Fails => r, steps := Settle(who, row, Failed, o);
        case Waits => r, steps := Settle(who, row, Pending, o);
        case Names(shipment) => r, steps := LookAtShipment(who, row, shipment, o);
      }
    }

    method Settle(who: Owner, row: Op, status: Status, o: Outside) returns (r: Reply, ghost steps: seq<Label>)
      requires status == Pending || status == Failed
      modifies store`boxes, store`freights
      ensures World(Stands(r, who, Idle)) == Run(old(World(if status == Pending then Waiting(who, row) else Failing(who, row))), steps)
      ensures Follows(old(World(if status == Pending then Waiting(who, row) else Failing(who, row))), steps, o)
      ensures Smooth(o.faults) && old(OpOf(store.Contents(), who).Some? && OpOf(store.Contents(), who).value.terms == row.terms) ==>
        EndsAs(AroundOf(old(store.Contents()), who), old(OpOf(store.Contents(), who)).value, status, Ending(r, who))
    {
      hide Run, Follows, Update;
      steps := OneStep(World(if status == Pending then Waiting(who, row) else Failing(who, row)), o, Broken, o.faults.settle);
      r := store.UpdateRow(who, status, None, None, o.faults.settle);
    }

    /** The shipment: its one matching container, or its whole listing. */
    method LookAtShipment(who: Owner, row: Op, shipment: string, o: Outside) returns (r: Reply, ghost steps: seq<Label>)
      modifies store`boxes, store`freights, store`mappings
      ensures World(Stands(r, who, Idle)) == Run(old(World(AskShipment(who, row, shipment))), steps)
      ensures Follows(old(World(AskShipment(who, row, shipment))), steps, o)
      ensures Smooth(o.faults) && old(OpOf(store.Contents(), who).Some? && OpOf(store.Contents(), who).value.terms == row.terms) ==>
        ShipmentEnds(AroundOf(old(store.Contents()), who), who, old(OpOf(store.Contents(), who)).value, shipment, o.shipment, Ending(r, who))
    {
      hide Run, Follows, AroundOf, ForReview, PutOff, EndsAs, BoxLinked, FreightLinked, ShipmentEnds, Handled;
      ghost var plain := Smooth(o.faults) && OpOf(store.Contents(), who).Some? && OpOf(store.Contents(), who).value.terms == row.terms;
      ghost var (t, w, op) := (store.Contents(), AroundOf(store.Contents(), who), OpOf(store.Contents(), who));
      var answer := ReadShipment(o.shipment, who, row.terms, shipment);
      ghost var start := World(AskShipment(who, row, shipment));
      steps := OneStep(start, o, answer, Commits);
      assert World(SeenShipment(who, row, shipment, answer)) == Run(start, steps);
      ghost var more := [];
      match answer {
        case Broken => r := Broke;
        case Doubtful => r := Refused;
        case Nothing => r, more := Settle(who, row, Pending, o); steps := ContinuedBy(start, steps, more, o);
        case Hit(id, _) =>
          if who.Box? { r, more := LinkContainer(who, row, id, o); steps := ContinuedBy(start, steps, more, o); }
          else if id != shipment { r := Refused; }
          else { r, more := Finish(who, id, o); steps := ContinuedBy(start, steps, more, o); }
      }
      if plain {
        Raises(t, who, op.value, Ending(r, who));
        ShipmentRead(w, who, op.value, shipment, answer, o.shipment, Ending(r, who));
      }
    }

    /** `Initiator.link`: the mapping first, then the operation. */
    method LinkContainer(who: Owner, row: Op, container: string, o: Outside) returns (r: Reply, ghost steps: seq<Label>)
      modifies store`boxes, store`freights, store`mappings
      ensures World(Stands(r, who, Idle)) == Run(old(World(Binding(who, row, container))), steps)
      ensures Follows(old(World(Binding(who, row, container))), steps, o)
      ensures Smooth(o.faults) && who.Box? && old(OpOf(store.Contents(), who).Some? && OpOf(store.Contents(), who).value.terms == row.terms) ==>
        BoxLinked(AroundOf(old(store.Contents()), who), who.odooId, old(OpOf(store.Contents(), who)).value, container, Ending(r, who))
    {
      hide Run, Follows, Bind;
      ghost var start := World(Binding(who, row, container));
      steps := OneStep(start, o, Broken, o.faults.bind);
      r := store.BindMapping(container, who.odooId, row.terms.number, true, true, o.now, o.faults.bind);
      assert World(Stands(r, who, Linking(who, container))) == Run(start, steps);
      if r != Fine { return; }
      ghost var more;
      r, more := Finish(who, container, o);
      steps := ContinuedBy(start, steps, more, o);
    }

    method Finish(who: Owner, link: string, o: Outside) returns (r: Reply, ghost steps: seq<Label>)
      modifies store`boxes, store`freights
      ensures World(Stands(r, who, Idle)) == Run(old(World(Linking(who, link))), steps)
      ensures Follows(old(World(Linking(who, link))), steps, o)
      ensures Smooth(o.faults) && old(OpOf(store.Contents(), who).Some?) ==>
        if who.Freight? then FreightLinked(AroundOf(old(store.Contents()), who), old(OpOf(store.Contents(), who)).value, link, Ending(r, who))
        else Ending(r, who).op == Some(old(OpOf(store.Contents(), who)).value.(status := Linked, link := Some(link), attempts := 0)) && r == Fine
    {
      hide Run, Follows, Update;
      steps := OneStep(World(Linking(who, link)), o, Broken, o.faults.link);
      r := store.UpdateRow(who, Linked, None, Some(link), o.faults.link);
    }
  }

  lemma InvKeys(s: Sys)
    requires Inv(s)
    ensures KeysOk(s.t)
  {
  }

  lemma IdleIsSpent(s: Sys, who: Owner)
    requires s.pc.Idle? && OpOf(s.t, who).Some? && OpOf(s.t, who).value.status != Queued
    ensures Spent(s, who)
  {
  }

  lemma Nowhere(s: Sys, o: Outside)
    ensures Run(s, []) == s && Follows(s, [], o)
  {
  }

  lemma Beginning(s: Sys, who: Owner)
    requires Enabled(s, Begin(who))
    ensures Run(s, [Begin(who)]) == s.(pc := First(who, OpOf(s.t, who).value))
  {
    assert [Begin(who)][..0] == [];
  }
}
