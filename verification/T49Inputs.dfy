/** How the outside world decides an attempt: what the provider answers, and
    which calls fail, call for one step after the other
    (src/integrations/terminal49_client/initiation.py and shipments.py). */
module T49Inputs {
  import opened Outcomes
  import opened Sums
  import opened Counting
  import opened T49Choice
  import opened T49Discovery
  import opened T49Tables
  import opened T49Machine
  import opened T49Outcomes

  function ResolveFor(who: Owner, q: Terms, r: Resource): Resolution {
    if who.Box? then ResolveForContainer(q, r) else ResolveForShipment(q, r)
  }

  // ------------------------------------------- which step the inputs call for

  function NoneOrBroken<T>(o: Option<T>, answer: Answer): bool { o.None? <==> answer.Broken? }

  ghost predicate FromContainers(o: Option<Doc>, q: Terms, answer: Answer) {
    && NoneOrBroken(o, answer)
    && (o.Some? ==>
          && (answer.Nothing? <==> Judgeable(o.value, q) && NonePasses(o.value, q))
          && (forall id :: answer == Hit(id, Waits) <==> Judgeable(o.value, q) && OneLive(o.value, q, id))
          && (answer.Hit? ==> answer.resolution == Waits))
  }

  /** `x` is our own request, or the only match. */
  ghost predicate Chosen(data: seq<Resource>, q: Terms, marker: string, x: Resource) {
    Sole(data, Own(q, marker), x) || (Sole(data, Matches(q), x) && !Own(q, marker)(x))
  }

  ghost predicate FromRequests(o: Option<seq<Resource>>, who: Owner, q: Terms, marker: string, answer: Answer) {
    && NoneOrBroken(o, answer)
    && (o.Some? ==>
          && (answer.Nothing? <==> forall x | x in o.value :: !Matches(q)(x))
          && (answer.Hit? <==> exists x :: Chosen(o.value, q, marker, x))
          && (answer.Hit? ==> exists x :: Chosen(o.value, q, marker, x) && answer == Hit(x.id, ResolveFor(who, q, x))))
  }

  ghost predicate FromShipments(o: Option<seq<Resource>>, q: Terms, answer: Answer) {
    && NoneOrBroken(o, answer)
    && (o.Some? ==>
          && (answer.Nothing? <==> forall x | x in o.value :: !OnBill(q)(x))
          && (answer.Hit? <==> exists x :: Sole(o.value, OnBill(q), x) && x.stopped == Some(false))
          && (answer.Hit? ==> exists x :: Sole(o.value, OnBill(q), x) && answer.id == x.id))
  }

  function FromRequest(o: Option<Resource>, who: Owner, q: Terms, requestId: string): Answer {
    if o.None? then Broken else Hit(requestId, ResolveFor(who, q, o.value))
  }

  function FromPost(o: Option<Resource>, who: Owner, q: Terms): Answer {
    if o.None? then Broken else Hit(o.value.id, ResolveFor(who, q, o.value))
  }

  ghost predicate FromShipment(o: Option<ShipmentDoc>, who: Owner, q: Terms, sid: string, answer: Answer) {
    if o.None? then answer.Broken?
    else if who.Box? then
      && (answer.Nothing? <==> !StoppedNow(o.value) && Candidates(o.value, q) == {})
      && (forall cid :: TheContainer(o.value, q, sid, cid) <==> answer.Hit? && answer.id == cid)
      && !answer.Broken?
    else
      && (answer.Hit? <==> DiscoveryAccepted(o.value, q))
      && (answer.Hit? ==> answer.id == o.value.primary.id)
      && (answer.Broken? <==> DiscoveryInvalid(o.value, q))
      && !answer.Nothing?
  }

  /** The step is the one that the outside world's inputs call for at `pc`. */
  ghost predicate Honest(pc: Pc, o: Outside, l: Label) {
    && l.Go? && l.now == o.now
    && match pc
       case Idle => true
       case AskContainers(_, row) => FromContainers(o.containers, row.terms, l.answer)
       case AskRequests(who, row) => FromRequests(o.requests, who, row.terms, o.marker, l.answer)
       case AskShipments(_, row) => FromShipments(o.shipments, row.terms, l.answer)
       case AskRequest(who, row, requestId) => l.answer == FromRequest(o.request, who, row.terms, requestId)
       case AskShipment(who, row, sid) => FromShipment(o.shipment, who, row.terms, sid, l.answer)
       case ReadOther(_, _) => l.db == o.faults.other
       case Claim(_, _) => l.db == o.faults.claim
       case Sending(who, row) => l.db == o.faults.post && l.answer == FromPost(o.created, who, row.terms)
       case Save(_, _, _, _) => l.db == o.faults.save
       case Waiting(_, _) => l.db == o.faults.settle
       case Failing(_, _) => l.db == o.faults.settle
       case Binding(_, _, _) => l.db == o.faults.bind
       case Linking(_, _) => l.db == o.faults.link
       case Refusing(_) => l.db == o.faults.handler
       case Deferring(_) => l.db == o.faults.handler
  }

  /** A run of one worker in which the inputs decide every step. As it ends
      idle, they decide the final world. */
  ghost predicate Follows(s: Sys, steps: seq<Label>, o: Outside) {
    forall i | 0 <= i < |steps| :: Honest(Run(s, steps[..i]).pc, o, steps[i])
  }

  /** Two honest steps from one state do the same. */
  lemma OneHonestStep(s: Sys, o: Outside, l: Label, k: Label)
    requires Honest(s.pc, o, l) && Honest(s.pc, o, k)
    ensures Step(s, l.answer, l.db, l.now) == Step(s, k.answer, k.db, k.now)
  {
    hide Judgeable, NonePasses, OneLive, Sole, OtherRequest, Update, BindIn, Transact, Transmit, Handle, Defer, DiscoveryAccepted, DiscoveryInvalid, TheContainer;
    match s.pc
    case AskContainers(_, row) => if l.answer.Hit? { assert OneContainer(o, row.terms, l.answer.id); }
    case AskRequests(who, row) => if l.answer.Hit? { OneRequest(o, who, row.terms, l.answer, k.answer); }
    case AskShipments(_, row) => if l.answer.Hit? { OneShipment(o, row.terms, l.answer, k.answer); }
    case AskShipment(who, row, sid) => OneListing(o, who, row.terms, sid, l.answer, k.answer);
    case _ =>
  }

  ghost predicate OneContainer(o: Outside, q: Terms, id: string) {
    o.containers.Some? && Judgeable(o.containers.value, q) && OneLive(o.containers.value, q, id)
  }

  lemma OneRequest(o: Outside, who: Owner, q: Terms, a: Answer, b: Answer)
    requires FromRequests(o.requests, who, q, o.marker, a) && FromRequests(o.requests, who, q, o.marker, b) && a.Hit?
    ensures a == b
  {
    var data := o.requests.value;
    var x :| Chosen(data, q, o.marker, x) && a == Hit(x.id, ResolveFor(who, q, x));
    assert b.Hit?;
    var y :| Chosen(data, q, o.marker, y) && b == Hit(y.id, ResolveFor(who, q, y));
    ChosenIsOne(data, q, o.marker, x, y);
  }

  lemma SoleIsOne<T>(s: seq<T>, p: T -> bool, x: T, y: T)
    requires Sole(s, p, x) && Sole(s, p, y)
    ensures x == y && p(x)
  {
    var i :| SoleAt(s, p, x, i);
    var j :| SoleAt(s, p, y, j);
    assert s[j] == y;
  }

  lemma ChosenIsOne(data: seq<Resource>, q: Terms, marker: string, x: Resource, y: Resource)
    requires Chosen(data, q, marker, x) && Chosen(data, q, marker, y)
    ensures x == y
  {
    var own, matches := Own(q, marker), Matches(q);
    if Sole(data, own, x) && Sole(data, own, y) { SoleIsOne(data, own, x, y); }
    else if Sole(data, matches, x) && Sole(data, matches, y) { SoleIsOne(data, matches, x, y); }
    else if Sole(data, own, x) { OwnIsSoleMatch(data, q, marker, x, y); }
    else { OwnIsSoleMatch(data, q, marker, y, x); }
  }

  /** If ours is the only one of ours and `y` the only match, they are the same. */
  lemma OwnIsSoleMatch(data: seq<Resource>, q: Terms, marker: string, x: Resource, y: Resource)
    requires Sole(data, Own(q, marker), x) && Sole(data, Matches(q), y)
    ensures x == y
  {
    var i :| SoleAt(data, Own(q, marker), x, i);
    var j :| SoleAt(data, Matches(q), y, j);
    assert Matches(q)(data[i]);
  }

  lemma OneShipment(o: Outside, q: Terms, a: Answer, b: Answer)
    requires FromShipments(o.shipments, q, a) && FromShipments(o.shipments, q, b) && a.Hit?
    ensures b.Hit? && a.id == b.id
  {
    var x :| Sole(o.shipments.value, OnBill(q), x) && a.id == x.id;
    var y :| Sole(o.shipments.value, OnBill(q), y) && b.id == y.id;
    SoleIsOne(o.shipments.value, OnBill(q), x, y);
  }

  lemma OneListing(o: Outside, who: Owner, q: Terms, sid: string, a: Answer, b: Answer)
    requires FromShipment(o.shipment, who, q, sid, a) && FromShipment(o.shipment, who, q, sid, b)
    ensures a == b || (a.Hit? && b.Hit? && a.id == b.id)
  {
    hide DiscoveryAccepted, DiscoveryInvalid, TheContainer, Candidates, StoppedNow;
    if o.shipment.Some? && who.Box? {
      if a.Hit? { assert TheContainer(o.shipment.value, q, sid, a.id); }
      if b.Hit? { assert TheContainer(o.shipment.value, q, sid, b.id); }
    }
  }

  /** The inputs decide the outcome: runs that follow them and end idle end in
      the same world. */
  lemma InputsDecide(s: Sys, a: seq<Label>, b: seq<Label>, o: Outside)
    requires Follows(s, a, o) && Follows(s, b, o) && Run(s, a).pc.Idle? && Run(s, b).pc.Idle?
    ensures Run(s, a) == Run(s, b)
  {
    if |a| <= |b| { ShorterDecides(s, a, b, o); } else { ShorterDecides(s, b, a, o); }
  }

  lemma {:induction false} ShorterDecides(s: Sys, a: seq<Label>, b: seq<Label>, o: Outside)
    requires Follows(s, a, o) && Follows(s, b, o) && Run(s, a).pc.Idle? && |a| <= |b|
    ensures Run(s, a) == Run(s, b)
  {
    hide Honest, Run, Step;
    SameSoFar(s, a, b, o, |a|);
    assert a[..|a|] == a && b == b[..|a|] + b[|a|..];
    RunConcat(s, b[..|a|], b[|a|..]);
    forall i | 0 <= i < |b[|a|..]| ensures b[|a|..][i].Go? { GoesOn(s, b, o, |a| + i); }
    IdleStays(Run(s, a), b[|a|..]);
  }

  lemma GoesOn(s: Sys, b: seq<Label>, o: Outside, i: nat)
    requires Follows(s, b, o) && i < |b|
    ensures b[i].Go?
  {
    assert Honest(Run(s, b[..i]).pc, o, b[i]);
  }

  lemma {:induction false} SameSoFar(s: Sys, a: seq<Label>, b: seq<Label>, o: Outside, i: nat)
    requires Follows(s, a, o) && Follows(s, b, o) && i <= |a| && i <= |b|
    ensures Run(s, a[..i]) == Run(s, b[..i])
  {
    hide Honest, Step;
    if i > 0 {
      SameSoFar(s, a, b, o, i - 1);
      assert a[..i][..i - 1] == a[..i - 1] && b[..i][..i - 1] == b[..i - 1];
      GoesOn(s, a, o, i - 1);
      GoesOn(s, b, o, i - 1);
      OneHonestStep(Run(s, a[..i - 1]), o, a[i - 1], b[i - 1]);
    }
  }

  lemma {:induction false} IdleStays(s: Sys, ls: seq<Label>)
    requires s.pc.Idle? && forall i | 0 <= i < |ls| :: ls[i].Go?
    ensures Run(s, ls) == s
  {
    if ls != [] { IdleStays(s, ls[..|ls| - 1]); }
  }

  lemma FollowsConcat(s: Sys, a: seq<Label>, b: seq<Label>, o: Outside)
    requires Follows(s, a, o) && Follows(Run(s, a), b, o)
    ensures Follows(s, a + b, o)
  {
    hide Honest, Run;
    forall i | 0 <= i < |a + b| ensures Honest(Run(s, (a + b)[..i]).pc, o, (a + b)[i]) {
      if i < |a| {
        assert (a + b)[..i] == a[..i];
      } else {
        assert (a + b)[..i] == a + b[..i - |a|];
        RunConcat(s, a, b[..i - |a|]);
        assert Honest(Run(Run(s, a), b[..i - |a|]).pc, o, b[i - |a|]);
      }
    }
  }

  /** One honest step. */
  ghost function OneStep(start: Sys, o: Outside, answer: Answer, db: Db): (r: seq<Label>)
    requires Honest(start.pc, o, Go(answer, db, o.now))
    ensures Run(start, r) == Step(start, answer, db, o.now) && Follows(start, r, o)
  {
    assert [Go(answer, db, o.now)][..0] == [];
    [Go(answer, db, o.now)]
  }

  ghost function ContinuedBy(start: Sys, first: seq<Label>, more: seq<Label>, o: Outside): (ls: seq<Label>)
    requires Follows(start, first, o) && Follows(Run(start, first), more, o)
    ensures Run(start, ls) == Run(Run(start, first), more) && Follows(start, ls, o)
  {
    RunConcat(start, first, more);
    FollowsConcat(start, first, more, o);
    first + more
  }

  lemma {:induction false} RunConcat(s: Sys, a: seq<Label>, b: seq<Label>)
    ensures Run(s, a + b) == Run(Run(s, a), b)
  {
    if b == [] {
      assert a + b == a;
    } else {
      RunConcat(s, a, b[..|b| - 1]);
      assert (a + b)[..|a + b| - 1] == a + b[..|b| - 1];
    }
  }
}
