/** Every step of the two workflows, and every API call between the steps,
    keeps the invariant. */
module T49Steps {
  import opened Outcomes
  import opened T49Choice
  import opened T49Discovery
  import opened T49Tables
  import opened T49Machine
  import opened T49Invariant

  // ------------------------------------------------------ kinds of change

  lemma Moves(s: Sys, pc: Pc)
    requires Inv(s) && PcOk(s, pc)
    ensures Inv(s.(pc := pc)) && Grows(s, s.(pc := pc))
  {
    var u := s.(pc := pc);
    forall who ensures OwnerOk(u, who) { assert OwnerOk(s, who); }
    assert PcOk(u, pc) by { SamePcOk(s, u, pc); }
  }

  lemma SamePcOk(s: Sys, u: Sys, pc: Pc)
    requires u.t == s.t && u.posts == s.posts && PcOk(s, pc)
    ensures PcOk(u, pc)
  {
  }

  /** The new row of `who` may take the place of the old one. */
  predicate Replaces(t: Tables, who: Owner, op: Op, posted: nat) {
    && OpOf(t, who).Some?
    && var was := OpOf(t, who).value;
    && OpGrows(who, was, op) && OpOk(t, who, op, posted)
    && (who.Box? && Open(op.status) ==> Open(was.status))
    && (who.Freight? ==> op.link == was.link || (op.link.Some? && !ShipmentTaken(t, who.odooId, op.link.value)))
  }

  lemma OpAfterPut(t: Tables, who: Owner, op: Op)
    ensures OpOf(Put(t, who, op), who) == Some(op)
    ensures forall other | other != who :: OpOf(Put(t, who, op), other) == OpOf(t, other)
  {
  }

  lemma PutKeepsKeys(t: Tables, who: Owner, op: Op, posted: nat)
    requires KeysOk(t) && Replaces(t, who, op, posted)
    ensures KeysOk(Put(t, who, op))
  {
    var o, u := who.odooId, Put(t, who, op);
    match who {
      case Box(_) =>
        assert u.freights == t.freights && u.boxes == t.boxes[o := op];
      case Freight(_) =>
        assert u.boxes == t.boxes && u.freights == t.freights[o := op];
        assert op.link.Some? && op.link != t.freights[o].link ==>
          forall p | p in t.freights && p != o :: t.freights[p].link != op.link;
    }
  }

  lemma Puts(s: Sys, who: Owner, op: Op, pc: Pc)
    requires Inv(s) && Replaces(s.t, who, op, Posted(s.posts, who))
    requires PcOk(Sys(Put(s.t, who, op), s.posts, pc), pc)
    ensures var u := Sys(Put(s.t, who, op), s.posts, pc); Inv(u) && Grows(s, u)
  {
    hide PcOk, KeysOk, Put, OpOf;
    var u := Sys(Put(s.t, who, op), s.posts, pc);
    OpAfterPut(s.t, who, op);
    PutKeepsKeys(s.t, who, op, Posted(s.posts, who));
    PutFrame(s.t, who, op);
    forall other ensures OwnerOk(u, other) { assert OwnerOk(s, other); }
    forall i | 0 <= i < |u.posts| ensures PostOk(u.t, u.posts[i]) { assert PostOk(s.t, s.posts[i]); }
    forall i, j | 0 <= i < j < |u.posts| && Rivals(u.posts[i], u.posts[j]) ensures StatusIs(u.t, u.posts[i].who, Failed) {
      assert StatusIs(s.t, s.posts[i].who, Failed);
    }
  }

  lemma PutFrame(t: Tables, who: Owner, op: Op)
    ensures Put(t, who, op).mappings == t.mappings && Put(t, who, op).company == t.company
  {
  }

  // --------------------------------------------------------- worker's writes

  /** What an update by the worker writes. */
  function Updated(op: Op, status: Status, requestId: Option<string>, link: Option<string>): Op {
    Op(op.terms, status, Coalesce(requestId, op.requestId), Coalesce(link, op.link), 0)
  }

  /** One UPDATE that may commit, fail, or commit and fail. */
  lemma Updates(s: Sys, who: Owner, status: Status, requestId: Option<string>, link: Option<string>, next: Pc, db: Db)
    requires Inv(s) && OpOf(s.t, who).Some?
    requires PcOk(s, Deferring(who)) && PcOk(s, Refusing(who))
    requires var op := Updated(OpOf(s.t, who).value, status, requestId, link);
      && OpGrows(who, OpOf(s.t, who).value, op) && OpOk(s.t, who, op, Posted(s.posts, who))
      && (who.Box? && Open(status) ==> Open(OpOf(s.t, who).value.status))
      && PcOk(Sys(Put(s.t, who, op), s.posts, next), next)
    ensures var u := Transact(s, who, Update(s.t, who, status, requestId, link), next, db); Inv(u) && Grows(s, u)
  {
    hide PcOk, OpOk, OpGrows, Put;
    var op := Updated(OpOf(s.t, who).value, status, requestId, link);
    if db == Aborts {
      Moves(s, Deferring(who));
    } else if Update(s.t, who, status, requestId, link).Review? {
      Moves(s, Refusing(who));
    } else {
      WroteIsDeferrable(s, who, op);
      Puts(s, who, op, if db == Commits then next else Deferring(who));
    }
  }

  lemma WroteIsDeferrable(s: Sys, who: Owner, op: Op)
    requires op.attempts == 0
    ensures PcOk(Sys(Put(s.t, who, op), s.posts, Deferring(who)), Deferring(who))
  {
    OpAfterPut(s.t, who, op);
  }

  lemma Claims(s: Sys, db: Db)
    requires Inv(s) && s.pc.Claim?
    ensures var u := Transact(s, s.pc.who, Update(s.t, s.pc.who, Submitting, None, None), Sending(s.pc.who, s.pc.row), db); Inv(u) && Grows(s, u)
  {
    hide KeysOk, PostOk, Exclusive;
    assert OwnerOk(s, s.pc.who);
    Updates(s, s.pc.who, Submitting, None, None, Sending(s.pc.who, s.pc.row), db);
  }

  lemma Saves(s: Sys, db: Db)
    requires Inv(s) && s.pc.Save?
    ensures var u := Transact(s, s.pc.who, Update(s.t, s.pc.who, Pending, Some(s.pc.requestId), None),
        if s.pc.next.Some? then After(s.pc.who, s.pc.row, s.pc.next.value) else AskRequest(s.pc.who, s.pc.row, s.pc.requestId), db);
      Inv(u) && Grows(s, u)
  {
    hide KeysOk, PostOk, Exclusive;
    var who, row, requestId := s.pc.who, s.pc.row, s.pc.requestId;
    assert OwnerOk(s, who);
    Updates(s, who, Pending, Some(requestId), None, if s.pc.next.Some? then After(who, row, s.pc.next.value) else AskRequest(who, row, requestId), db);
  }

  lemma Settles(s: Sys, db: Db)
    requires Inv(s) && (s.pc.Waiting? || s.pc.Failing?)
    ensures var u := Transact(s, s.pc.who, Update(s.t, s.pc.who, if s.pc.Waiting? then Pending else Failed, None, None), Idle, db); Inv(u) && Grows(s, u)
  {
    assert OwnerOk(s, s.pc.who);
    Updates(s, s.pc.who, if s.pc.Waiting? then Pending else Failed, None, None, Idle, db);
  }

  lemma Links(s: Sys, db: Db)
    requires Inv(s) && s.pc.Linking?
    ensures var u := Transact(s, s.pc.who, Update(s.t, s.pc.who, Linked, None, Some(s.pc.link)), Idle, db); Inv(u) && Grows(s, u)
  {
    assert OwnerOk(s, s.pc.who);
    Updates(s, s.pc.who, Linked, None, Some(s.pc.link), Idle, db);
  }

  lemma Refuses(s: Sys, db: Db)
    requires Inv(s) && s.pc.Refusing?
    ensures var u := Handle(s, Called(s, Update(s.t, s.pc.who, Attention, None, None)).t, db); Inv(u) && Grows(s, u)
  {
    var who := s.pc.who;
    assert OwnerOk(s, who);
    if db == Aborts { Moves(s, Idle); }
    else { Puts(s, who, Updated(OpOf(s.t, who).value, Attention, None, None), Idle); }
  }

  lemma Defers(s: Sys, db: Db)
    requires Inv(s) && s.pc.Deferring?
    ensures var u := Handle(s, Defer(s.t, s.pc.who), db); Inv(u) && Grows(s, u)
  {
    hide Put, Inv, PcOk, Replaces;
    if db == Aborts { IdleIsOk(s); Moves(s, Idle); }
    else { DeferredRow(s); IdleIsOk(Sys(Put(s.t, s.pc.who, Deferred(OpOf(s.t, s.pc.who).value)), s.posts, Idle)); Puts(s, s.pc.who, Deferred(OpOf(s.t, s.pc.who).value), Idle); }
  }

  function Deferred(op: Op): Op {
    op.(attempts := op.attempts + 1, status := if op.attempts >= 7 then Attention else op.status)
  }

  lemma IdleIsOk(s: Sys)
    ensures PcOk(s, Idle)
  {
  }

  lemma DeferredRow(s: Sys)
    requires Inv(s) && s.pc.Deferring?
    ensures OpOf(s.t, s.pc.who).Some?
    ensures Replaces(s.t, s.pc.who, Deferred(OpOf(s.t, s.pc.who).value), Posted(s.posts, s.pc.who))
  {
    hide KeysOk, Exclusive, Posted;
    assert OwnerOk(s, s.pc.who);
  }

  /** Binding changes the mapping table only. */
  lemma Binds(s: Sys, ms: map<Slot, Mapping>, pc: Pc)
    requires Inv(s) && OneToOne(ms) && MappingsGrow(s.t.mappings, ms)
    requires PcOk(Sys(s.t.(mappings := ms), s.posts, pc), pc)
    ensures var u := Sys(s.t.(mappings := ms), s.posts, pc); Inv(u) && Grows(s, u)
  {
    hide PcOk;
    var u := Sys(s.t.(mappings := ms), s.posts, pc);
    forall who ensures OpOf(u.t, who) == OpOf(s.t, who) && OwnerOk(u, who) { assert OwnerOk(s, who); }
    forall i | 0 <= i < |u.posts| ensures PostOk(u.t, u.posts[i]) { assert PostOk(s.t, s.posts[i]); }
    forall i, j | 0 <= i < j < |u.posts| && Rivals(u.posts[i], u.posts[j]) ensures StatusIs(u.t, u.posts[i].who, Failed) {
      assert StatusIs(s.t, s.posts[i].who, Failed);
    }
  }

  lemma BindStep(s: Sys, db: Db, now: int)
    requires Inv(s) && s.pc.Binding?
    ensures var u := Transact(s, s.pc.who, BindIn(s.t, s.pc.container, s.pc.who.odooId, s.pc.row.terms.number, true, true, now),
                              Linking(s.pc.who, s.pc.container), db);
      Inv(u) && Grows(s, u)
  {
    var who, row, container := s.pc.who, s.pc.row, s.pc.container;
    var slot := Slot(s.t.company, container);
    BindKeeps(s.t.mappings, slot, who.odooId, row.terms.number, true, true, now);
    var r := Bind(s.t.mappings, slot, who.odooId, row.terms.number, true, true, now);
    if db == Aborts {
      Moves(s, Deferring(who));
    } else if r.Review? {
      Moves(s, Refusing(who));
    } else {
      Binds(s, r.value, if db == Commits then Linking(who, container) else Deferring(who));
    }
  }

  // ---------------------------------------------------------------- the POST

  lemma PostedSnoc(posts: seq<Post>, p: Post, who: Owner)
    ensures Posted(posts + [p], who) == Posted(posts, who) + if p.who == who then 1 else 0
  {
    assert (posts + [p])[..|posts|] == posts;
  }

  lemma Transmits(s: Sys, answer: Answer, db: Db)
    requires Inv(s) && s.pc.Sending?
    ensures var u := Transmit(s, s.pc.who, s.pc.row, answer, db); Inv(u) && Grows(s, u)
  {
    var who, row := s.pc.who, s.pc.row;
    if db == Aborts {
      Moves(s, Deferring(who));
    } else {
      var u, p := Transmit(s, who, row, answer, db), Post(who, row.terms);
      assert OwnerOk(s, who);
      SentOnce(s, p);
      forall i | 0 <= i < |u.posts| ensures PostOk(u.t, u.posts[i]) { if i < |s.posts| { assert PostOk(s.t, s.posts[i]); } }
      StaysExclusive(s, u, p);
    }
  }

  lemma SentOnce(s: Sys, p: Post)
    requires Inv(s) && Posted(s.posts, p.who) == 0 && OpOf(s.t, p.who).Some? && OpOf(s.t, p.who).value.status == Submitting
    ensures forall pc, who :: OwnerOk(Sys(s.t, s.posts + [p], pc), who)
  {
    forall pc, who ensures OwnerOk(Sys(s.t, s.posts + [p], pc), who) {
      assert OwnerOk(s, who);
      PostedSnoc(s.posts, p, who);
    }
  }

  lemma StaysExclusive(s: Sys, u: Sys, p: Post)
    requires Inv(s) && Clear(s.t, p.who, p.terms)
    requires u.t == s.t && u.posts == s.posts + [p]
    ensures Exclusive(u)
  {
    var n := |s.posts|;
    forall i, j | 0 <= i < j < |u.posts| && Rivals(u.posts[i], u.posts[j]) ensures StatusIs(u.t, u.posts[i].who, Failed) {
      assert PostOk(s.t, s.posts[i]);
      if j == n {
        var w := s.posts[i].who;
        assert !Engaged(OpOf(s.t, w).value.status) by {
          match w { case Box(o) => assert o in s.t.boxes; case Freight(o) => assert o in s.t.freights; }
        }
      } else {
        assert Rivals(s.posts[i], s.posts[j]);
      }
    }
  }

  // ----------------------------------------------------------- asking around

  /** The other workflow answers "free" only when none of its rows is engaged. */
  lemma FreeMeansClear(t: Tables, who: Owner, terms: Terms)
    requires OtherRequest(t, who, terms) == Ok(None)
    ensures Clear(t, who, terms)
  {
    match who
    case Box(_) => assert forall o :: o in Submissions(t, terms) <==> o in t.freights && SameReference(t.freights[o].terms, terms) && Engaged(t.freights[o].status);
    case Freight(_) => assert forall o :: o in Legacy(t, terms) <==> o in t.boxes && SameReference(t.boxes[o].terms, terms) && Engaged(t.boxes[o].status);
  }

  /** Shipments are never tracked by container number, so that reference is free. */
  lemma ContainerNumbersAreClear(s: Sys, who: Owner, terms: Terms)
    requires Inv(s) && who.Box? && terms.kind.ByContainer?
    ensures Clear(s.t, who, terms)
  {
    forall o | o in s.t.freights ensures !s.t.freights[o].terms.kind.ByContainer? { assert OwnerOk(s, Freight(o)); }
  }

  lemma Gates(s: Sys, who: Owner, row: Op)
    requires Inv(s) && Unsent(s.t, who, row) && Clear(s.t, who, row.terms)
    ensures PcOk(s, Gate(who, row))
  {
    assert OwnerOk(s, who);
  }

  lemma ReadsOther(s: Sys, who: Owner, row: Op, db: Db)
    requires Inv(s) && Unsent(s.t, who, row)
    ensures PcOk(s, if db == Commits then SeenOther(who, row, OtherRequest(s.t, who, row.terms)) else Deferring(who))
  {
    assert OwnerOk(s, who);
    var r := OtherRequest(s.t, who, row.terms);
    if r == Ok(None) { FreeMeansClear(s.t, who, row.terms); Gates(s, who, row); }
  }

  lemma Asks(s: Sys, answer: Answer)
    requires Inv(s) && (s.pc.AskContainers? || s.pc.AskRequests? || s.pc.AskShipments?)
    ensures s.pc.AskContainers? ==> PcOk(s, SeenContainers(s.pc.who, s.pc.row, answer))
    ensures s.pc.AskRequests? ==> PcOk(s, SeenRequests(s.pc.who, s.pc.row, answer))
    ensures s.pc.AskShipments? ==> PcOk(s, SeenShipments(s.pc.who, s.pc.row, answer))
  {
    var who, row := s.pc.who, s.pc.row;
    assert OwnerOk(s, who);
    if who.Box? && row.terms.kind.ByContainer? { ContainerNumbersAreClear(s, who, row.terms); }
    if Clear(s.t, who, row.terms) { Gates(s, who, row); }
  }

  lemma Fetches(s: Sys, answer: Answer)
    requires Inv(s) && (s.pc.AskRequest? || s.pc.AskShipment?)
    ensures s.pc.AskRequest? ==> PcOk(s, SeenRequest(s.pc.who, s.pc.row, s.pc.requestId, answer))
    ensures s.pc.AskShipment? ==> PcOk(s, SeenShipment(s.pc.who, s.pc.row, s.pc.shipment, answer))
  {
    assert OwnerOk(s, s.pc.who);
  }

  predicate Reads(pc: Pc) {
    pc.AskContainers? || pc.AskRequests? || pc.AskShipments? || pc.AskRequest? || pc.AskShipment? || pc.ReadOther?
  }

  lemma ReadKeeps(s: Sys, answer: Answer, db: Db, now: int)
    requires Inv(s) && Reads(s.pc)
    ensures Inv(Step(s, answer, db, now)) && Grows(s, Step(s, answer, db, now))
  {
    hide Inv, Grows, PcOk, OtherRequest, SeenContainers, SeenRequests, SeenShipments, SeenRequest, SeenShipment, SeenOther;
    var who, row := s.pc.who, s.pc.row;
    match s.pc
    case AskContainers(_, _) => Asks(s, answer); Moves(s, SeenContainers(who, row, answer));
    case AskRequests(_, _) => Asks(s, answer); Moves(s, SeenRequests(who, row, answer));
    case AskShipments(_, _) => Asks(s, answer); Moves(s, SeenShipments(who, row, answer));
    case AskRequest(_, _, requestId) => Fetches(s, answer); Moves(s, SeenRequest(who, row, requestId, answer));
    case AskShipment(_, _, shipment) => Fetches(s, answer); Moves(s, SeenShipment(who, row, shipment, answer));
    case ReadOther(_, _) =>
      assert Unsent(s.t, who, row) by { KnowsUnsent(s); }
      ReadsOther(s, who, row, db);
      Moves(s, if db == Commits then SeenOther(who, row, OtherRequest(s.t, who, row.terms)) else Deferring(who));
  }

  lemma StepKeeps(s: Sys, answer: Answer, db: Db, now: int)
    requires Inv(s)
    ensures Inv(Step(s, answer, db, now)) && Grows(s, Step(s, answer, db, now))
  {
    hide Inv, Grows, PcOk, Transact, Handle, Update, BindIn, Transmit, OtherRequest, SeenContainers, SeenRequests, SeenShipments,
         SeenRequest, SeenShipment, SeenOther, After, Called, Defer;
    if Reads(s.pc) {
      ReadKeeps(s, answer, db, now);
      return;
    }
    match s.pc
    case Idle => Stays(s);
    case Claim(_, _) => Claims(s, db);
    case Sending(_, _) => Transmits(s, answer, db);
    case Save(_, _, _, _) => Saves(s, db);
    case Waiting(_, _) => Settles(s, db);
    case Failing(_, _) => Settles(s, db);
    case Binding(_, _, _) => BindStep(s, db, now);
    case Linking(_, _) => Links(s, db);
    case Refusing(_) => Refuses(s, db);
    case Deferring(_) => Defers(s, db);
  }

  lemma Stays(s: Sys)
    ensures Grows(s, s)
  {
  }

  lemma KnowsUnsent(s: Sys)
    requires Inv(s) && s.pc.ReadOther?
    ensures Unsent(s.t, s.pc.who, s.pc.row)
  {
  }

  // --------------------------------------------------------------- API calls

  lemma Starts(s: Sys, who: Owner)
    requires Inv(s) && Enabled(s, Begin(who))
    ensures var u := s.(pc := First(who, OpOf(s.t, who).value)); Inv(u) && Grows(s, u)
  {
    assert OwnerOk(s, who);
    Moves(s, First(who, OpOf(s.t, who).value));
  }

  /** A new row is queued: it has not been posted and disturbs nobody. */
  lemma Inserts(s: Sys, who: Owner, terms: Terms)
    requires Inv(s) && OpOf(s.t, who).None?
    requires if who.Box? then Normal(terms) == terms && !NumberBusy(s.t, terms.number)
             else !terms.kind.ByContainer? && !ReferenceTaken(s.t, who.odooId, terms)
    ensures var u := s.(t := Put(s.t, who, NewOp(terms))); Inv(u) && Grows(s, u)
  {
    hide PcOk, KeysOk;
    var u := s.(t := Put(s.t, who, NewOp(terms)));
    OpAfterPut(s.t, who, NewOp(terms));
    PutFrame(s.t, who, NewOp(terms));
    forall other ensures OwnerOk(u, other) { assert OwnerOk(s, other); }
    InsertKeepsKeys(s.t, who, terms);
    InsertKeepsPc(s, u, who, terms);
    forall i | 0 <= i < |u.posts| ensures PostOk(u.t, u.posts[i]) { assert PostOk(s.t, s.posts[i]); }
    forall i, j | 0 <= i < j < |u.posts| && Rivals(u.posts[i], u.posts[j]) ensures StatusIs(u.t, u.posts[i].who, Failed) {
      assert StatusIs(s.t, s.posts[i].who, Failed);
    }
  }

  lemma InsertKeepsKeys(t: Tables, who: Owner, terms: Terms)
    requires KeysOk(t) && OpOf(t, who).None?
    requires if who.Box? then !NumberBusy(t, terms.number) else !ReferenceTaken(t, who.odooId, terms)
    ensures KeysOk(Put(t, who, NewOp(terms)))
  {
    var o, u := who.odooId, Put(t, who, NewOp(terms));
    if who.Box? {
      forall p | p in t.boxes && t.boxes[p].terms.number == terms.number ensures !Open(t.boxes[p].status) { }
    } else {
      forall p | p in t.freights ensures !SameReference(t.freights[p].terms, terms) && !SameReference(terms, t.freights[p].terms) { }
    }
  }

  lemma InsertKeepsPc(s: Sys, u: Sys, who: Owner, terms: Terms)
    requires PcOk(s, s.pc) && OpOf(s.t, who).None?
    requires u == s.(t := Put(s.t, who, NewOp(terms)))
    ensures PcOk(u, u.pc)
  {
    OpAfterPut(s.t, who, NewOp(terms));
    forall w, q | Clear(s.t, w, q) ensures Clear(u.t, w, q) { }
  }

  lemma Calls(s: Sys, l: Label)
    requires Inv(s) && Enabled(s, l) && (l.CallInitiate? || l.CallStart? || l.CallMapping?)
    ensures Inv(Next(s, l)) && Grows(s, Next(s, l))
  {
    match l
    case CallInitiate(odooId, terms) =>
      if odooId !in s.t.boxes && !NumberBusy(s.t, terms.number) { Inserts(s, Box(odooId), Normal(terms)); } else { Moves(s, s.pc); }
    case CallStart(odooId, terms) =>
      if odooId !in s.t.freights && !ReferenceTaken(s.t, odooId, terms) { Inserts(s, Freight(odooId), terms); } else { Moves(s, s.pc); }
    case CallMapping(container, odooId, number, active, refresh, now) =>
      var r := Bind(s.t.mappings, Slot(s.t.company, container), odooId, number, active, refresh, now);
      BindKeeps(s.t.mappings, Slot(s.t.company, container), odooId, number, active, refresh, now);
      if r.Ok? { MappedKeepsPc(s, r.value); Binds(s, r.value, s.pc); } else { Moves(s, s.pc); }
  }

  lemma MappedKeepsPc(s: Sys, ms: map<Slot, Mapping>)
    requires PcOk(s, s.pc) && MappingsGrow(s.t.mappings, ms)
    ensures PcOk(Sys(s.t.(mappings := ms), s.posts, s.pc), s.pc)
  {
    var u := s.t.(mappings := ms);
    forall who ensures OpOf(u, who) == OpOf(s.t, who) { }
    forall w, q | Clear(s.t, w, q) ensures Clear(u, w, q) { }
  }

  // ---------------------------------------------------------------- all runs

  lemma LabelKeeps(s: Sys, l: Label)
    requires Inv(s) && Enabled(s, l)
    ensures Inv(Next(s, l)) && Grows(s, Next(s, l))
  {
    match l
    case Begin(who) => Starts(s, who);
    case Go(answer, db, now) => StepKeeps(s, answer, db, now);
    case Crash => Moves(s, Idle);
    case _ => Calls(s, l);
  }

  lemma {:induction false} RunKeeps(s: Sys, ls: seq<Label>)
    requires Inv(s)
    ensures Inv(Run(s, ls)) && Grows(s, Run(s, ls))
  {
    if ls == [] {
      Stays(s);
    } else {
      var t, l := Run(s, ls[..|ls| - 1]), ls[|ls| - 1];
      RunKeeps(s, ls[..|ls| - 1]);
      if Enabled(t, l) {
        LabelKeeps(t, l);
        GrowsTransitive(s, t, Next(t, l));
      }
    }
  }

  lemma InvInitially(company: int)
    ensures Inv(Initial(company))
  {
  }
}
