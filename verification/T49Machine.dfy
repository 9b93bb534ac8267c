/** The two start/link workflows as one step machine: a single worker, which may
    crash between any two steps, interleaved with calls of the API
    (src/integrations/terminal49_client/initiation.py and shipments.py over
    store.py). A step is one transaction or one provider call. Provider answers
    are arbitrary. */
module T49Machine {
  import opened Outcomes
  import opened T49Choice
  import opened T49Discovery
  import opened T49Tables

  /** How a database call ends: done, refused before the commit, or committed
      with the answer lost. For the POST, `Aborts` means it was never sent. */
  datatype Db = Commits | Aborts | Vanishes

  datatype Post = Post(who: Owner, terms: Terms)

  datatype Pc =
    | Idle
    | AskContainers(who: Owner, row: Op)
    | AskRequests(who: Owner, row: Op)
    | AskShipments(who: Owner, row: Op)
    | AskRequest(who: Owner, row: Op, requestId: string)
    | AskShipment(who: Owner, row: Op, shipment: string)
    | ReadOther(who: Owner, row: Op)               // the other workflow's table
    | Claim(who: Owner, row: Op)                   // about to commit `submitting`
    | Sending(who: Owner, row: Op)                 // about to POST
    | Save(who: Owner, row: Op, requestId: string, next: Option<Resolution>)
    | Waiting(who: Owner, row: Op)
    | Failing(who: Owner, row: Op)
    | Binding(who: Owner, row: Op, container: string)
    | Linking(who: Owner, link: string)
    | Refusing(who: Owner)                         // the `ReviewRequired` handler
    | Deferring(who: Owner)                        // the handler of every other error

  datatype Sys = Sys(t: Tables, posts: seq<Post>, pc: Pc)

  datatype Label =
    | Begin(who: Owner)
    | Go(answer: Answer, db: Db, now: int)
    | Crash
    | CallInitiate(odooId: int, terms: Terms)
    | CallStart(odooId: int, terms: Terms)
    | CallMapping(container: string, odooId: int, number: string, active: bool, refresh: bool, now: int)

  function Initial(company: int): Sys { Sys(Tables(company, map[], map[], map[]), [], Idle) }

  predicate Selectable(who: Owner, s: Status) { Open(s) || (who.Freight? && s == Linked) }

  predicate Enabled(s: Sys, l: Label) {
    match l
    case Begin(who) => s.pc.Idle? && OpOf(s.t, who).Some? && Selectable(who, OpOf(s.t, who).value.status)
    case CallStart(_, terms) => !terms.kind.ByContainer?
    case _ => true
  }

  ghost function Next(s: Sys, l: Label): Sys
    requires Enabled(s, l)
  {
    match l
    case Begin(who) => s.(pc := First(who, OpOf(s.t, who).value))
    case Go(answer, db, now) => Step(s, answer, db, now)
    case Crash => s.(pc := Idle)
    case CallInitiate(odooId, terms) => Called(s, Initiate(s.t, odooId, terms))
    case CallStart(odooId, terms) => Called(s, StartShipment(s.t, odooId, terms))
    case CallMapping(container, odooId, number, active, refresh, now) =>
      Called(s, BindIn(s.t, container, odooId, number, active, refresh, now))
  }

  function Called(s: Sys, r: Outcome<Tables>): Sys { if r.Ok? then s.(t := r.value) else s }

  function First(who: Owner, row: Op): Pc {
    if who.Freight? && row.link.Some? then AskShipment(who, row, row.link.value)
    else if row.requestId.Some? then AskRequest(who, row, row.requestId.value)
    else if who.Box? then AskContainers(who, row)
    else ReadOther(who, row)
  }

  /** A prior POST may have reached the provider: never repeat it. */
  function Gate(who: Owner, row: Op): Pc { if row.status == Submitting then Refusing(who) else Claim(who, row) }

  function After(who: Owner, row: Op, r: Resolution): Pc {
    match r
    case Reject => Refusing(who)
    case Fails => Failing(who, row)
    case Waits => Waiting(who, row)
    case Names(shipment) => AskShipment(who, row, shipment)
  }

  /** A transaction that would produce `r`, then `next`. */
  function Transact(s: Sys, who: Owner, r: Outcome<Tables>, next: Pc, db: Db): Sys {
    if db == Aborts then s.(pc := Deferring(who))
    else if r.Review? then s.(pc := Refusing(who))
    else s.(t := r.value, pc := if db == Commits then next else Deferring(who))
  }

  /** A handler's own transaction: nothing catches its failure. */
  function Handle(s: Sys, t: Tables, db: Db): Sys { Sys(if db == Aborts then s.t else t, s.posts, Idle) }

  ghost function Step(s: Sys, answer: Answer, db: Db, now: int): Sys {
    match s.pc
    case Idle => s
    case AskContainers(who, row) => s.(pc := SeenContainers(who, row, answer))
    case AskRequests(who, row) => s.(pc := SeenRequests(who, row, answer))
    case AskShipments(who, row) => s.(pc := SeenShipments(who, row, answer))
    case AskRequest(who, row, requestId) => s.(pc := SeenRequest(who, row, requestId, answer))
    case AskShipment(who, row, shipment) => s.(pc := SeenShipment(who, row, shipment, answer))
    case ReadOther(who, row) => s.(pc := if db == Commits then SeenOther(who, row, OtherRequest(s.t, who, row.terms)) else Deferring(who))
    case Claim(who, row) => Transact(s, who, Update(s.t, who, Submitting, None, None), Sending(who, row), db)
    case Sending(who, row) => Transmit(s, who, row, answer, db)
    case Save(who, row, requestId, next) =>
      Transact(s, who, Update(s.t, who, Pending, Some(requestId), None),
               if next.Some? then After(who, row, next.value) else AskRequest(who, row, requestId), db)
    case Waiting(who, row) => Transact(s, who, Update(s.t, who, Pending, None, None), Idle, db)
    case Failing(who, row) => Transact(s, who, Update(s.t, who, Failed, None, None), Idle, db)
    case Binding(who, row, container) =>
      Transact(s, who, BindIn(s.t, container, who.odooId, row.terms.number, true, true, now), Linking(who, container), db)
    case Linking(who, link) => Transact(s, who, Update(s.t, who, Linked, None, Some(link)), Idle, db)
    case Refusing(who) => Handle(s, Called(s, Update(s.t, who, Attention, None, None)).t, db)
    case Deferring(who) => Handle(s, Defer(s.t, who), db)
  }

  function SeenContainers(who: Owner, row: Op, answer: Answer): Pc {
    match answer
    case Broken => Deferring(who)
    case Doubtful => Refusing(who)
    case Nothing => AskRequests(who, row)
    case Hit(container, _) => Binding(who, row, container)
  }

  function SeenRequests(who: Owner, row: Op, answer: Answer): Pc {
    match answer
    case Broken => Deferring(who)
    case Doubtful => Refusing(who)
    case Nothing =>
      if who.Box? then (if row.terms.kind.ByContainer? then Gate(who, row) else ReadOther(who, row))
      else if row.terms.kind.ByBill? then AskShipments(who, row) else Gate(who, row)
    case Hit(requestId, r) => Save(who, row, requestId, Some(r))
  }

  function SeenShipments(who: Owner, row: Op, answer: Answer): Pc {
    match answer
    case Broken => Deferring(who)
    case Doubtful => Refusing(who)
    case Nothing => Gate(who, row)
    case Hit(shipment, _) => AskShipment(who, row, shipment)
  }

  function SeenRequest(who: Owner, row: Op, requestId: string, answer: Answer): Pc {
    if !answer.Hit? then Deferring(who)
    else if who.Box? then After(who, row, answer.resolution)
    else Save(who, row, requestId, Some(answer.resolution))
  }

  function SeenShipment(who: Owner, row: Op, shipment: string, answer: Answer): Pc {
    match answer
    case Broken => Deferring(who)
    case Doubtful => Refusing(who)
    case Nothing => if who.Box? then Waiting(who, row) else Deferring(who)
    case Hit(id, _) => if who.Box? then Binding(who, row, id) else if id == shipment then Linking(who, id) else Refusing(who)
  }

  function SeenOther(who: Owner, row: Op, r: Outcome<Option<string>>): Pc {
    match r
    case Review => Refusing(who)
    case Ok(Some(requestId)) => if who.Box? then Save(who, row, requestId, None) else AskRequest(who, row, requestId)
    case Ok(None) => if who.Box? then Gate(who, row) else AskRequests(who, row)
  }

  /** One attempt. Unless the answer carries the new request, nobody knows
      whether the provider acted. */
  function Transmit(s: Sys, who: Owner, row: Op, answer: Answer, db: Db): Sys {
    if db == Aborts then s.(pc := Deferring(who))
    else s.(posts := s.posts + [Post(who, row.terms)],
            pc := if answer.Hit? && db == Commits then Save(who, row, answer.id, Some(answer.resolution)) else Deferring(who))
  }

  ghost function Run(s: Sys, ls: seq<Label>): Sys {
    if ls == [] then s else
      var t := Run(s, ls[..|ls| - 1]);
      var l := ls[|ls| - 1];
      if Enabled(t, l) then Next(t, l) else t
  }
}
