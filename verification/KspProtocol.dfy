/** The connector as a step machine: any number of workers (`nat` names one)
    share one journal, the gateway and Odoo. A step is one database transaction
    or one outside call; between steps anything may interleave, and any worker
    may crash and forget where it was
    (src/integrations/ksp_gateway/worker.py over store.py and client.py). */
module KspProtocol {
  import opened Outcomes
  import opened Ordering
  import opened KspMapping
  import opened KspTracking
  import opened KspJournal

  // ------------------------------------------------- the world's answers

  /** The body of a submission or tracking answer; `code` is None when the
      answer is not an object. */
  datatype Reply = Reply(code: Option<string>, orderId: Option<string>, status: Status)

  /** `Limited` is a definitive 429. `Errored` is every other gateway error,
      timeouts included. `Lost`: the worker dies, or fails otherwise. */
  datatype PostAnswer = Limited | Errored | Lost | Replied(reply: Reply)

  /** `Committed`: Odoo did it but the answer never arrived. */
  datatype OdooAnswer = Confirmed | Committed | Failed

  /** `found` says whether a look-up by code finds an order; None is an error. */
  datatype Answers = Answers(post: PostAnswer, tracking: Option<Tracking>, odoo: OdooAnswer, found: Option<bool>)

  // -------------------------------------------------------------- state

  datatype Post = Post(code: string, body: OrderBody, limited: bool)

  datatype Ack = Ack(anchorId: int, claim: string, orderId: Option<string>, warehouseId: int)

  datatype Entry = Entry(anchorId: int, report: Report)

  /** Odoo replays a shipment event it has already booked. */
  datatype Odoo = Odoo(ledger: map<EventId, Entry>, acks: set<Ack>)

  datatype Pc =
    | Idle
    | Staged(code: string, body: OrderBody)       // submission staged
    | Trying(code: string, body: OrderBody)       // saw the row ready
    | Sending(code: string, body: OrderBody)      // won the conditional update
    | GotLimited(code: string)
    | GotError(code: string)
    | GotReply(code: string, reply: Reply)
    | Reconciling(code: string)
    | AskStatus(code: string, row: Row)
    | Recheck(code: string)
    | Acknowledging(code: string, row: Row)
    | Agreed(code: string)                        // Odoo confirmed the acknowledgement
    | AskPackages(code: string, row: Row)
    | Listing(code: string, row: Row)
    | Applying(code: string, row: Row, todo: seq<Report>, owed: set<EventId>)
    | Booked(code: string, row: Row, todo: seq<Report>, owed: set<EventId>)
    | Finished(code: string, owed: set<EventId>)

  /** `latest` is history, read by no step: the snapshot last staged for a code. */
  datatype Sys = Sys(journal: Journal, odoo: Odoo, posts: seq<Post>, pcs: map<nat, Pc>, latest: map<string, seq<Package>>)

  const INITIAL := Sys(Journal(map[], map[]), Odoo(map[], {}), [], map[], map[])

  function At(s: Sys, a: nat): Pc { if a in s.pcs then s.pcs[a] else Idle }

  function Goto(s: Sys, a: nat, pc: Pc): Sys {
    s.(pcs := if pc.Idle? then s.pcs - {a} else s.pcs[a := pc])
  }

  // -------------------------------------------------------------- steps

  datatype Call =
    | Submit(body: OrderBody, mapping: Binding, claim: string)
    | Reconcile(code: string)
    | Poll(code: string)

  datatype Label = Begin(a: nat, call: Call) | Go(a: nat, answers: Answers) | Crash(a: nat)

  /** What `build_order` guarantees of a body and its mapping. */
  ghost predicate Built(body: OrderBody, b: Binding) {
    body.code == b.code && WholePacks(b.lines) && (forall sku | sku in b.lines :: b.lines[sku].quantity > 0.0) && OrderOf(b, body.lines)
  }

  /** The part of it that tracking rests on. */
  predicate Sensible(b: Binding) { UnitsPositive(b) && forall sku | sku in b.lines :: b.lines[sku].quantity >= 0.0 }

  ghost predicate Enabled(s: Sys, l: Label) {
    match l
    case Begin(a, Submit(body, mapping, _)) => At(s, a).Idle? && Built(body, mapping)
    case Begin(a, _) => At(s, a).Idle?
    case _ => true
  }

  ghost function Next(s: Sys, l: Label): Sys {
    match l
    case Begin(a, call) => Start(s, a, call)
    case Go(a, answers) => Resume(s, a, answers)
    case Crash(a) => Goto(s, a, Idle)
  }

  ghost function Start(s: Sys, a: nat, call: Call): Sys {
    match call
    case Submit(body, mapping, claim) =>
      var r := Stage(s.journal, body, mapping, claim);
      if r.Review? then s else Goto(s.(journal := r.value), a, Staged(mapping.code, body))
    case Reconcile(code) => Goto(s, a, Reconciling(code))
    case Poll(code) =>
      if code !in s.journal.bindings then s
      else if s.journal.bindings[code].state == Acknowledged then Goto(s, a, AskPackages(code, s.journal.bindings[code]))
      else Goto(s, a, Reconciling(code))
  }

  ghost function Resume(s: Sys, a: nat, answers: Answers): Sys {
    match At(s, a)
    case Idle => s
    case Staged(code, body) => AfterStage(s, a, code, body)
    case Trying(code, body) =>
      var won := MayPost(s.journal, code);
      Goto(s.(journal := StartPost(s.journal, code)), a, if won then Sending(code, body) else Reconciling(code))
    case Sending(code, body) => Transmit(s, a, code, body, answers.post)
    case GotLimited(code) => Goto(s.(journal := SetState(s.journal, code, Ready, None)), a, Idle)
    case GotError(code) => Goto(s.(journal := SetState(s.journal, code, Uncertain, None)), a, Idle)
    case GotReply(code, reply) => Accept(s, a, code, reply, Reconciling(code))
    case Reconciling(code) => Reread(s, a, code)
    case AskStatus(code, row) => TakeStatus(s, a, code, row, answers.tracking)
    case Recheck(code) => ReadAccepted(s, a, code)
    case Acknowledging(code, row) => Acknowledge(s, a, code, row, answers.odoo)
    case Agreed(code) => Goto(s.(journal := SetState(s.journal, code, Acknowledged, None)), a, Idle)
    case AskPackages(code, row) => TakePackages(s, a, code, row, answers.tracking)
    case Listing(code, row) =>
      Goto(s, a, Applying(code, row, PendingPackages(s.journal, code), CodeEvents(s.journal.events, code)))
    case Applying(code, row, todo, owed) =>
      if todo == [] then Goto(s, a, Finished(code, owed)) else ApplyOne(s, a, code, row, todo, owed, answers.odoo)
    case Booked(code, row, todo, owed) =>
      if todo == [] then Goto(s, a, Idle) else
        Goto(s.(journal := MarkApplied(s.journal, todo[0].eventId)), a, Applying(code, row, todo[1..], owed))
    case Finished(code, owed) => Goto(s, a, Idle)
  }

  function AfterStage(s: Sys, a: nat, code: string, body: OrderBody): Sys {
    Goto(s, a, if MayPost(s.journal, code) then Trying(code, body) else Reconciling(code))
  }

  /** One attempt, never repeated. */
  function Transmit(s: Sys, a: nat, code: string, body: OrderBody, answer: PostAnswer): Sys {
    var t := s.(posts := s.posts + [Post(code, body, answer.Limited?)]);
    match answer
    case Limited => Goto(t, a, GotLimited(code))
    case Errored => Goto(t, a, GotError(code))
    case Lost => Goto(t, a, Idle)
    case Replied(reply) => Goto(t, a, GotReply(code, reply))
  }

  /** `_accept_response`; `next` is where a proven answer continues. */
  function Accept(s: Sys, a: nat, code: string, reply: Reply, next: Pc): Sys {
    if reply.code != Some(code) then Goto(s.(journal := SetState(s.journal, code, Uncertain, None)), a, Idle)
    else if reply.orderId.None? then Goto(s, a, Idle)
    else match reply.status
      case Sent => Goto(s.(journal := SetState(s.journal, code, Accepted, reply.orderId)), a, next)
      case Received => Goto(s.(journal := SetState(s.journal, code, Pending, reply.orderId)), a, next)
      case Other => Goto(s.(journal := SetState(s.journal, code, Uncertain, reply.orderId)), a, Idle)
  }

  /** Unknown outcomes are only looked up, never posted again. */
  function Reread(s: Sys, a: nat, code: string): Sys {
    if code !in s.journal.bindings then Goto(s, a, Idle) else
      var row := s.journal.bindings[code];
      Goto(s, a, if row.state == Pending then AskStatus(code, row)
                 else if row.state == Accepted then Acknowledging(code, row) else Idle)
  }

  function ReadAccepted(s: Sys, a: nat, code: string): Sys {
    if MayAcknowledge(s.journal, code) then Goto(s, a, Acknowledging(code, s.journal.bindings[code])) else Goto(s, a, Idle)
  }

  predicate MayAcknowledge(j: Journal, code: string) { code in j.bindings && j.bindings[code].state == Accepted }

  function TakeStatus(s: Sys, a: nat, code: string, row: Row, answer: Option<Tracking>): Sys {
    if answer.None? || answer.value.orderId != row.orderId then Goto(s, a, Idle)
    else Accept(s, a, code, Reply(Some(code), row.orderId, answer.value.status), Recheck(code))
  }

  function AckOf(row: Row): Ack {
    Ack(row.mapping.anchorId, row.claim, row.orderId, row.mapping.warehouseId)
  }

  function Acknowledge(s: Sys, a: nat, code: string, row: Row, answer: OdooAnswer): Sys {
    if answer == Failed then Goto(s, a, Idle)
    else Goto(s.(odoo := s.odoo.(acks := s.odoo.acks + {AckOf(row)})), a, if answer == Confirmed then Agreed(code) else Idle)
  }

  ghost function TakePackages(s: Sys, a: nat, code: string, row: Row, answer: Option<Tracking>): Sys {
    if answer.None? || !SnapshotAccepted(answer.value, row.mapping, Default(row.orderId)) then Goto(s, a, Idle) else
      var ps := answer.value.shipments.value;
      var r := StagePackages(s.journal, code, SnapshotReports(row.mapping, Default(row.orderId), ps));
      if r.Review? then Goto(s, a, Idle)
      else Goto(s.(journal := r.value, latest := s.latest[code := ps]), a, Listing(code, row))
  }

  function Book(ledger: map<EventId, Entry>, anchorId: int, r: Report): map<EventId, Entry> {
    if r.eventId in ledger then ledger else ledger[r.eventId := Entry(anchorId, r)]
  }

  function ApplyOne(s: Sys, a: nat, code: string, row: Row, todo: seq<Report>, owed: set<EventId>, answer: OdooAnswer): Sys
    requires todo != []
  {
    if answer == Failed then Goto(s, a, Idle) else
      Goto(s.(odoo := s.odoo.(ledger := Book(s.odoo.ledger, row.mapping.anchorId, todo[0]))), a,
           if answer == Confirmed then Booked(code, row, todo, owed) else Idle)
  }

  // --------------------------------------------------------------- runs

  ghost function Run(s: Sys, ls: seq<Label>): Sys {
    if ls == [] then s else
      var t := Run(s, ls[..|ls| - 1]);
      var l := ls[|ls| - 1];
      if Enabled(t, l) then Next(t, l) else t
  }
}
