/** What the worker's methods return, and which answers decide their steps,
    said on values (src/integrations/ksp_gateway/worker.py). */
module KspResults {
  import opened Outcomes
  import opened KspMapping
  import opened KspTracking
  import opened KspJournal
  import opened KspProtocol

  datatype Result =
    | Raised
    | Preview
    | InState(state: State)
    | StillUncertain             // {"state": "uncertain"}
    | NeedsReconciliation        // {"state": "reconciliation_required"}
    | AppliedEvents(count: nat)

  predicate RowIs(bindings: map<string, Row>, code: string, state: State) { code in bindings && bindings[code].state == state }

  // ---------------------------------------------------------------- reconcile

  function Confirming(w: Answers): Result { if w.odoo.Confirmed? then InState(Acknowledged) else Raised }

  /** A reply that `_accept_response` takes as proof of the order. */
  predicate Proves(code: string, reply: Reply) { reply.code == Some(code) && reply.orderId.Some? && reply.status != Other }

  /** The state such a reply leads to. */
  function ProvenState(status: Status): State { if status == Sent then Accepted else Pending }

  function AfterProof(status: Status, w: Answers): Result { if status == Sent then Confirming(w) else InState(Pending) }

  predicate StatusProves(orderId: Option<string>, w: Answers) {
    w.tracking.Some? && w.tracking.value.orderId == orderId && orderId.Some? && w.tracking.value.status != Other
  }

  function CheckingStatus(orderId: Option<string>, w: Answers): Result {
    if StatusProves(orderId, w) then AfterProof(w.tracking.value.status, w) else Raised
  }

  /** What `reconcile` returns. */
  function Reconciled(bindings: map<string, Row>, code: string, w: Answers): Result {
    if code !in bindings then Raised
    else match bindings[code].state
      case Ready => InState(Ready)
      case Acknowledged => InState(Acknowledged)
      case Accepted => Confirming(w)
      case Pending => CheckingStatus(bindings[code].orderId, w)
      case Posting => Looked(w)
      case Uncertain => Looked(w)
  }

  /** The look-up of an order whose outcome is unknown. */
  function Looked(w: Answers): Result {
    if w.found.None? then Raised else if w.found.value then NeedsReconciliation else StillUncertain
  }

  // ------------------------------------------------------------------- submit

  /** What a submission returns once its row is staged. */
  function Submitted(bindings: map<string, Row>, code: string, w: Answers): Result {
    if !RowIs(bindings, code, Ready) then Reconciled(bindings, code, w)
    else if w.post.Replied? && Proves(code, w.post.reply) then
      if w.post.reply.status == Sent then Confirming(w) else CheckingStatus(w.post.reply.orderId, w)
    else Raised
  }

  /** What a submission of this call returns. */
  function SubmitResult(j: Journal, call: Call, w: Answers): Result
    requires call.Submit?
  {
    var staged := Stage(j, call.body, call.mapping, call.claim);
    if staged.Review? then Raised else Submitted(staged.value.bindings, call.mapping.code, w)
  }

  // ------------------------------------------------------- the stored row

  /** The row after a reply: only a reply with its own code and an order id says
      anything, and only a known status proves the order. */
  function RowReplied(code: string, was: Row, reply: Reply): Row {
    if reply.code != Some(code) then was.(state := Uncertain)
    else if reply.orderId.None? then was
    else match reply.status
      case Sent => was.(state := Accepted, orderId := reply.orderId)
      case Received => was.(state := Pending, orderId := reply.orderId)
      case Other => was.(state := Uncertain, orderId := reply.orderId)
  }

  /** The row of a POST under way, after its answer. */
  function RowPosted(code: string, was: Row, answer: PostAnswer): Row {
    match answer
    case Limited => was.(state := Ready)
    case Errored => was.(state := Uncertain)
    case Lost => was
    case Replied(reply) => RowReplied(code, was, reply)
  }

  /** The tracking answer is about the order of this row. */
  predicate Tracked(was: Row, w: Answers) { w.tracking.Some? && was.orderId.Some? && w.tracking.value.orderId == was.orderId }

  /** A pending row after its tracking answer. */
  function RowChecked(was: Row, w: Answers): Row {
    if !Tracked(was, w) then was
    else match w.tracking.value.status
      case Sent => was.(state := Accepted)
      case Received => was.(state := Pending)
      case Other => was.(state := Uncertain)
  }

  /** An accepted row after Odoo was told. */
  function RowConfirmed(was: Row, w: Answers): Row { if w.odoo.Confirmed? then was.(state := Acknowledged) else was }

  /** `reconcile`, for the stored row. */
  function RowReconciled(was: Row, w: Answers): Row {
    match was.state
    case Accepted => RowConfirmed(was, w)
    case Pending => var now := RowChecked(was, w); if now.state == Accepted then RowConfirmed(now, w) else now
    case Ready => was
    case Posting => was
    case Uncertain => was
    case Acknowledged => was
  }

  /** Odoo is told of exactly the orders that are, or turn out, accepted. */
  predicate TellsOdoo(was: Row, w: Answers) { was.state == Accepted || (was.state == Pending && RowChecked(was, w).state == Accepted) }

  function AcksAfter(acks: set<Ack>, was: Row, w: Answers): set<Ack> {
    if TellsOdoo(was, w) && w.odoo != Failed
    then acks + {Ack(was.mapping.anchorId, was.claim, was.orderId, was.mapping.warehouseId)} else acks
  }

  /** The row that `reconcile` finds after a submission: a ready row is posted first. */
  function RowOnceSent(code: string, was: Row, w: Answers): Row {
    if was.state == Ready then RowPosted(code, was.(state := Posting), w.post) else was
  }

  /** Whether a submission goes on to `reconcile`. */
  predicate GoesOn(code: string, was: Row, w: Answers) {
    was.state == Ready ==>
      w.post.Replied? && w.post.reply.code == Some(code) && w.post.reply.orderId.Some? && w.post.reply.status in {Sent, Received}
  }

  function RowSubmitted(code: string, was: Row, w: Answers): Row {
    if GoesOn(code, was, w) then RowReconciled(RowOnceSent(code, was, w), w) else RowOnceSent(code, was, w)
  }

  /** The POST a submission makes. */
  function PostsOf(code: string, body: OrderBody, was: Row, w: Answers): seq<Post> {
    if was.state == Ready then [Post(code, body, w.post.Limited?)] else []
  }

  function AcksOnceSent(acks: set<Ack>, code: string, was: Row, w: Answers): set<Ack> {
    if GoesOn(code, was, w) then AcksAfter(acks, RowOnceSent(code, was, w), w) else acks
  }

  /** Other content is already frozen under the code. */
  predicate Conflicts(bindings: map<string, Row>, body: OrderBody, mapping: Binding, claim: string) {
    mapping.code in bindings
    && (bindings[mapping.code].body != body || bindings[mapping.code].mapping != mapping || bindings[mapping.code].claim != claim)
  }

  function StagedRow(bindings: map<string, Row>, body: OrderBody, mapping: Binding, claim: string): Row {
    if mapping.code in bindings then bindings[mapping.code] else Row(body, mapping, claim, Ready, None)
  }

  // ------------------------------------------------------------------ booking

  /** Odoo's answer to the i-th report of a poll. */
  function AnswerAt(booking: seq<OdooAnswer>, i: nat): OdooAnswer { if i < |booking| then booking[i] else Confirmed }

  predicate AllConfirmed(booking: seq<OdooAnswer>, n: nat) { forall i | 0 <= i < n :: AnswerAt(booking, i).Confirmed? }

  /** How many of `n` reports are tried: all, or up to the first that fails. */
  function Tried(booking: seq<OdooAnswer>, n: nat): (k: nat)
    ensures k <= n && (k > 0 ==> AllConfirmed(booking, k - 1))
    ensures k < n ==> k > 0 && !AnswerAt(booking, k - 1).Confirmed?
  {
    if n == 0 then 0 else if AllConfirmed(booking, n - 1) then n else Tried(booking, n - 1)
  }

  lemma {:induction false} TriedFails(booking: seq<OdooAnswer>, n: nat, i: nat)
    requires i < n && AllConfirmed(booking, i) && !AnswerAt(booking, i).Confirmed?
    ensures Tried(booking, n) == i + 1 && !AllConfirmed(booking, n)
  {
    if i < n - 1 { TriedFails(booking, n - 1, i); }
  }

  lemma TriedAll(booking: seq<OdooAnswer>, n: nat)
    requires AllConfirmed(booking, n)
    ensures Tried(booking, n) == n
  {
  }

  function Given(w: Answers, booking: seq<OdooAnswer>, i: nat): Answers { w.(odoo := AnswerAt(booking, i)) }

  /** The steps of the first `k` reports: booking, then marking. */
  function Script(me: nat, w: Answers, booking: seq<OdooAnswer>, k: nat): seq<Label> {
    if k == 0 then [] else
      Script(me, w, booking, k - 1) + [Go(me, Given(w, booking, k - 1)), Go(me, Given(w, booking, k - 1))]
  }

  /** The steps of a poll with `n` pending reports, once its snapshot is staged:
      it lists them, tries them in order, and finishes if all were confirmed. */
  function Books(me: nat, w: Answers, booking: seq<OdooAnswer>, n: nat): seq<Label> {
    [Go(me, w)] + Script(me, w, booking, Tried(booking, n)) + if AllConfirmed(booking, n) then [Go(me, w), Go(me, w)] else []
  }

  lemma BooksInParts(me: nat, w: Answers, booking: seq<OdooAnswer>, n: nat)
    ensures var script := Script(me, w, booking, Tried(booking, n));
      Books(me, w, booking, n) ==
        [Go(me, w)] + (script + if AllConfirmed(booking, n) then [Go(me, w)] + [Go(me, w)] else [])
  {
  }

  // ------------------------------------------------- what a poll tells Odoo

  /** The first `n` reports of the list have been brought, in order. */
  ghost predicate Brought(before: seq<Entry>, calls: seq<Entry>, anchorId: int, todo: seq<Report>, n: nat) {
    && n <= |todo| && |calls| == |before| + n && before <= calls
    && forall k | 0 <= k < n :: calls[|before| + k] == Entry(anchorId, todo[k])
  }

  lemma OneMoreCall(before: seq<Entry>, calls: seq<Entry>, anchorId: int, todo: seq<Report>, n: nat)
    requires Brought(before, calls, anchorId, todo, n) && n < |todo|
    ensures Brought(before, calls + [Entry(anchorId, todo[n])], anchorId, todo, n + 1)
  {
  }

  lemma CallsMade(before: seq<Entry>, calls: seq<Entry>, anchorId: int, todo: seq<Report>, n: nat)
    requires Brought(before, calls, anchorId, todo, n)
    ensures before <= calls && |calls| == |before| + n && Brought([], calls[|before|..], anchorId, todo, n)
  {
  }

  lemma MarksAddUp(events: map<EventId, Event>, mid: map<EventId, Event>, later: map<EventId, Event>)
    requires OnlyMarks(events, mid) && OnlyMarks(mid, later)
    ensures OnlyMarks(events, later)
  {
  }

  lemma NothingYet(calls: seq<Entry>, events: map<EventId, Event>, anchorId: int, todo: seq<Report>)
    ensures Brought(calls, calls, anchorId, todo, 0) && OnlyMarks(events, events)
  {
  }

  /** Every call is on the frozen anchor and brings one event of the code, as it
      was staged, that was not marked before the poll; none is brought twice. */
  ghost predicate TellsUnmarked(before: map<EventId, Event>, events: map<EventId, Event>, code: string, anchorId: int, told: seq<Entry>) {
    && (forall i | 0 <= i < |told| :: told[i].anchorId == anchorId && IsStaged(events, code, told[i].report) && Unmarked(before, told[i].report.eventId))
    && (forall i, k | 0 <= i < k < |told| :: told[i].report.eventId != told[k].report.eventId)
  }

  predicate IsStaged(events: map<EventId, Event>, code: string, r: Report) {
    r.eventId in events && events[r.eventId].code == code && events[r.eventId].report == r
  }

  predicate Unmarked(before: map<EventId, Event>, e: EventId) { e in before ==> !before[e].applied }

  /** And none of them is left out. */
  ghost predicate TellsAll(before: map<EventId, Event>, events: map<EventId, Event>, code: string, told: seq<Entry>) {
    forall e | e in events && events[e].code == code && Unmarked(before, e) :: exists i :: 0 <= i < |told| && told[i].report.eventId == e
  }

  /** The same events, but for marks. */
  predicate OnlyMarks(events: map<EventId, Event>, later: map<EventId, Event>) {
    later.Keys == events.Keys && forall e | e in events :: later[e].code == events[e].code && later[e].report == events[e].report
  }

  predicate Filed(events: map<EventId, Event>) { forall e | e in events :: events[e].report.eventId == e }

  /** The code has no events but those that were marked before. */
  predicate AllMarked(before: map<EventId, Event>, events: map<EventId, Event>, code: string) {
    forall e | e in events && events[e].code == code :: e in before && before[e].applied
  }

  lemma SomeUnmarked(before: map<EventId, Event>, events: map<EventId, Event>, code: string, anchorId: int, told: seq<Entry>)
    requires TellsUnmarked(before, events, code, anchorId, told) && told != []
    ensures !AllMarked(before, events, code)
  {
    assert IsStaged(events, code, told[0].report) && Unmarked(before, told[0].report.eventId);
  }

  /** Working off the first reports of the list. */
  lemma TellsList(before: map<EventId, Event>, events: map<EventId, Event>, code: string, anchorId: int,
                  todo: seq<Report>, ids: seq<EventId>, told: seq<Entry>)
    requires Filed(before) && OnlyMarks(before, events)
    requires forall e :: e in ids <==> e in before && before[e].code == code && !before[e].applied
    requires forall i, k | 0 <= i < k < |ids| :: ids[i] != ids[k]
    requires |todo| == |ids| && forall i | 0 <= i < |todo| :: todo[i] == before[ids[i]].report
    requires Brought([], told, anchorId, todo, |told|)
    ensures TellsUnmarked(before, events, code, anchorId, told)
    ensures |told| == |todo| ==> TellsAll(before, events, code, told)
  {
    forall i | 0 <= i < |told| ensures told[i].report.eventId == ids[i] && IsStaged(events, code, told[i].report) && Unmarked(before, ids[i]) {
      assert ids[i] in ids;
    }
    if |told| == |todo| {
      forall e | e in events && events[e].code == code && Unmarked(before, e) ensures exists i :: 0 <= i < |told| && told[i].report.eventId == e {
        assert e in ids;
        var i :| 0 <= i < |ids| && ids[i] == e;
        assert told[i].report.eventId == e;
      }
    }
  }

  /** What staging added was not marked before, and staging marks nothing. */
  lemma TellsFromBefore(before: map<EventId, Event>, staged: map<EventId, Event>, events: map<EventId, Event>, code: string, anchorId: int, told: seq<Entry>)
    requires OnlyAdds(before, staged)
    requires TellsUnmarked(staged, events, code, anchorId, told)
    ensures TellsUnmarked(before, events, code, anchorId, told)
    ensures TellsAll(staged, events, code, told) ==> TellsAll(before, events, code, told)
  {
  }
}
