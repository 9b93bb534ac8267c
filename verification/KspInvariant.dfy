/** What every step of the connector keeps. */
module KspInvariant {
  import opened Outcomes
  import opened Ordering
  import opened Sums
  import opened KspMapping
  import opened KspTracking
  import opened KspTrackingLaws
  import opened KspJournal
  import opened KspJournalLaws
  import opened KspProtocol

  /** POSTs of a code whose outcome is anything but a definitive 429. */
  function Effective(posts: seq<Post>, code: string): nat {
    if posts == [] then 0 else
      var p := posts[|posts| - 1];
      Effective(posts[..|posts| - 1], code) + if p.code == code && !p.limited then 1 else 0
  }

  predicate Submits(pc: Pc, code: string) {
    match pc
    case Sending(c, _) => c == code
    case GotLimited(c) => c == code
    case GotError(c) => c == code
    case GotReply(c, _) => c == code
    case _ => false
  }

  predicate RowOk(code: string, row: Row, posted: nat, acks: set<Ack>) {
    && row.mapping.code == code && row.body.code == code && Sensible(row.mapping)
    && posted <= 1
    && (row.state == Ready ==> posted == 0)
    && (row.state !in {Ready, Posting} ==> posted == 1)
    && (row.state in {Pending, Accepted, Acknowledged} ==> row.orderId.Some?)
    && (row.orderId.Some? ==> row.state !in {Ready, Posting})
    && (row.state == Acknowledged ==> AckOf(row) in acks)
  }

  predicate CodeOk(s: Sys, code: string) {
    var posted := Effective(s.posts, code);
    if code in s.journal.bindings then RowOk(code, s.journal.bindings[code], posted, s.odoo.acks) else posted == 0
  }

  /** `row` was read from the journal: its frozen part and its order id still stand. */
  predicate Current(s: Sys, code: string, row: Row) {
    && code in s.journal.bindings
    && var now := s.journal.bindings[code];
       SameContent(now, row.body, row.mapping, row.claim) && row.orderId.Some? && now.orderId == row.orderId
  }

  predicate InPosting(s: Sys, code: string, posted: nat) {
    code in s.journal.bindings && s.journal.bindings[code].state == Posting && Effective(s.posts, code) == posted
  }

  predicate Bodied(s: Sys, code: string, body: OrderBody) {
    code in s.journal.bindings && s.journal.bindings[code].body == body
  }

  predicate StagedAs(s: Sys, code: string, r: Report) {
    r.eventId in s.journal.events && s.journal.events[r.eventId].report == r && s.journal.events[r.eventId].code == code
  }

  predicate AppliedNow(s: Sys, id: EventId) { id in s.journal.events && s.journal.events[id].applied }

  ghost predicate OwedOk(s: Sys, code: string, todo: seq<Report>, owed: set<EventId>) {
    && (forall k | 0 <= k < |todo| :: StagedAs(s, code, todo[k]))
    && (forall id | id in owed :: AppliedNow(s, id) || exists k :: 0 <= k < |todo| && todo[k].eventId == id)
  }

  ghost predicate PcOk(s: Sys, pc: Pc) {
    match pc
    case Idle => true
    case Staged(code, body) => Bodied(s, code, body)
    case Trying(code, body) => Bodied(s, code, body)
    case Sending(code, body) => Bodied(s, code, body) && InPosting(s, code, 0)
    case GotLimited(code) => InPosting(s, code, 0)
    case GotError(code) => InPosting(s, code, 1)
    case GotReply(code, _) => InPosting(s, code, 1)
    case Reconciling(code) => true
    case AskStatus(code, row) => Current(s, code, row)
    case Recheck(code) => true
    case Acknowledging(code, row) => Current(s, code, row)
    case Agreed(code) => code in s.journal.bindings && s.journal.bindings[code].orderId.Some? && AckOf(s.journal.bindings[code]) in s.odoo.acks
    case AskPackages(code, row) => Current(s, code, row)
    case Listing(code, row) => Current(s, code, row)
    case Applying(code, row, todo, owed) => Current(s, code, row) && OwedOk(s, code, todo, owed)
    case Booked(code, row, todo, owed) =>
      Current(s, code, row) && OwedOk(s, code, todo, owed) && (todo != [] ==> todo[0].eventId in s.odoo.ledger)
    case Finished(code, owed) => forall id | id in owed :: AppliedNow(s, id)
  }

  predicate PostOk(s: Sys, p: Post) { Bodied(s, p.code, p.body) }

  predicate EventOk(s: Sys, id: EventId)
    requires id in s.journal.events
  {
    var e := s.journal.events[id];
    e.report.eventId == id && Proper(e.code, e.report) && e.code in s.journal.bindings && (e.applied ==> id in s.odoo.ledger)
  }

  predicate EntryOk(s: Sys, id: EventId)
    requires id in s.odoo.ledger
  {
    && id in s.journal.events
    && s.odoo.ledger[id].report == s.journal.events[id].report
    && var code := s.journal.events[id].code;
       code in s.journal.bindings && s.odoo.ledger[id].anchorId == s.journal.bindings[code].mapping.anchorId
  }

  ghost predicate WithinReleaseOf(s: Sys, code: string) {
    code in s.journal.bindings ==>
      forall id :: StagedTotal(s.journal.events, code, id) <= Released(s.journal.bindings[code].mapping, id)
  }

  ghost predicate Inv(s: Sys) {
    && (forall code :: CodeOk(s, code))
    && (forall a :: PcOk(s, At(s, a)))
    && (forall a, b, code | Submits(At(s, a), code) && Submits(At(s, b), code) :: a == b)
    && (forall i | 0 <= i < |s.posts| :: PostOk(s, s.posts[i]))
    && (forall id | id in s.journal.events :: EventOk(s, id))
    && (forall id | id in s.odoo.ledger :: EntryOk(s, id))
    && (forall code :: WithinReleaseOf(s, code))
  }

  // --------------------------------------------- what only ever grows

  /** Frozen content stays, an order id stays once written, events keep their
      owner and content, and Odoo forgets nothing. */
  predicate Grows(s: Sys, t: Sys) {
    && (forall code | code in s.journal.bindings :: code in t.journal.bindings && RowGrows(s.journal.bindings[code], t.journal.bindings[code]))
    && (forall id | id in s.journal.events :: id in t.journal.events && EventGrows(s.journal.events[id], t.journal.events[id]))
    && s.odoo.acks <= t.odoo.acks
    && (forall id | id in s.odoo.ledger :: id in t.odoo.ledger && t.odoo.ledger[id] == s.odoo.ledger[id])
    && s.posts <= t.posts
  }

  predicate RowGrows(r: Row, q: Row) {
    SameContent(q, r.body, r.mapping, r.claim) && (r.orderId.Some? ==> q.orderId == r.orderId)
  }

  predicate EventGrows(e: Event, f: Event) {
    f.code == e.code && f.report == e.report && (e.applied ==> f.applied)
  }

  lemma GrowsTransitive(s: Sys, t: Sys, u: Sys)
    requires Grows(s, t) && Grows(t, u)
    ensures Grows(s, u)
  {
    forall id | id in s.odoo.ledger ensures id in u.odoo.ledger && u.odoo.ledger[id] == s.odoo.ledger[id] {
      assert id in t.odoo.ledger;
    }
  }

  /** Facts other workers rely on survive, except who is posting. */
  lemma PcSurvives(s: Sys, t: Sys, pc: Pc)
    requires Grows(s, t) && PcOk(s, pc)
    requires forall code, n: nat | Submits(pc, code) && InPosting(s, code, n) :: InPosting(t, code, n)
    ensures PcOk(t, pc)
  {
    match pc
    case Applying(code, row, todo, owed) => OwedSurvives(s, t, code, todo, owed);
    case Booked(code, row, todo, owed) => OwedSurvives(s, t, code, todo, owed);
    case Sending(code, body) => assert InPosting(s, code, 0);
    case GotLimited(code) => assert InPosting(s, code, 0);
    case GotError(code) => assert InPosting(s, code, 1);
    case GotReply(code, r) => assert InPosting(s, code, 1);
    case _ =>
  }

  lemma OwedSurvives(s: Sys, t: Sys, code: string, todo: seq<Report>, owed: set<EventId>)
    requires Grows(s, t) && OwedOk(s, code, todo, owed)
    ensures OwedOk(t, code, todo, owed)
  {
    forall id | id in owed ensures AppliedNow(t, id) || exists k :: 0 <= k < |todo| && todo[k].eventId == id {
      assert AppliedNow(s, id) || exists k :: 0 <= k < |todo| && todo[k].eventId == id;
    }
  }
}
