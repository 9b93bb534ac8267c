/** Every step keeps the invariant. */
module KspSteps {
  import opened Outcomes
  import opened Ordering
  import opened Sums
  import opened KspMapping
  import opened KspTracking
  import opened KspTrackingLaws
  import opened KspJournal
  import opened KspJournalLaws
  import opened KspProtocol
  import opened KspInvariant

  /** `t` is `s` after worker `a` moved to `pc`, whatever else changed. */
  predicate MovedTo(s: Sys, t: Sys, a: nat, pc: Pc) {
    t.pcs == Goto(s, a, pc).pcs
  }

  lemma OthersStay(s: Sys, t: Sys, a: nat, pc: Pc)
    requires MovedTo(s, t, a, pc)
    ensures At(t, a) == pc
    ensures forall b | b != a :: At(t, b) == At(s, b)
  {
  }

  /** The POST side of the invariant for the workers, from what a step changed. */
  lemma WorkersKeep(s: Sys, t: Sys, a: nat, pc: Pc)
    requires Inv(s) && Grows(s, t) && MovedTo(s, t, a, pc) && PcOk(t, pc)
    requires forall b, code, n: nat | b != a && Submits(At(s, b), code) && InPosting(s, code, n) :: InPosting(t, code, n)
    requires forall b, code | b != a && Submits(pc, code) :: !Submits(At(s, b), code)
    ensures forall b :: PcOk(t, At(t, b))
    ensures forall b, c, code | Submits(At(t, b), code) && Submits(At(t, c), code) :: b == c
  {
    OthersStay(s, t, a, pc);
    forall b ensures PcOk(t, At(t, b)) {
      if b != a { PcSurvives(s, t, At(s, b)); }
    }
  }

  lemma RecordsKeep(s: Sys, t: Sys)
    requires Inv(s) && Grows(s, t) && t.journal.events == s.journal.events
    requires forall id | id in t.odoo.ledger && id !in s.odoo.ledger :: EntryOk(t, id)
    requires forall i | |s.posts| <= i < |t.posts| :: PostOk(t, t.posts[i])
    ensures forall i | 0 <= i < |t.posts| :: PostOk(t, t.posts[i])
    ensures forall id | id in t.journal.events :: EventOk(t, id)
    ensures forall id | id in t.odoo.ledger :: EntryOk(t, id)
  {
    forall i | 0 <= i < |t.posts| ensures PostOk(t, t.posts[i]) {
      if i < |s.posts| { assert t.posts[i] == s.posts[i] && PostOk(s, s.posts[i]); }
    }
    forall id | id in t.journal.events ensures EventOk(t, id) { assert EventOk(s, id); }
    forall id | id in t.odoo.ledger ensures EntryOk(t, id) {
      if id in s.odoo.ledger { assert EntryOk(s, id); }
    }
  }

  lemma ReleasesKeep(s: Sys, t: Sys)
    requires Inv(s) && Grows(s, t) && t.journal.events == s.journal.events
    requires forall code | code in t.journal.bindings && code !in s.journal.bindings :: Sensible(t.journal.bindings[code].mapping)
    ensures forall code :: WithinReleaseOf(t, code)
  {
    forall code ensures WithinReleaseOf(t, code) {
      assert WithinReleaseOf(s, code);
      if code in t.journal.bindings && code !in s.journal.bindings {
        forall id | id in s.journal.events ensures s.journal.events[id].code != code { assert EventOk(s, id); }
        assert CodeEvents(t.journal.events, code) == {};
        forall id ensures StagedTotal(t.journal.events, code, id) <= Released(t.journal.bindings[code].mapping, id) {
          ReleasedNonNegative(t.journal.bindings[code].mapping, id);
        }
      }
    }
  }

  lemma ReleasedNonNegative(b: Binding, id: Identity)
    requires Sensible(b)
    ensures Released(b, id) >= 0.0
  {
    var zero := (sku: string) => 0.0;
    SumSetZero(b.lines.Keys, zero);
    SumSetAtMost(b.lines.Keys, zero, Share(b, id, Quantity(b)));
  }

  // ---------------------------------------------------------- no writing

  lemma JustMoves(s: Sys, a: nat, pc: Pc)
    requires Inv(s) && PcOk(s, pc)
    requires forall code | Submits(pc, code) :: Submits(At(s, a), code)
    ensures Inv(Goto(s, a, pc)) && Grows(s, Goto(s, a, pc))
  {
    hide PcOk, EventOk, EntryOk, PostOk, WithinReleaseOf, RowOk;
    var t := Goto(s, a, pc);
    PcOkMoved(s, t, pc);
    WorkersKeep(s, t, a, pc);
    RecordsKeep(s, t);
    ReleasesKeep(s, t);
    forall code ensures CodeOk(t, code) { assert CodeOk(s, code); }
  }

  /** What a worker knows does not depend on where the workers are. */
  lemma PcOkMoved(s: Sys, t: Sys, pc: Pc)
    requires t.journal == s.journal && t.odoo == s.odoo && t.posts == s.posts
    ensures PcOk(t, pc) <==> PcOk(s, pc)
  {
    match pc
    case Applying(code, row, todo, owed) =>
      assert OwedOk(t, code, todo, owed) <==> OwedOk(s, code, todo, owed) by { SameOwed(s, t, code, todo, owed); SameOwed(t, s, code, todo, owed); }
    case Booked(code, row, todo, owed) =>
      assert OwedOk(t, code, todo, owed) <==> OwedOk(s, code, todo, owed) by { SameOwed(s, t, code, todo, owed); SameOwed(t, s, code, todo, owed); }
    case Finished(code, owed) =>
      assert forall id :: AppliedNow(s, id) <==> AppliedNow(t, id);
    case _ =>
  }

  lemma SameOwed(s: Sys, t: Sys, code: string, todo: seq<Report>, owed: set<EventId>)
    requires t.journal == s.journal
    ensures OwedOk(s, code, todo, owed) ==> OwedOk(t, code, todo, owed)
  {
    if OwedOk(s, code, todo, owed) {
      forall id | id in owed ensures AppliedNow(t, id) || exists k :: 0 <= k < |todo| && todo[k].eventId == id {
        assert AppliedNow(s, id) || exists k :: 0 <= k < |todo| && todo[k].eventId == id;
      }
    }
  }

  // -------------------------------------------------------- writing a row

  /** One UPDATE of a binding by worker `a`, who then moves to `pc`. */
  lemma {:induction false} WritesRow(s: Sys, a: nat, code: string, state: State, orderId: Option<string>, pc: Pc)
    requires Inv(s) && code in s.journal.bindings
    requires var t := Goto(s.(journal := SetState(s.journal, code, state, orderId)), a, pc);
      && RowOk(code, t.journal.bindings[code], Effective(s.posts, code), s.odoo.acks)
      && PcOk(t, pc)
    requires orderId.Some? && s.journal.bindings[code].orderId.Some? ==> orderId == s.journal.bindings[code].orderId
    requires forall b | b != a :: !Submits(At(s, b), code)
    requires forall c | Submits(pc, c) :: c == code
    ensures var t := Goto(s.(journal := SetState(s.journal, code, state, orderId)), a, pc); Inv(t) && Grows(s, t)
  {
    hide PcOk, EventOk, EntryOk, PostOk, WithinReleaseOf, RowOk, SetState, Goto, Grows, MovedTo, CodeOk;
    var t := Goto(s.(journal := SetState(s.journal, code, state, orderId)), a, pc);
    OneRowWritten(s, a, code, state, orderId, pc);
    WorkersKeep(s, t, a, pc);
    RecordsKeep(s, t);
    ReleasesKeep(s, t);
    OtherRowsKeep(s, t, code);
  }

  /** What the update changes, and what it does not. */
  lemma OneRowWritten(s: Sys, a: nat, code: string, state: State, orderId: Option<string>, pc: Pc)
    requires code in s.journal.bindings
    requires orderId.Some? && s.journal.bindings[code].orderId.Some? ==> orderId == s.journal.bindings[code].orderId
    ensures var t := Goto(s.(journal := SetState(s.journal, code, state, orderId)), a, pc);
      && Grows(s, t) && MovedTo(s, t, a, pc)
      && t.journal.events == s.journal.events && t.posts == s.posts && t.odoo == s.odoo && t.journal.bindings.Keys == s.journal.bindings.Keys
      && (forall c | c != code && c in s.journal.bindings :: t.journal.bindings[c] == s.journal.bindings[c])
      && forall c, n: nat | c != code && InPosting(s, c, n) :: InPosting(t, c, n)
  {
  }

  lemma OtherRowsKeep(s: Sys, t: Sys, code: string)
    requires Inv(s) && t.posts == s.posts && t.odoo == s.odoo && code in t.journal.bindings
    requires forall c | c != code :: (c in t.journal.bindings <==> c in s.journal.bindings)
    requires forall c | c != code && c in s.journal.bindings :: t.journal.bindings[c] == s.journal.bindings[c]
    requires RowOk(code, t.journal.bindings[code], Effective(s.posts, code), s.odoo.acks)
    ensures forall c :: CodeOk(t, c)
  {
    hide RowOk, PcOk;
    forall c ensures CodeOk(t, c) { assert CodeOk(s, c); }
  }

  lemma OnlySubmitter(s: Sys, a: nat, code: string)
    requires Inv(s) && Submits(At(s, a), code)
    ensures forall b | b != a :: !Submits(At(s, b), code)
  {
  }

  /** Whoever submits holds the row in state `posting` without an order id. */
  lemma NobodySubmits(s: Sys, code: string)
    requires Inv(s) && (code in s.journal.bindings ==> s.journal.bindings[code].state != Posting)
    ensures forall b :: !Submits(At(s, b), code)
  {
    forall b ensures !Submits(At(s, b), code) { assert PcOk(s, At(s, b)); }
  }

  lemma BuiltIsSensible(body: OrderBody, mapping: Binding)
    requires Built(body, mapping)
    ensures Sensible(mapping) && body.code == mapping.code
  {
  }

  lemma StageStep(s: Sys, a: nat, body: OrderBody, mapping: Binding, claim: string)
    requires Inv(s) && Enabled(s, Begin(a, Submit(body, mapping, claim)))
    ensures var t := Start(s, a, Submit(body, mapping, claim)); Inv(t) && Grows(s, t)
  {
    hide EventOk, EntryOk, PostOk, WithinReleaseOf, Built, Sensible;
    BuiltIsSensible(body, mapping);
    var code, r := mapping.code, Stage(s.journal, body, mapping, claim);
    if code in s.journal.bindings {
      if r.Ok? {
        JustMoves(s, a, Staged(code, body));
      }
    } else {
      var t := Goto(s.(journal := r.value), a, Staged(code, body));
      NobodySubmits(s, code);
      assert CodeOk(s, code);
      WorkersKeep(s, t, a, Staged(code, body));
      RecordsKeep(s, t);
      ReleasesKeep(s, t);
      forall c ensures CodeOk(t, c) { assert CodeOk(s, c); }
    }
  }

  lemma TryStep(s: Sys, a: nat, code: string, body: OrderBody)
    requires Inv(s) && At(s, a) == Trying(code, body)
    ensures var won := MayPost(s.journal, code);
      var t := Goto(s.(journal := StartPost(s.journal, code)), a, if won then Sending(code, body) else Reconciling(code));
      Inv(t) && Grows(s, t)
  {
    assert PcOk(s, At(s, a)) && CodeOk(s, code);
    if MayPost(s.journal, code) {
      NobodySubmits(s, code);
      WritesRow(s, a, code, Posting, None, Sending(code, body));
    } else {
      JustMoves(s, a, Reconciling(code));
    }
  }

  lemma EffectiveSnoc(posts: seq<Post>, p: Post, code: string)
    ensures Effective(posts + [p], code) == Effective(posts, code) + if p.code == code && !p.limited then 1 else 0
  {
    assert (posts + [p])[..|posts|] == posts;
  }

  lemma SendStep(s: Sys, a: nat, code: string, body: OrderBody, answer: PostAnswer)
    requires Inv(s) && At(s, a) == Sending(code, body)
    ensures Inv(Transmit(s, a, code, body, answer)) && Grows(s, Transmit(s, a, code, body, answer))
  {
    match answer
    case Limited => Sends(s, a, code, body, true, GotLimited(code));
    case Errored => Sends(s, a, code, body, false, GotError(code));
    case Lost => Sends(s, a, code, body, false, Idle);
    case Replied(reply) => Sends(s, a, code, body, false, GotReply(code, reply));
  }

  /** The single POST of a submission: nothing but the log and the sender change. */
  lemma Sends(s: Sys, a: nat, code: string, body: OrderBody, limited: bool, pc: Pc)
    requires Inv(s) && At(s, a) == Sending(code, body)
    requires pc == Idle || (pc == GotLimited(code) && limited) || (!limited && (pc == GotError(code) || (pc.GotReply? && pc.code == code)))
    ensures var t := Goto(s.(posts := s.posts + [Post(code, body, limited)]), a, pc); Inv(t) && Grows(s, t)
  {
    hide PcOk, EventOk, EntryOk, WithinReleaseOf, PostOk, CodeOk;
    var t := Goto(s.(posts := s.posts + [Post(code, body, limited)]), a, pc);
    SendingKnows(s, a, code, body);
    PostLogged(s, t, Post(code, body, limited));
    OnlySubmitter(s, a, code);
    AfterSending(t, code, limited, pc);
    WorkersKeep(s, t, a, pc);
    RecordsKeep(s, t);
    ReleasesKeep(s, t);
  }

  lemma SendingKnows(s: Sys, a: nat, code: string, body: OrderBody)
    requires Inv(s) && At(s, a) == Sending(code, body)
    ensures InPosting(s, code, 0) && Bodied(s, code, body)
  {
    assert PcOk(s, At(s, a));
  }

  lemma AfterSending(t: Sys, code: string, limited: bool, pc: Pc)
    requires InPosting(t, code, if limited then 0 else 1)
    requires pc == Idle || (pc == GotLimited(code) && limited) || (!limited && (pc == GotError(code) || (pc.GotReply? && pc.code == code)))
    ensures PcOk(t, pc)
    ensures forall c | Submits(pc, c) :: c == code
  {
  }

  lemma PostLogged(s: Sys, t: Sys, p: Post)
    requires Inv(s) && InPosting(s, p.code, 0) && Bodied(s, p.code, p.body)
    requires t.journal == s.journal && t.odoo == s.odoo && t.posts == s.posts + [p]
    ensures Grows(s, t) && PostOk(t, p)
    ensures forall c :: CodeOk(t, c)
    ensures InPosting(t, p.code, if p.limited then 0 else 1)
    ensures forall c, n: nat | c != p.code && InPosting(s, c, n) :: InPosting(t, c, n)
  {
    forall c ensures Effective(t.posts, c) == Effective(s.posts, c) + if p.code == c && !p.limited then 1 else 0 {
      EffectiveSnoc(s.posts, p, c);
    }
    forall c ensures CodeOk(t, c) { assert CodeOk(s, c); }
  }

  /** `_accept_response`, by the submitter or by a worker that saw the row pending. */
  lemma AcceptStep(s: Sys, a: nat, code: string, reply: Reply, next: Pc)
    requires Inv(s) && next in {Reconciling(code), Recheck(code)} && code in s.journal.bindings
    requires Effective(s.posts, code) == 1
    requires forall b | b != a :: !Submits(At(s, b), code)
    requires var row := s.journal.bindings[code]; row.orderId.Some? ==> row.orderId == reply.orderId
    ensures Inv(Accept(s, a, code, reply, next)) && Grows(s, Accept(s, a, code, reply, next))
  {
    hide Inv, Grows, SetState;
    if reply.code != Some(code) {
      Judges(s, a, code, Uncertain, None, Idle);
    } else if reply.orderId.None? {
      IdleStep(s, a);
    } else {
      match reply.status
      case Sent => Judges(s, a, code, Accepted, reply.orderId, next);
      case Received => Judges(s, a, code, Pending, reply.orderId, next);
      case Other => Judges(s, a, code, Uncertain, reply.orderId, Idle);
    }
  }

  /** One verdict on a posted order. */
  lemma Judges(s: Sys, a: nat, code: string, state: State, orderId: Option<string>, pc: Pc)
    requires Inv(s) && pc in {Idle, Reconciling(code), Recheck(code)} && code in s.journal.bindings
    requires state == Uncertain || (state in {Accepted, Pending} && orderId.Some?)
    requires Effective(s.posts, code) == 1
    requires forall b | b != a :: !Submits(At(s, b), code)
    requires var row := s.journal.bindings[code]; row.orderId.Some? && orderId.Some? ==> row.orderId == orderId
    ensures var t := Goto(s.(journal := SetState(s.journal, code, state, orderId)), a, pc); Inv(t) && Grows(s, t)
  {
    hide EventOk, EntryOk, PostOk, WithinReleaseOf;
    assert CodeOk(s, code);
    WritesRow(s, a, code, state, orderId, pc);
  }


  lemma RecordStep(s: Sys, a: nat, code: string)
    requires Inv(s) && (At(s, a) == GotLimited(code) || At(s, a) == GotError(code))
    ensures var state := if At(s, a) == GotLimited(code) then Ready else Uncertain;
      var t := Goto(s.(journal := SetState(s.journal, code, state, None)), a, Idle); Inv(t) && Grows(s, t)
  {
    assert PcOk(s, At(s, a)) && CodeOk(s, code) && Submits(At(s, a), code);
    OnlySubmitter(s, a, code);
    WritesRow(s, a, code, if At(s, a) == GotLimited(code) then Ready else Uncertain, None, Idle);
  }

  lemma ReplyStep(s: Sys, a: nat, code: string, reply: Reply)
    requires Inv(s) && At(s, a) == GotReply(code, reply)
    ensures var t := Accept(s, a, code, reply, Reconciling(code)); Inv(t) && Grows(s, t)
  {
    assert PcOk(s, At(s, a)) && CodeOk(s, code) && Submits(At(s, a), code);
    OnlySubmitter(s, a, code);
    AcceptStep(s, a, code, reply, Reconciling(code));
  }

  lemma StatusStep(s: Sys, a: nat, code: string, row: Row, answer: Option<Tracking>)
    requires Inv(s) && At(s, a) == AskStatus(code, row)
    ensures Inv(TakeStatus(s, a, code, row, answer)) && Grows(s, TakeStatus(s, a, code, row, answer))
  {
    if answer.None? || answer.value.orderId != row.orderId {
      JustMoves(s, a, Idle);
    } else {
      assert PcOk(s, At(s, a)) && CodeOk(s, code);
      NobodySubmits(s, code);
      AcceptStep(s, a, code, Reply(Some(code), row.orderId, answer.value.status), Recheck(code));
    }
  }

  lemma ReadStep(s: Sys, a: nat, code: string)
    requires Inv(s)
    ensures Inv(Reread(s, a, code)) && Grows(s, Reread(s, a, code))
    ensures Inv(ReadAccepted(s, a, code)) && Grows(s, ReadAccepted(s, a, code))
  {
    assert CodeOk(s, code);
    JustMoves(s, a, Idle);
    if code in s.journal.bindings {
      var row := s.journal.bindings[code];
      if row.state == Pending { JustMoves(s, a, AskStatus(code, row)); }
      if row.state == Accepted { JustMoves(s, a, Acknowledging(code, row)); }
    }
  }

  lemma AgreedStep(s: Sys, a: nat, code: string)
    requires Inv(s) && At(s, a) == Agreed(code)
    ensures var t := Goto(s.(journal := SetState(s.journal, code, Acknowledged, None)), a, Idle); Inv(t) && Grows(s, t)
  {
    assert PcOk(s, At(s, a)) && CodeOk(s, code);
    NobodySubmits(s, code);
    WritesRow(s, a, code, Acknowledged, None, Idle);
  }

  // ------------------------------------------------------- Odoo and events

  lemma AcknowledgeStep(s: Sys, a: nat, code: string, row: Row, answer: OdooAnswer)
    requires Inv(s) && At(s, a) == Acknowledging(code, row)
    ensures Inv(Acknowledge(s, a, code, row, answer)) && Grows(s, Acknowledge(s, a, code, row, answer))
  {
    hide EventOk, EntryOk, PostOk, WithinReleaseOf;
    if answer == Failed {
      JustMoves(s, a, Idle);
    } else {
      var t := Acknowledge(s, a, code, row, answer);
      assert PcOk(s, At(s, a));
      assert AckOf(row) == AckOf(s.journal.bindings[code]);
      WorkersKeep(s, t, a, if answer == Confirmed then Agreed(code) else Idle);
      RecordsKeep(s, t);
      ReleasesKeep(s, t);
      forall c ensures CodeOk(t, c) { assert CodeOk(s, c); }
    }
  }

  lemma PackagesStep(s: Sys, a: nat, code: string, row: Row, answer: Option<Tracking>)
    requires Inv(s) && At(s, a) == AskPackages(code, row)
    ensures Inv(TakePackages(s, a, code, row, answer)) && Grows(s, TakePackages(s, a, code, row, answer))
  {
    if answer.None? || !SnapshotAccepted(answer.value, row.mapping, Default(row.orderId)) {
      JustMoves(s, a, Idle);
    } else {
      var ps := answer.value.shipments.value;
      var r := StagePackages(s.journal, code, SnapshotReports(row.mapping, Default(row.orderId), ps));
      if r.Review? {
        JustMoves(s, a, Idle);
      } else {
        Stages(s, a, code, row, ps, r.value);
      }
    }
  }

  lemma Stages(s: Sys, a: nat, code: string, row: Row, ps: seq<Package>, j: Journal)
    requires Inv(s) && At(s, a) == AskPackages(code, row) && PackagesAccepted(row.mapping, ps)
    requires StagePackages(s.journal, code, SnapshotReports(row.mapping, Default(row.orderId), ps)) == Ok(j)
    ensures var t := Goto(s.(journal := j, latest := s.latest[code := ps]), a, Listing(code, row)); Inv(t) && Grows(s, t)
  {
    hide EventOk, EntryOk, PostOk, StagedTotal, Released, SnapshotReports, PackagesAccepted;
    var t := Goto(s.(journal := j, latest := s.latest[code := ps]), a, Listing(code, row));
    assert PcOk(s, At(s, a)) && CodeOk(s, code);
    SnapshotStaged(s.journal, code, row.mapping, Default(row.orderId), ps, j);
    WorkersKeep(s, t, a, Listing(code, row));
    EventsAdded(s, t, code);
    forall c ensures CodeOk(t, c) { assert CodeOk(s, c); }
  }

  /** New, unapplied events of one code leave everything else as it was. */
  lemma EventsAdded(s: Sys, t: Sys, code: string)
    requires Inv(s) && Grows(s, t) && t.odoo == s.odoo && t.posts == s.posts && t.journal.bindings == s.journal.bindings
    requires code in s.journal.bindings
    requires forall id | id in s.journal.events :: t.journal.events[id] == s.journal.events[id]
    requires forall id | id in t.journal.events && id !in s.journal.events ::
      t.journal.events[id].code == code && !t.journal.events[id].applied && t.journal.events[id].report.eventId == id && Proper(code, t.journal.events[id].report)
    ensures forall i | 0 <= i < |t.posts| :: PostOk(t, t.posts[i])
    ensures forall id | id in t.journal.events :: EventOk(t, id)
    ensures forall id | id in t.odoo.ledger :: EntryOk(t, id)
    ensures forall c | c != code :: WithinReleaseOf(t, c)
  {
    hide PcOk, Submits, RowOk, StagedTotal, Released;
    forall i | 0 <= i < |t.posts| ensures PostOk(t, t.posts[i]) { assert PostOk(s, s.posts[i]); }
    forall id | id in t.journal.events ensures EventOk(t, id) { if id in s.journal.events { assert EventOk(s, id); } }
    forall id | id in t.odoo.ledger ensures EntryOk(t, id) { assert EntryOk(s, id); }
    forall c | c != code ensures WithinReleaseOf(t, c) {
      assert WithinReleaseOf(s, c);
      SameTotals(s.journal.events, t.journal.events, c);
    }
  }

  lemma SameTotals(events: map<EventId, Event>, after: map<EventId, Event>, code: string)
    requires CodeEvents(after, code) == CodeEvents(events, code)
    requires forall e | e in CodeEvents(events, code) :: after[e].report == events[e].report
    ensures forall id :: StagedTotal(after, code, id) == StagedTotal(events, code, id)
  {
    forall id ensures StagedTotal(after, code, id) == StagedTotal(events, code, id) {
      SumSetEqual(CodeEvents(events, code), EventTotal(events, id), EventTotal(after, id));
    }
  }

  lemma ListStep(s: Sys, a: nat, code: string, row: Row)
    requires Inv(s) && At(s, a) == Listing(code, row)
    ensures var t := Goto(s, a, Applying(code, row, PendingPackages(s.journal, code), CodeEvents(s.journal.events, code)));
      Inv(t) && Grows(s, t)
  {
    assert PcOk(s, At(s, a));
    PendingCoversUnapplied(s, code);
    JustMoves(s, a, Applying(code, row, PendingPackages(s.journal, code), CodeEvents(s.journal.events, code)));
  }

  lemma PendingCoversUnapplied(s: Sys, code: string)
    requires Inv(s)
    ensures OwedOk(s, code, PendingPackages(s.journal, code), CodeEvents(s.journal.events, code))
  {
    EventLessTotal();
    var events := s.journal.events;
    var ids, todo := Sorted(EventLess, Unapplied(events, code)), PendingPackages(s.journal, code);
    forall k | 0 <= k < |todo| ensures todo[k].eventId == ids[k] && StagedAs(s, code, todo[k]) {
      assert ids[k] in ids;
      assert ids[k] in Unapplied(events, code);
      assert EventOk(s, ids[k]);
    }
    forall id | id in CodeEvents(events, code) ensures AppliedNow(s, id) || exists k :: 0 <= k < |todo| && todo[k].eventId == id {
      if !AppliedNow(s, id) {
        assert id in ids;
        var k :| 0 <= k < |ids| && ids[k] == id;
        assert todo[k].eventId == id;
      }
    }
  }

  lemma ApplyStep(s: Sys, a: nat, code: string, row: Row, todo: seq<Report>, owed: set<EventId>, answer: OdooAnswer)
    requires Inv(s) && At(s, a) == Applying(code, row, todo, owed) && todo != []
    ensures var t := ApplyOne(s, a, code, row, todo, owed, answer); Inv(t) && Grows(s, t)
  {
    hide PostOk, EventOk, EntryOk, WithinReleaseOf, RowOk, PcOk;
    if answer == Failed {
      IdleStep(s, a);
    } else {
      var t := ApplyOne(s, a, code, row, todo, owed, answer);
      var pc := if answer == Confirmed then Booked(code, row, todo, owed) else Idle;
      BooksNext(s, t, At(s, a), pc);
      WorkersKeep(s, t, a, pc);
      RecordsKeep(s, t);
      ReleasesKeep(s, t);
      forall c ensures CodeOk(t, c) { assert CodeOk(s, c); }
    }
  }

  lemma BooksNext(s: Sys, t: Sys, now: Pc, pc: Pc)
    requires now.Applying? && now.todo != [] && PcOk(s, now)
    requires pc == Idle || pc == Booked(now.code, now.row, now.todo, now.owed)
    requires t.journal == s.journal && t.posts == s.posts
    requires t.odoo == s.odoo.(ledger := Book(s.odoo.ledger, now.row.mapping.anchorId, now.todo[0]))
    ensures Grows(s, t) && PcOk(t, pc)
    ensures forall id | id in t.odoo.ledger && id !in s.odoo.ledger :: EntryOk(t, id)
  {
    assert StagedAs(s, now.code, now.todo[0]);
    OwedSurvives(s, t, now.code, now.todo, now.owed);
  }

  lemma BookedStep(s: Sys, a: nat, code: string, row: Row, todo: seq<Report>, owed: set<EventId>)
    requires Inv(s) && At(s, a) == Booked(code, row, todo, owed) && todo != []
    ensures var t := Goto(s.(journal := MarkApplied(s.journal, todo[0].eventId)), a, Applying(code, row, todo[1..], owed));
      Inv(t) && Grows(s, t)
  {
    hide EventOk, EntryOk, PostOk, WithinReleaseOf, PcOk, CodeOk;
    var id, pc := todo[0].eventId, Applying(code, row, todo[1..], owed);
    var t := Goto(s.(journal := MarkApplied(s.journal, id)), a, pc);
    BookedHead(s, Booked(code, row, todo, owed), t, pc) by { assert PcOk(s, At(s, a)); }
    MarkKeeps(s, t, id);
    WorkersKeep(s, t, a, pc);
  }

  lemma BookedHead(s: Sys, now: Pc, t: Sys, pc: Pc)
    requires now.Booked? && now.todo != [] && PcOk(s, now)
    requires t.journal == MarkApplied(s.journal, now.todo[0].eventId)
    requires pc == Applying(now.code, now.row, now.todo[1..], now.owed)
    ensures now.todo[0].eventId in s.journal.events && now.todo[0].eventId in s.odoo.ledger
    ensures PcOk(t, pc)
  {
    assert StagedAs(s, now.code, now.todo[0]);
    OwedAfterMark(s, t, now.code, now.todo, now.owed);
  }

  lemma OwedAfterMark(s: Sys, t: Sys, code: string, todo: seq<Report>, owed: set<EventId>)
    requires todo != [] && OwedOk(s, code, todo, owed) && t.journal == MarkApplied(s.journal, todo[0].eventId)
    ensures OwedOk(t, code, todo[1..], owed)
  {
    assert StagedAs(s, code, todo[0]);
    forall k | 0 <= k < |todo[1..]| ensures StagedAs(t, code, todo[1..][k]) { assert StagedAs(s, code, todo[k + 1]); }
    forall x | x in owed ensures AppliedNow(t, x) || exists k :: 0 <= k < |todo[1..]| && todo[1..][k].eventId == x {
      if !AppliedNow(s, x) && x != todo[0].eventId {
        var k :| 0 <= k < |todo| && todo[k].eventId == x;
        assert todo[1..][k - 1].eventId == x;
      }
    }
  }

  lemma MarkKeeps(s: Sys, t: Sys, id: EventId)
    requires Inv(s) && id in s.journal.events && id in s.odoo.ledger
    requires t.journal == MarkApplied(s.journal, id) && t.posts == s.posts && t.odoo == s.odoo
    ensures Grows(s, t)
    ensures forall c, n: nat | InPosting(s, c, n) :: InPosting(t, c, n)
    ensures forall i | 0 <= i < |t.posts| :: PostOk(t, t.posts[i])
    ensures forall x | x in t.journal.events :: EventOk(t, x)
    ensures forall x | x in t.odoo.ledger :: EntryOk(t, x)
    ensures forall c :: CodeOk(t, c) && WithinReleaseOf(t, c)
  {
    hide PcOk, Submits, RowOk, StagedTotal, Proper, WithinReleaseOf, EventOk, EntryOk;
    forall i | 0 <= i < |t.posts| ensures PostOk(t, t.posts[i]) { assert PostOk(s, s.posts[i]); }
    forall x | x in t.journal.events ensures EventOk(t, x) { assert EventOk(s, x); MarkKeepsEvent(s, t, id, x); }
    forall x | x in t.odoo.ledger ensures EntryOk(t, x) { assert EntryOk(s, x); MarkKeepsEntry(s, t, id, x); }
    forall c ensures CodeOk(t, c) && WithinReleaseOf(t, c) {
      assert CodeOk(s, c) && WithinReleaseOf(s, c);
      MarkKeepsRelease(s, t, id, c);
    }
  }

  lemma MarkKeepsEvent(s: Sys, t: Sys, id: EventId, x: EventId)
    requires t.journal == MarkApplied(s.journal, id) && t.odoo == s.odoo && id in s.odoo.ledger
    requires x in s.journal.events && x in t.journal.events && EventOk(s, x)
    ensures EventOk(t, x)
  {
  }

  lemma MarkKeepsEntry(s: Sys, t: Sys, id: EventId, x: EventId)
    requires t.journal == MarkApplied(s.journal, id) && t.odoo == s.odoo
    requires x in s.odoo.ledger && EntryOk(s, x)
    ensures EntryOk(t, x)
  {
  }

  lemma MarkKeepsRelease(s: Sys, t: Sys, id: EventId, code: string)
    requires t.journal == MarkApplied(s.journal, id) && WithinReleaseOf(s, code)
    ensures WithinReleaseOf(t, code)
  {
    SameTotals(s.journal.events, t.journal.events, code);
  }

  // ------------------------------------------------------------ every step

  lemma ResumeKeeps(s: Sys, a: nat, answers: Answers)
    requires Inv(s)
    ensures Inv(Resume(s, a, answers)) && Grows(s, Resume(s, a, answers))
  {
    hide Inv, Grows, PcOk, Transmit, Accept, Reread, TakeStatus, ReadAccepted, Acknowledge, TakePackages, ApplyOne, SetState,
         StartPost, MarkApplied, PendingPackages, CodeEvents, AfterStage;
    match At(s, a)
    case Idle => GrowsReflexive(s);
    case Staged(code, body) => StagedStep(s, a, code, body);
    case Trying(code, body) => TryStep(s, a, code, body);
    case Sending(code, body) => SendStep(s, a, code, body, answers.post);
    case GotLimited(code) => RecordStep(s, a, code);
    case GotError(code) => RecordStep(s, a, code);
    case GotReply(code, reply) => ReplyStep(s, a, code, reply);
    case Reconciling(code) => ReadStep(s, a, code);
    case AskStatus(code, row) => StatusStep(s, a, code, row, answers.tracking);
    case Recheck(code) => ReadStep(s, a, code);
    case Acknowledging(code, row) => AcknowledgeStep(s, a, code, row, answers.odoo);
    case Agreed(code) => AgreedStep(s, a, code);
    case AskPackages(code, row) => PackagesStep(s, a, code, row, answers.tracking);
    case Listing(code, row) => ListStep(s, a, code, row);
    case Applying(code, row, todo, owed) =>
      if todo == [] { FinishStep(s, a, code, row, owed); } else { ApplyStep(s, a, code, row, todo, owed, answers.odoo); }
    case Booked(code, row, todo, owed) =>
      if todo == [] { IdleStep(s, a); } else { BookedStep(s, a, code, row, todo, owed); }
    case Finished(code, owed) => IdleStep(s, a);
  }

  lemma GrowsReflexive(s: Sys)
    ensures Grows(s, s)
  {
  }

  lemma IdleStep(s: Sys, a: nat)
    requires Inv(s)
    ensures Inv(Goto(s, a, Idle)) && Grows(s, Goto(s, a, Idle))
  {
    JustMoves(s, a, Idle);
  }

  lemma StagedStep(s: Sys, a: nat, code: string, body: OrderBody)
    requires Inv(s) && At(s, a) == Staged(code, body)
    ensures Inv(AfterStage(s, a, code, body)) && Grows(s, AfterStage(s, a, code, body))
  {
    assert PcOk(s, At(s, a));
    JustMoves(s, a, if MayPost(s.journal, code) then Trying(code, body) else Reconciling(code));
  }

  lemma FinishStep(s: Sys, a: nat, code: string, row: Row, owed: set<EventId>)
    requires Inv(s) && At(s, a) == Applying(code, row, [], owed)
    ensures Inv(Goto(s, a, Finished(code, owed))) && Grows(s, Goto(s, a, Finished(code, owed)))
  {
    assert PcOk(s, At(s, a));
    JustMoves(s, a, Finished(code, owed));
  }

  lemma StepKeeps(s: Sys, l: Label)
    requires Inv(s) && Enabled(s, l)
    ensures Inv(Next(s, l)) && Grows(s, Next(s, l))
  {
    hide Inv, Grows, Resume;
    match l
    case Begin(a, Submit(body, mapping, claim)) => StageStep(s, a, body, mapping, claim);
    case Begin(a, call) => CallStep(s, a, call);
    case Go(a, answers) => ResumeKeeps(s, a, answers);
    case Crash(a) => IdleStep(s, a);
  }

  lemma CallStep(s: Sys, a: nat, call: Call)
    requires Inv(s) && !call.Submit?
    ensures Inv(Start(s, a, call)) && Grows(s, Start(s, a, call))
  {
    var code := call.code;
    assert CodeOk(s, code);
    JustMoves(s, a, Reconciling(code));
    if code in s.journal.bindings && s.journal.bindings[code].state == Acknowledged {
      JustMoves(s, a, AskPackages(code, s.journal.bindings[code]));
    }
  }

  lemma {:induction false} RunKeeps(s: Sys, ls: seq<Label>)
    requires Inv(s)
    ensures Inv(Run(s, ls)) && Grows(s, Run(s, ls))
  {
    if ls != [] {
      var t := Run(s, ls[..|ls| - 1]);
      RunKeeps(s, ls[..|ls| - 1]);
      if Enabled(t, ls[|ls| - 1]) {
        StepKeeps(t, ls[|ls| - 1]);
        GrowsTransitive(s, t, Next(t, ls[|ls| - 1]));
      }
    }
  }

  lemma InvInitially()
    ensures Inv(INITIAL)
  {
  }
}
