/** The worker as written: methods over the store, the gateway and Odoo
    (src/integrations/ksp_gateway/worker.py). Every call is shown to be a run of
    the step machine, so all of its guarantees hold of this code. The answers
    of the outside world are arguments: they may be anything. */
module KspWorker {
  import opened Outcomes
  import opened Ordering
  import opened KspMapping
  import opened KspTracking
  import opened KspTrackingLaws
  import opened KspJournal
  import opened KspProtocol
  import opened KspInvariant
  import opened KspResults
  import opened KspSteps

  /** What the gateway has received. */
  class Gateway {
    var posts: seq<Post>

    constructor () ensures posts == [] { posts := []; }

    method SubmitOrder(body: OrderBody, answer: PostAnswer)
      modifies this
      ensures posts == old(posts) + [Post(body.code, body, answer.Limited?)]
    {
      posts := posts + [Post(body.code, body, answer.Limited?)];
    }
  }

  /** Odoo's side: its ledger of shipment events and its acknowledgements.
      `calls` are all shipment calls made to it, for the proofs only. */
  class OdooServer {
    var ledger: map<EventId, Entry>
    var acks: set<Ack>
    ghost var calls: seq<Entry>

    constructor () ensures ledger == map[] && acks == {} && calls == [] { ledger, acks, calls := map[], {}, []; }

    method AcknowledgeOrder(ack: Ack, answer: OdooAnswer) returns (ok: bool)
      modifies this`acks
      ensures ok == answer.Confirmed?
      ensures acks == old(acks) + if answer == Failed then {} else {ack}
    {
      if answer != Failed { acks := acks + {ack}; }
      ok := answer == Confirmed;
    }

    method ApplyShipment(anchorId: int, r: Report, answer: OdooAnswer) returns (ok: bool)
      modifies this`ledger, this`calls
      ensures ok == answer.Confirmed? && calls == old(calls) + [Entry(anchorId, r)]
      ensures ledger == if answer == Failed then old(ledger) else Book(old(ledger), anchorId, r)
    {
      calls := calls + [Entry(anchorId, r)];
      if answer != Failed && r.eventId !in ledger { ledger := ledger[r.eventId := Entry(anchorId, r)]; }
      ok := answer == Confirmed;
    }
  }

  /** This worker's name in the step machine. */
  const ME: nat := 0

  /** The history with one more step. */
  ghost function Took(s: Sys, ls: seq<Label>, l: Label): (r: seq<Label>)
    ensures r == ls + [l]
    ensures Run(s, r) == var t := Run(s, ls); if Enabled(t, l) then Next(t, l) else t
  {
    assert (ls + [l])[..|ls|] == ls;
    ls + [l]
  }

  /** This worker goes on with these answers and nothing else. A run of such
      steps that ends idle is decided by its start and the answers. */
  predicate Goes(steps: seq<Label>, w: Answers) { forall i | 0 <= i < |steps| :: steps[i] == Go(ME, w) }

  lemma Nothing(s: Sys)
    ensures Run(s, []) == s
  {
  }

  lemma FromIdle(s: Sys, call: Call)
    requires Enabled(s, Begin(ME, call))
    ensures Next(s, Begin(ME, call)) == Start(s, ME, call)
  {
  }

  lemma FromStaged(s: Sys, w: Answers, code: string, body: OrderBody)
    requires At(s, ME) == Staged(code, body)
    ensures Next(s, Go(ME, w)) == AfterStage(s, ME, code, body)
  {
  }

  lemma FromTrying(s: Sys, w: Answers, code: string, body: OrderBody)
    requires At(s, ME) == Trying(code, body)
    ensures Next(s, Go(ME, w)) == Goto(s.(journal := StartPost(s.journal, code)), ME, if MayPost(s.journal, code) then Sending(code, body) else Reconciling(code))
  {
  }

  lemma FromSending(s: Sys, w: Answers, code: string, body: OrderBody)
    requires At(s, ME) == Sending(code, body)
    ensures Next(s, Go(ME, w)) == Transmit(s, ME, code, body, w.post)
  {
  }

  lemma FromGotLimited(s: Sys, w: Answers, code: string)
    requires At(s, ME) == GotLimited(code)
    ensures Next(s, Go(ME, w)) == Goto(s.(journal := SetState(s.journal, code, Ready, None)), ME, Idle)
  {
  }

  lemma FromGotError(s: Sys, w: Answers, code: string)
    requires At(s, ME) == GotError(code)
    ensures Next(s, Go(ME, w)) == Goto(s.(journal := SetState(s.journal, code, Uncertain, None)), ME, Idle)
  {
  }

  lemma FromGotReply(s: Sys, w: Answers, code: string, reply: Reply)
    requires At(s, ME) == GotReply(code, reply)
    ensures Next(s, Go(ME, w)) == Accept(s, ME, code, reply, Reconciling(code))
  {
  }

  lemma FromReconciling(s: Sys, w: Answers, code: string)
    requires At(s, ME) == Reconciling(code)
    ensures Next(s, Go(ME, w)) == Reread(s, ME, code)
  {
  }

  lemma FromAskStatus(s: Sys, w: Answers, code: string, row: Row)
    requires At(s, ME) == AskStatus(code, row)
    ensures Next(s, Go(ME, w)) == TakeStatus(s, ME, code, row, w.tracking)
  {
  }

  lemma FromRecheck(s: Sys, w: Answers, code: string)
    requires At(s, ME) == Recheck(code)
    ensures Next(s, Go(ME, w)) == ReadAccepted(s, ME, code)
  {
  }

  lemma FromAcknowledging(s: Sys, w: Answers, code: string, row: Row)
    requires At(s, ME) == Acknowledging(code, row)
    ensures Next(s, Go(ME, w)) == Acknowledge(s, ME, code, row, w.odoo)
  {
  }

  lemma FromAgreed(s: Sys, w: Answers, code: string)
    requires At(s, ME) == Agreed(code)
    ensures Next(s, Go(ME, w)) == Goto(s.(journal := SetState(s.journal, code, Acknowledged, None)), ME, Idle)
  {
  }

  lemma FromAskPackages(s: Sys, w: Answers, code: string, row: Row)
    requires At(s, ME) == AskPackages(code, row)
    ensures Next(s, Go(ME, w)) == TakePackages(s, ME, code, row, w.tracking)
  {
  }

  lemma FromListing(s: Sys, w: Answers, code: string, row: Row)
    requires At(s, ME) == Listing(code, row)
    ensures Next(s, Go(ME, w)) == Goto(s, ME, Applying(code, row, PendingPackages(s.journal, code), CodeEvents(s.journal.events, code)))
  {
  }

  lemma FromApplying(s: Sys, w: Answers, code: string, row: Row, todo: seq<Report>, owed: set<EventId>)
    requires At(s, ME) == Applying(code, row, todo, owed)
    ensures Next(s, Go(ME, w)) ==
      if todo == [] then Goto(s, ME, Finished(code, owed)) else ApplyOne(s, ME, code, row, todo, owed, w.odoo)
  {
  }

  lemma FromBooked(s: Sys, w: Answers, code: string, row: Row, todo: seq<Report>, owed: set<EventId>)
    requires At(s, ME) == Booked(code, row, todo, owed) && todo != []
    ensures Next(s, Go(ME, w)) == Goto(s.(journal := MarkApplied(s.journal, todo[0].eventId)), ME, Applying(code, row, todo[1..], owed))
  {
  }

  lemma FromFinished(s: Sys, w: Answers, code: string, owed: set<EventId>)
    requires At(s, ME) == Finished(code, owed)
    ensures Next(s, Go(ME, w)) == Goto(s, ME, Idle)
  {
  }

  lemma StillIdle(s: Sys, w: Answers)
    requires At(s, ME) == Idle
    ensures Next(s, Go(ME, w)) == s
  {
  }

  /** Where a submitter stands once the outcome of its POST is known. */
  function AfterAnswer(code: string, answer: PostAnswer): Pc {
    match answer
    case Limited => GotLimited(code)
    case Errored => GotError(code)
    case Lost => Idle
    case Replied(reply) => GotReply(code, reply)
  }

  /** The submission that an accepted allocation calls for. */
  ghost predicate CallsFor(p: Payload, a: Allocation, rules: seq<PackRule>, rest: Outcome<string>, claim: string, call: Call) {
    && call.Submit? && call.claim == claim
    && Summarises(RuleTable(rules), a.lines, call.mapping.lines) && Built(call.body, call.mapping)
    && ByTheRules(rules, a.lines, call.body.lines)
    && Some(call.mapping.code) == a.submissionKey && Some(call.mapping.anchorId) == p.pickingId
    && Some(call.mapping.warehouseId) == a.warehouseId && Ok(call.body.rest) == rest
  }

  class Worker {
    const store: GatewayStore
    const gateway: Gateway
    const odoo: OdooServer
    const enableSubmissions: bool
    const enableShipments: bool
    const confirmTrackingIdentity: bool

    constructor (store: GatewayStore, gateway: Gateway, odoo: OdooServer, submit: bool, ship: bool, confirm: bool)
      ensures this.store == store && this.gateway == gateway && this.odoo == odoo
      ensures enableSubmissions == submit && enableShipments == ship && confirmTrackingIdentity == confirm
    {
      this.store, this.gateway, this.odoo := store, gateway, odoo;
      enableSubmissions, enableShipments, confirmTrackingIdentity := submit, ship, confirm;
    }

    /** What a submission of this call leaves: nothing changed if other content
        is frozen under its code; else its row, posted once if it was ready. */
    twostate predicate Left(call: Call, answers: Answers)
      requires call.Submit?
      reads store, gateway, odoo
    {
      var code := call.mapping.code;
      if Conflicts(old(store.bindings), call.body, call.mapping, call.claim)
      then store.bindings == old(store.bindings) && gateway.posts == old(gateway.posts) && odoo.acks == old(odoo.acks)
      else
        var was := StagedRow(old(store.bindings), call.body, call.mapping, call.claim);
        && store.bindings == old(store.bindings)[code := RowSubmitted(code, was, answers)]
        && gateway.posts == old(gateway.posts) + PostsOf(code, call.body, was, answers)
        && odoo.acks == AcksOnceSent(old(odoo.acks), code, was, answers)
    }

    /** The world, with this worker at `pc`. */
    ghost function World(pc: Pc): Sys
      reads store, gateway, odoo
    {
      Sys(store.Contents(), Odoo(odoo.ledger, odoo.acks), gateway.posts, if pc.Idle? then map[] else map[ME := pc], store.latest)
    }

    method SubmitAllocation(p: Payload, a: Allocation, rules: seq<PackRule>, rest: Outcome<string>, claim: Option<string>, answers: Answers)
      returns (r: Result, ghost steps: seq<Label>)
      modifies store`bindings, gateway, odoo`acks
      ensures World(Idle) == Run(old(World(Idle)), steps)
      ensures if AllocationAccepted(p, a, rules) && rest.Ok? && enableSubmissions && claim.Some?
        then steps != [] && steps[0].Begin? && steps[0].a == ME && CallsFor(p, a, rules, rest, claim.value, steps[0].call) && Goes(steps[1..], answers)
          && r == SubmitResult(old(store.Contents()), steps[0].call, answers)
          && Left(steps[0].call, answers)
        else steps == [] && r == if AllocationAccepted(p, a, rules) && rest.Ok? && !enableSubmissions then Preview else Raised
    {
      hide Next, Run, AllocationAccepted, Summarises, WholePacks, OrderOf, Built, SubmitResult, ByTheRules;
      steps := [];
      Nothing(World(Idle));
      var built := BuildOrder(p, a, rules, rest);
      if built.Review? { return Raised, steps; }
      if !enableSubmissions { return Preview, steps; }
      if claim.None? { return Raised, steps; }
      BuiltFromAllocation(a, rules, built.value.0, built.value.1);
      ghost var more;
      r, more := Submit(built.value.0, built.value.1, claim.value, answers);
      steps := [Begin(ME, KspProtocol.Submit(built.value.0, built.value.1, claim.value))] + more;
      assert steps[1..] == more;
    }

    /** Staging the row, the POST if it is ready, and the reconciliation. */
    method Submit(body: OrderBody, mapping: Binding, claim: string, answers: Answers) returns (r: Result, ghost steps: seq<Label>)
      requires Built(body, mapping) && body.code == mapping.code
      modifies store`bindings, gateway, odoo`acks
      ensures var call := KspProtocol.Submit(body, mapping, claim);
        World(Idle) == Run(old(World(Idle)), [Begin(ME, call)] + steps) && r == SubmitResult(old(store.Contents()), call, answers)
      ensures Goes(steps, answers)
      ensures Left(KspProtocol.Submit(body, mapping, claim), answers)
    {
      hide Next, Run, Built, Submitted, RowSubmitted, PostsOf, AcksOnceSent;
      ghost var start, begin := World(Idle), Begin(ME, KspProtocol.Submit(body, mapping, claim));
      var row := store.StageOrder(body, mapping, claim);
      FromIdle(start, begin.call);
      ghost var t := Begun(start, begin);
      steps := [];
      Nothing(t);
      if row.Review? {
        r := Raised;
      } else {
        assert World(Staged(mapping.code, body)) == t;
        r, steps := SubmitStaged(mapping.code, body, answers);
      }
      Continued(start, begin, t, steps);
    }

    /** From the staged row on. */
    method SubmitStaged(code: string, body: OrderBody, answers: Answers) returns (r: Result, ghost steps: seq<Label>)
      requires code in store.bindings && body.code == code
      modifies store`bindings, gateway, odoo`acks
      ensures World(Idle) == Run(old(World(Staged(code, body))), steps)
      ensures r == Submitted(old(store.bindings), code, answers)
      ensures Goes(steps, answers)
      ensures var was := old(store.bindings)[code];
        && store.bindings == old(store.bindings)[code := RowSubmitted(code, was, answers)]
        && gateway.posts == old(gateway.posts) + PostsOf(code, body, was, answers)
        && odoo.acks == AcksOnceSent(old(odoo.acks), code, was, answers)
    {
      hide Next, Run, SetState, StartPost, Reconciled, RowReconciled, RowPosted, AcksAfter, TellsOdoo;
      ghost var t := World(Staged(code, body));
      Nothing(t);
      FromStaged(t, answers, code, body);
      steps := Took(t, [], Go(ME, answers));
      ghost var more;
      if store.bindings[code].state == Ready {
        assert World(Trying(code, body)) == Run(t, steps);
        var raised;
        raised, more := TryPost(code, body, answers);
        steps := ContinuedBy(t, steps, more);
        if raised { return Raised, steps; }
      }
      assert World(Reconciling(code)) == Run(t, steps);
      SubmittedReconciled(store.bindings, old(store.bindings), code, answers);
      r, more := Reconcile(code, answers);
      steps := ContinuedBy(t, steps, more);
    }

    /** The conditional update and, for its winner, the one POST. */
    method TryPost(code: string, body: OrderBody, answers: Answers) returns (raised: bool, ghost steps: seq<Label>)
      requires body.code == code
      modifies store`bindings, gateway
      ensures World(if raised then Idle else Reconciling(code)) == Run(old(World(Trying(code, body))), steps)
      ensures RowIs(old(store.bindings), code, Ready) ==>
        if answers.post.Replied? && Proves(code, answers.post.reply)
        then !raised && RowIs(store.bindings, code, ProvenState(answers.post.reply.status)) && store.bindings[code].orderId == answers.post.reply.orderId
        else raised
      ensures !RowIs(old(store.bindings), code, Ready) ==> !raised && store.bindings == old(store.bindings)
      ensures |gateway.posts| <= |old(gateway.posts)| + 1
      ensures code in old(store.bindings) ==>
        var was := old(store.bindings)[code];
        && store.bindings == old(store.bindings)[code := RowOnceSent(code, was, answers)]
        && gateway.posts == old(gateway.posts) + if was.state == Ready then [KspProtocol.Post(code, body, answers.post.Limited?)] else []
      ensures Goes(steps, answers)
    {
      hide Next, Run, SetState;
      ghost var start := World(Trying(code, body));
      Nothing(start);
      var mine := store.BeginPost(code);
      FromTrying(start, answers, code, body);
      steps := Took(start, [], Go(ME, answers));
      if !mine { return false, steps; }
      assert World(Sending(code, body)) == Run(start, steps);
      ghost var more;
      raised, more := Post(code, body, answers);
      steps := ContinuedBy(start, steps, more);
    }

    /** The one attempt, and what is recorded of it. */
    method Post(code: string, body: OrderBody, answers: Answers) returns (raised: bool, ghost steps: seq<Label>)
      requires body.code == code && code in store.bindings
      modifies store`bindings, gateway
      ensures World(if raised then Idle else Reconciling(code)) == Run(old(World(Sending(code, body))), steps)
      ensures if answers.post.Replied? && Proves(code, answers.post.reply)
        then !raised && RowIs(store.bindings, code, ProvenState(answers.post.reply.status)) && store.bindings[code].orderId == answers.post.reply.orderId
        else raised
      ensures gateway.posts == old(gateway.posts) + [KspProtocol.Post(code, body, answers.post.Limited?)]
      ensures store.bindings == old(store.bindings)[code := RowPosted(code, old(store.bindings)[code], answers.post)]
      ensures Goes(steps, answers)
    {
      hide Next, Run, SetState, Accept;
      ghost var start := World(Sending(code, body));
      Nothing(start);
      gateway.SubmitOrder(body, answers.post);
      FromSending(start, answers, code, body);
      steps := Took(start, [], Go(ME, answers));
      assert World(AfterAnswer(code, answers.post)) == Run(start, steps);
      if answers.post.Lost? { return true, steps; }
      ghost var more;
      raised, more := RecordAnswer(code, answers);
      steps := ContinuedBy(start, steps, more);
    }

    /** The `except` clauses and the success path after the one attempt. */
    method RecordAnswer(code: string, answers: Answers) returns (raised: bool, ghost steps: seq<Label>)
      requires !answers.post.Lost? && code in store.bindings
      modifies store`bindings
      ensures World(if raised then Idle else Reconciling(code)) == Run(old(World(AfterAnswer(code, answers.post))), steps)
      ensures if answers.post.Replied? && Proves(code, answers.post.reply)
        then !raised && RowIs(store.bindings, code, ProvenState(answers.post.reply.status)) && store.bindings[code].orderId == answers.post.reply.orderId
        else raised
      ensures store.bindings == old(store.bindings)[code := RowPosted(code, old(store.bindings)[code], answers.post)]
      ensures Goes(steps, answers)
    {
      hide Next, Run, SetState, Accept;
      ghost var start := World(AfterAnswer(code, answers.post));
      Nothing(start);
      steps := Took(start, [], Go(ME, answers));
      match answers.post {
        case Limited =>
          store.Update(code, Ready, None);
          FromGotLimited(start, answers, code);
          raised := true;
        case Errored =>
          store.Update(code, Uncertain, None);
          FromGotError(start, answers, code);
          raised := true;
        case Replied(reply) =>
          var proven := AcceptResponse(code, reply);
          FromGotReply(start, answers, code, reply);
          raised := !proven;
      }
    }

    /** `_accept_response`: `proven` unless it raises. */
    method AcceptResponse(code: string, reply: Reply) returns (proven: bool)
      modifies store`bindings
      ensures proven == Proves(code, reply)
      ensures store.bindings == if code in old(store.bindings)
        then old(store.bindings)[code := RowReplied(code, old(store.bindings)[code], reply)] else old(store.bindings)
      ensures proven && code in store.bindings ==>
        RowIs(store.bindings, code, ProvenState(reply.status)) && store.bindings[code].orderId == reply.orderId
      ensures forall s: Sys, a: nat, next: Pc | s.journal == old(store.Contents()) && !next.Idle? ::
        Accept(s, a, code, reply, next) == Goto(s.(journal := store.Contents()), a, if proven then next else Idle)
    {
      if reply.code != Some(code) {
        store.Update(code, Uncertain, None);
        return false;
      }
      if reply.orderId.None? { return false; }
      match reply.status
      case Sent =>
        store.Update(code, State.Accepted, reply.orderId);
        return true;
      case Received =>
        store.Update(code, Pending, reply.orderId);
        return true;
      case Other =>
        store.Update(code, Uncertain, reply.orderId);
        return false;
    }

    method Reconcile(code: string, answers: Answers) returns (r: Result, ghost steps: seq<Label>)
      modifies store`bindings, odoo`acks
      ensures World(Idle) == Run(old(World(Reconciling(code))), steps)
      ensures r == Reconciled(old(store.bindings), code, answers)
      ensures r.InState? ==> RowIs(store.bindings, code, r.state)
      ensures if code in old(store.bindings)
        then store.bindings == old(store.bindings)[code := RowReconciled(old(store.bindings)[code], answers)]
          && odoo.acks == AcksAfter(old(odoo.acks), old(store.bindings)[code], answers)
        else store.bindings == old(store.bindings) && odoo.acks == old(odoo.acks)
      ensures Goes(steps, answers)
    {
      hide Next, Run, SetState, Accept, Acknowledge, RowChecked, RowConfirmed, CheckingStatus;
      ghost var start := World(Reconciling(code));
      Nothing(start);
      FromReconciling(start, answers, code);
      steps := Took(start, [], Go(ME, answers));
      if code !in store.bindings { return Raised, steps; }
      var row := store.bindings[code];
      if row.state == Posting || row.state == Uncertain {
        if answers.found.None? { return Raised, steps; }
        return if answers.found.value then NeedsReconciliation else StillUncertain, steps;
      }
      ghost var more;
      if row.state == Pending {
        assert World(AskStatus(code, row)) == Run(start, steps);
        r, more := ReconcilePending(code, row, answers);
        steps := ContinuedBy(start, steps, more);
      } else if row.state == State.Accepted {
        assert World(Acknowledging(code, row)) == Run(start, steps);
        r, more := Confirm(code, row, answers);
        steps := ContinuedBy(start, steps, more);
      } else {
        r := InState(row.state);
      }
    }

    /** The pending branch, and what follows it if the order proves accepted. */
    method ReconcilePending(code: string, row: Row, answers: Answers) returns (r: Result, ghost steps: seq<Label>)
      requires code in store.bindings && store.bindings[code] == row && row.state == Pending
      modifies store`bindings, odoo`acks
      ensures World(Idle) == Run(old(World(AskStatus(code, row))), steps)
      ensures r == CheckingStatus(row.orderId, answers)
      ensures r.InState? ==> RowIs(store.bindings, code, r.state)
      ensures store.bindings == old(store.bindings)[code := RowReconciled(row, answers)]
      ensures odoo.acks == AcksAfter(old(odoo.acks), row, answers)
      ensures Goes(steps, answers)
    {
      hide Next, Run, SetState, RowChecked, RowConfirmed, CheckingStatus, StatusProves;
      CheckedRow(row, answers);
      ghost var start := World(AskStatus(code, row));
      var proven;
      proven, steps := CheckStatus(code, row, answers);
      if !proven { return Raised, steps; }
      if store.bindings[code].state != State.Accepted { return InState(Pending), steps; }
      ghost var more;
      r, more := Confirm(code, store.bindings[code], answers);
      steps := ContinuedBy(start, steps, more);
    }

    /** A pending order: its tracking status, then the stored row once more. */
    method CheckStatus(code: string, row: Row, answers: Answers) returns (proven: bool, ghost steps: seq<Label>)
      requires code in store.bindings
      modifies store`bindings
      ensures proven == StatusProves(row.orderId, answers)
      ensures code in store.bindings && (proven ==> store.bindings[code].state == ProvenState(answers.tracking.value.status))
      ensures old(store.bindings)[code] == row ==> store.bindings == old(store.bindings)[code := RowChecked(row, answers)]
      ensures World(if proven && store.bindings[code].state == State.Accepted then Acknowledging(code, store.bindings[code]) else Idle)
        == Run(old(World(AskStatus(code, row))), steps)
      ensures Goes(steps, answers)
    {
      hide Next, Run, SetState, Accept;
      ghost var start := World(AskStatus(code, row));
      Nothing(start);
      FromAskStatus(start, answers, code, row);
      steps := Took(start, [], Go(ME, answers));
      if answers.tracking.None? || answers.tracking.value.orderId != row.orderId { return false, steps; }
      proven := AcceptResponse(code, Reply(Some(code), row.orderId, answers.tracking.value.status));
      if !proven { return; }
      assert World(Recheck(code)) == Run(start, steps);
      FromRecheck(Run(start, steps), answers, code);
      steps := Took(start, steps, Go(ME, answers));
    }

    /** Telling Odoo, then recording that it agreed. */
    method Confirm(code: string, row: Row, answers: Answers) returns (r: Result, ghost steps: seq<Label>)
      requires code in store.bindings
      modifies store`bindings, odoo`acks
      ensures World(Idle) == Run(old(World(Acknowledging(code, row))), steps)
      ensures r == Confirming(answers)
      ensures r.InState? ==> AckOf(row) in odoo.acks && RowIs(store.bindings, code, Acknowledged)
      ensures store.bindings == old(store.bindings)[code := RowConfirmed(old(store.bindings)[code], answers)]
      ensures odoo.acks == old(odoo.acks) + if answers.odoo == Failed then {} else {Ack(row.mapping.anchorId, row.claim, row.orderId, row.mapping.warehouseId)}
      ensures Goes(steps, answers)
    {
      hide Next, Run;
      ghost var start := World(Acknowledging(code, row));
      Nothing(start);
      var ok := odoo.AcknowledgeOrder(AckOf(row), answers.odoo);
      FromAcknowledging(start, answers, code, row);
      steps := Took(start, [], Go(ME, answers));
      if !ok { return Raised, steps; }
      assert World(Agreed(code)) == Run(start, steps);
      ghost var more;
      r, more := RecordAgreement(code, answers);
      steps := ContinuedBy(start, steps, more);
    }

    method RecordAgreement(code: string, answers: Answers) returns (r: Result, ghost steps: seq<Label>)
      requires code in store.bindings
      modifies store`bindings
      ensures World(Idle) == Run(old(World(Agreed(code))), steps) && steps == [Go(ME, answers)]
      ensures r == InState(Acknowledged) && RowIs(store.bindings, code, Acknowledged)
      ensures store.bindings == old(store.bindings)[code := old(store.bindings)[code].(state := Acknowledged)]
    {
      hide Next, Run;
      ghost var start := World(Agreed(code));
      Nothing(start);
      store.Update(code, Acknowledged, None);
      FromAgreed(start, answers, code);
      steps := Took(start, [], Go(ME, answers));
      r := InState(store.bindings[code].state);
    }

    /** What staging the fetched snapshot gives, if it is readable. */
    ghost function Staging(j: Journal, code: string, row: Row, answers: Answers): Outcome<Journal> {
      if Readable(row, answers)
      then StagePackages(j, code, SnapshotReports(row.mapping, Default(row.orderId), answers.tracking.value.shipments.value))
      else Review
    }

    ghost function PollResult(j: Journal, code: string, row: Row, answers: Answers, booking: seq<OdooAnswer>): Result {
      var staged := Staging(j, code, row, answers);
      if Readable(row, answers) && !(enableShipments && confirmTrackingIdentity) then Preview
      else if staged.Ok? && AllConfirmed(booking, |PendingPackages(staged.value, code)|) then AppliedEvents(|PendingPackages(staged.value, code)|)
      else Raised
    }

    ghost function PollSteps(j: Journal, code: string, row: Row, answers: Answers, booking: seq<OdooAnswer>): seq<Label> {
      var staged := Staging(j, code, row, answers);
      [Go(ME, Seen(answers))] + if enableShipments && confirmTrackingIdentity && staged.Ok? then Books(ME, answers, booking, |PendingPackages(staged.value, code)|) else []
    }

    /** `booking[i]` is Odoo's answer to the i-th report (confirmed beyond). */
    method PollShipments(code: string, answers: Answers, booking: seq<OdooAnswer>)
      returns (r: Result, ghost steps: seq<Label>)
      requires Inv(World(Idle))
      modifies store, odoo
      ensures World(Idle) == Run(old(World(Idle)), steps)
      ensures code !in old(store.bindings) ==> r == Raised && steps == []
      ensures code in old(store.bindings) ==> steps != [] && steps[0] == Begin(ME, Poll(code))
      ensures code in old(store.bindings) && old(store.bindings)[code].state != Acknowledged ==>
        Goes(steps[1..], answers) && r == Reconciled(old(store.bindings), code, answers)
      ensures RowIs(old(store.bindings), code, Acknowledged) ==>
        && r == PollResult(old(store.Contents()), code, old(store.bindings)[code], answers, booking)
        && steps[1..] == PollSteps(old(store.Contents()), code, old(store.bindings)[code], answers, booking)
        && store.bindings == old(store.bindings) && odoo.acks == old(odoo.acks)
      ensures code in old(store.bindings) && old(store.bindings)[code].state != Acknowledged ==>
        && store.bindings == old(store.bindings)[code := RowReconciled(old(store.bindings)[code], answers)]
        && odoo.acks == AcksAfter(old(odoo.acks), old(store.bindings)[code], answers)
      // nothing is staged or told while either flag is off
      ensures !enableShipments || !confirmTrackingIdentity ==>
        && !r.AppliedEvents? && store.events == old(store.events) && odoo.calls == old(odoo.calls) && odoo.ledger == old(odoo.ledger)
      // Odoo is told of unmarked events only, and of all of them if the poll succeeds
      ensures old(odoo.calls) <= odoo.calls && (!RowIs(old(store.bindings), code, Acknowledged) ==> odoo.calls == old(odoo.calls))
      ensures RowIs(old(store.bindings), code, Acknowledged) ==>
        TellsUnmarked(old(store.events), store.events, code, old(store.bindings)[code].mapping.anchorId, odoo.calls[|old(odoo.calls)|..])
      ensures r.AppliedEvents? ==>
        && r.count == |odoo.calls| - |old(odoo.calls)|
        && TellsAll(old(store.events), store.events, code, odoo.calls[|old(odoo.calls)|..])
      ensures r == AppliedEvents(0) ==> odoo.ledger == old(odoo.ledger) && OnlyAdds(old(store.events), store.events)
      ensures r.AppliedEvents? ==> forall e | e in CodeEvents(store.events, code) ::
        store.events[e].applied && e in odoo.ledger && odoo.ledger[e].report == store.events[e].report
      // so a second poll of a booked snapshot books nothing
      ensures r.AppliedEvents? && AllMarked(old(store.events), store.events, code) ==> r.count == 0
    {
      hide Next, Run, Inv, CodeEvents, TakePackages, PollSteps, PollResult, TellsUnmarked, TellsAll, AllMarked;
      steps := [];
      ghost var start := World(Idle);
      Nothing(start);
      if code !in store.bindings { return Raised, steps; }
      var row := store.bindings[code];
      SensibleRow(start, code);
      FromIdle(start, Poll(code));
      steps := Took(start, steps, Begin(ME, Poll(code)));
      RunKeeps(start, steps);
      ghost var more;
      if row.state != Acknowledged {
        assert World(Reconciling(code)) == Run(start, steps);
        r, more := Reconcile(code, answers);
      } else {
        assert World(AskPackages(code, row)) == Run(start, steps);
        r, more := PollAcknowledged(code, row, answers, booking);
      }
      steps := ContinuedBy(start, steps, more);
      assert steps[1..] == more;
      ghost var told := odoo.calls[|old(odoo.calls)|..];
      if r.AppliedEvents? && told != [] { SomeUnmarked(old(store.events), store.events, code, row.mapping.anchorId, told); }
    }

    /** The rest of the poll of an acknowledged order. */
    method PollAcknowledged(code: string, row: Row, answers: Answers, booking: seq<OdooAnswer>)
      returns (r: Result, ghost steps: seq<Label>)
      requires Inv(World(AskPackages(code, row))) && Sensible(row.mapping)
      modifies store`events, store`latest, odoo`ledger, odoo`calls
      ensures World(Idle) == Run(old(World(AskPackages(code, row))), steps)
      ensures r == PollResult(old(store.Contents()), code, row, answers, booking)
      ensures steps == PollSteps(old(store.Contents()), code, row, answers, booking)
      ensures old(odoo.calls) <= odoo.calls
      ensures TellsUnmarked(old(store.events), store.events, code, row.mapping.anchorId, odoo.calls[|old(odoo.calls)|..])
      ensures r.AppliedEvents? ==>
        && r.count == |odoo.calls| - |old(odoo.calls)|
        && TellsAll(old(store.events), store.events, code, odoo.calls[|old(odoo.calls)|..])
      ensures r == AppliedEvents(0) ==> odoo.ledger == old(odoo.ledger) && OnlyAdds(old(store.events), store.events)
      ensures r.AppliedEvents? ==> forall e | e in CodeEvents(store.events, code) ::
        store.events[e].applied && e in odoo.ledger && odoo.ledger[e].report == store.events[e].report
      ensures !enableShipments || !confirmTrackingIdentity ==>
        && !r.AppliedEvents? && store.events == old(store.events) && odoo.calls == old(odoo.calls) && odoo.ledger == old(odoo.ledger)
    {
      hide Next, Run, Inv, CodeEvents, TakePackages, Books, PendingPackages, Readable, Sensible;
      ghost var start := World(AskPackages(code, row));
      r, steps := Snapshot(code, row, answers);
      if r != InState(Acknowledged) { return; }
      assert World(Listing(code, row)) == Run(start, steps);
      RunKeeps(start, steps);
      ghost var more, staged := [], store.events;
      r, more := BookAll(code, row, booking, answers);
      TellsFromBefore(old(store.events), staged, store.events, code, row.mapping.anchorId, odoo.calls[|old(odoo.calls)|..]);
      steps := ContinuedBy(start, steps, more);
    }

    /** What this worker makes of a tracking answer while its flags are off: nothing. */
    function Seen(answers: Answers): Answers {
      if enableShipments && confirmTrackingIdentity then answers else answers.(tracking := None)
    }

    ghost predicate Readable(row: Row, answers: Answers) {
      answers.tracking.Some? && SnapshotAccepted(answers.tracking.value, row.mapping, Default(row.orderId))
    }

    /** Fetching, validating and staging the snapshot; `InState(Acknowledged)`
        when the poll goes on. */
    method Snapshot(code: string, row: Row, answers: Answers) returns (r: Result, ghost steps: seq<Label>)
      requires Sensible(row.mapping)
      modifies store`events, store`latest
      ensures World(if r == InState(Acknowledged) then Listing(code, row) else Idle) == Run(old(World(AskPackages(code, row))), steps)
      ensures steps == [Go(ME, Seen(answers))]
      ensures r == if Readable(row, answers) && !(enableShipments && confirmTrackingIdentity) then Preview
                   else if Staging(old(store.Contents()), code, row, answers).Ok? then InState(Acknowledged) else Raised
      ensures r == InState(Acknowledged) ==> Ok(store.Contents()) == Staging(old(store.Contents()), code, row, answers)
      ensures r != InState(Acknowledged) ==> store.events == old(store.events)
      ensures OnlyAdds(old(store.events), store.events)
    {
      hide Next, Run, SnapshotAccepted, SnapshotReports, StagePackages, OnlyAdds, AllInserted;
      NothingAdded(store.events);
      ghost var start := World(AskPackages(code, row));
      Nothing(start);
      FromAskPackages(start, Seen(answers), code, row);
      steps := Took(start, [], Go(ME, Seen(answers)));
      var reports: Outcome<seq<Report>> := Review;
      if answers.tracking.Some? { reports := PackageReports(answers.tracking.value, row.mapping, Default(row.orderId)); }
      if reports.Review? { return Raised, steps; }
      if !enableShipments || !confirmTrackingIdentity { return Preview, steps; }
      var staged := store.StageReports(code, reports.value);
      if !staged { return Raised, steps; }
      HasShipments(answers.tracking.value, row);
      store.latest := store.latest[code := answers.tracking.value.shipments.value];
      r := InState(Acknowledged);
    }

    /** The loop over the unapplied reports; it ends by raising, or finished
        with every event that was staged. */
    method BookAll(code: string, row: Row, booking: seq<OdooAnswer>, ghost answers: Answers) returns (r: Result, ghost steps: seq<Label>)
      requires Inv(World(Listing(code, row)))
      modifies store`events, odoo`ledger, odoo`calls
      ensures World(Idle) == Run(old(World(Listing(code, row))), steps)
      ensures var n := |PendingPackages(old(store.Contents()), code)|;
        r == (if AllConfirmed(booking, n) then AppliedEvents(n) else Raised) && steps == Books(ME, answers, booking, n)
      ensures old(odoo.calls) <= odoo.calls
      ensures TellsUnmarked(old(store.events), store.events, code, row.mapping.anchorId, odoo.calls[|old(odoo.calls)|..])
      ensures r.AppliedEvents? ==>
        && r.count == |odoo.calls| - |old(odoo.calls)|
        && TellsAll(old(store.events), store.events, code, odoo.calls[|old(odoo.calls)|..])
      ensures r == AppliedEvents(0) ==> odoo.ledger == old(odoo.ledger) && store.events == old(store.events)
      ensures r.AppliedEvents? ==> forall e | e in CodeEvents(store.events, code) ::
        store.events[e].applied && e in odoo.ledger && odoo.ledger[e].report == store.events[e].report
    {
      hide Next, Run, Inv, PendingPackages, CodeEvents, Script, AllConfirmed, Tried, Took, Books, TellsUnmarked, TellsAll, OnlyMarks, Filed, Brought;
      ghost var start := World(Listing(code, row));
      Nothing(start);
      var todo, ids := store.Unfinished(code);
      IsFiled(start);
      ghost var owed := CodeEvents(store.events, code);
      FromListing(start, answers, code, row);
      steps := Took(start, [], Go(ME, answers));
      assert World(Applying(code, row, todo, owed)) == Run(start, steps);
      RunKeeps(start, steps);
      ghost var more;
      r, more := BookPending(code, row, todo, booking, answers, owed);
      steps := ContinuedBy(start, steps, more);
      BooksInParts(ME, answers, booking, |todo|);
      CallsMade(old(odoo.calls), odoo.calls, row.mapping.anchorId, todo, Tried(booking, |todo|));
      if AllConfirmed(booking, |todo|) { TriedAll(booking, |todo|); }
      TellsList(old(store.events), store.events, code, row.mapping.anchorId, todo, ids, odoo.calls[|old(odoo.calls)|..]);
    }

    /** The loop and what follows it. */
    method BookPending(code: string, row: Row, todo: seq<Report>, booking: seq<OdooAnswer>, ghost answers: Answers, ghost owed: set<EventId>)
      returns (r: Result, ghost steps: seq<Label>)
      requires Inv(World(Applying(code, row, todo, owed))) && CodeEvents(store.events, code) == owed
      modifies store`events, odoo`ledger, odoo`calls
      ensures World(Idle) == Run(old(World(Applying(code, row, todo, owed))), steps)
      ensures r == if AllConfirmed(booking, |todo|) then AppliedEvents(|todo|) else Raised
      ensures OnlyMarks(old(store.events), store.events)
      ensures Brought(old(odoo.calls), odoo.calls, row.mapping.anchorId, todo, Tried(booking, |todo|))
      ensures todo == [] ==> odoo.ledger == old(odoo.ledger) && store.events == old(store.events)
      ensures steps == Script(ME, answers, booking, Tried(booking, |todo|)) + if AllConfirmed(booking, |todo|) then [Go(ME, answers)] + [Go(ME, answers)] else []
      ensures r.AppliedEvents? ==> forall e | e in CodeEvents(store.events, code) ::
        store.events[e].applied && e in odoo.ledger && odoo.ledger[e].report == store.events[e].report
    {
      hide Next, Run, Inv, CodeEvents, Script, AllConfirmed, Tried, Brought, OnlyMarks;
      ghost var start := World(Applying(code, row, todo, owed));
      var ok;
      ok, steps := BookEach(code, row, todo, booking, answers, owed);
      if !ok { return Raised, steps; }
      EndsPoll(start, steps, World(Finished(code, owed)), answers, code, owed);
      steps := steps + [Go(ME, answers)];
      r := AppliedEvents(|todo|);
    }

    /** The loop itself, up to the end of the list. */
    method BookEach(code: string, row: Row, todo: seq<Report>, booking: seq<OdooAnswer>, ghost answers: Answers, ghost owed: set<EventId>)
      returns (ok: bool, ghost steps: seq<Label>)
      requires CodeEvents(store.events, code) == owed
      modifies store`events, odoo`ledger, odoo`calls
      ensures CodeEvents(store.events, code) == owed
      ensures ok == AllConfirmed(booking, |todo|)
      ensures OnlyMarks(old(store.events), store.events)
      ensures Brought(old(odoo.calls), odoo.calls, row.mapping.anchorId, todo, Tried(booking, |todo|))
      ensures todo == [] ==> odoo.ledger == old(odoo.ledger) && store.events == old(store.events)
      ensures World(if ok then Finished(code, owed) else Idle) == Run(old(World(Applying(code, row, todo, owed))), steps)
      ensures steps == Script(ME, answers, booking, Tried(booking, |todo|)) + if ok then [Go(ME, answers)] else []
    {
      hide Next, Run, CodeEvents, Script, Tried, Brought, OnlyMarks;
      ghost var start := World(Applying(code, row, todo, owed));
      Nothing(start);
      NoScript(answers, booking);
      NothingYet(odoo.calls, store.events, row.mapping.anchorId, todo);
      steps := [];
      assert todo[0..] == todo;
      for i := 0 to |todo|
        invariant AllConfirmed(booking, i) && steps == Script(ME, answers, booking, i)
        invariant World(Applying(code, row, todo[i..], owed)) == Run(start, steps)
        invariant CodeEvents(store.events, code) == owed && OnlyMarks(old(store.events), store.events)
        invariant Brought(old(odoo.calls), odoo.calls, row.mapping.anchorId, todo, i)
        invariant i == 0 ==> odoo.ledger == old(odoo.ledger) && store.events == old(store.events)
      {
        ghost var more;
        LongerScript(answers, booking, i);
        ghost var (events, calls) := (store.events, odoo.calls);
        ok, more := BookOne(code, row, todo, i, AnswerAt(booking, i), owed, Given(answers, booking, i));
        steps := ContinuedBy(start, steps, more);
        OneMoreCall(old(odoo.calls), calls, row.mapping.anchorId, todo, i);
        MarksAddUp(old(store.events), events, store.events);
        if !ok {
          TriedFails(booking, |todo|, i);
          return;
        }
      }
      TriedAll(booking, |todo|);
      assert todo[|todo|..] == [];
      FromApplying(Run(start, steps), answers, code, row, [], owed);
      steps := Took(start, steps, Go(ME, answers));
      ok := true;
    }

    /** One report: booked in Odoo, then marked. A failure leaves the worker
        idle, and an idle worker's next step changes nothing. */
    method BookOne(code: string, row: Row, todo: seq<Report>, i: nat, answer: OdooAnswer, ghost owed: set<EventId>, ghost given: Answers)
      returns (ok: bool, ghost steps: seq<Label>)
      requires i < |todo| && given.odoo == answer && CodeEvents(store.events, code) == owed
      modifies store`events, odoo`ledger, odoo`calls
      ensures CodeEvents(store.events, code) == owed && ok == answer.Confirmed?
      ensures odoo.calls == old(odoo.calls) + [Entry(row.mapping.anchorId, todo[i])] && OnlyMarks(old(store.events), store.events)
      ensures World(if ok then Applying(code, row, todo[i + 1..], owed) else Idle) == Run(old(World(Applying(code, row, todo[i..], owed))), steps)
      ensures steps == [Go(ME, given), Go(ME, given)]
    {
      hide Next, Run, CodeEvents, Book;
      ghost var start := World(Applying(code, row, todo[i..], owed));
      Nothing(start);
      FromApplying(start, given, code, row, todo[i..], owed);
      ok := odoo.ApplyShipment(row.mapping.anchorId, todo[i], answer);
      steps := Took(start, [], Go(ME, given));
      ghost var more := [Go(ME, given)];
      if ok {
        assert World(Booked(code, row, todo[i..], owed)) == Run(start, steps);
        MarkOne(code, row, todo, i, owed, given);
      } else {
        assert World(Idle) == Run(start, steps);
        StaysIdle(World(Idle), given);
      }
      steps := ContinuedBy(start, steps, more);
    }

    /** `applied`, for the report just booked. */
    method MarkOne(code: string, row: Row, todo: seq<Report>, i: nat, ghost owed: set<EventId>, ghost given: Answers)
      requires i < |todo| && CodeEvents(store.events, code) == owed
      modifies store`events
      ensures CodeEvents(store.events, code) == owed && OnlyMarks(old(store.events), store.events)
      ensures World(Applying(code, row, todo[i + 1..], owed)) == Run(old(World(Booked(code, row, todo[i..], owed))), [Go(ME, given)])
    {
      hide Next, Run, CodeEvents;
      ghost var start := World(Booked(code, row, todo[i..], owed));
      Nothing(start);
      FromBooked(start, given, code, row, todo[i..], owed);
      MarkKeepsOwners(store.Contents(), todo[i].eventId, code);
      store.Applied(todo[i].eventId);
      assert todo[i..][1..] == todo[i + 1..];
      ghost var one := Took(start, [], Go(ME, given));
      assert one == [Go(ME, given)] && todo[i..][0] == todo[i];
      assert World(Applying(code, row, todo[i + 1..], owed)) == Run(start, one);
    }
  }

  lemma StaysIdle(s: Sys, w: Answers)
    requires At(s, ME) == Idle
    ensures Run(s, [Go(ME, w)]) == s
  {
    Nothing(s);
    StillIdle(s, w);
    var one := Took(s, [], Go(ME, w));
  }

  lemma HasShipments(t: Tracking, row: Row)
    requires SnapshotAccepted(t, row.mapping, Default(row.orderId))
    ensures t.shipments.Some?
  {
  }

  /** A check changes only the state, and proves the order when the status does. */
  lemma CheckedRow(was: Row, w: Answers)
    ensures RowChecked(was, w) == was.(state := RowChecked(was, w).state)
    ensures if StatusProves(was.orderId, w)
      then w.tracking.Some? && CheckingStatus(was.orderId, w) == (if w.tracking.value.status == Sent then Confirming(w) else InState(Pending))
        && RowChecked(was, w).state == ProvenState(w.tracking.value.status)
      else CheckingStatus(was.orderId, w) == Raised && (RowChecked(was, w).state == State.Accepted ==> was.state == State.Accepted)
  {
  }

  /** What is left to reconcile decides the outcome of the submission. */
  lemma SubmittedReconciled(bindings: map<string, Row>, staged: map<string, Row>, code: string, w: Answers)
    requires if RowIs(staged, code, Ready)
      then w.post.Replied? && Proves(code, w.post.reply) && RowIs(bindings, code, ProvenState(w.post.reply.status)) && bindings[code].orderId == w.post.reply.orderId
      else bindings == staged
    ensures Reconciled(bindings, code, w) == Submitted(staged, code, w)
  {
  }

  lemma IsFiled(s: Sys)
    requires Inv(s)
    ensures Filed(s.journal.events)
  {
    forall e | e in s.journal.events ensures s.journal.events[e].report.eventId == e { assert EventOk(s, e); }
  }

  /** The world after a first step. */
  ghost function Begun(s: Sys, l: Label): (t: Sys)
    ensures t == if Enabled(s, l) then Next(s, l) else s
  {
    if Enabled(s, l) then Next(s, l) else s
  }

  lemma Continued(s: Sys, l: Label, t: Sys, more: seq<Label>)
    requires t == if Enabled(s, l) then Next(s, l) else s
    ensures Run(s, [l] + more) == Run(t, more)
  {
    assert [l][..0] == [];
    RunConcat(s, [l], more);
  }

  lemma NoScript(answers: Answers, booking: seq<OdooAnswer>)
    ensures Script(ME, answers, booking, 0) == []
  {
  }

  lemma LongerScript(answers: Answers, booking: seq<OdooAnswer>, i: nat)
    ensures var l := Go(ME, Given(answers, booking, i)); Script(ME, answers, booking, i + 1) == Script(ME, answers, booking, i) + [l, l]
  {
  }

  /** Leaving a finished poll: every event is booked, and the worker is idle. */
  lemma EndsPoll(start: Sys, steps: seq<Label>, s: Sys, w: Answers, code: string, owed: set<EventId>)
    requires Inv(start) && s == Run(start, steps) && At(s, ME) == Finished(code, owed)
    ensures Run(start, steps + [Go(ME, w)]) == Goto(s, ME, Idle)
    ensures forall e | e in owed :: AppliedNow(s, e) && e in s.odoo.ledger && s.odoo.ledger[e].report == s.journal.events[e].report
  {
    hide Inv, Run, Next;
    RunKeeps(start, steps);
    AllBooked(s, code, owed);
    FromFinished(s, w, code, owed);
    var t := Took(start, steps, Go(ME, w));
  }

  ghost function ContinuedBy(start: Sys, first: seq<Label>, more: seq<Label>): (ls: seq<Label>)
    ensures ls == first + more
    ensures Run(start, ls) == Run(Run(start, first), more)
  {
    RunConcat(start, first, more);
    first + more
  }

  lemma {:induction false} RunConcat(s: Sys, a: seq<Label>, b: seq<Label>)
    ensures Run(s, a + b) == Run(Run(s, a), b)
  {
    if b == [] {
      assert a + b == a;
    } else {
      RunConcat(s, a, b[..|b| - 1]);
      assert (a + b)[..|a + b| - 1] == a + b[..|b| - 1];
    }
  }

  lemma BuiltFromAllocation(a: Allocation, rules: seq<PackRule>, body: OrderBody, b: Binding)
    requires Summarises(RuleTable(rules), a.lines, b.lines) && WholePacks(b.lines)
    requires OrderOf(b, body.lines) && body.code == b.code
    ensures Built(body, b)
  {
  }

  lemma MarkKeepsOwners(j: Journal, id: EventId, code: string)
    ensures CodeEvents(MarkApplied(j, id).events, code) == CodeEvents(j.events, code)
  {
  }

  lemma SensibleRow(s: Sys, code: string)
    requires Inv(s) && code in s.journal.bindings
    ensures Sensible(s.journal.bindings[code].mapping)
  {
    assert CodeOk(s, code);
  }

  lemma AllBooked(s: Sys, code: string, owed: set<EventId>)
    requires Inv(s) && At(s, ME) == Finished(code, owed)
    ensures forall e | e in owed :: AppliedNow(s, e) && e in s.odoo.ledger && s.odoo.ledger[e].report == s.journal.events[e].report
  {
    assert PcOk(s, At(s, ME));
    forall e | e in owed ensures AppliedNow(s, e) && e in s.odoo.ledger && s.odoo.ledger[e].report == s.journal.events[e].report {
      assert AppliedNow(s, e) && EventOk(s, e) && EntryOk(s, e);
    }
  }
}
