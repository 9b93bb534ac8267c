/** Does an acknowledged order stay acknowledged? Not with concurrent workers:
    `state` is an unconditional update, so an answer that a second worker asked
    for earlier may overwrite it (src/integrations/ksp_gateway/worker.py:62-76
    over store.py:86-89). These lemmas say exactly when, show a run in which it
    happens, and prove that one worker at a time never does it. */
module KspProgress {
  import opened Outcomes
  import opened Ordering
  import opened KspMapping
  import opened KspTracking
  import opened KspTrackingLaws
  import opened KspJournal
  import opened KspProtocol
  import opened KspInvariant
  import opened KspSteps

  predicate InState(j: Journal, code: string, state: State) { code in j.bindings && j.bindings[code].state == state }

  /** A worker that read the row while it was pending now gets its answer. */
  predicate LateAnswer(s: Sys, l: Label, code: string) {
    && l.Go? && At(s, l.a).AskStatus? && At(s, l.a).code == code
    && l.answers.tracking.Some? && l.answers.tracking.value.orderId == At(s, l.a).row.orderId
  }

  /** An acknowledged order loses its state in exactly these steps. */
  lemma LosesStateExactlyWhen(s: Sys, l: Label, code: string)
    requires Inv(s) && Enabled(s, l) && InState(s.journal, code, Acknowledged)
    ensures !InState(Next(s, l).journal, code, Acknowledged) <==> LateAnswer(s, l, code)
  {
    hide Built, Inv, Resume;
    match l
    case Begin(_, _) =>
    case Crash(_) =>
    case Go(a, answers) =>
      NobodyPosts(s, a, code);
      if At(s, a).AskStatus? { SeesOrderId(s, a); }
      ResumeLosesExactlyWhen(s, a, answers, code);
  }

  lemma ResumeLosesExactlyWhen(s: Sys, a: nat, answers: Answers, code: string)
    requires InState(s.journal, code, Acknowledged) && !Submits(At(s, a), code)
    requires At(s, a).AskStatus? ==> At(s, a).row.orderId.Some? && At(s, a).code in s.journal.bindings
    ensures !InState(Resume(s, a, answers).journal, code, Acknowledged) <==> LateAnswer(s, Go(a, answers), code)
  {
    hide TakePackages, PendingPackages, CodeEvents;
    match At(s, a)
    case AskPackages(c, row) => StagingKeepsRows(s, a, c, row, answers.tracking);
    case _ =>
  }

  lemma NobodyPosts(s: Sys, a: nat, code: string)
    requires Inv(s) && InState(s.journal, code, Acknowledged)
    ensures !Submits(At(s, a), code)
  {
    NobodySubmits(s, code);
  }

  lemma SeesOrderId(s: Sys, a: nat)
    requires Inv(s) && At(s, a).AskStatus?
    ensures At(s, a).row.orderId.Some? && At(s, a).code in s.journal.bindings
  {
    assert PcOk(s, At(s, a));
  }

  // ------------------------------------------------------- one worker at a time

  /** Only worker `a` is under way, and what it acts on still stands: an order
      whose status it asks for is pending, one that it acknowledges is accepted. */
  ghost predicate Alone(s: Sys, a: nat) {
    && (forall b | b != a :: At(s, b).Idle?)
    && ActsOnFresh(s, At(s, a))
  }

  predicate ActsOnFresh(s: Sys, pc: Pc) {
    match pc
    case AskStatus(code, _) => InState(s.journal, code, Pending)
    case Acknowledging(code, _) => InState(s.journal, code, Accepted)
    case Agreed(code) => InState(s.journal, code, Accepted)
    case _ => true
  }

  predicate By(l: Label, a: nat) { l.a == a }

  lemma StaysAlone(s: Sys, l: Label, a: nat)
    requires Alone(s, a) && By(l, a) && Enabled(s, l)
    ensures Alone(Next(s, l), a)
  {
    MovesOneWorker(s, l);
    ActsOnWhatItRead(s, l);
  }

  lemma MovesOneWorker(s: Sys, l: Label)
    requires Enabled(s, l)
    ensures OnlyWorker(s, Next(s, l), l.a)
  {
    hide Built, SnapshotAccepted, SnapshotReports, PendingPackages, CodeEvents, StagePackages, Stage, SetState, Goto, OnlyWorker;
    forall pc, t: Sys | t.pcs == s.pcs ensures OnlyWorker(s, Goto(t, l.a, pc), l.a) { GotoMovesOne(s, t, l.a, pc); }
    SameWorkers(s, l.a);
    if l.Go? && At(s, l.a).AskPackages? { TakingMovesOne(s, l.a, At(s, l.a).code, At(s, l.a).row, l.answers.tracking); }
  }

  lemma TakingMovesOne(s: Sys, a: nat, code: string, row: Row, answer: Option<Tracking>)
    ensures OnlyWorker(s, TakePackages(s, a, code, row, answer), a)
  {
    hide SnapshotAccepted, SnapshotReports, Stageable, InsertReports;
  }

  /** Nobody but `a` has moved. */
  ghost predicate OnlyWorker(s: Sys, t: Sys, a: nat) { forall b | b != a :: At(t, b) == At(s, b) }

  lemma GotoMovesOne(s: Sys, t: Sys, a: nat, pc: Pc)
    requires t.pcs == s.pcs
    ensures OnlyWorker(s, Goto(t, a, pc), a)
  {
  }

  lemma SameWorkers(s: Sys, a: nat)
    ensures OnlyWorker(s, s, a)
  {
  }

  /** A worker asks, or acknowledges, only what it has just read to be so. */
  lemma ActsOnWhatItRead(s: Sys, l: Label)
    requires Enabled(s, l) && ActsOnFresh(s, At(s, l.a))
    ensures ActsOnFresh(Next(s, l), At(Next(s, l), l.a))
  {
    hide Built, SnapshotAccepted, SnapshotReports, PendingPackages, CodeEvents, StagePackages, Stage, SetState;
  }

  /** Where a state may lead. A rate-limited order is ready again; a pending one
      is accepted or becomes uncertain; an accepted one can only be
      acknowledged; uncertain and acknowledged are final. */
  predicate Forward(from: State, to: State) {
    match from
    case Ready => true
    case Posting => true
    case Pending => to in {Pending, Accepted, Acknowledged, Uncertain}
    case Accepted => to in {Accepted, Acknowledged}
    case Acknowledged => to == Acknowledged
    case Uncertain => to == Uncertain
  }

  predicate RowForward(j: Journal, k: Journal, code: string) {
    code in j.bindings ==> code in k.bindings && Forward(j.bindings[code].state, k.bindings[code].state)
  }

  lemma StepsForward(s: Sys, l: Label, a: nat, code: string)
    requires Inv(s) && Alone(s, a) && By(l, a) && Enabled(s, l)
    ensures RowForward(s.journal, Next(s, l).journal, code)
  {
    hide Inv, Built, Resume;
    if l.Go? {
      SubmitterPosts(s, a);
      ResumesForward(s, a, l.answers, code);
    }
  }

  lemma ResumesForward(s: Sys, a: nat, answers: Answers, code: string)
    requires ActsOnFresh(s, At(s, a))
    requires forall c | Submits(At(s, a), c) :: InState(s.journal, c, Posting)
    ensures RowForward(s.journal, Resume(s, a, answers).journal, code)
  {
    hide SnapshotAccepted, SnapshotReports, PendingPackages, CodeEvents, StagePackages;
    match At(s, a)
    case GotLimited(c) => assert Submits(At(s, a), c);
    case GotError(c) => assert Submits(At(s, a), c);
    case GotReply(c, _) => assert Submits(At(s, a), c);
    case AskPackages(c, row) => StagingKeepsRows(s, a, c, row, answers.tracking);
    case _ =>
  }

  lemma StagingKeepsRows(s: Sys, a: nat, code: string, row: Row, answer: Option<Tracking>)
    ensures TakePackages(s, a, code, row, answer).journal.bindings == s.journal.bindings
  {
    hide SnapshotAccepted, SnapshotReports, Stageable, InsertReports;
  }

  /** Whoever submits holds the row in state `posting`. */
  lemma SubmitterPosts(s: Sys, a: nat)
    requires Inv(s)
    ensures forall code | Submits(At(s, a), code) :: InState(s.journal, code, Posting)
  {
    assert PcOk(s, At(s, a));
  }

  /** With one worker at a time every order only moves forward. */
  lemma {:induction false} OnlyForward(s: Sys, a: nat, ls: seq<Label>, code: string)
    requires Inv(s) && Alone(s, a) && forall l | l in ls :: By(l, a)
    ensures RowForward(s.journal, Run(s, ls).journal, code) && Alone(Run(s, ls), a)
  {
    hide Inv, Alone, Next, Enabled;
    if ls != [] {
      var n := |ls| - 1;
      assert ls == ls[..n] + [ls[n]];
      OnlyForward(s, a, ls[..n], code);
      RunKeeps(s, ls[..n]);
      assert ls[n] in ls;
      var t := Run(s, ls[..n]);
      if Enabled(t, ls[n]) {
        StepsForward(t, ls[n], a, code);
        StaysAlone(t, ls[n], a);
      }
    }
  }

  // -------------------------------------------------------------- a real loss

  const BINDING := Binding("K1", 7, 3, map["A" := Mapped(Identity(1, 1, 1, 1), Unit, 1.0, 2.0)])
  const BODY := OrderBody("K1", "", [OrderLine("A", Unit, 2)])

  function Saying(status: Status): Answers {
    Answers(Replied(Reply(Some("K1"), Some("O1"), status)), Some(Tracking(Some("O1"), None, status)), Confirmed, Some(false))
  }

  lemma ExampleIsBuilt()
    ensures Built(BODY, BINDING)
  {
    assert BINDING.lines.Keys == {"A"};
    assert |BINDING.lines| == 1;
  }

  ghost function Then(s: Sys, l: Label): Sys { if Enabled(s, l) then Next(s, l) else s }

  lemma RunThen(s: Sys, ls: seq<Label>, l: Label)
    ensures Run(s, ls + [l]) == Then(Run(s, ls), l)
  {
    assert (ls + [l])[..|ls|] == ls;
  }

  function RowIn(state: State, orderId: Option<string>): map<string, Row> {
    map["K1" := Row(BODY, BINDING, "T", state, orderId)]
  }

  const WAITING := AskStatus("K1", Row(BODY, BINDING, "T", Pending, Some("O1")))

  /** The run reaches a world with this row and these workers. */
  ghost predicate Reaches(ls: seq<Label>, s: Sys, row: map<string, Row>, first: Pc, second: Pc) {
    s == Run(INITIAL, ls) && s.journal.bindings == row && At(s, 0) == first && At(s, 1) == second
  }

  lemma StagedFirst() returns (ls: seq<Label>, s: Sys)
    ensures Reaches(ls, s, RowIn(Ready, None), Staged("K1", BODY), Idle)
  {
    hide Built, Resume, Run;
    var begin := Begin(0, Submit(BODY, BINDING, "T"));
    ExampleIsBuilt();
    EmptyRun();
    RunThen(INITIAL, [], begin);
    ls, s := [] + [begin], Then(INITIAL, begin);
  }

  lemma EmptyRun()
    ensures Run(INITIAL, []) == INITIAL
  {
  }

  lemma Submitted() returns (ls: seq<Label>, s: Sys)
    ensures Reaches(ls, s, RowIn(Posting, None), Sending("K1", BODY), Idle)
  {
    hide Run, Built, TakePackages, PendingPackages, CodeEvents, MarkApplied, ApplyOne;
    var go := Go(0, Saying(Received));
    ls, s := StagedFirst();
    RunThen(INITIAL, ls, go);
    ls, s := ls + [go], Then(s, go);
    assert Reaches(ls, s, RowIn(Ready, None), Trying("K1", BODY), Idle);
    RunThen(INITIAL, ls, go);
    ls, s := ls + [go], Then(s, go);
  }

  lemma FirstReconciling() returns (ls: seq<Label>, s: Sys)
    ensures Reaches(ls, s, RowIn(Pending, Some("O1")), Reconciling("K1"), Idle)
  {
    hide Run, Built, TakePackages, PendingPackages, CodeEvents, MarkApplied, StartPost, ApplyOne, Transmit, AfterStage, ReadAccepted, TakeStatus, Acknowledge;
    var go := Go(0, Saying(Received));
    ls, s := FirstReply();
    RunThen(INITIAL, ls, go);
    ls, s := ls + [go], Then(s, go);
  }

  lemma FirstPending() returns (ls: seq<Label>, s: Sys)
    ensures Reaches(ls, s, RowIn(Pending, Some("O1")), WAITING, Idle)
  {
    hide Run, Built, TakePackages, PendingPackages, CodeEvents, MarkApplied, StartPost, ApplyOne, Transmit, AfterStage, ReadAccepted, TakeStatus, Acknowledge;
    var go := Go(0, Saying(Received));
    ls, s := FirstReconciling();
    RunThen(INITIAL, ls, go);
    ls, s := ls + [go], Then(s, go);
  }

  lemma FirstReply() returns (ls: seq<Label>, s: Sys)
    ensures Reaches(ls, s, RowIn(Posting, None), GotReply("K1", Reply(Some("K1"), Some("O1"), Received)), Idle)
  {
    hide Run, Built, TakePackages, PendingPackages, CodeEvents, MarkApplied, StartPost, ApplyOne, Accept, TakeStatus, Reread, AfterStage, ReadAccepted, Acknowledge;
    ls, s := Submitted();
    RunThen(INITIAL, ls, Go(0, Saying(Received)));
    ls, s := ls + [Go(0, Saying(Received))], Then(s, Go(0, Saying(Received)));
  }

  lemma BothPending() returns (ls: seq<Label>, s: Sys)
    ensures Reaches(ls, s, RowIn(Pending, Some("O1")), WAITING, WAITING)
  {
    hide Run, Built, TakePackages, PendingPackages, CodeEvents, MarkApplied, StartPost, ApplyOne, Accept, TakeStatus, Transmit, AfterStage, ReadAccepted, Acknowledge;
    var begin, go := Begin(1, Reconcile("K1")), Go(1, Saying(Received));
    ls, s := FirstPending();
    RunThen(INITIAL, ls, begin);
    ls, s := ls + [begin], Then(s, begin);
    assert Reaches(ls, s, RowIn(Pending, Some("O1")), WAITING, Reconciling("K1"));
    RunThen(INITIAL, ls, go);
    ls, s := ls + [go], Then(s, go);
  }

  lemma FirstProven() returns (ls: seq<Label>, s: Sys)
    ensures Reaches(ls, s, RowIn(State.Accepted, Some("O1")), Recheck("K1"), WAITING)
  {
    hide Run, Built, TakePackages, PendingPackages, CodeEvents, MarkApplied, StartPost, ApplyOne, Transmit, Reread, AfterStage, Acknowledge, ReadAccepted;
    var go := Go(0, Saying(Sent));
    ls, s := BothPending();
    RunThen(INITIAL, ls, go);
    ls, s := ls + [go], Then(s, go);
  }

  lemma FirstAccepted() returns (ls: seq<Label>, s: Sys)
    ensures Reaches(ls, s, RowIn(State.Accepted, Some("O1")), Acknowledging("K1", RowIn(State.Accepted, Some("O1"))["K1"]), WAITING)
  {
    hide Run, Built, TakePackages, PendingPackages, CodeEvents, MarkApplied, StartPost, ApplyOne, Transmit, Reread, AfterStage, Acknowledge, Accept, TakeStatus;
    var go := Go(0, Saying(Sent));
    ls, s := FirstProven();
    RunThen(INITIAL, ls, go);
    ls, s := ls + [go], Then(s, go);
  }

  lemma FirstAgreed() returns (ls: seq<Label>, s: Sys)
    ensures Reaches(ls, s, RowIn(State.Accepted, Some("O1")), Agreed("K1"), WAITING)
  {
    hide Run, Built, TakePackages, PendingPackages, CodeEvents, MarkApplied, StartPost, ApplyOne, Accept, TakeStatus, Transmit, Reread, AfterStage, ReadAccepted;
    var go := Go(0, Saying(Sent));
    ls, s := FirstAccepted();
    RunThen(INITIAL, ls, go);
    ls, s := ls + [go], Then(s, go);
  }

  lemma FirstAcknowledged() returns (ls: seq<Label>, s: Sys)
    ensures Reaches(ls, s, RowIn(Acknowledged, Some("O1")), Idle, WAITING)
  {
    hide Run, Built, TakePackages, PendingPackages, CodeEvents, MarkApplied, StartPost, ApplyOne, Accept, TakeStatus, Transmit, Reread, AfterStage, ReadAccepted;
    var go := Go(0, Saying(Sent));
    ls, s := FirstAgreed();
    RunThen(INITIAL, ls, go);
    ls, s := ls + [go], Then(s, go);
  }

  /** Both workers see the order pending; the first one brings it to
      acknowledged, and then the second one's older answer arrives. */
  lemma LateAnswerLosesState() returns (ls: seq<Label>, last: Label)
    ensures Enabled(Run(INITIAL, ls), last) && InState(Run(INITIAL, ls).journal, "K1", Acknowledged)
    ensures InState(Next(Run(INITIAL, ls), last).journal, "K1", Pending)
  {
    hide Run, Built, TakePackages, PendingPackages, CodeEvents, MarkApplied, StartPost, ApplyOne;
    var s;
    ls, s := FirstAcknowledged();
    last := Go(1, Saying(Received));
  }
}
