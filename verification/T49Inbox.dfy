/** Bounded waiting in the inbox
    (src/integrations/terminal49_client/worker.py, first half of `once`). */
module T49Inbox {
  import opened Outcomes
  import opened Sums
  import opened T49Tables
  import opened T49Hub
  import opened T49HubLaws

  /** The waiting notifications that the worker may take before `target`. */
  function Before(notes: map<string, Note>, target: string): set<string>
    requires target in notes
  {
    set id | id in notes && id != target && Waits(notes[id].progress) && notes[id].receivedAt <= notes[target].receivedAt
  }

  /** The attempts a notification has left. */
  function Left(notes: map<string, Note>, c: Config): string -> nat {
    (id: string) => if id in notes && notes[id].attempts < c.maxAttempts then c.maxAttempts - notes[id].attempts else 0
  }

  ghost function Debt(notes: map<string, Note>, c: Config, target: string): nat
    requires target in notes
  {
    Total(Before(notes, target), Left(notes, c))
  }

  /** Later arrivals, a clock past the target's retry time, and no reset. */
  predicate Patient(n: Note, l: Label) {
    match l
    case Receive(_, _, now) => now > n.receivedAt
    case Handle(_, _, now) => now >= n.retryAt
    case Refresh(_, _, _, _) => true
    case Map(_, _, _, _, _, _) => true
    case Again(_, _) => false
  }

  /** One step: the target is attempted, or its row and its turn stay, and an
      attempt of another notification uses up one of those before it. */
  lemma StepTriesOrShortens(s: Sys, c: Config, l: Label, target: string)
    requires Sensible(c) && Inv(s, c) && Enabled(s, l)
    requires target in s.hub.notes && Waits(s.hub.notes[target].progress) && Patient(s.hub.notes[target], l)
    ensures var ns, ms := s.hub.notes, Next(s, c, l).hub.notes;
      && target in ms
      && if l.Handle? && l.noteId == target then ms[target].attempts == ns[target].attempts + 1
         else ms[target] == ns[target] && Debt(ms, c, target) + (if l.Handle? then 1 else 0) <= Debt(ns, c, target)
  {
    hide PublishAll, Publish, Process, Bind, Debt, Inv;
    match l
    case Receive(given, body, now) => ArrivesLater(s.hub, c, given, body, now, target);
    case Handle(id, fs, now) => Attempts(s, c, l, target);
    case Refresh(_, _, _, _) => LeavesNotes(s, c, l);
    case Map(_, _, _, _, _, _) =>
    case Again(_, _) =>
  }

  lemma LeavesNotes(s: Sys, c: Config, l: Label)
    requires Inv(s, c) && Enabled(s, l) && l.Refresh?
    ensures Next(s, c, l).hub.notes == s.hub.notes
  {
    hide PublishAll, Publish;
    if PublishAll(s.hub, c, [l.got], l.now).Ok? { AllPublished(s.hub, c, [l.got], l.now, s.lastFetch); }
  }

  lemma ArrivesLater(h: Hub, c: Config, given: Option<string>, body: string, now: int, target: string)
    requires target in h.notes && now > h.notes[target].receivedAt
    ensures var ms := Accept(h, given, body, now).notes;
      target in ms && ms[target] == h.notes[target] && Debt(ms, c, target) == Debt(h.notes, c, target)
  {
    LaterIsNotBefore(h, given, body, now, target);
    SameDebt(h.notes, Accept(h, given, body, now).notes, c, target);
  }

  lemma LaterIsNotBefore(h: Hub, given: Option<string>, body: string, now: int, target: string)
    requires target in h.notes && now > h.notes[target].receivedAt
    ensures var ms := Accept(h, given, body, now).notes;
      target in ms && ms[target] == h.notes[target] && Before(ms, target) == Before(h.notes, target)
        && forall id | id in Before(ms, target) :: ms[id] == h.notes[id]
  {
  }

  lemma SameDebt(ns: map<string, Note>, ms: map<string, Note>, c: Config, target: string)
    requires target in ns && target in ms && Before(ms, target) == Before(ns, target)
    requires forall id | id in Before(ms, target) :: ms[id] == ns[id]
    ensures Debt(ms, c, target) == Debt(ns, c, target)
  {
    TotalAtMost(Before(ms, target), Before(ms, target), Left(ms, c), Left(ns, c));
    TotalAtMost(Before(ms, target), Before(ms, target), Left(ns, c), Left(ms, c));
  }

  lemma Attempts(s: Sys, c: Config, l: Label, target: string)
    requires Sensible(c) && Inv(s, c) && Enabled(s, l) && l.Handle?
    requires target in s.hub.notes && Waits(s.hub.notes[target].progress) && Patient(s.hub.notes[target], l)
    ensures var ns, ms := s.hub.notes, Next(s, c, l).hub.notes;
      && target in ms
      && if l.noteId == target then ms[target].attempts == ns[target].attempts + 1
         else ms[target] == ns[target] && Debt(ms, c, target) + 1 <= Debt(ns, c, target)
  {
    hide PublishAll, Publish, Process, Debt;
    var ns, ms, id := s.hub.notes, Next(s, c, l).hub.notes, l.noteId;
    AllOrNothing(s.hub, c, id, l.fetched, l.now, s.lastFetch);
    if id != target {
      assert Due(s.hub, target, l.now);
      UsesUp(ns, ms, c, target, id);
    }
  }

  lemma UsesUp(ns: map<string, Note>, ms: map<string, Note>, c: Config, target: string, id: string)
    requires target in ns && id in Before(ns, target) && ms.Keys == ns.Keys
    requires forall other | other in ns && other != id :: ms[other] == ns[other]
    requires ns[id].attempts < c.maxAttempts && ms[id].attempts == ns[id].attempts + 1
    requires Waits(ms[id].progress) ==> ms[id].receivedAt == ns[id].receivedAt
    ensures Debt(ms, c, target) + 1 <= Debt(ns, c, target)
  {
    TotalTake(Before(ns, target), Left(ns, c), id);
    if id in Before(ms, target) { TotalTake(Before(ms, target), Left(ms, c), id); }
    assert id !in Before(ms, target) ==> Before(ms, target) - {id} == Before(ms, target);
    TotalAtMost(Before(ms, target) - {id}, Before(ns, target) - {id}, Left(ms, c), Left(ns, c));
  }

  // ---------------------------------------------------------------- over runs

  ghost predicate AllPatient(n: Note, ls: seq<Label>) { forall i | 0 <= i < |ls| :: Patient(n, ls[i]) }

  /** Attempts that were executed. */
  ghost function Handled(s: Sys, c: Config, ls: seq<Label>): nat {
    if ls == [] then 0 else
      var n := |ls| - 1;
      Handled(s, c, ls[..n]) + if ls[n].Handle? && Enabled(Run(s, c, ls[..n]), ls[n]) then 1 else 0
  }

  ghost predicate TriedAt(s: Sys, c: Config, target: string, ls: seq<Label>, k: nat)
    requires k <= |ls| && target in s.hub.notes
  {
    var ns := Run(s, c, ls[..k]).hub.notes;
    target in ns && ns[target].attempts > s.hub.notes[target].attempts
  }

  lemma {:induction false} DebtShrinks(s: Sys, c: Config, target: string, ls: seq<Label>)
    requires Sensible(c) && Inv(s, c) && target in s.hub.notes && Waits(s.hub.notes[target].progress)
    requires AllPatient(s.hub.notes[target], ls)
    requires forall k: nat | k <= |ls| :: !TriedAt(s, c, target, ls, k)
    ensures var ns, ms := s.hub.notes, Run(s, c, ls).hub.notes;
      target in ms && ms[target] == ns[target] && Debt(ms, c, target) + Handled(s, c, ls) <= Debt(ns, c, target)
  {
    hide Inv, Debt, Next, Patient;
    if ls != [] {
      var n := |ls| - 1;
      forall k: nat | k <= n ensures !TriedAt(s, c, target, ls[..n], k) {
        assert ls[..n][..k] == ls[..k];
        assert !TriedAt(s, c, target, ls, k);
      }
      DebtShrinks(s, c, target, ls[..n]);
      RunKeeps(s, c, ls[..n]);
      var t := Run(s, c, ls[..n]);
      assert ls[..|ls|] == ls;
      assert !TriedAt(s, c, target, ls, |ls|);
      if Enabled(t, ls[n]) { StepTriesOrShortens(t, c, ls[n], target); }
    }
  }

  /** Bounded waiting: a waiting notification past its retry time is attempted
      within one attempt more than the notifications received no later than it
      have left, whatever else arrives, fails or is refreshed meanwhile. */
  lemma BoundedWaiting(s: Sys, c: Config, target: string, ls: seq<Label>)
    requires Sensible(c) && Inv(s, c) && target in s.hub.notes && Waits(s.hub.notes[target].progress)
    requires AllPatient(s.hub.notes[target], ls)
    requires Handled(s, c, ls) > Debt(s.hub.notes, c, target)
    ensures exists k: nat :: k <= |ls| && TriedAt(s, c, target, ls, k)
  {
    if forall k: nat | k <= |ls| :: !TriedAt(s, c, target, ls, k) {
      DebtShrinks(s, c, target, ls);
    }
  }
}
