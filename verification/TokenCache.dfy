/** Shared OAuth tokens of one provider: many processes, each with a cache, in
    front of one database row (src/integrations/_base_client/token_cache.py). A
    step is one await: reading the cache and judging it, reading the row, one
    critical section under the database lock, storing in the cache. */
module TokenCache {
  import opened Outcomes

  datatype Record = Record(access: string, refresh: Option<string>, expires: int)

  /** One call of `force_refresh`; `presented` is `expected_access_token`. */
  datatype Call = Call(presented: Option<string>, allowMissing: bool, skew: int)

  predicate Expired(r: Record, skew: int, now: int) { now >= r.expires - skew }

  /** `_short_circuit_if_already_refreshed` */
  predicate Usable(r: Record, call: Call, now: int) {
    !Expired(r, call.skew, now) && (call.presented.None? || r.access != call.presented.value)
  }

  /** A refresh token missing from the provider's answer keeps the stored one. */
  function Merged(current: Option<Record>, given: Record): Record {
    given.(refresh := if given.refresh.Some? then given.refresh else if current.Some? then current.value.refresh else None)
  }

  /** `_upsert_auth_token_in_session` */
  function Upsert(row: Option<Record>, r: Record): Record {
    if row.None? then r else Record(r.access, if r.refresh.Some? then r.refresh else row.value.refresh, r.expires)
  }

  /** What is written is what is returned and cached. */
  lemma UpsertWritesMerged(row: Option<Record>, given: Record)
    ensures Upsert(row, Merged(row, given)) == Merged(row, given)
    ensures row.Some? && row.value.refresh.Some? ==> Merged(row, given).refresh.Some?
  {
  }

  // ------------------------------------------------------------------ steps

  datatype Pc = Idle | Entered(call: Call) | HasRow(call: Call, found: Option<Record>) | Stale(call: Call) | Refreshed(call: Call, record: Record)

  /** A committed provider refresh: who asked, what the row held, what it became. */
  datatype Flight = Flight(call: Call, before: Option<Record>, record: Record, now: int)

  /** A finished call. `own` is set when its own refresh supplied the record. */
  datatype Answer = Answer(call: Call, record: Option<Record>, own: bool, now: int)

  /** `seen` are the records the row has ever held. */
  datatype Sys = Sys(
    row: Option<Record>, caches: map<nat, Record>, pcs: map<nat, Pc>,
    flights: seq<Flight>, answers: seq<Answer>, seen: set<Record>)

  datatype Label =
    | Enter(p: nat, call: Call)
    | Go(p: nat, now: int, given: Option<Record>, fails: bool)
    | Load(p: nat, record: Record)      // a plain `get` finishes with what it once read
    | Forget(p: nat)                    // `clear_memory`, or the process restarts
    | Crash(p: nat)
    | Delete                            // `clear(delete_from_db=True)`

  function At(s: Sys, p: nat): Pc { if p in s.pcs then s.pcs[p] else Idle }

  function Goto(s: Sys, p: nat, pc: Pc): Sys { s.(pcs := s.pcs[p := pc]) }

  function Return(s: Sys, p: nat, call: Call, record: Option<Record>, own: bool, now: int): Sys {
    Goto(s.(answers := s.answers + [Answer(call, record, own, now)]), p, Idle)
  }

  function Judge(s: Sys, p: nat, call: Call, r: Record, now: int): Sys {
    if Usable(r, call, now) then Return(s, p, call, Some(r), false, now) else Goto(s, p, Stale(call))
  }

  /** `_refresh_with_cross_container_lock`: any exception rolls back and is
      swallowed. */
  function Critical(s: Sys, p: nat, call: Call, now: int, given: Option<Record>, fails: bool): Sys {
    if fails then Return(s, p, call, None, false, now)
    else if s.row.Some? && Usable(s.row.value, call, now) then
      Return(s.(caches := s.caches[p := s.row.value]), p, call, s.row, false, now)
    else if (s.row.None? && !call.allowMissing) || given.None? then Return(s, p, call, None, false, now)
    else
      var record := Merged(s.row, given.value);
      Goto(s.(row := Some(Upsert(s.row, record)), flights := s.flights + [Flight(call, s.row, record, now)],
              seen := s.seen + {Upsert(s.row, record)}), p, Refreshed(call, record))
  }

  function Step(s: Sys, p: nat, now: int, given: Option<Record>, fails: bool): Sys {
    match At(s, p)
    case Idle => s
    case Entered(call) => if p in s.caches then Judge(s, p, call, s.caches[p], now) else Goto(s, p, HasRow(call, s.row))
    case HasRow(call, found) =>
      if found.None? then Goto(s, p, Stale(call)) else Judge(s.(caches := s.caches[p := found.value]), p, call, found.value, now)
    case Stale(call) => Critical(s, p, call, now, given, fails)
    case Refreshed(call, record) => Return(s.(caches := s.caches[p := record]), p, call, Some(record), true, now)
  }

  predicate Enabled(s: Sys, l: Label) {
    match l
    case Enter(p, _) => At(s, p).Idle?     // the process's refresh lock
    case Load(_, record) => record in s.seen
    case _ => true
  }

  function Next(s: Sys, l: Label): Sys {
    match l
    case Enter(p, call) => Goto(s, p, Entered(call))
    case Go(p, now, given, fails) => Step(s, p, now, given, fails)
    case Load(p, record) => s.(caches := s.caches[p := record])
    case Forget(p) => s.(caches := s.caches - {p})
    case Crash(p) => Goto(s.(caches := s.caches - {p}), p, Idle)
    case Delete => s.(row := None)
  }

  function Run(s: Sys, ls: seq<Label>): Sys {
    if ls == [] then s else
      var t := Run(s, ls[..|ls| - 1]);
      var l := ls[|ls| - 1];
      if Enabled(t, l) then Next(t, l) else t
  }

  /** Any row, and caches that hold nothing else. */
  predicate Start(s: Sys) {
    && (forall p | p in s.pcs :: s.pcs[p].Idle?) && s.flights == [] && s.answers == []
    && (s.row.Some? ==> s.row.value in s.seen)
    && (forall p | p in s.caches :: s.caches[p] in s.seen)
  }

  // -------------------------------------------------------------- invariant

  /** Why a refresh was necessary: there was no row, it had expired, or the
      caller had been refused with exactly the stored token. */
  predicate Needed(f: Flight) {
    f.before.None? || Expired(f.before.value, f.call.skew, f.now) || f.call.presented == Some(f.before.value.access)
  }

  /** The row is what the last refresh wrote, unless it was deleted since. */
  predicate Chained(s: Sys, first: Option<Record>, i: nat, row: Option<Record>)
    requires i <= |s.flights|
  {
    row.None? || row == if i == 0 then first else Some(s.flights[i - 1].record)
  }

  predicate PcOk(s: Sys, pc: Pc) {
    match pc
    case HasRow(_, found) => found.Some? ==> found.value in s.seen
    case Refreshed(call, record) => record in s.seen && Recorded(s, call, record)
    case _ => true
  }

  predicate Recorded(s: Sys, call: Call, record: Record) {
    exists i :: 0 <= i < |s.flights| && s.flights[i].call == call && s.flights[i].record == record
  }

  predicate AnswerOk(s: Sys, a: Answer) {
    a.record.Some? ==> a.record.value in s.seen && if a.own then Recorded(s, a.call, a.record.value) else Usable(a.record.value, a.call, a.now)
  }

  ghost predicate Inv(s: Sys, first: Option<Record>) {
    && (forall i | 0 <= i < |s.flights| :: Needed(s.flights[i]) && Chained(s, first, i, s.flights[i].before))
    && Chained(s, first, |s.flights|, s.row)
    && (s.row.Some? ==> s.row.value in s.seen)
    && (forall p | p in s.caches :: s.caches[p] in s.seen)
    && (forall p | p in s.pcs :: PcOk(s, s.pcs[p]))
    && (forall i | 0 <= i < |s.answers| :: AnswerOk(s, s.answers[i]))
  }

  predicate Grows(s: Sys, t: Sys) { s.flights <= t.flights && s.answers <= t.answers && s.seen <= t.seen }

  lemma Survives(s: Sys, t: Sys)
    requires Grows(s, t)
    ensures forall call, record | Recorded(s, call, record) :: Recorded(t, call, record)
    ensures forall pc | PcOk(s, pc) :: PcOk(t, pc)
    ensures forall a | AnswerOk(s, a) :: AnswerOk(t, a)
  {
    forall call, record | Recorded(s, call, record) ensures Recorded(t, call, record) {
      var i :| 0 <= i < |s.flights| && s.flights[i].call == call && s.flights[i].record == record;
      assert t.flights[i] == s.flights[i];
    }
  }

  /** Steps that neither write the row nor end a call. */
  lemma QuietKeeps(s: Sys, t: Sys, first: Option<Record>, p: nat, pc: Pc)
    requires Inv(s, first) && t.flights == s.flights && t.seen == s.seen && t.answers == s.answers
    requires t.row == s.row || t.row.None?
    requires t.pcs == s.pcs || (t.pcs == s.pcs[p := pc] && PcOk(s, pc))
    requires forall q | q in t.caches :: t.caches[q] in s.seen
    ensures Inv(t, first)
  {
    Survives(s, t);
    forall i | 0 <= i < |t.flights| ensures Chained(t, first, i, t.flights[i].before) { assert Chained(s, first, i, s.flights[i].before); }
  }

  lemma ReturnKeeps(s: Sys, first: Option<Record>, p: nat, call: Call, record: Option<Record>, own: bool, now: int)
    requires Inv(s, first) && AnswerOk(s, Answer(call, record, own, now))
    ensures Inv(Return(s, p, call, record, own, now), first)
  {
    var t := Return(s, p, call, record, own, now);
    Survives(s, t);
    forall i | 0 <= i < |t.flights| ensures Chained(t, first, i, t.flights[i].before) { assert Chained(s, first, i, s.flights[i].before); }
  }

  lemma JudgeKeeps(s: Sys, first: Option<Record>, p: nat, call: Call, r: Record, now: int)
    requires Inv(s, first) && r in s.seen
    ensures Inv(Judge(s, p, call, r, now), first) && Grows(s, Judge(s, p, call, r, now))
  {
    if Usable(r, call, now) { ReturnKeeps(s, first, p, call, Some(r), false, now); }
    else { QuietKeeps(s, Goto(s, p, Stale(call)), first, p, Stale(call)); }
  }

  lemma CriticalKeeps(s: Sys, first: Option<Record>, p: nat, call: Call, now: int, given: Option<Record>, fails: bool)
    requires Inv(s, first)
    ensures Inv(Critical(s, p, call, now, given, fails), first) && Grows(s, Critical(s, p, call, now, given, fails))
  {
    var t := Critical(s, p, call, now, given, fails);
    if t.flights == s.flights {
      var u := if !fails && s.row.Some? && Usable(s.row.value, call, now) then s.(caches := s.caches[p := s.row.value]) else s;
      QuietKeeps(s, u, first, p, Idle);
      ReturnKeeps(u, first, p, call, if u == s && t.answers[|s.answers|].record.None? then None else s.row, false, now);
    } else {
      var record := Merged(s.row, given.value);
      UpsertWritesMerged(s.row, given.value);
      FlightKeeps(s, t, first, p, Flight(call, s.row, record, now));
    }
  }

  lemma FlightKeeps(s: Sys, t: Sys, first: Option<Record>, p: nat, f: Flight)
    requires Inv(s, first) && f.before == s.row && Needed(f)
    requires t == Goto(s.(row := Some(f.record), flights := s.flights + [f], seen := s.seen + {f.record}), p, Refreshed(f.call, f.record))
    ensures Inv(t, first)
  {
    Survives(s, t);
    var n := |s.flights|;
    forall i | 0 <= i < |t.flights| ensures Needed(t.flights[i]) && Chained(t, first, i, t.flights[i].before) {
      if i < n { assert t.flights[i] == s.flights[i] && Chained(s, first, i, s.flights[i].before); }
    }
    assert t.flights[n] == f;
    assert Recorded(t, f.call, f.record);
  }

  lemma StepKeeps(s: Sys, first: Option<Record>, l: Label)
    requires Inv(s, first) && Enabled(s, l)
    ensures Inv(Next(s, l), first) && Grows(s, Next(s, l))
  {
    match l
    case Enter(p, call) => QuietKeeps(s, Next(s, l), first, p, Entered(call));
    case Go(p, now, given, fails) => GoKeeps(s, first, p, now, given, fails);
    case Load(p, record) => QuietKeeps(s, Next(s, l), first, p, Idle);
    case Forget(p) => QuietKeeps(s, Next(s, l), first, p, Idle);
    case Crash(p) => QuietKeeps(s, Next(s, l), first, p, Idle);
    case Delete => QuietKeeps(s, Next(s, l), first, 0, Idle);
  }

  lemma GoKeeps(s: Sys, first: Option<Record>, p: nat, now: int, given: Option<Record>, fails: bool)
    requires Inv(s, first)
    ensures var t := Step(s, p, now, given, fails); Inv(t, first) && Grows(s, t)
  {
    hide Usable, Merged, Upsert, Critical, Recorded, AnswerOk;
    match At(s, p)
    case Idle =>
    case Entered(call) =>
      if p in s.caches { JudgeKeeps(s, first, p, call, s.caches[p], now); }
      else { QuietKeeps(s, Goto(s, p, HasRow(call, s.row)), first, p, HasRow(call, s.row)); }
    case HasRow(call, found) =>
      assert PcOk(s, s.pcs[p]);
      if found.None? { QuietKeeps(s, Goto(s, p, Stale(call)), first, p, Stale(call)); }
      else {
        CachingKeeps(s, first, p, found.value);
        JudgeKeeps(s.(caches := s.caches[p := found.value]), first, p, call, found.value, now);
      }
    case Stale(call) => CriticalKeeps(s, first, p, call, now, given, fails);
    case Refreshed(call, record) =>
      assert PcOk(s, s.pcs[p]);
      CachingKeeps(s, first, p, record);
      ReturnKeeps(s.(caches := s.caches[p := record]), first, p, call, Some(record), true, now);
  }

  lemma CachingKeeps(s: Sys, first: Option<Record>, p: nat, r: Record)
    requires Inv(s, first) && r in s.seen
    ensures Inv(s.(caches := s.caches[p := r]), first)
    ensures forall call | Recorded(s, call, r) :: Recorded(s.(caches := s.caches[p := r]), call, r)
  {
    var u := s.(caches := s.caches[p := r]);
    QuietKeeps(s, u, first, p, Idle);
    Survives(s, u);
  }

  lemma {:induction false} RunKeeps(s: Sys, first: Option<Record>, ls: seq<Label>)
    requires Inv(s, first)
    ensures Inv(Run(s, ls), first) && Grows(s, Run(s, ls))
  {
    if ls != [] {
      var t := Run(s, ls[..|ls| - 1]);
      RunKeeps(s, first, ls[..|ls| - 1]);
      if Enabled(t, ls[|ls| - 1]) { StepKeeps(t, first, ls[|ls| - 1]); }
    }
  }

  // --------------------------------------------------------------- theorems

  /** Single flight: of all callers, in all processes, that present one token,
      a second one makes a provider refresh only if the provider has handed out
      that very token again in between, the row was deleted, or the stored
      token had expired by then. */
  lemma SingleFlight(s: Sys, ls: seq<Label>, token: string, i: nat, k: nat)
    requires Start(s) && i < k < |Run(s, ls).flights|
    requires var fs := Run(s, ls).flights;
      fs[i].call.presented == Some(token) && fs[k].call.presented == Some(token) && forall j | i <= j < k :: fs[j].record.access != token
    ensures var f := Run(s, ls).flights[k]; f.before.None? || Expired(f.before.value, f.call.skew, f.now)
  {
    RunKeeps(s, s.row, ls);
    var t := Run(s, ls);
    assert Needed(t.flights[k]) && Chained(t, s.row, k, t.flights[k].before);
  }

  /** In particular: callers that all present one token, refreshes that each
      give another token which stays unexpired over the whole run, and no
      deletion: at most one refresh is ever committed. */
  lemma AtMostOneRefresh(s: Sys, ls: seq<Label>, token: string, skew: int, horizon: int)
    requires Start(s)
    requires forall l | l in ls :: Uniform(l, token, skew, horizon)
    requires forall f | f in Run(s, ls).flights :: f.record.access != token && !Expired(f.record, skew, horizon)
    ensures |Run(s, ls).flights| <= 1
  {
    var t := Run(s, ls);
    RunKeeps(s, s.row, ls);
    Presenting(s, ls, token, skew, horizon);
    if |t.flights| > 1 {
      assert t.flights[0] in t.flights && t.flights[1] in t.flights;
      SingleFlight(s, ls, token, 0, 1);
    }
  }

  /** The callers of a run that all present `token`, until `horizon`. */
  predicate Uniform(l: Label, token: string, skew: int, horizon: int) {
    !l.Delete? && (l.Enter? ==> Presents(l.call, token, skew)) && (l.Go? ==> l.now <= horizon)
  }

  predicate Presents(call: Call, token: string, skew: int) { call.presented == Some(token) && call.skew == skew }

  ghost predicate AllPresent(s: Sys, token: string, skew: int, horizon: int) {
    && (s.flights != [] ==> s.row.Some?)
    && (forall i | 0 <= i < |s.flights| :: PresentedBy(s.flights[i], token, skew, horizon, i))
    && (forall p | p in s.pcs && !s.pcs[p].Idle? :: Presents(s.pcs[p].call, token, skew))
  }

  lemma PresentingStep(s: Sys, l: Label, token: string, skew: int, horizon: int)
    requires AllPresent(s, token, skew, horizon) && Uniform(l, token, skew, horizon) && Enabled(s, l)
    ensures AllPresent(Next(s, l), token, skew, horizon)
  {
    if l.Go? && At(s, l.p).Stale? {
      assert Presents(s.pcs[l.p].call, token, skew);
      var t := Next(s, l);
      forall i | 0 <= i < |t.flights| ensures PresentedBy(t.flights[i], token, skew, horizon, i) {
        if i < |s.flights| { assert t.flights[i] == s.flights[i]; }
      }
    }
  }

  lemma {:induction false} Presenting(s: Sys, ls: seq<Label>, token: string, skew: int, horizon: int)
    requires Start(s) && forall l | l in ls :: Uniform(l, token, skew, horizon)
    ensures AllPresent(Run(s, ls), token, skew, horizon)
  {
    if ls != [] {
      var n := |ls| - 1;
      assert ls == ls[..n] + [ls[n]];
      Presenting(s, ls[..n], token, skew, horizon);
      assert ls[n] in ls;
      if Enabled(Run(s, ls[..n]), ls[n]) { PresentingStep(Run(s, ls[..n]), ls[n], token, skew, horizon); }
    }
  }

  predicate PresentedBy(f: Flight, token: string, skew: int, horizon: int, i: nat) {
    f.call.presented == Some(token) && f.call.skew == skew && f.now <= horizon && (i > 0 ==> f.before.Some?)
  }

  /** Every successful call returns a record the row has held; and unless its
      own refresh supplied it, one that is unexpired and is not the token the
      caller presented. */
  lemma OthersGetStoredTokens(s: Sys, ls: seq<Label>, i: nat)
    requires Start(s) && i < |Run(s, ls).answers| && Run(s, ls).answers[i].record.Some?
    ensures var t := Run(s, ls); var a := t.answers[i]; var r := a.record.value;
      && r in t.seen
      && (!a.own ==> !Expired(r, a.call.skew, a.now) && a.call.presented != Some(r.access))
      && (a.own ==> exists k :: 0 <= k < |t.flights| && t.flights[k].call == a.call && t.flights[k].record == r)
  {
    RunKeeps(s, s.row, ls);
    assert AnswerOk(Run(s, ls), Run(s, ls).answers[i]);
  }

  /** Without a deletion a stored refresh token is never lost. */
  lemma {:induction false} RefreshTokenIsKept(s: Sys, ls: seq<Label>)
    requires s.row.Some? && s.row.value.refresh.Some?
    requires forall l | l in ls :: !l.Delete?
    ensures var t := Run(s, ls); t.row.Some? && t.row.value.refresh.Some?
  {
    if ls != [] {
      var n := |ls| - 1;
      assert ls == ls[..n] + [ls[n]];
      RefreshTokenIsKept(s, ls[..n]);
      assert ls[n] in ls;
    }
  }
}
