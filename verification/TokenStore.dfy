/** `TokenStore.force_refresh` as written
    (src/integrations/_base_client/token_cache.py), shown to be a run of the
    step machine of TokenCache. */
module TokenStore {
  import opened Outcomes
  import opened TokenCache

  /** The shared database row. Its history is kept for the proofs only. */
  class AuthTable {
    var row: Option<Record>
    ghost var flights: seq<Flight>
    ghost var answers: seq<Answer>
    ghost var seen: set<Record>

    constructor (row: Option<Record>)
      ensures this.row == row && flights == [] && answers == [] && seen == if row.Some? then {row.value} else {}
    {
      this.row, flights, answers, seen := row, [], [], if row.Some? then {row.value} else {};
    }

    /** `_upsert_auth_token_in_session` */
    method UpsertToken(r: Record)
      modifies this`row
      ensures row == Some(Upsert(old(row), r))
      ensures row.value.access == r.access && row.value.expires == r.expires
        && row.value.refresh == if r.refresh.None? && old(row).Some? then old(row).value.refresh else r.refresh
    {
      if row.None? {
        row := Some(r);
        return;
      }
      var kept := row.value.(access := r.access);
      if r.refresh.Some? { kept := kept.(refresh := r.refresh); }
      row := Some(kept.(expires := r.expires));
    }

    ghost method Answered(call: Call, record: Option<Record>, own: bool, now: int)
      modifies this`answers
      ensures answers == old(answers) + [Answer(call, record, own, now)]
    {
      answers := answers + [Answer(call, record, own, now)];
    }
  }

  /** This process in the step machine. */
  const ME: nat := 0

  /** The call enters, looks with one clock reading, and from step `n` on works
      under the lock with the other. */
  predicate AsCalled(steps: seq<Label>, call: Call, reading: int, locked: int, given: Option<Record>, fails: bool, n: int) {
    && 1 <= n <= |steps| && steps[0] == Enter(ME, call)
    && forall i | 1 <= i < |steps| :: steps[i] == Go(ME, if i < n then reading else locked, given, fails)
  }

  /** A token that a caller may be given without a refresh: unexpired, and not
      the one it was refused with. */
  predicate Serves(r: Option<Record>, call: Call, now: int) {
    r.Some? && now < r.value.expires - call.skew && call.presented != Some(r.value.access)
  }

  /** `r` carries the provider's token; a refresh token it lacks is the stored one. */
  predicate Refreshes(r: Option<Record>, row: Option<Record>, given: Record) {
    && r.Some? && r.value.access == given.access && r.value.expires == given.expires
    && r.value.refresh == if given.refresh.None? && row.Some? then row.value.refresh else given.refresh
  }

  /** The row holds an unexpired token other than the one found. */
  predicate Newer(row: Option<Record>, found: Option<Record>, skew: int, now: int) {
    row.Some? && now < row.value.expires - skew && (found.None? || found.value.access != row.value.access)
  }

  lemma UsableServes(r: Record, call: Call, now: int)
    ensures Usable(r, call, now) <==> Serves(Some(r), call, now)
  {
  }

  lemma NothingServes(call: Call, now: int)
    ensures !Serves(None, call, now)
  {
  }

  lemma MergedRefreshes(row: Option<Record>, given: Record)
    ensures var r := Merged(row, given); Refreshes(Some(r), row, given) && Upsert(row, r) == r
  {
  }

  class TokenStore {
    const table: AuthTable
    var cached: Option<Record>

    constructor (table: AuthTable)
      ensures this.table == table && cached == None
    {
      this.table, cached := table, None;
    }

    /** The world, with this process's call at `pc`. */
    ghost function World(pc: Pc): Sys
      reads this, table
    {
      Sys(table.row, if cached.Some? then map[ME := cached.value] else map[], map[ME := pc], table.flights, table.answers, table.seen)
    }

    /** `reading` and `locked` are the clock at the two checks, `given` is the
        provider's answer, and `fails` says that the transaction raises. Together
        they decide every step, and so the answer. */
    method ForceRefresh(call: Call, reading: int, locked: int, given: Option<Record>, fails: bool)
      returns (r: Option<Record>, ghost steps: seq<Label>)
      modifies this, table
      ensures World(Idle) == Run(old(World(Idle)), steps)
      ensures AsCalled(steps, call, reading, locked, given, fails, if old(cached).Some? then 2 else 3)
      ensures |table.answers| == |old(table.answers)| + 1 && table.answers[|old(table.answers)|].record == r
      // a usable record is returned as it is
      ensures var found := if old(cached).Some? then old(cached) else old(table.row);
        if Serves(found, call, reading) then r == found && cached == found && table.row == old(table.row)
        else if fails then r == None && cached == found && table.row == old(table.row)
        else if Serves(old(table.row), call, locked) then r == old(table.row) && cached == r && table.row == old(table.row)
        // otherwise the provider is asked, if there is something to refresh or nothing is needed
        else if given.Some? && (old(table.row).Some? || call.allowMissing) then
          Refreshes(r, old(table.row), given.value) && table.row == r && cached == r
        else r == None && cached == found && table.row == old(table.row)
    {
      hide Run, Step, Refreshes;
      ghost var start := World(Idle);
      Nothing(start);
      steps := Took(start, [], Enter(ME, call));
      assert World(Entered(call)) == Run(start, steps);
      ghost var more;
      r, more := LookUp(call, reading, given, fails);
      steps := ContinuedBy(start, steps, more);
      if r.None? {
        r, more := RefreshUnderLock(call, locked, given, fails);
        steps := ContinuedBy(start, steps, more);
      }
    }

    /** `get` and the first check: a usable record, or None to go on. */
    method LookUp(call: Call, reading: int, given: Option<Record>, fails: bool) returns (r: Option<Record>, ghost steps: seq<Label>)
      modifies this`cached, table`answers
      ensures World(if r.Some? then Idle else Stale(call)) == Run(old(World(Entered(call))), steps)
      ensures |steps| == (if old(cached).Some? then 1 else 2) && forall i | 0 <= i < |steps| :: steps[i] == Go(ME, reading, given, fails)
      ensures if r.Some? then |table.answers| == |old(table.answers)| + 1 && table.answers[|old(table.answers)|].record == r
              else table.answers == old(table.answers)
      ensures cached == if old(cached).Some? then old(cached) else table.row
      ensures r == if Serves(cached, call, reading) then cached else None
    {
      hide Run, Critical;
      ghost var start := World(Entered(call));
      Nothing(start);
      steps := Took(start, [], Go(ME, reading, given, fails));
      r := cached;
      if r.None? {
        assert World(HasRow(call, table.row)) == Run(start, steps);
        steps := Took(start, steps, Go(ME, reading, given, fails));
        r := table.row;
        if r.Some? { cached := r; }
      }
      if r.Some? && Usable(r.value, call, reading) {
        table.Answered(call, r, false, reading);
      } else {
        r := None;
      }
    }

    /** `_refresh_with_cross_container_lock` */
    method RefreshUnderLock(call: Call, now: int, given: Option<Record>, fails: bool)
      returns (r: Option<Record>, ghost steps: seq<Label>)
      modifies this, table
      ensures World(Idle) == Run(old(World(Stale(call))), steps)
      ensures forall i | 0 <= i < |steps| :: steps[i] == Go(ME, now, given, fails)
      ensures |table.answers| == |old(table.answers)| + 1 && table.answers[|old(table.answers)|].record == r
      ensures if fails then r == None && cached == old(cached) && table.row == old(table.row)
        else if Serves(old(table.row), call, now) then r == old(table.row) && cached == r && table.row == old(table.row)
        else if given.Some? && (old(table.row).Some? || call.allowMissing) then
          Refreshes(r, old(table.row), given.value) && table.row == r && cached == r
        else r == None && cached == old(cached) && table.row == old(table.row)
    {
      hide Run, Critical, Usable, Serves, Refreshes;
      ghost var start := World(Stale(call));
      var refreshed;
      r, refreshed, steps := Transact(call, now, given, fails);
      if refreshed {
        cached := r;
        table.Answered(call, r, true, now);
        steps := Took(start, steps, Go(ME, now, given, fails));
      }
    }

    /** Its transaction: what the row now holds, if the provider was asked. */
    method Transact(call: Call, now: int, given: Option<Record>, fails: bool)
      returns (r: Option<Record>, refreshed: bool, ghost steps: seq<Label>)
      modifies this, table
      ensures steps == [Go(ME, now, given, fails)]
      ensures refreshed ==> r.Some? && table.answers == old(table.answers)
      ensures World(if refreshed then Refreshed(call, r.value) else Idle) == Run(old(World(Stale(call))), steps)
      ensures !refreshed ==> |table.answers| == |old(table.answers)| + 1 && table.answers[|old(table.answers)|].record == r
      ensures refreshed <==> !fails && !Serves(old(table.row), call, now) && given.Some? && (old(table.row).Some? || call.allowMissing)
      ensures if fails then r == None && cached == old(cached) && table.row == old(table.row)
        else if Serves(old(table.row), call, now) then r == old(table.row) && cached == r && table.row == old(table.row)
        else if given.Some? && (old(table.row).Some? || call.allowMissing) then
          Refreshes(r, old(table.row), given.value) && table.row == r && cached == old(cached)
        else r == None && cached == old(cached) && table.row == old(table.row)
    {
      hide Run, Usable, Merged, Upsert, Serves, Refreshes;
      if table.row.Some? { UsableServes(table.row.value, call, now); } else { NothingServes(call, now); }
      if given.Some? { MergedRefreshes(table.row, given.value); }
      ghost var start := World(Stale(call));
      Nothing(start);
      steps := Took(start, [], Go(ME, now, given, fails));
      r, refreshed := None, false;
      if !fails {
        if table.row.Some? && Usable(table.row.value, call, now) {
          cached, r := table.row, table.row;
        } else if (table.row.Some? || call.allowMissing) && given.Some? {
          r := StoreRefreshed(call, now, given.value, fails);
          return r, true, steps;
        }
      }
      table.Answered(call, r, false, now);
    }

    /** The provider's answer, merged with the row and written to it. */
    method StoreRefreshed(call: Call, now: int, given: Record, ghost fails: bool) returns (r: Option<Record>)
      requires !fails && !Serves(table.row, call, now) && (table.row.Some? || call.allowMissing)
      modifies table`row, table`flights, table`seen
      ensures Refreshes(r, old(table.row), given) && table.row == r
      ensures World(Refreshed(call, r.value)) == Step(old(World(Stale(call))), ME, now, Some(given), fails)
    {
      hide Usable, Merged, Upsert;
      if table.row.Some? { UsableServes(table.row.value, call, now); }
      MergedRefreshes(table.row, given);
      var record := Merged(table.row, given);
      ghost var flight := Flight(call, table.row, record, now);
      table.UpsertToken(record);
      table.flights, table.seen := table.flights + [flight], table.seen + {table.row.value};
      r := Some(record);
    }

    /** `get_valid_access_token`; None stands for its error. `first` is the clock
        at its own check. */
    method GetValidAccessToken(skew: int, first: int, reading: int, locked: int, given: Option<Record>, fails: bool)
      returns (token: Option<string>)
      modifies this, table
      ensures var found := if old(cached).Some? then old(cached) else old(table.row);
        if found.Some? && first < found.value.expires - skew then token == Some(found.value.access) && table.row == old(table.row)
        else if fails then token == None && table.row == old(table.row)
        else if Newer(old(table.row), found, skew, locked) then token == Some(old(table.row).value.access) && table.row == old(table.row)
        else if given.Some? then token == Some(given.value.access) && Refreshes(table.row, old(table.row), given.value)
        else token == None && table.row == old(table.row)
    {
      if cached.None? && table.row.Some? { cached := table.row; }
      var record := cached;
      if record.Some? && !Expired(record.value, skew, first) { return Some(record.value.access); }
      var call := Call(if record.Some? then Some(record.value.access) else None, true, skew);
      var refreshed, _ := ForceRefresh(call, reading, locked, given, fails);
      token := if refreshed.None? then None else Some(refreshed.value.access);
    }
  }

  ghost function Took(s: Sys, ls: seq<Label>, l: Label): (r: seq<Label>)
    ensures r == ls + [l]
    ensures Run(s, r) == var t := Run(s, ls); if Enabled(t, l) then Next(t, l) else t
  {
    assert (ls + [l])[..|ls|] == ls;
    ls + [l]
  }

  ghost function ContinuedBy(start: Sys, first: seq<Label>, more: seq<Label>): (ls: seq<Label>)
    ensures ls == first + more
    ensures Run(start, ls) == Run(Run(start, first), more)
  {
    RunConcat(start, first, more);
    first + more
  }

  lemma {:induction false} RunConcat(s: Sys, a: seq<Label>, b: seq<Label>)
    ensures Run(s, a + b) == Run(Run(s, a), b)
  {
    if b == [] {
      assert a + b == a;
    } else {
      RunConcat(s, a, b[..|b| - 1]);
      assert (a + b)[..|a + b| - 1] == a + b[..|b| - 1];
    }
  }

  lemma Nothing(s: Sys)
    ensures Run(s, []) == s
  {
  }
}
