/** The rate-limited gateway client
    (src/integrations/ksp_gateway/client.py over store.py). Times are exact
    numbers of seconds. */
module KspClient {
  import opened Outcomes
  import opened Counting

  // ------------------------------------------------------------- rate slots

  /** `GatewayStore.interval` */
  function Interval(requestsPerMinute: nat): real
    requires 1 <= requestsPerMinute <= 60
  {
    60.0 / requestsPerMinute as real + 0.05
  }

  /** The moment a request made at `now` may go out. */
  function Reserved(nextAt: Option<real>, now: real): real {
    if nextAt.Some? && nextAt.value > now then nextAt.value else now
  }

  /** All slots handed out for a list of clock readings, in order. */
  function Slots(nextAt: Option<real>, interval: real, clock: seq<real>): (r: seq<real>)
    ensures |r| == |clock|
    decreases clock
  {
    if clock == [] then [] else
      var at := Reserved(nextAt, clock[0]);
      [at] + Slots(Some(at + interval), interval, clock[1..])
  }

  /** `n` intervals. */
  function Times(n: nat, d: real): real { if n == 0 then 0.0 else Times(n - 1, d) + d }

  lemma {:induction false} TimesIsProduct(n: nat, d: real)
    ensures Times(n, d) == n as real * d
  {
    if n > 0 {
      TimesIsProduct(n - 1, d);
      Steps(n - 1, d);
    }
  }

  lemma Steps(n: nat, d: real)
    ensures (n + 1) as real * d == n as real * d + d
  {
  }

  lemma {:induction false} MoreTimes(m: nat, n: nat, d: real)
    requires m <= n && d > 0.0
    ensures Times(n, d) >= Times(m, d)
  {
    if m < n { MoreTimes(m, n - 1, d); }
  }

  /** Slots handed out one after the other are that many intervals apart. */
  lemma {:induction false} SlotsApart(nextAt: Option<real>, interval: real, clock: seq<real>, i: nat, k: nat)
    requires i <= k < |clock|
    ensures var r := Slots(nextAt, interval, clock); r[k] >= r[i] + Times(k - i, interval)
    decreases clock
  {
    var at := Reserved(nextAt, clock[0]);
    if i > 0 {
      SlotsApart(Some(at + interval), interval, clock[1..], i - 1, k - 1);
    } else if k > 0 {
      SlotsApart(Some(at + interval), interval, clock[1..], 0, k - 1);
      assert Slots(Some(at + interval), interval, clock[1..])[0] >= at + interval;
    }
  }

  /** The requests of a clock history whose slots fall into one minute. */
  ghost function InMinute(slots: seq<real>, start: real): set<nat> {
    set i: nat | i < |slots| && start <= slots[i] <= start + 60.0
  }

  /** Every window of sixty seconds, ends included, holds at most
      `requests_per_minute` slots: whatever the clock reads, even backwards, and
      whichever processes share the journal. */
  lemma RateIsKept(nextAt: Option<real>, rpm: nat, clock: seq<real>, start: real)
    requires 1 <= rpm <= 60
    ensures |InMinute(Slots(nextAt, Interval(rpm), clock), start)| <= rpm
  {
    var window := InMinute(Slots(nextAt, Interval(rpm), clock), start);
    if window != {} {
      var low := Lowest(window);
      forall i | i in window ensures i in Span(low, rpm) { CloseTogether(nextAt, rpm, clock, start, low, i); }
      Within(window, Span(low, rpm));
    }
  }

  lemma CloseTogether(nextAt: Option<real>, rpm: nat, clock: seq<real>, start: real, low: nat, i: nat)
    requires 1 <= rpm <= 60 && low <= i
    requires var w := InMinute(Slots(nextAt, Interval(rpm), clock), start); low in w && i in w
    ensures i < low + rpm
  {
    hide Interval, Slots, Times;
    IntervalCoversMinute(rpm);
    SlotsApart(nextAt, Interval(rpm), clock, low, i);
    if i >= low + rpm { MoreTimes(rpm, i - low, Interval(rpm)); }
  }

  lemma IntervalCoversMinute(rpm: nat)
    requires 1 <= rpm <= 60
    ensures Times(rpm, Interval(rpm)) > 60.0 && Interval(rpm) > 0.0
  {
    TimesIsProduct(rpm, Interval(rpm));
    ShareOfMinute(rpm as real);
  }

  lemma ShareOfMinute(r: real)
    requires r >= 1.0
    ensures r * (60.0 / r + 0.05) > 60.0 && 60.0 / r > 0.0
  {
    assert r * (60.0 / r) == 60.0;
    assert r * (60.0 / r + 0.05) == r * (60.0 / r) + r * 0.05;
  }

  /** `n` numbers from `low` on. */
  function Span(low: nat, n: nat): (s: set<nat>)
    ensures |s| == n
    ensures forall i: nat :: i in s <==> low <= i < low + n
  {
    if n == 0 then {} else Span(low, n - 1) + {low + n - 1}
  }

  lemma {:induction false} Lowest(s: set<nat>) returns (m: nat)
    requires s != {}
    ensures m in s && forall i | i in s :: m <= i
  {
    m :| m in s;
    if s != {m} {
      var rest := s - {m};
      assert s == rest + {m};
      var l := Lowest(rest);
      if l < m { m := l; }
    }
  }

  lemma {:induction false} Within<T>(a: set<T>, b: set<T>)
    requires a <= b
    ensures |a| <= |b|
  {
    if a != {} {
      var x :| x in a;
      Within(a - {x}, b - {x});
    }
  }

  class RateSlots {
    const requestsPerMinute: nat
    var nextAt: Option<real>
    ghost var readings: seq<real>
    ghost var granted: seq<real>

    /** The slots granted so far are those of the clock readings so far. */
    ghost predicate Valid()
      reads this
    {
      && 1 <= requestsPerMinute <= 60
      && granted == Slots(None, Interval(requestsPerMinute), readings)
      && nextAt == After(None, Interval(requestsPerMinute), readings)
    }

    constructor (requestsPerMinute: nat)
      requires 1 <= requestsPerMinute <= 60
      ensures Valid() && this.requestsPerMinute == requestsPerMinute && granted == []
    {
      this.requestsPerMinute, nextAt, readings, granted := requestsPerMinute, None, [], [];
    }

    /** `reserve_request_slot`: how long to wait for the slot. */
    method Reserve(now: real) returns (wait: real)
      requires Valid()
      modifies this
      ensures Valid() && readings == old(readings) + [now] && granted == old(granted) + [now + wait]
      ensures wait >= 0.0
      // the wait is the shortest that keeps the distance from the slot before
      ensures old(granted) != [] ==> now + wait >= old(granted)[|old(granted)| - 1] + Interval(requestsPerMinute)
      ensures wait > 0.0 ==> old(granted) != [] && now + wait == old(granted)[|old(granted)| - 1] + Interval(requestsPerMinute)
    {
      LastSlot(None, Interval(requestsPerMinute), readings);
      var reserved := Reserved(nextAt, now);
      OneMoreSlot(None, Interval(requestsPerMinute), readings, now);
      nextAt := Some(reserved + Interval(requestsPerMinute));
      readings, granted := readings + [now], granted + [reserved];
      wait := reserved - now;
    }
  }

  /** `next_at` after a history. */
  function After(nextAt: Option<real>, interval: real, clock: seq<real>): Option<real>
    decreases clock
  {
    if clock == [] then nextAt else After(Some(Reserved(nextAt, clock[0]) + interval), interval, clock[1..])
  }

  lemma {:induction false} OneMoreSlot(nextAt: Option<real>, interval: real, clock: seq<real>, now: real)
    ensures var at := Reserved(After(nextAt, interval, clock), now);
      && Slots(nextAt, interval, clock + [now]) == Slots(nextAt, interval, clock) + [at]
      && After(nextAt, interval, clock + [now]) == Some(at + interval)
    decreases clock
  {
    if clock != [] {
      assert (clock + [now])[1..] == clock[1..] + [now];
      OneMoreSlot(Some(Reserved(nextAt, clock[0]) + interval), interval, clock[1..], now);
    } else {
      assert [now][1..] == [];
      assert clock + [now] == [now];
      assert Slots(Some(Reserved(nextAt, now) + interval), interval, []) == [];
    }
  }

  /** The next slot is due one interval after the last one. */
  lemma {:induction false} LastSlot(nextAt: Option<real>, interval: real, clock: seq<real>)
    ensures var slots := Slots(nextAt, interval, clock);
      After(nextAt, interval, clock) == if clock == [] then nextAt else Some(slots[|clock| - 1] + interval)
    decreases clock
  {
    if clock != [] {
      LastSlot(Some(Reserved(nextAt, clock[0]) + interval), interval, clock[1..]);
      if |clock| == 1 { assert clock[1..] == []; }
    }
  }

  /** Times at which the requests of a clock history could go out: none before
      it is made, each an interval after the one before. */
  ghost predicate Schedule(nextAt: Option<real>, interval: real, clock: seq<real>, times: seq<real>) {
    && |times| == |clock| && (forall i | 0 <= i < |times| :: times[i] >= clock[i])
    && (forall i | 0 < i < |times| :: times[i] >= times[i - 1] + interval)
    && (times != [] && nextAt.Some? ==> times[0] >= nextAt.value)
  }

  lemma {:induction false} SlotsAreASchedule(nextAt: Option<real>, interval: real, clock: seq<real>)
    requires interval >= 0.0
    ensures Schedule(nextAt, interval, clock, Slots(nextAt, interval, clock))
    decreases clock
  {
    if clock != [] {
      var at := Reserved(nextAt, clock[0]);
      SlotsAreASchedule(Some(at + interval), interval, clock[1..]);
      var slots, rest := Slots(nextAt, interval, clock), Slots(Some(at + interval), interval, clock[1..]);
      assert slots == [at] + rest;
      forall i | 0 < i < |slots| ensures slots[i] >= slots[i - 1] + interval {
        if i > 1 { assert rest[i - 1] >= rest[i - 2] + interval; }
      }
      forall i | 0 <= i < |slots| ensures slots[i] >= clock[i] {
        if i > 0 { assert rest[i - 1] >= clock[1..][i - 1]; }
      }
    }
  }

  /** The slots are such times, and the earliest: no request waits longer than
      the rate asks for. */
  lemma {:induction false} SlotsAreEarliest(nextAt: Option<real>, interval: real, clock: seq<real>, times: seq<real>, k: nat)
    requires interval >= 0.0 && Schedule(nextAt, interval, clock, times) && k < |clock|
    ensures Schedule(nextAt, interval, clock, Slots(nextAt, interval, clock)) && times[k] >= Slots(nextAt, interval, clock)[k]
    decreases clock
  {
    SlotsAreASchedule(nextAt, interval, clock);
    if k > 0 {
      var at := Reserved(nextAt, clock[0]);
      assert times[1] >= times[0] + interval;
      LaterSchedule(nextAt, interval, clock, times);
      SlotsAreEarliest(Some(at + interval), interval, clock[1..], times[1..], k - 1);
    }
  }

  lemma LaterSchedule(nextAt: Option<real>, interval: real, clock: seq<real>, times: seq<real>)
    requires Schedule(nextAt, interval, clock, times) && |clock| > 1
    ensures Schedule(Some(Reserved(nextAt, clock[0]) + interval), interval, clock[1..], times[1..])
  {
    var rest := times[1..];
    forall i | 0 < i < |rest| ensures rest[i] >= rest[i - 1] + interval { assert times[i + 1] >= times[i] + interval; }
    assert times[1] >= times[0] + interval;
  }

  /** The rate is also used up: requests made all at once get their slots one
      interval apart, and a minute's worth of them takes sixty seconds and a
      twentieth of a second for each. */
  lemma BurstAtFullRate(rpm: nat, now: real, clock: seq<real>, k: nat)
    requires 1 <= rpm <= 60 && k < |clock| && forall i | 0 <= i < |clock| :: clock[i] == now
    ensures Slots(None, Interval(rpm), clock)[k] == now + Times(k, Interval(rpm))
    ensures Times(rpm, Interval(rpm)) == 60.0 + rpm as real * 0.05
  {
    IntervalCoversMinute(rpm);
    Burst(None, Interval(rpm), now, clock, k);
    TimesIsProduct(rpm, Interval(rpm));
    MinuteInSlots(rpm as real);
  }

  lemma MinuteInSlots(r: real)
    requires r >= 1.0
    ensures r * (60.0 / r + 0.05) == 60.0 + r * 0.05
  {
    assert r * (60.0 / r) == 60.0;
    assert r * (60.0 / r + 0.05) == r * (60.0 / r) + r * 0.05;
  }

  lemma {:induction false} Burst(nextAt: Option<real>, interval: real, now: real, clock: seq<real>, k: nat)
    requires interval > 0.0 && k < |clock| && forall i | 0 <= i < |clock| :: clock[i] == now
    ensures Slots(nextAt, interval, clock)[k] == Reserved(nextAt, now) + Times(k, interval)
    decreases clock
  {
    if k > 0 {
      var at := Reserved(nextAt, now);
      Burst(Some(at + interval), interval, now, clock[1..], k - 1);
      OneMoreTime(k - 1, interval);
    }
  }

  lemma OneMoreTime(n: nat, d: real)
    ensures Times(n + 1, d) == d + Times(n, d)
  {
  }

  // --------------------------------------------------------------- requests

  /** `retryAfter` is None when the header is no finite number. */
  datatype Reply<T> = Raised | Response(status: int, data: T, retryAfter: Option<real>)

  predicate Transient<T>(r: Reply<T>) { r.Response? && r.status in {429, 500, 502, 503, 504} }

  function Attempts(get: bool): nat { if get then 3 else 1 }

  /** Seconds to wait before another try. */
  function Pause(retryAfter: Option<real>): (r: real)
    ensures 1.0 <= r <= 60.0
  {
    if retryAfter.None? || retryAfter.value < 1.0 then 1.0 else if retryAfter.value > 60.0 then 60.0 else retryAfter.value
  }

  function Apart(x: real, y: real): real { if x < y then y - x else x - y }

  /** Of one to sixty seconds it is what comes closest to the header, and one
      second without a header. */
  lemma PauseIsClosest(retryAfter: Option<real>, x: real)
    requires 1.0 <= x <= 60.0
    ensures if retryAfter.None? then Pause(retryAfter) <= x else Apart(Pause(retryAfter), retryAfter.value) <= Apart(x, retryAfter.value)
  {
  }

  /** `_request`. `answers[i]` is what the i-th transmission would get and
      `clock[i]` what the clock reads before it. A POST goes out exactly once; a
      GET again only after a transient answer, at most three times; each time
      in a slot of its own, and after the pause its last answer asks for (one
      to sixty seconds). The outcome is that of the last transmission. */
  method Request<T>(slots: RateSlots, get: bool, answers: seq<Reply<T>>, clock: seq<real>) returns (r: Option<T>, sent: nat, pauses: seq<real>)
    requires slots.Valid() && |answers| >= 3 && |clock| >= 3
    modifies slots
    ensures 1 <= sent <= (if get then 3 else 1)
    ensures slots.Valid() && slots.readings == old(slots.readings) + clock[..sent]
    ensures forall i | 0 <= i < sent - 1 :: Transient(answers[i])
    ensures get && sent < 3 ==> !Transient(answers[sent - 1])
    ensures r == match answers[sent - 1]
      case Raised => None
      case Response(status, data, _) => if 200 <= status < 300 then Some(data) else None
    ensures |pauses| == sent - 1 && forall i | 0 <= i < |pauses| :: answers[i].Response? && pauses[i] == Pause(answers[i].retryAfter)
  {
    hide Interval, Pause, Slots, After;
    sent, pauses := 0, [];
    while true
      invariant sent < Attempts(get) && |pauses| == sent
      invariant slots.Valid() && slots.readings == old(slots.readings) + clock[..sent]
      invariant forall i | 0 <= i < sent :: Transient(answers[i]) && pauses[i] == Pause(answers[i].retryAfter)
      decreases Attempts(get) - sent
    {
      var wait := slots.Reserve(clock[sent]);
      var answer := answers[sent];
      assert clock[..sent] + [clock[sent]] == clock[..sent + 1];
      sent := sent + 1;
      if answer.Raised? { return None, sent, pauses; }
      if 200 <= answer.status < 300 { return Some(answer.data), sent, pauses; }
      if get && answer.status in {429, 500, 502, 503, 504} && sent < Attempts(get) {
        pauses := pauses + [Pause(answer.retryAfter)];
        continue;
      }
      return None, sent, pauses;
    }
  }

  // --------------------------------------------------------------- find_order

  datatype Row = Row(code: Option<string>, content: string)

  function HasCode(code: string): Row -> bool { (r: Row) => r.code == Some(code) }

  /** `rows` is None unless the answer holds a list of objects. */
  method FindOrder(rows: Option<seq<Row>>, code: string) returns (r: Outcome<Option<Row>>)
    ensures forall x :: r == Ok(Some(x)) <==> rows.Some? && Sole(rows.value, HasCode(code), x)
    ensures r == Ok(None) <==> rows.Some? && forall x | x in rows.value :: x.code != Some(code)
  {
    if rows.None? { return Review; }
    var matches := Filter(rows.value, HasCode(code));
    forall x ensures Sole(rows.value, HasCode(code), x) <==> matches == [x] { FilterSole(rows.value, HasCode(code), x); }
    FilterMembers(rows.value, HasCode(code));
    if |matches| > 1 { assert matches[0] in matches; return Review; }
    if matches != [] { assert matches[0] in matches; return Ok(Some(matches[0])); }
    return Ok(None);
  }
}
