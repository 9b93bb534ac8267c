/** The connector's durable journal (src/integrations/ksp_gateway/store.py).
    Each function on `Journal` is one transaction; `GatewayStore` runs them on
    its tables. Digests are treated as injective: a fingerprint is the content. */
module KspJournal {
  import opened Outcomes
  import opened Ordering
  import opened Sums
  import opened KspMapping
  import opened KspTracking
  import opened KspTrackingLaws

  datatype State = Ready | Posting | Uncertain | Pending | Accepted | Acknowledged

  datatype Row = Row(body: OrderBody, mapping: Binding, claim: string, state: State, orderId: Option<string>)

  datatype Event = Event(code: string, report: Report, applied: bool)

  datatype Journal = Journal(bindings: map<string, Row>, events: map<EventId, Event>)

  // ---------------------------------------------------------- transactions

  predicate SameContent(r: Row, body: OrderBody, mapping: Binding, claim: string) {
    r.body == body && r.mapping == mapping && r.claim == claim
  }

  function Stage(j: Journal, body: OrderBody, mapping: Binding, claim: string): Outcome<Journal> {
    if mapping.code !in j.bindings then
      Ok(j.(bindings := j.bindings[mapping.code := Row(body, mapping, claim, Ready, None)]))
    else if SameContent(j.bindings[mapping.code], body, mapping, claim) then Ok(j)
    else Review
  }

  /** The conditional update whose row count says who may send the POST. */
  predicate MayPost(j: Journal, code: string) { code in j.bindings && j.bindings[code].state == Ready }

  function StartPost(j: Journal, code: string): Journal {
    if MayPost(j, code) then SetState(j, code, Posting, None) else j
  }

  /** COALESCE: a missing order id keeps the stored one. */
  function SetState(j: Journal, code: string, state: State, orderId: Option<string>): Journal {
    if code !in j.bindings then j else
      var r := j.bindings[code];
      j.(bindings := j.bindings[code := r.(state := state, orderId := if orderId.Some? then orderId else r.orderId)])
  }

  function CodeEvents(events: map<EventId, Event>, code: string): set<EventId> {
    set id | id in events && events[id].code == code
  }

  predicate Compatible(events: map<EventId, Event>, code: string, r: Report) {
    r.eventId in events ==> events[r.eventId].code == code && events[r.eventId].report == r
  }

  predicate Stageable(events: map<EventId, Event>, code: string, reports: seq<Report>) {
    && (forall id | id in CodeEvents(events, code) :: exists k :: 0 <= k < |reports| && reports[k].eventId == id)
    && (forall r | r in reports :: Compatible(events, code, r))
  }

  /** INSERT OR IGNORE, one report after the other. */
  function InsertReports(events: map<EventId, Event>, code: string, reports: seq<Report>): map<EventId, Event> {
    if reports == [] then events else
      var rest, r := InsertReports(events, code, reports[..|reports| - 1]), reports[|reports| - 1];
      if r.eventId in rest then rest else rest[r.eventId := Event(code, r, false)]
  }

  function StagePackages(j: Journal, code: string, reports: seq<Report>): Outcome<Journal> {
    if Stageable(j.events, code, reports) then Ok(j.(events := InsertReports(j.events, code, reports))) else Review
  }

  function Unapplied(events: map<EventId, Event>, code: string): set<EventId> {
    set id | id in events && events[id].code == code && !events[id].applied
  }

  ghost function PendingPackages(j: Journal, code: string): seq<Report> {
    EventLessTotal();
    Map(ReportAt(j.events), Sorted(EventLess, Unapplied(j.events, code)))
  }

  const NO_REPORT := Report(EventId("", ""), 0, "", "", "", "", [])

  function ReportAt(events: map<EventId, Event>): EventId -> Report {
    (id: EventId) => if id in events then events[id].report else NO_REPORT
  }

  function MarkApplied(j: Journal, id: EventId): Journal {
    if id in j.events then j.(events := j.events[id := j.events[id].(applied := true)]) else j
  }

  /** Everything stays as it is, and what is new is not marked. */
  predicate OnlyAdds(events: map<EventId, Event>, later: map<EventId, Event>) {
    && (forall e | e in events :: e in later && later[e] == events[e])
    && (forall e | e in later && e !in events :: !later[e].applied)
  }

  /** Every report has its event, and a new event is one of the reports. */
  ghost predicate AllInserted(before: map<EventId, Event>, events: map<EventId, Event>, code: string, reports: seq<Report>) {
    && (forall k | 0 <= k < |reports| :: reports[k].eventId in events)
    && (forall e | e in events && e !in before :: exists k :: 0 <= k < |reports| && reports[k].eventId == e && events[e] == Event(code, reports[k], false))
  }

  lemma NothingAdded(events: map<EventId, Event>)
    ensures OnlyAdds(events, events)
  {
  }

  lemma OneInserted(before: map<EventId, Event>, had: map<EventId, Event>, events: map<EventId, Event>, code: string, reports: seq<Report>, i: nat)
    requires i < |reports| && OnlyAdds(before, had) && AllInserted(before, had, code, reports[..i])
    requires events == if reports[i].eventId in had then had else had[reports[i].eventId := Event(code, reports[i], false)]
    ensures OnlyAdds(before, events) && AllInserted(before, events, code, reports[..i + 1])
  {
    var some := reports[..i + 1];
    forall e | e in events && e !in before ensures exists k :: 0 <= k < |some| && some[k].eventId == e && events[e] == Event(code, some[k], false) {
      if e in had {
        var k :| 0 <= k < i && reports[..i][k].eventId == e && had[e] == Event(code, reports[..i][k], false);
        assert some[k] == reports[..i][k];
      } else {
        assert some[i] == reports[i];
      }
    }
    forall k | 0 <= k < |some| ensures some[k].eventId in events { assert k < i ==> some[k] == reports[..i][k]; }
  }

  // ----------------------------------------------------------------- store

  class GatewayStore {
    var bindings: map<string, Row>
    var events: map<EventId, Event>
    ghost var latest: map<string, seq<Package>>   // the snapshot last staged, kept for the proofs only

    function Contents(): Journal
      reads this
    {
      Journal(bindings, events)
    }

    constructor ()
      ensures Contents() == Journal(map[], map[]) && latest == map[]
    {
      bindings, events, latest := map[], map[], map[];
    }

    method StageOrder(body: OrderBody, mapping: Binding, claim: string) returns (r: Outcome<Row>)
      modifies this`bindings
      ensures r.Ok? <==> Stage(old(Contents()), body, mapping, claim).Ok?
      ensures Contents() == if r.Ok? then Stage(old(Contents()), body, mapping, claim).value else old(Contents())
      ensures r.Ok? ==> mapping.code in bindings && r.value == bindings[mapping.code]
      ensures r.Ok? <==> mapping.code in old(bindings) ==>
        old(bindings)[mapping.code].body == body && old(bindings)[mapping.code].mapping == mapping && old(bindings)[mapping.code].claim == claim
      ensures bindings == if mapping.code in old(bindings) then old(bindings) else old(bindings)[mapping.code := Row(body, mapping, claim, Ready, None)]
    {
      var code := mapping.code;
      if code in bindings && !SameContent(bindings[code], body, mapping, claim) { return Review; }
      if code !in bindings { bindings := bindings[code := Row(body, mapping, claim, Ready, None)]; }
      return Ok(bindings[code]);
    }

    method BeginPost(code: string) returns (mine: bool)
      modifies this`bindings
      ensures mine == MayPost(old(Contents()), code)
      ensures Contents() == StartPost(old(Contents()), code)
      ensures mine <==> code in old(bindings) && old(bindings)[code].state == Ready
      ensures bindings == if mine then old(bindings)[code := old(bindings)[code].(state := Posting)] else old(bindings)
      ensures bindings.Keys == old(bindings.Keys)
    {
      mine := code in bindings && bindings[code].state == Ready;
      if mine { bindings := bindings[code := bindings[code].(state := Posting)]; }
    }

    method Update(code: string, state: State, orderId: Option<string>)
      modifies this`bindings
      ensures Contents() == SetState(old(Contents()), code, state, orderId)
      ensures bindings == if code in old(bindings)
        then old(bindings)[code := old(bindings)[code].(state := state, orderId := if orderId.Some? then orderId else old(bindings)[code].orderId)]
        else old(bindings)
    {
      if code in bindings {
        var r := bindings[code];
        var id := if orderId.Some? then orderId else r.orderId;
        bindings := bindings[code := r.(state := state, orderId := id)];
      }
    }

    /** The whole snapshot is checked before anything is inserted. */
    method StageReports(code: string, reports: seq<Report>) returns (ok: bool)
      modifies this`events
      ensures ok == StagePackages(old(Contents()), code, reports).Ok?
      ensures Contents() == if ok then StagePackages(old(Contents()), code, reports).value else old(Contents())
      ensures OnlyAdds(old(events), events) && (ok ==> AllInserted(old(events), events, code, reports))
    {
      hide InsertReports, AllInserted;
      ok := MayStage(code, reports);
      if ok { InsertAll(code, reports); } else { NothingAdded(events); }
    }

    /** No event of the code has vanished, and none has changed its owner or content. */
    method MayStage(code: string, reports: seq<Report>) returns (ok: bool)
      ensures ok == Stageable(events, code, reports)
      ensures ok <==>
        && (forall e | e in events && events[e].code == code :: exists k :: 0 <= k < |reports| && reports[k].eventId == e)
        && (forall k | 0 <= k < |reports| && reports[k].eventId in events ::
              events[reports[k].eventId].code == code && events[reports[k].eventId].report == reports[k])
    {
      var existing, observed := CodeEvents(events, code), ReportIds(reports);
      if existing - observed != {} {
        var id :| id in existing - observed;
        return false;
      }
      for i := 0 to |reports|
        invariant forall k | 0 <= k < i :: Compatible(events, code, reports[k])
      {
        var r := reports[i];
        assert r in reports;
        if r.eventId in events && (events[r.eventId].code != code || events[r.eventId].report != r) { return false; }
      }
      assert forall id | id in existing :: id in existing - observed || id in observed;
      forall e | e in events && events[e].code == code ensures exists k :: 0 <= k < |reports| && reports[k].eventId == e { assert e in existing; }
      forall k | 0 <= k < |reports| ensures Compatible(events, code, reports[k]) { assert reports[k] in reports; }
      return true;
    }

    /** The inserting loop. */
    method InsertAll(code: string, reports: seq<Report>)
      modifies this`events
      ensures events == InsertReports(old(events), code, reports)
      ensures OnlyAdds(old(events), events) && AllInserted(old(events), events, code, reports)
    {
      ghost var before := events;
      for i := 0 to |reports|
        invariant events == InsertReports(before, code, reports[..i])
        invariant OnlyAdds(before, events) && AllInserted(before, events, code, reports[..i])
      {
        assert reports[..i + 1][..i] == reports[..i];
        var r := reports[i];
        ghost var had := events;
        if r.eventId !in events { events := events[r.eventId := Event(code, r, false)]; }
        OneInserted(before, had, events, code, reports, i);
      }
      assert reports[..|reports|] == reports;
    }

    /** The events of `code` that are not marked, each once, by event id. */
    method Unfinished(code: string) returns (r: seq<Report>, ghost ids: seq<EventId>)
      ensures r == PendingPackages(Contents(), code)
      ensures forall e :: e in ids <==> e in events && events[e].code == code && !events[e].applied
      ensures Ascending(EventLess, ids) && forall i, k | 0 <= i < k < |ids| :: ids[i] != ids[k]
      ensures |r| == |ids| && forall i | 0 <= i < |r| :: r[i] == events[ids[i]].report
    {
      EventLessTotal();
      var open := set id | id in events && events[id].code == code && !events[id].applied;
      var sorted := SortedList(EventLess, open);
      AscendingDistinct(EventLess, sorted);
      r, ids := Map(ReportAt(events), sorted), sorted;
    }

    method Applied(id: EventId)
      modifies this`events
      ensures Contents() == MarkApplied(old(Contents()), id)
      ensures events.Keys == old(events.Keys)
      ensures forall e | e in events ::
        events[e].code == old(events)[e].code && events[e].report == old(events)[e].report && (events[e].applied <==> e == id || old(events)[e].applied)
    {
      if id in events { events := events[id := events[id].(applied := true)]; }
    }
  }

  function ReportIds(reports: seq<Report>): (s: set<EventId>)
    ensures forall id :: id in s <==> exists k :: 0 <= k < |reports| && reports[k].eventId == id
  {
    set k | 0 <= k < |reports| :: reports[k].eventId
  }
}
