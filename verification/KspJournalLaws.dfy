/** Staging a snapshot: what the package-event table holds afterwards. */
module KspJournalLaws {
  import opened Outcomes
  import opened Ordering
  import opened Sums
  import opened KspMapping
  import opened KspTracking
  import opened KspTrackingLaws
  import opened KspJournal

  lemma {:induction false} InsertOutcome(events: map<EventId, Event>, code: string, reports: seq<Report>)
    ensures var after := InsertReports(events, code, reports);
      && (forall id | id in events :: id in after && after[id] == events[id])
      && (forall id :: id in after <==> id in events || id in ReportIds(reports))
      && (forall id | id in after && id !in events :: after[id].code == code && !after[id].applied && after[id].report.eventId == id && after[id].report in reports)
  {
    if reports != [] {
      var n := |reports| - 1;
      InsertOutcome(events, code, reports[..n]);
      assert ReportIds(reports) == ReportIds(reports[..n]) + {reports[n].eventId};
    }
  }

  lemma {:induction false} InsertContent(events: map<EventId, Event>, code: string, reports: seq<Report>, k: nat)
    requires k < |reports| && DistinctIds(reports) && Compatible(events, code, reports[k])
    ensures var after, id := InsertReports(events, code, reports), reports[k].eventId;
      id in after && after[id].report == reports[k] && after[id].code == code
  {
    var n := |reports| - 1;
    InsertOutcome(events, code, reports[..n]);
    if k < n {
      InsertContent(events, code, reports[..n], k);
    } else {
      assert forall i | 0 <= i < n :: reports[..n][i] == reports[i];
    }
  }

  /** After a successful staging the code's events are exactly the snapshot,
      and nothing already staged or applied has changed. */
  lemma StagedIsSnapshot(j: Journal, code: string, reports: seq<Report>, after: Journal)
    requires DistinctIds(reports) && StagePackages(j, code, reports) == Ok(after)
    ensures forall k | 0 <= k < |reports| ::
      reports[k].eventId in CodeEvents(after.events, code) && after.events[reports[k].eventId].report == reports[k]
    ensures forall id | id in CodeEvents(after.events, code) :: id in ReportIds(reports)
    ensures forall id | id in j.events :: id in after.events && after.events[id] == j.events[id]
    ensures forall id | id in after.events && id !in j.events ::
      after.events[id].code == code && !after.events[id].applied && after.events[id].report.eventId == id && after.events[id].report in reports
    ensures after.bindings == j.bindings
  {
    InsertOutcome(j.events, code, reports);
    forall k | 0 <= k < |reports|
      ensures reports[k].eventId in CodeEvents(after.events, code) && after.events[reports[k].eventId].report == reports[k]
    {
      assert reports[k] in reports;
      InsertContent(j.events, code, reports, k);
    }
    forall id | id in CodeEvents(after.events, code) ensures id in ReportIds(reports) {
      if id in j.events { assert id in CodeEvents(j.events, code); }
    }
  }

  /** Staging a snapshot that is already staged succeeds and changes nothing. */
  lemma RestagingChangesNothing(j: Journal, code: string, reports: seq<Report>, after: Journal)
    requires DistinctIds(reports) && StagePackages(j, code, reports) == Ok(after)
    ensures StagePackages(after, code, reports) == Ok(after)
  {
    StagedIsSnapshot(j, code, reports, after);
    forall r | r in reports ensures Compatible(after.events, code, r) {
      var k :| 0 <= k < |reports| && reports[k] == r;
      assert reports[k].eventId in CodeEvents(after.events, code);
    }
    NothingToInsert(after.events, code, reports);
  }

  lemma {:induction false} NothingToInsert(events: map<EventId, Event>, code: string, reports: seq<Report>)
    requires forall k | 0 <= k < |reports| :: reports[k].eventId in events
    ensures InsertReports(events, code, reports) == events
  {
    if reports != [] { NothingToInsert(events, code, reports[..|reports| - 1]); }
  }

  /** The events of `code` are exactly the reports of the packages `ps`. */
  ghost predicate IsSnapshot(events: map<EventId, Event>, code: string, b: Binding, order: string, ps: seq<Package>) {
    && (forall k | 0 <= k < |ps| :: HasReport(events, code, ReportOf(b, order)(ps[k])))
    && (forall e | e in CodeEvents(events, code) :: exists k :: 0 <= k < |ps| && PackageId(order)(ps[k]) == e)
  }

  predicate HasReport(events: map<EventId, Event>, code: string, r: Report) {
    r.eventId in events && events[r.eventId].code == code && events[r.eventId].report == r
  }

  function PackageId(order: string): Package -> EventId {
    (p: Package) => EventId(order, Default(p.tracking))
  }

  lemma ReportListed(b: Binding, order: string, ps: seq<Package>, k: nat)
    requires PackagesAccepted(b, ps) && k < |ps|
    ensures ReportOf(b, order)(ps[k]) in SnapshotReports(b, order, ps)
  {
    var all := Map(ReportOf(b, order), ps);
    SnapshotSorted(b, order, ps);
    SameElements(SnapshotReports(b, order, ps), all);
    assert all[k] in all;
  }

  lemma ListedReport(b: Binding, order: string, ps: seq<Package>, r: Report) returns (k: nat)
    requires PackagesAccepted(b, ps) && r in SnapshotReports(b, order, ps)
    ensures k < |ps| && ReportOf(b, order)(ps[k]) == r && PackageId(order)(ps[k]) == r.eventId
  {
    var all := Map(ReportOf(b, order), ps);
    SnapshotSorted(b, order, ps);
    SameElements(SnapshotReports(b, order, ps), all);
    assert r in all;
    k :| 0 <= k < |all| && all[k] == r;
  }

  /** Staging a validated snapshot makes the code's events that snapshot. */
  lemma StagingMakesSnapshot(j: Journal, code: string, b: Binding, order: string, ps: seq<Package>, after: Journal)
    requires PackagesAccepted(b, ps) && StagePackages(j, code, SnapshotReports(b, order, ps)) == Ok(after)
    ensures IsSnapshot(after.events, code, b, order, ps)
  {
    hide PackagesAccepted, StagePackages, SnapshotReports;
    var rs := SnapshotReports(b, order, ps);
    SnapshotDistinct(b, order, ps);
    StagedIsSnapshot(j, code, rs, after);
    forall k | 0 <= k < |ps| ensures HasReport(after.events, code, ReportOf(b, order)(ps[k])) {
      ReportListed(b, order, ps, k);
      var i :| 0 <= i < |rs| && rs[i] == ReportOf(b, order)(ps[k]);
      assert rs[i].eventId in CodeEvents(after.events, code);
    }
    forall e | e in CodeEvents(after.events, code) ensures exists k :: 0 <= k < |ps| && PackageId(order)(ps[k]) == e {
      var i :| 0 <= i < |rs| && rs[i].eventId == e;
      var k := ListedReport(b, order, ps, rs[i]);
    }
  }

  /** A snapshot that describes the code's events already can be staged at any
      time, whatever has been marked and whatever other codes have: nothing
      conflicts, nothing is new and nothing changes. */
  lemma RestagingSnapshot(later: Journal, code: string, b: Binding, order: string, ps: seq<Package>)
    requires PackagesAccepted(b, ps) && IsSnapshot(later.events, code, b, order, ps)
    ensures StagePackages(later, code, SnapshotReports(b, order, ps)) == Ok(later)
  {
    hide PackagesAccepted, SnapshotReports;
    var rs := SnapshotReports(b, order, ps);
    forall r | r in rs ensures HasReport(later.events, code, r) {
      var k := ListedReport(b, order, ps, r);
      assert HasReport(later.events, code, ReportOf(b, order)(ps[k]));
    }
    forall e | e in CodeEvents(later.events, code) ensures exists i :: 0 <= i < |rs| && rs[i].eventId == e {
      var k :| 0 <= k < |ps| && PackageId(order)(ps[k]) == e;
      ReportListed(b, order, ps, k);
      var i :| 0 <= i < |rs| && rs[i] == ReportOf(b, order)(ps[k]);
    }
    AlreadyStaged(later, code, rs);
  }

  lemma AlreadyStaged(later: Journal, code: string, rs: seq<Report>)
    requires forall r | r in rs :: HasReport(later.events, code, r)
    requires forall e | e in CodeEvents(later.events, code) :: exists i :: 0 <= i < |rs| && rs[i].eventId == e
    ensures StagePackages(later, code, rs) == Ok(later)
  {
    forall k | 0 <= k < |rs| ensures rs[k].eventId in later.events { assert rs[k] in rs; }
    NothingToInsert(later.events, code, rs);
  }

  /** Polling again after KSP merely reordered its list, in any later journal in
      which the code still has the same events: accepted, no conflict, and
      nothing changes, however many of them have been booked and marked. */
  lemma RepollOfReorderedSnapshot(j: Journal, later: Journal, code: string, b: Binding, order: string,
                                  ps: seq<Package>, mid: seq<Package>, qs: seq<Package>)
    requires Reordered(ps, mid, qs)
    ensures PackagesAccepted(b, ps) && StagePackages(j, code, SnapshotReports(b, order, ps)).Ok?
        && SameStaged(StagePackages(j, code, SnapshotReports(b, order, ps)).value.events, later.events, code)
      ==> PackagesAccepted(b, qs) && StagePackages(later, code, SnapshotReports(b, order, qs)) == Ok(later)
  {
    hide PackagesAccepted, SnapshotReports, StagePackages, Reordered;
    ReorderedSnapshot(b, order, ps, mid, qs);
    if PackagesAccepted(b, ps) && StagePackages(j, code, SnapshotReports(b, order, ps)).Ok?
      && SameStaged(StagePackages(j, code, SnapshotReports(b, order, ps)).value.events, later.events, code) {
      var after := StagePackages(j, code, SnapshotReports(b, order, ps)).value;
      StagingMakesSnapshot(j, code, b, order, ps, after);
      StillSnapshot(after.events, later.events, code, b, order, ps);
      RestagingSnapshot(later, code, b, order, ps);
    }
  }

  /** The same events of `code` with the same reports; marks may differ. */
  predicate SameStaged(events: map<EventId, Event>, later: map<EventId, Event>, code: string) {
    && CodeEvents(later, code) == CodeEvents(events, code)
    && forall e | e in CodeEvents(events, code) :: later[e].report == events[e].report
  }

  lemma StillSnapshot(events: map<EventId, Event>, later: map<EventId, Event>, code: string, b: Binding, order: string, ps: seq<Package>)
    requires IsSnapshot(events, code, b, order, ps) && SameStaged(events, later, code)
    ensures IsSnapshot(later, code, b, order, ps)
  {
    forall k | 0 <= k < |ps| ensures HasReport(later, code, ReportOf(b, order)(ps[k])) {
      assert HasReport(events, code, ReportOf(b, order)(ps[k]));
      assert ReportOf(b, order)(ps[k]).eventId in CodeEvents(events, code);
      assert ReportOf(b, order)(ps[k]).eventId in CodeEvents(later, code);
    }
  }

  // ------------------------------------------------------------------ by SKU

  /** The package that an event stands for. */
  function PackageOf(ps: seq<Package>, e: EventId): Option<Package> {
    if ps == [] then None
    else if Default(ps[|ps| - 1].tracking) == e.tracking then Some(ps[|ps| - 1])
    else PackageOf(ps[..|ps| - 1], e)
  }

  /** What an event ships of a SKU, by the snapshot it was last staged from. */
  ghost function EventSku(b: Binding, ps: seq<Package>, sku: string): EventId -> real {
    (e: EventId) => if PackageOf(ps, e).Some? then SkuTotal(b, sku)(PackageOf(ps, e).value) else 0.0
  }

  /** What has ever been staged for a code, of one SKU. */
  ghost function StagedOfSku(events: map<EventId, Event>, code: string, b: Binding, ps: seq<Package>, sku: string): real {
    SumSet(CodeEvents(events, code), EventSku(b, ps, sku))
  }

  lemma {:induction false} PackageFound(ps: seq<Package>, order: string, k: nat)
    requires k < |ps| && forall i, j | 0 <= i < j < |ps| :: Default(ps[i].tracking) != Default(ps[j].tracking)
    ensures PackageOf(ps, PackageId(order)(ps[k])) == Some(ps[k])
  {
    if k < |ps| - 1 { PackageFound(ps[..|ps| - 1], order, k); }
  }

  lemma DistinctTracking(b: Binding, ps: seq<Package>)
    requires PackagesAccepted(b, ps)
    ensures forall i, j | 0 <= i < j < |ps| :: Default(ps[i].tracking) != Default(ps[j].tracking)
  {
    forall i, j | 0 <= i < j < |ps| ensures Default(ps[i].tracking) != Default(ps[j].tracking) {
      assert ps[i] in ps && ps[j] in ps;
    }
  }

  /** The events of a snapshot ship of a SKU what its packages ship. */
  lemma {:induction false} StagedSkuSum(events: map<EventId, Event>, code: string, b: Binding, order: string, ps: seq<Package>, sku: string)
    requires PackagesAccepted(b, ps) && IsSnapshot(events, code, b, order, ps)
    ensures StagedOfSku(events, code, b, ps, sku) == SumSeq(ps, SkuTotal(b, sku))
  {
    hide PackagesAccepted, SkuTotal;
    DistinctTracking(b, ps);
    var ids, f := Map(PackageId(order), ps), EventSku(b, ps, sku);
    IdsAreEvents(events, code, b, order, ps);
    SumSeqIsSumSet(ids, CodeEvents(events, code), f);
    forall p | p in ps ensures SkuTotal(b, sku)(p) == f(PackageId(order)(p)) {
      var k :| 0 <= k < |ps| && ps[k] == p;
      PackageFound(ps, order, k);
    }
    SumOfMap(PackageId(order), ps, f, SkuTotal(b, sku));
  }

  lemma IdsAreEvents(events: map<EventId, Event>, code: string, b: Binding, order: string, ps: seq<Package>)
    requires IsSnapshot(events, code, b, order, ps)
    ensures forall e :: e in Map(PackageId(order), ps) <==> e in CodeEvents(events, code)
  {
    var ids := Map(PackageId(order), ps);
    forall e ensures e in ids <==> e in CodeEvents(events, code) {
      if e in ids {
        var k :| 0 <= k < |ids| && ids[k] == e;
        assert HasReport(events, code, ReportOf(b, order)(ps[k]));
      }
      if e in CodeEvents(events, code) {
        var k :| 0 <= k < |ps| && PackageId(order)(ps[k]) == e;
        assert ids[k] == e;
      }
    }
  }

  /** What has ever been staged for a code, of one Odoo line. */
  ghost function StagedTotal(events: map<EventId, Event>, code: string, id: Identity): real {
    SumSet(CodeEvents(events, code), EventTotal(events, id))
  }

  function EventTotal(events: map<EventId, Event>, id: Identity): EventId -> real {
    (e: EventId) => if e in events then ReportTotal(id)(events[e].report) else 0.0
  }

  lemma {:induction false} StagedSum(events: map<EventId, Event>, code: string, reports: seq<Report>, id: Identity)
    requires DistinctIds(reports)
    requires forall k | 0 <= k < |reports| ::
      reports[k].eventId in CodeEvents(events, code) && events[reports[k].eventId].report == reports[k]
    requires forall e | e in CodeEvents(events, code) :: e in ReportIds(reports)
    ensures StagedTotal(events, code, id) == SumSeq(reports, ReportTotal(id))
  {
    var ids := Map(IdOf, reports);
    forall e ensures e in ids <==> e in CodeEvents(events, code) {
      if e in ids { var k :| 0 <= k < |ids| && ids[k] == e; }
      if e in CodeEvents(events, code) { var k :| 0 <= k < |reports| && reports[k].eventId == e; assert ids[k] == e; }
    }
    SumSeqIsSumSet(ids, CodeEvents(events, code), EventTotal(events, id));
    SumOfMap(IdOf, reports, EventTotal(events, id), ReportTotal(id)) by {
      forall r | r in reports ensures ReportTotal(id)(r) == EventTotal(events, id)(IdOf(r)) {
        var k :| 0 <= k < |reports| && reports[k] == r;
        assert reports[k].eventId in CodeEvents(events, code);
      }
    }
  }

  function IdOf(r: Report): EventId { r.eventId }

  /** Staging a validated snapshot keeps everything ever staged for the code
      within the release, of every SKU and of every Odoo line. */
  lemma StagingWithinRelease(j: Journal, code: string, b: Binding, order: string, ps: seq<Package>, after: Journal, id: Identity)
    requires UnitsPositive(b) && PackagesAccepted(b, ps)
    requires StagePackages(j, code, SnapshotReports(b, order, ps)) == Ok(after)
    ensures forall sku | sku in b.lines :: StagedOfSku(after.events, code, b, ps, sku) <= b.lines[sku].quantity
    ensures StagedTotal(after.events, code, id) <= Released(b, id)
  {
    hide PackagesAccepted, StagePackages, SnapshotReports, UnitsPositive;
    StagingMakesSnapshot(j, code, b, order, ps, after);
    SnapshotTotals(after.events, code, b, order, ps, id);
  }

  /** So is any journal whose events of the code are an accepted snapshot. */
  lemma SnapshotTotals(events: map<EventId, Event>, code: string, b: Binding, order: string, ps: seq<Package>, id: Identity)
    requires UnitsPositive(b) && PackagesAccepted(b, ps) && IsSnapshot(events, code, b, order, ps)
    ensures forall sku | sku in b.lines :: StagedOfSku(events, code, b, ps, sku) <= b.lines[sku].quantity
    ensures StagedTotal(events, code, id) == SumSeq(SnapshotReports(b, order, ps), ReportTotal(id)) <= Released(b, id)
  {
    hide PackagesAccepted, SkuTotal, UnitsPositive, StagedOfSku;
    SnapshotWithinRelease(b, order, ps, id);
    forall sku | sku in b.lines ensures StagedOfSku(events, code, b, ps, sku) <= b.lines[sku].quantity {
      StagedSkuSum(events, code, b, order, ps, sku);
    }
    SnapshotLineSum(events, code, b, order, ps, id);
  }

  lemma SnapshotLineSum(events: map<EventId, Event>, code: string, b: Binding, order: string, ps: seq<Package>, id: Identity)
    requires PackagesAccepted(b, ps) && IsSnapshot(events, code, b, order, ps)
    ensures StagedTotal(events, code, id) == SumSeq(SnapshotReports(b, order, ps), ReportTotal(id))
  {
    hide PackagesAccepted, SnapshotReports;
    var rs := SnapshotReports(b, order, ps);
    SnapshotDistinct(b, order, ps);
    forall i | 0 <= i < |rs| ensures rs[i].eventId in CodeEvents(events, code) && events[rs[i].eventId].report == rs[i] {
      assert rs[i] in rs;
      var k := ListedReport(b, order, ps, rs[i]);
      assert HasReport(events, code, ReportOf(b, order)(ps[k]));
    }
    forall e | e in CodeEvents(events, code) ensures e in ReportIds(rs) {
      var k :| 0 <= k < |ps| && PackageId(order)(ps[k]) == e;
      ReportListed(b, order, ps, k);
      var i :| 0 <= i < |rs| && rs[i] == ReportOf(b, order)(ps[k]);
    }
    StagedSum(events, code, rs, id);
  }

  /** All that staging a validated snapshot does. */
  lemma SnapshotStaged(j: Journal, code: string, b: Binding, order: string, ps: seq<Package>, after: Journal)
    requires UnitsPositive(b) && PackagesAccepted(b, ps) && b.code == code
    requires StagePackages(j, code, SnapshotReports(b, order, ps)) == Ok(after)
    ensures after.bindings == j.bindings
    ensures forall id | id in j.events :: id in after.events && after.events[id] == j.events[id]
    ensures forall id | id in after.events && id !in j.events ::
      after.events[id].code == code && !after.events[id].applied && after.events[id].report.eventId == id && Proper(code, after.events[id].report)
    ensures forall id :: StagedTotal(after.events, code, id) <= Released(b, id)
  {
    SnapshotDistinct(b, order, ps);
    StagedIsSnapshot(j, code, SnapshotReports(b, order, ps), after);
    SnapshotProper(b, order, ps);
    forall id ensures StagedTotal(after.events, code, id) <= Released(b, id) {
      StagingWithinRelease(j, code, b, order, ps, after, id);
    }
  }
}
