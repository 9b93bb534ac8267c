/** Which SKU an event ships. Reports carry no SKU, and SKUs may share an Odoo
    line, so it is read off the snapshot last staged for the code: in every
    reachable state the code's events are exactly the reports of that snapshot. */
module KspAttribution {
  import opened Outcomes
  import opened Ordering
  import opened Sums
  import opened KspMapping
  import opened KspTracking
  import opened KspTrackingLaws
  import opened KspJournal
  import opened KspJournalLaws
  import opened KspProtocol
  import opened KspInvariant
  import opened KspSteps

  // -------------------------------------------- why the report is not enough

  function OneItem(tracking: string, carrier: string, sku: string, packType: PackType, packs: real): Package {
    Package(Some(tracking), true, Some(carrier), [Item(false, Some(sku), Some(packType), Some(packs))])
  }

  lemma OneItemShips(b: Binding, tracking: string, carrier: string, x: string, packType: PackType, packs: real, sku: string)
    ensures Shipping(b, sku)(OneItem(tracking, carrier, x, packType, packs)) == UnitsOf(b, sku)(OneItem(tracking, carrier, x, packType, packs).items[0])
  {
    var items := OneItem(tracking, carrier, x, packType, packs).items;
    assert items == [] + [items[0]];
    SumSeqSnoc([], items[0], UnitsOf(b, sku));
  }

  /** Two SKUs bound alike, on one Odoo line, are told apart by no report: a
      package that ships the one and a package that ships the other are reported
      identically, so KSP may restate the SKU of a package unnoticed. */
  lemma ReportHidesSku(b: Binding, order: string, tracking: string, carrier: string, x: string, y: string, packs: real)
    requires x in b.lines && y in b.lines && b.lines[x] == b.lines[y] && b.lines[x].units > 0.0 && packs > 0.0 && Whole(packs)
    ensures var p, q := OneItem(tracking, carrier, x, b.lines[x].packType, packs), OneItem(tracking, carrier, y, b.lines[y].packType, packs);
      PackageAccepted(b, p) && PackageAccepted(b, q) && ReportOf(b, order)(p) == ReportOf(b, order)(q)
  {
    hide Sorted, SumSeq, Map, PackageSkus, LineFor, Holds;
    OneLine(b, tracking, carrier, x, packs);
    OneLine(b, tracking, carrier, y, packs);
    OneAccepted(b, tracking, carrier, x, packs);
    OneAccepted(b, tracking, carrier, y, packs);
    SameLinesSameReport(b, order, OneItem(tracking, carrier, x, b.lines[x].packType, packs), OneItem(tracking, carrier, y, b.lines[y].packType, packs));
  }

  lemma SameLinesSameReport(b: Binding, order: string, p: Package, q: Package)
    requires p.tracking == q.tracking && p.carrier == q.carrier && LinesOf(b, p) == LinesOf(b, q)
    ensures ReportOf(b, order)(p) == ReportOf(b, order)(q)
  {
  }

  lemma OneAccepted(b: Binding, tracking: string, carrier: string, x: string, packs: real)
    requires x in b.lines && packs > 0.0 && Whole(packs)
    ensures PackageAccepted(b, OneItem(tracking, carrier, x, b.lines[x].packType, packs))
  {
  }

  /** The units in so many packs. */
  function Holds(e: Mapped, packs: real): real { packs * e.units }

  lemma OneLine(b: Binding, tracking: string, carrier: string, x: string, packs: real)
    requires x in b.lines && b.lines[x].units > 0.0 && packs > 0.0 && Whole(packs)
    ensures LinesOf(b, OneItem(tracking, carrier, x, b.lines[x].packType, packs)) == [Line(b.lines[x].identity, Holds(b.lines[x], packs))]
  {
    hide SumSeq;
    var p := OneItem(tracking, carrier, x, b.lines[x].packType, packs);
    Product(packs, b.lines[x].units);
    OnlySku(b, tracking, carrier, x, packs);
    StrLessTotal();
    var skus := Sorted(StrLess, PackageSkus(b, p));
    assert skus[0] in skus;
    assert LineFor(b, p)(x) == Line(b.lines[x].identity, Shipping(b, x)(p));
  }

  lemma OnlySku(b: Binding, tracking: string, carrier: string, x: string, packs: real)
    requires x in b.lines && b.lines[x].units > 0.0 && packs > 0.0 && Whole(packs) && packs * b.lines[x].units > 0.0
    ensures var p := OneItem(tracking, carrier, x, b.lines[x].packType, packs); Shipping(b, x)(p) == Holds(b.lines[x], packs) && PackageSkus(b, p) == {x}
  {
    forall sku ensures Shipping(b, sku)(OneItem(tracking, carrier, x, b.lines[x].packType, packs)) == if sku == x then Holds(b.lines[x], packs) else 0.0 {
      OneItemShips(b, tracking, carrier, x, b.lines[x].packType, packs, sku);
    }
  }

  // ----------------------------------------------------------- the snapshot

  function Latest(s: Sys, code: string): seq<Package> { if code in s.latest then s.latest[code] else [] }

  ghost predicate CodeAttributed(s: Sys, code: string)
    requires code in s.journal.bindings
  {
    var row, ps := s.journal.bindings[code], Latest(s, code);
    && PackagesAccepted(row.mapping, ps)
    && IsSnapshot(s.journal.events, code, row.mapping, Default(row.orderId), ps)
    && (ps != [] ==> row.orderId.Some?)
  }

  ghost predicate Attributed(s: Sys) {
    && (forall code | code in s.latest :: code in s.journal.bindings)
    && (forall code | code in s.journal.bindings :: CodeAttributed(s, code))
  }

  /** The same events but for marks, and the same history. */
  predicate SameEvents(s: Sys, t: Sys) {
    && t.latest == s.latest && t.journal.events.Keys == s.journal.events.Keys
    && forall e | e in s.journal.events :: t.journal.events[e].code == s.journal.events[e].code && t.journal.events[e].report == s.journal.events[e].report
  }

  /** A step leaves the events alone, or it stages an accepted snapshot. */
  lemma StagesOrNot(s: Sys, l: Label)
    requires Enabled(s, l)
    ensures var t := Next(s, l); SameEvents(s, t) || Staged(s, t, l)
  {
    hide Resume, Stage, Built, Staged, SameEvents;
    SameAsItself(s);
    match l
    case Begin(a, call) =>
      if call.Submit? { StageKeepsEvents(s.journal, call); }
      assert Next(s, l).latest == s.latest && Next(s, l).journal.events == s.journal.events;
      SameRecords(s, Next(s, l));
    case Crash(a) => SameRecords(s, Next(s, l));
    case Go(a, answers) =>
      if At(s, a).AskPackages? { TakesSnapshot(s, l); } else { ResumeKeepsEvents(s, a, answers); }
  }

  lemma SameAsItself(s: Sys)
    ensures SameEvents(s, s)
  {
  }

  lemma SameRecords(s: Sys, t: Sys)
    requires t.latest == s.latest && t.journal.events == s.journal.events
    ensures SameEvents(s, t)
  {
  }

  lemma ResumeKeepsEvents(s: Sys, a: nat, answers: Answers)
    requires !At(s, a).AskPackages?
    ensures SameEvents(s, Resume(s, a, answers))
  {
    hide TakePackages, PendingPackages, CodeEvents, SameEvents, SetState, MarkApplied, StartPost, Accept;
    var t := Resume(s, a, answers);
    RowsOnly(s, a, answers);
    match At(s, a)
    case Booked(code, row, todo, owed) => if todo != [] { MarkKeepsReports(s, t, todo[0].eventId); } else { SameRecords(s, t); }
    case _ => SameRecords(s, t);
  }

  /** The transactions on rows. */
  lemma RowsOnly(s: Sys, a: nat, answers: Answers)
    ensures forall code, state, orderId :: SetState(s.journal, code, state, orderId).events == s.journal.events
    ensures forall code :: StartPost(s.journal, code).events == s.journal.events
    ensures forall code, reply, next :: var t := Accept(s, a, code, reply, next); t.journal.events == s.journal.events && t.latest == s.latest
  {
  }

  lemma MarkKeepsReports(s: Sys, t: Sys, id: EventId)
    requires t.journal == MarkApplied(s.journal, id) && t.latest == s.latest
    ensures SameEvents(s, t)
  {
  }

  lemma StageKeepsEvents(j: Journal, call: Call)
    requires call.Submit?
    ensures var r := Stage(j, call.body, call.mapping, call.claim); r.Ok? ==> r.value.events == j.events
  {
  }

  /** `t` is `s` after worker `l.a` staged the snapshot it received. */
  ghost predicate Staged(s: Sys, t: Sys, l: Label) {
    && l.Go? && At(s, l.a).AskPackages? && l.answers.tracking.Some?
    && var (code, row, tracking) := (At(s, l.a).code, At(s, l.a).row, l.answers.tracking.value);
    && SnapshotAccepted(tracking, row.mapping, Default(row.orderId))
    && StagePackages(s.journal, code, SnapshotReports(row.mapping, Default(row.orderId), tracking.shipments.value)) == Ok(t.journal)
    && t.latest == s.latest[code := tracking.shipments.value]
  }

  lemma TakesSnapshot(s: Sys, l: Label)
    requires l.Go? && At(s, l.a).AskPackages?
    ensures var t := Next(s, l); SameEvents(s, t) || Staged(s, t, l)
  {
    hide SnapshotReports, StagePackages;
    var code, row := At(s, l.a).code, At(s, l.a).row;
    assert Next(s, l) == TakePackages(s, l.a, code, row, l.answers.tracking);
  }

  lemma StepKeepsAttributed(s: Sys, l: Label)
    requires Inv(s) && Attributed(s) && Enabled(s, l)
    ensures Attributed(Next(s, l))
  {
    hide Inv, Next, Enabled;
    var t := Next(s, l);
    StepKeeps(s, l);
    StagesOrNot(s, l);
    if SameEvents(s, t) { QuietKeepsAttributed(s, t); } else { StagingKeepsAttributed(s, t, l); }
  }

  lemma QuietKeepsAttributed(s: Sys, t: Sys)
    requires Inv(s) && Inv(t) && Attributed(s) && Grows(s, t) && SameEvents(s, t)
    ensures Attributed(t)
  {
    hide PackagesAccepted, IsSnapshot, Inv;
    forall code | code in t.journal.bindings ensures CodeAttributed(t, code) {
      if code in s.journal.bindings {
        assert CodeAttributed(s, code) && RowGrows(s.journal.bindings[code], t.journal.bindings[code]);
        RowKeepsAttributed(s, t, code);
      } else {
        NewRowAttributed(s, t, code);
      }
    }
  }

  lemma RowKeepsAttributed(s: Sys, t: Sys, code: string)
    requires code in s.journal.bindings && code in t.journal.bindings && CodeAttributed(s, code)
    requires RowGrows(s.journal.bindings[code], t.journal.bindings[code])
    requires Latest(t, code) == Latest(s, code) && SameStaged(s.journal.events, t.journal.events, code)
    ensures CodeAttributed(t, code)
  {
    var row, now, ps := s.journal.bindings[code], t.journal.bindings[code], Latest(s, code);
    StillSnapshot(s.journal.events, t.journal.events, code, row.mapping, Default(row.orderId), ps);
    if ps == [] { NoPackages(t.journal.events, code, row.mapping, Default(row.orderId), Default(now.orderId)); }
  }

  lemma NoPackages(events: map<EventId, Event>, code: string, b: Binding, order: string, other: string)
    requires IsSnapshot(events, code, b, order, [])
    ensures IsSnapshot(events, code, b, other, [])
  {
  }

  lemma NewRowAttributed(s: Sys, t: Sys, code: string)
    requires Inv(s) && Attributed(s) && SameEvents(s, t) && code in t.journal.bindings && code !in s.journal.bindings
    requires Inv(t)
    ensures CodeAttributed(t, code)
  {
    forall e | e in s.journal.events ensures s.journal.events[e].code != code { assert EventOk(s, e); }
    assert CodeEvents(t.journal.events, code) == {};
    var b := t.journal.bindings[code].mapping;
    assert CodeOk(t, code);
    forall sku | sku in b.lines ensures SumSeq([], Shipping(b, sku)) <= b.lines[sku].quantity { }
  }

  lemma StagingKeepsAttributed(s: Sys, t: Sys, l: Label)
    requires Inv(s) && Attributed(s) && Staged(s, t, l)
    ensures Attributed(t)
  {
    hide PackagesAccepted, Inv, SnapshotReports, StagePackages, Attributed, Current;
    var code, row, ps := At(s, l.a).code, At(s, l.a).row, l.answers.tracking.value.shipments.value;
    ReadsCurrent(s, l.a);
    AcceptedPackages(l.answers.tracking.value, row.mapping, Default(row.orderId));
    SnapshotAttributes(s, t, code, row, ps);
  }

  lemma SnapshotAttributes(s: Sys, t: Sys, code: string, row: Row, ps: seq<Package>)
    requires Attributed(s) && Current(s, code, row) && PackagesAccepted(row.mapping, ps)
    requires StagePackages(s.journal, code, SnapshotReports(row.mapping, Default(row.orderId), ps)) == Ok(t.journal)
    requires t.latest == s.latest[code := ps]
    ensures Attributed(t)
  {
    hide PackagesAccepted, IsSnapshot, SnapshotReports, StagePackages, SameStaged;
    StagingMakesSnapshot(s.journal, code, row.mapping, Default(row.orderId), ps, t.journal);
    OthersUntouched(s.journal, code, SnapshotReports(row.mapping, Default(row.orderId), ps), t.journal);
    forall c | c in t.journal.bindings ensures CodeAttributed(t, c) {
      assert CodeAttributed(s, c);
      if c != code { RowKeepsAttributed(s, t, c); }
    }
  }

  lemma OthersUntouched(j: Journal, code: string, reports: seq<Report>, after: Journal)
    requires StagePackages(j, code, reports) == Ok(after)
    ensures after.bindings == j.bindings
    ensures forall c | c != code :: SameStaged(j.events, after.events, c)
  {
    InsertOutcome(j.events, code, reports);
  }

  lemma ReadsCurrent(s: Sys, a: nat)
    requires Inv(s) && At(s, a).AskPackages?
    ensures Current(s, At(s, a).code, At(s, a).row)
  {
    assert PcOk(s, At(s, a));
  }

  lemma AcceptedPackages(t: Tracking, b: Binding, order: string)
    requires SnapshotAccepted(t, b, order)
    ensures PackagesAccepted(b, t.shipments.value)
  {
  }

  lemma {:induction false} RunKeepsAttributed(ls: seq<Label>)
    ensures Inv(Run(INITIAL, ls)) && Attributed(Run(INITIAL, ls))
  {
    InvInitially();
    RunKeeps(INITIAL, ls);
    if ls != [] {
      var t := Run(INITIAL, ls[..|ls| - 1]);
      RunKeepsAttributed(ls[..|ls| - 1]);
      if Enabled(t, ls[|ls| - 1]) { StepKeepsAttributed(t, ls[|ls| - 1]); }
    }
  }

  // ------------------------------------------------------------- quantities

  /** What the code's events ship of a SKU. */
  ghost function StagedSku(s: Sys, code: string, sku: string): real
    requires code in s.journal.bindings
  {
    StagedOfSku(s.journal.events, code, s.journal.bindings[code].mapping, Latest(s, code), sku)
  }

  /** The units that the SKUs ship make up what is staged of each Odoo line. */
  lemma {:induction false} SkusMakeUpLines(ls: seq<Label>, code: string, id: Identity)
    requires code in Run(INITIAL, ls).journal.bindings
    ensures var s := Run(INITIAL, ls); var b := s.journal.bindings[code].mapping;
      StagedTotal(s.journal.events, code, id) == SumSet(b.lines.Keys, Share(b, id, (sku: string) => StagedSku(s, code, sku)))
  {
    var s := Run(INITIAL, ls);
    RunKeepsAttributed(ls);
    assert CodeAttributed(s, code) && CodeOk(s, code);
    LinesOfSkus(s, code, id);
  }

  lemma LinesOfSkus(s: Sys, code: string, id: Identity)
    requires code in s.journal.bindings && CodeAttributed(s, code) && UnitsPositive(s.journal.bindings[code].mapping)
    ensures var b := s.journal.bindings[code].mapping;
      StagedTotal(s.journal.events, code, id) == SumSet(b.lines.Keys, Share(b, id, (sku: string) => StagedSku(s, code, sku)))
  {
    hide PackagesAccepted;
    var row, ps := s.journal.bindings[code], Latest(s, code);
    var b, order := row.mapping, Default(row.orderId);
    SnapshotTotals(s.journal.events, code, b, order, ps, id);
    SnapshotSorted(b, order, ps);
    SumSeqPermute(SnapshotReports(b, order, ps), Map(ReportOf(b, order), ps), ReportTotal(id));
    AllReportsTotal(b, order, ps, id);
    var skus := (sku: string) => StagedSku(s, code, sku);
    forall sku | sku in b.lines.Keys ensures Share(b, id, ShippedByAll(b, ps))(sku) == Share(b, id, skus)(sku) {
      StagedSkuSum(s.journal.events, code, b, order, ps, sku);
      AllShipped(b, ps, sku);
    }
    SumSetEqual(b.lines.Keys, Share(b, id, ShippedByAll(b, ps)), Share(b, id, skus));
  }

  /** Re-polling in any reachable state: the latest snapshot, in whatever order
      KSP now lists it, raises nothing and changes nothing. */
  lemma {:induction false} RepollAnyTime(ls: seq<Label>, code: string, mid: seq<Package>, qs: seq<Package>)
    requires code in Run(INITIAL, ls).journal.bindings && Reordered(Latest(Run(INITIAL, ls), code), mid, qs)
    ensures var s := Run(INITIAL, ls); var row := s.journal.bindings[code];
      && PackagesAccepted(row.mapping, qs)
      && StagePackages(s.journal, code, SnapshotReports(row.mapping, Default(row.orderId), qs)) == Ok(s.journal)
  {
    hide PackagesAccepted, SnapshotReports, StagePackages, Reordered, IsSnapshot;
    var s := Run(INITIAL, ls);
    RunKeepsAttributed(ls);
    assert CodeAttributed(s, code);
    var row := s.journal.bindings[code];
    ReorderedSnapshot(row.mapping, Default(row.orderId), Latest(s, code), mid, qs);
    RestagingSnapshot(s.journal, code, row.mapping, Default(row.orderId), Latest(s, code));
  }

  /** Once all of a code's events are marked, nothing is left to tell Odoo: the
      latest snapshot, in any order, changes nothing and lists nothing. */
  lemma {:induction false} BookedSnapshotIsDone(ls: seq<Label>, code: string, mid: seq<Package>, qs: seq<Package>)
    requires code in Run(INITIAL, ls).journal.bindings && Reordered(Latest(Run(INITIAL, ls), code), mid, qs)
    requires var events := Run(INITIAL, ls).journal.events; forall e | e in events && events[e].code == code :: events[e].applied
    ensures var s := Run(INITIAL, ls); var row := s.journal.bindings[code];
      && StagePackages(s.journal, code, SnapshotReports(row.mapping, Default(row.orderId), qs)) == Ok(s.journal)
      && PendingPackages(s.journal, code) == []
  {
    hide Run, SnapshotReports, StagePackages, Reordered, PackagesAccepted;
    RepollAnyTime(ls, code, mid, qs);
    NothingPending(Run(INITIAL, ls).journal, code);
  }

  lemma NothingPending(j: Journal, code: string)
    requires forall e | e in j.events && j.events[e].code == code :: j.events[e].applied
    ensures PendingPackages(j, code) == []
  {
    assert Unapplied(j.events, code) == {};
  }
}
