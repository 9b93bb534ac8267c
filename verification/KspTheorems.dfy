/** The connector's guarantees over every run from an empty journal. */
module KspTheorems {
  import opened Outcomes
  import opened Ordering
  import opened Sums
  import opened KspMapping
  import opened KspTracking
  import opened KspTrackingLaws
  import opened KspJournal
  import opened KspJournalLaws
  import opened KspProtocol
  import opened KspInvariant
  import opened KspSteps
  import opened KspAttribution

  /** At most one POST of a code can have reached the warehouse: among all its
      POSTs, all but at most one were definitively rate-limited. */
  lemma AtMostOneEffectivePost(ls: seq<Label>, code: string)
    ensures Effective(Run(INITIAL, ls).posts, code) <= 1
  {
    InvInitially();
    RunKeeps(INITIAL, ls);
    assert CodeOk(Run(INITIAL, ls), code);
  }

  predicate OnlyLastEffective(posts: seq<Post>) {
    forall i, k | 0 <= i < k < |posts| && posts[i].code == posts[k].code :: posts[i].limited
  }

  /** The POST that may have reached the warehouse is the last one of its code:
      every earlier one was definitively rate-limited. */
  lemma {:induction false} EffectivePostIsLast(ls: seq<Label>)
    ensures OnlyLastEffective(Run(INITIAL, ls).posts)
  {
    hide Inv, Enabled, Next;
    if ls != [] {
      var n := |ls| - 1;
      InvInitially();
      RunKeeps(INITIAL, ls[..n]);
      EffectivePostIsLast(ls[..n]);
      var t := Run(INITIAL, ls[..n]);
      if Enabled(t, ls[n]) {
        PostsOnlyUnsent(t, ls[n]);
        OneMorePost(t.posts, Next(t, ls[n]).posts);
      }
    }
  }

  lemma {:induction false} OneMorePost(posts: seq<Post>, more: seq<Post>)
    requires OnlyLastEffective(posts)
    requires more == posts || (|more| == |posts| + 1 && posts <= more && Effective(posts, more[|posts|].code) == 0)
    ensures OnlyLastEffective(more)
  {
    forall i, k | 0 <= i < k < |more| && more[i].code == more[k].code ensures more[i].limited {
      if k == |posts| && !posts[i].limited { OneCounts(posts, i); }
    }
  }

  /** A step that sends finds no effective POST of its code before it. */
  lemma PostsOnlyUnsent(s: Sys, l: Label)
    requires Inv(s) && Enabled(s, l)
    ensures var posts := Next(s, l).posts;
      posts == s.posts || (|posts| == |s.posts| + 1 && s.posts <= posts && Effective(s.posts, posts[|s.posts|].code) == 0)
  {
    hide Inv, Built, SnapshotAccepted, SnapshotReports, PendingPackages, CodeEvents, StagePackages, Stage, SetState, MarkApplied;
    if l.Go? && At(s, l.a).Sending? { SendingKnows(s, l.a, At(s, l.a).code, At(s, l.a).body); }
  }

  lemma {:induction false} OneCounts(posts: seq<Post>, i: nat)
    requires i < |posts| && !posts[i].limited
    ensures Effective(posts, posts[i].code) >= 1
  {
    var n := |posts| - 1;
    if i < n { OneCounts(posts[..n], i); }
  }

  // ----------------------------------------------------- what is ordered

  /** Every row holds what `build_order` made. */
  ghost predicate RowsBuilt(s: Sys) {
    forall code | code in s.journal.bindings :: Built(s.journal.bindings[code].body, s.journal.bindings[code].mapping)
  }

  lemma StepKeepsBuilt(s: Sys, l: Label)
    requires Inv(s) && Enabled(s, l) && RowsBuilt(s)
    ensures RowsBuilt(Next(s, l))
  {
    hide Inv, Built, Resume;
    StepKeeps(s, l);
    var t := Next(s, l);
    OnlyStagingAddsRows(s, l);
    forall code | code in t.journal.bindings ensures Built(t.journal.bindings[code].body, t.journal.bindings[code].mapping) {
      if code in s.journal.bindings { assert RowGrows(s.journal.bindings[code], t.journal.bindings[code]); }
    }
  }

  lemma OnlyStagingAddsRows(s: Sys, l: Label)
    requires Enabled(s, l)
    ensures var t := Next(s, l);
      forall code | code in t.journal.bindings && code !in s.journal.bindings :: Built(t.journal.bindings[code].body, t.journal.bindings[code].mapping)
  {
    hide Built, SnapshotAccepted, SnapshotReports, PendingPackages, CodeEvents;
  }

  lemma {:induction false} RunKeepsBuilt(ls: seq<Label>)
    ensures RowsBuilt(Run(INITIAL, ls))
  {
    if ls != [] {
      var t := Run(INITIAL, ls[..|ls| - 1]);
      RunKeepsBuilt(ls[..|ls| - 1]);
      InvInitially();
      RunKeeps(INITIAL, ls[..|ls| - 1]);
      if Enabled(t, ls[|ls| - 1]) { StepKeepsBuilt(t, ls[|ls| - 1]); }
    }
  }

  /** Every POST ever sent orders, of each SKU, exactly the units that the
      allocation frozen for its code released, and of other SKUs nothing; and
      each line is in packs of the frozen type and size. */
  lemma EveryPostConserves(ls: seq<Label>, i: nat, sku: string)
    requires i < |Run(INITIAL, ls).posts|
    ensures var s := Run(INITIAL, ls); var p := s.posts[i];
      && p.code in s.journal.bindings
      && var b := s.journal.bindings[p.code].mapping;
         && SumSeq(p.body.lines, UnitsOrdered(b, sku)) == (if sku in b.lines then b.lines[sku].quantity else 0.0)
         && forall l | l in p.body.lines :: AsFrozen(b, l)
  {
    hide Built, RowsBuilt, OrderOf, UnitsOrdered;
    var s := Run(INITIAL, ls);
    InvInitially();
    RunKeeps(INITIAL, ls);
    RunKeepsBuilt(ls);
    PostIsBuilt(s, i);
    var row := s.journal.bindings[s.posts[i].code];
    BuiltConserves(row.body, row.mapping, sku);
  }

  /** The packs of this line are of the frozen type and hold what was released. */
  predicate AsFrozen(b: Binding, l: OrderLine) {
    l.sku in b.lines && l.packType == b.lines[l.sku].packType && l.packs as real * b.lines[l.sku].units == b.lines[l.sku].quantity
  }

  lemma PostIsBuilt(s: Sys, i: nat)
    requires Inv(s) && RowsBuilt(s) && i < |s.posts|
    ensures var p := s.posts[i];
      p.code in s.journal.bindings && p.body == s.journal.bindings[p.code].body && Built(p.body, s.journal.bindings[p.code].mapping)
  {
    hide Built;
    assert PostOk(s, s.posts[i]);
  }

  lemma BuiltConserves(body: OrderBody, b: Binding, sku: string)
    requires Built(body, b)
    ensures SumSeq(body.lines, UnitsOrdered(b, sku)) == if sku in b.lines then b.lines[sku].quantity else 0.0
    ensures forall l | l in body.lines :: AsFrozen(b, l)
  {
    OrderConserves(b, body.lines, sku);
    forall l | l in body.lines ensures AsFrozen(b, l) { OrderPacks(b, body.lines, l); }
  }

  /** What was frozen first stays: body, mapping and claim of a code never
      change, its order id is written at most once, and every POST of the code,
      earlier or later, carries that first body. */
  lemma {:induction false} FrozenForever(ls: seq<Label>, more: seq<Label>, code: string)
    requires code in Run(INITIAL, ls).journal.bindings
    ensures var s := Run(INITIAL, ls); var t := Run(s, more); var row := s.journal.bindings[code];
      && code in t.journal.bindings && RowGrows(row, t.journal.bindings[code])
      && forall i | 0 <= i < |t.posts| && t.posts[i].code == code :: t.posts[i].body == row.body
  {
    InvInitially();
    RunKeeps(INITIAL, ls);
    var s := Run(INITIAL, ls);
    RunKeeps(s, more);
    var t := Run(s, more);
    forall i | 0 <= i < |t.posts| && t.posts[i].code == code ensures t.posts[i].body == s.journal.bindings[code].body {
      assert PostOk(t, t.posts[i]);
    }
  }

  /** A POST happened for every state past `posting`; pending and accepted rows
      have an order id; and an acknowledged row was confirmed by Odoo for
      exactly its frozen anchor and claim, its order id and its warehouse. */
  lemma JournalIntegrity(ls: seq<Label>, code: string)
    requires code in Run(INITIAL, ls).journal.bindings
    ensures var s := Run(INITIAL, ls); var row := s.journal.bindings[code];
      && (row.state == Ready ==> Effective(s.posts, code) == 0 && row.orderId.None?)
      && (row.state !in {Ready, Posting} ==> Effective(s.posts, code) == 1)
      && (row.state in {Pending, Accepted, Acknowledged} ==> row.orderId.Some?)
      && (row.state == Acknowledged ==> Ack(row.mapping.anchorId, row.claim, row.orderId, row.mapping.warehouseId) in s.odoo.acks)
  {
    InvInitially();
    RunKeeps(INITIAL, ls);
    assert CodeOk(Run(INITIAL, ls), code);
  }

  /** Over polls, crashes and concurrent pollers: everything ever staged for a
      code ships no more of any SKU, nor of any Odoo line, than was released. */
  lemma {:induction false} NeverStageMoreThanReleased(ls: seq<Label>, code: string, id: Identity)
    requires code in Run(INITIAL, ls).journal.bindings
    ensures var s := Run(INITIAL, ls); var b := s.journal.bindings[code].mapping;
      && (forall sku | sku in b.lines :: StagedSku(s, code, sku) <= b.lines[sku].quantity)
      && StagedTotal(s.journal.events, code, id) <= Released(b, id)
  {
    hide PackagesAccepted, StagedOfSku, IsSnapshot;
    RunKeepsAttributed(ls);
    var s := Run(INITIAL, ls);
    assert CodeAttributed(s, code) && CodeOk(s, code);
    var row := s.journal.bindings[code];
    SnapshotTotals(s.journal.events, code, row.mapping, Default(row.orderId), Latest(s, code), id);
  }

  /** Which SKU an event ships is read off the snapshot last staged: the code's
      events are exactly the reports of its packages. */
  lemma {:induction false} StagedIsLatestSnapshot(ls: seq<Label>, code: string)
    requires code in Run(INITIAL, ls).journal.bindings
    ensures var s := Run(INITIAL, ls); var row := s.journal.bindings[code];
      && PackagesAccepted(row.mapping, Latest(s, code))
      && IsSnapshot(s.journal.events, code, row.mapping, Default(row.orderId), Latest(s, code))
  {
    hide PackagesAccepted, IsSnapshot;
    RunKeepsAttributed(ls);
    assert CodeAttributed(Run(INITIAL, ls), code);
  }

  // ------------------------------------------------------------ the ledger

  /** What Odoo has booked under a submission key. */
  function BookedFor(ledger: map<EventId, Entry>, code: string): set<EventId> {
    set e | e in ledger && ledger[e].report.code == code
  }

  function EntryTotal(ledger: map<EventId, Entry>, id: Identity): EventId -> real {
    (e: EventId) => if e in ledger then ReportTotal(id)(ledger[e].report) else 0.0
  }

  ghost function BookedTotal(ledger: map<EventId, Entry>, code: string, id: Identity): real {
    SumSet(BookedFor(ledger, code), EntryTotal(ledger, id))
  }

  lemma TotalNonNegative(code: string, r: Report, id: Identity)
    requires Proper(code, r)
    ensures ReportTotal(id)(r) >= 0.0
  {
    forall i | 0 <= i < |r.lines| ensures OnIdentity(id)(r.lines[i]) >= 0.0 { assert r.lines[i] in r.lines; }
    SumSeqPrefix(r.lines, 0, OnIdentity(id));
  }

  /** What Odoo has booked under a submission key, of one SKU. */
  ghost function BookedSku(s: Sys, code: string, sku: string): real
    requires code in s.journal.bindings
  {
    SumSet(BookedFor(s.odoo.ledger, code), EventSku(s.journal.bindings[code].mapping, Latest(s, code), sku))
  }

  /** Hence Odoo never books more of a SKU, or of a line, than was released. */
  lemma NeverBookMoreThanReleased(ls: seq<Label>, code: string, id: Identity)
    requires code in Run(INITIAL, ls).journal.bindings
    ensures var s := Run(INITIAL, ls); var b := s.journal.bindings[code].mapping;
      && (forall sku | sku in b.lines :: BookedSku(s, code, sku) <= b.lines[sku].quantity)
      && BookedTotal(s.odoo.ledger, code, id) <= Released(b, id)
  {
    InvInitially();
    RunKeeps(INITIAL, ls);
    var s := Run(INITIAL, ls);
    NeverStageMoreThanReleased(ls, code, id);
    BookedLine(s, code, id);
    forall sku | sku in s.journal.bindings[code].mapping.lines
      ensures BookedSku(s, code, sku) <= s.journal.bindings[code].mapping.lines[sku].quantity
    {
      BookedOfSku(s, code, sku);
    }
  }

  lemma BookedIsStaged(s: Sys, code: string)
    requires Inv(s)
    ensures BookedFor(s.odoo.ledger, code) <= CodeEvents(s.journal.events, code)
    ensures forall e | e in BookedFor(s.odoo.ledger, code) :: s.odoo.ledger[e].report == s.journal.events[e].report
  {
    forall e | e in BookedFor(s.odoo.ledger, code)
      ensures e in CodeEvents(s.journal.events, code) && s.odoo.ledger[e].report == s.journal.events[e].report
    {
      assert EntryOk(s, e) && EventOk(s, e);
    }
  }

  /** A sum over some of the events is at most the sum over all. */
  lemma SumOfSome<T(!new)>(some: set<T>, all: set<T>, f: T -> real, g: T -> real)
    requires some <= all && (forall e | e in some :: f(e) == g(e)) && forall e | e in all :: g(e) >= 0.0
    ensures SumSet(some, f) <= SumSet(all, g)
  {
    var h := (e: T) => if e in some then g(e) else 0.0;
    SumSetEqual(some, f, h);
    SumSetSupport(some, all, h);
    SumSetAtMost(all, h, g);
  }

  lemma BookedLine(s: Sys, code: string, id: Identity)
    requires Inv(s)
    ensures BookedTotal(s.odoo.ledger, code, id) <= StagedTotal(s.journal.events, code, id)
  {
    var staged, g := CodeEvents(s.journal.events, code), EventTotal(s.journal.events, id);
    BookedIsStaged(s, code);
    forall e | e in staged ensures g(e) >= 0.0 {
      assert EventOk(s, e);
      TotalNonNegative(code, s.journal.events[e].report, id);
    }
    SumOfSome(BookedFor(s.odoo.ledger, code), staged, EntryTotal(s.odoo.ledger, id), g);
  }

  lemma BookedOfSku(s: Sys, code: string, sku: string)
    requires Inv(s) && code in s.journal.bindings && sku in s.journal.bindings[code].mapping.lines
    ensures BookedSku(s, code, sku) <= StagedSku(s, code, sku)
  {
    var b, staged := s.journal.bindings[code].mapping, CodeEvents(s.journal.events, code);
    var f := EventSku(b, Latest(s, code), sku);
    BookedIsStaged(s, code);
    assert CodeOk(s, code);
    forall e | e in staged ensures f(e) >= 0.0 {
      var p := PackageOf(Latest(s, code), e);
      if p.Some? {
        SkuTotalIsShipped(b, p.value, sku);
        UnitsNonNegative(b, p.value, sku);
      }
    }
    SumOfSome(BookedFor(s.odoo.ledger, code), staged, f, f);
  }

  /** Exact replay: whatever crashes happen between booking and marking, each
      ledger entry is the one report staged under its id, booked on the frozen
      anchor, and it never changes; an applied event is in the ledger. */
  lemma LedgerIsExact(ls: seq<Label>, more: seq<Label>, e: EventId)
    ensures var s := Run(INITIAL, ls); var t := Run(s, more);
      && (e in s.odoo.ledger ==>
            && e in s.journal.events && s.odoo.ledger[e].report == s.journal.events[e].report
            && e in t.odoo.ledger && t.odoo.ledger[e] == s.odoo.ledger[e]
            && var code := s.journal.events[e].code;
               code in s.journal.bindings && s.odoo.ledger[e].anchorId == s.journal.bindings[code].mapping.anchorId)
      && (e in s.journal.events ==>
            && (s.journal.events[e].applied ==> e in s.odoo.ledger)
            && e in t.journal.events && EventGrows(s.journal.events[e], t.journal.events[e]))
  {
    InvInitially();
    RunKeeps(INITIAL, ls);
    var s := Run(INITIAL, ls);
    RunKeeps(s, more);
    if e in s.odoo.ledger { assert EntryOk(s, e); }
    if e in s.journal.events { assert EventOk(s, e); }
  }

  /** A poll that finishes leaves every event that was staged when it read its
      list booked in Odoo with the staged content, and marked. */
  lemma FinishedPollAppliedAll(ls: seq<Label>, a: nat, code: string, owed: set<EventId>)
    requires At(Run(INITIAL, ls), a) == Finished(code, owed)
    ensures var s := Run(INITIAL, ls);
      forall e | e in owed :: e in s.journal.events && s.journal.events[e].applied
        && e in s.odoo.ledger && s.odoo.ledger[e].report == s.journal.events[e].report
  {
    InvInitially();
    RunKeeps(INITIAL, ls);
    var s := Run(INITIAL, ls);
    assert PcOk(s, At(s, a));
    forall e | e in owed
      ensures e in s.journal.events && s.journal.events[e].applied
        && e in s.odoo.ledger && s.odoo.ledger[e].report == s.journal.events[e].report
    {
      assert AppliedNow(s, e);
      assert EventOk(s, e);
      assert EntryOk(s, e);
    }
  }
}
