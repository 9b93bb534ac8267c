/** What the inbox and the feed guarantee over every run. */
module T49HubLaws {
  import opened Outcomes
  import opened Counting
  import opened T49Tables
  import opened T49Hub

  // ------------------------------------------------------------------ inbox

  predicate NoteOk(c: Config, n: Note) { n.attempts <= c.maxAttempts && (Waits(n.progress) ==> n.attempts < c.maxAttempts) }

  predicate DeliveryOk(h: Hub, d: Delivery) {
    d.accepted ==> d.noteId.Some? && d.noteId.value in h.notes && h.notes[d.noteId.value].body == d.body
  }

  predicate InboxOk(h: Hub, c: Config) {
    && (forall id | id in h.notes :: NoteOk(c, h.notes[id]))
    && (forall i | 0 <= i < |h.deliveries| :: DeliveryOk(h, h.deliveries[i]))
  }

  /** Rows and their bodies stay, and deliveries are only added. */
  predicate InboxGrows(h: Hub, g: Hub) {
    && (forall id | id in h.notes :: id in g.notes && g.notes[id].body == h.notes[id].body)
    && h.deliveries <= g.deliveries
  }

  // ------------------------------------------------------------------- feed

  predicate EntryOk(h: Hub, i: nat)
    requires i < |h.feed|
  {
    var e := h.feed[i];
    e.version == i + 1 && e.slot in h.mappings && h.mappings[e.slot].odooId == e.odooId && e.message.number != ""
  }

  predicate FeedOk(h: Hub, last: int) {
    && |h.feed| == h.counter
    && (forall i | 0 <= i < |h.feed| :: EntryOk(h, i) && h.feed[i].message.observedAt <= last)
    && (forall i, j | 0 <= i < j < |h.feed| :: h.feed[i].message.observedAt <= h.feed[j].message.observedAt)
  }

  predicate Expects(ms: map<Slot, Mapping>, f: Fetched, s: Slot) { s in ms && ms[s].number == f.message.number }

  function Expecting(ms: map<Slot, Mapping>, f: Fetched): Slot -> bool { (s: Slot) => Expects(ms, f, s) }

  /** `entry` is the k-th of the slots that expect the number, under the k-th new version. */
  predicate IsEntry(e: Entry, h: Hub, f: Fetched, k: nat, s: Slot) {
    e.version == h.counter + 1 + k && e.slot == s && e.message == f.message && e.events == f.events
      && s in h.mappings && e.odooId == h.mappings[s].odooId
  }

  /** Apart from the times, publishing does not touch a mapping. */
  predicate SameBinding(ms: map<Slot, Mapping>, ns: map<Slot, Mapping>) {
    && ns.Keys == ms.Keys
    && forall s | s in ms :: ns[s].odooId == ms[s].odooId && ns[s].number == ms[s].number && ns[s].active == ms[s].active
  }

  lemma {:induction false} ManyPublished(h: Hub, c: Config, f: Fetched, slots: seq<Slot>, now: int)
    requires |h.feed| == h.counter && forall s | s in slots :: s in h.mappings
    ensures var g := PublishMany(h, c, f, slots, now); var hits := Filter(slots, Expecting(h.mappings, f));
      && g.counter == |g.feed| == h.counter + |hits| && h.feed <= g.feed
      && (forall k | 0 <= k < |hits| :: IsEntry(g.feed[h.counter + k], h, f, k, hits[k]))
      && SameBinding(h.mappings, g.mappings)
      && g.notes == h.notes && g.deliveries == h.deliveries && g.snapshots == h.snapshots && g.events == h.events
  {
    if slots != [] {
      var n := |slots| - 1;
      assert slots == slots[..n] + [slots[n]];
      ManyPublished(h, c, f, slots[..n], now);
      var g, hits := PublishMany(h, c, f, slots[..n], now), Filter(slots[..n], Expecting(h.mappings, f));
      FilterMembers(slots[..n], Expecting(h.mappings, f));
      FilterSnoc(slots[..n], slots[n], Expecting(h.mappings, f));
      PublishedOne(g, c, f, slots[n], now);
    }
  }

  lemma PublishedOne(g: Hub, c: Config, f: Fetched, s: Slot, now: int)
    requires s in g.mappings
    ensures var r := PublishTo(g, c, f, s, now);
      && SameBinding(g.mappings, r.mappings)
      && (if Expects(g.mappings, f, s)
          then r.feed == g.feed + [Entry(g.counter + 1, s, g.mappings[s].odooId, f.message, f.events)] && r.counter == g.counter + 1
          else r.feed == g.feed && r.counter == g.counter)
  {
  }

  /** One refresh that succeeds gives every active mapping of the container
      that expects its number exactly one entry, and nobody else any. */
  lemma PublishReaches(h: Hub, c: Config, f: Fetched, now: int, s: Slot)
    requires |h.feed| == h.counter && Enumerates(h.mappings, f) && Publish(h, c, f, now).Ok?
    ensures var g := Publish(h, c, f, now).value;
      && h.feed <= g.feed && g.snapshots == h.snapshots[f.container := f.message]
      && |Filter(g.feed[|h.feed|..], (e: Entry) => e.slot == s)| == if Active(h.mappings, f.container, s) && Expects(h.mappings, f, s) then 1 else 0
  {
    var start := h.(events := PutEvents(h.events, f.container, f.events), snapshots := h.snapshots[f.container := f.message]);
    ManyPublished(start, c, f, f.order, now);
    var g, hits := Publish(h, c, f, now).value, Filter(f.order, Expecting(h.mappings, f));
    var mine := (e: Entry) => e.slot == s;
    FilterMembers(f.order, Expecting(h.mappings, f));
    DistinctFilter(f.order, Expecting(h.mappings, f));
    CountSlot(g.feed[|h.feed|..], hits, s);
  }

  lemma {:induction false} DistinctFilter<T>(s: seq<T>, p: T -> bool)
    requires forall i, j | 0 <= i < j < |s| :: s[i] != s[j]
    ensures forall i, j | 0 <= i < j < |Filter(s, p)| :: Filter(s, p)[i] != Filter(s, p)[j]
  {
    if s != [] {
      var n := |s| - 1;
      DistinctFilter(s[..n], p);
      FilterMembers(s[..n], p);
    }
  }

  lemma CountSlot(es: seq<Entry>, hits: seq<Slot>, s: Slot)
    requires |es| == |hits| && (forall k | 0 <= k < |es| :: es[k].slot == hits[k])
    requires forall i, j | 0 <= i < j < |hits| :: hits[i] != hits[j]
    ensures |Filter(es, (e: Entry) => e.slot == s)| == if s in hits then 1 else 0
  {
    var mine := (e: Entry) => e.slot == s;
    if k :| 0 <= k < |hits| && hits[k] == s {
      assert SoleAt(es, mine, es[k], k);
      FilterSole(es, mine, es[k]);
    } else {
      FilterNone(es, mine);
    }
  }

  // ----------------------------------------------------------- whole worker steps

  /** Publishing only adds entries that carry the fetched messages. */
  predicate Published(h: Hub, g: Hub, last: int, now: int) {
    && g.notes == h.notes && g.deliveries == h.deliveries && SameBinding(h.mappings, g.mappings)
    && h.feed <= g.feed && FeedOk(g, last)
  }

  lemma PublishKeeps(h: Hub, c: Config, f: Fetched, now: int, last: int)
    requires FeedOk(h, last) && last <= f.message.observedAt && forall s | s in f.order :: s in h.mappings
    requires Publish(h, c, f, now).Ok?
    ensures Published(h, Publish(h, c, f, now).value, f.message.observedAt, now)
  {
    hide PublishMany, IsEntry, FeedOk;
    var start := h.(events := PutEvents(h.events, f.container, f.events), snapshots := h.snapshots[f.container := f.message]);
    assert |h.feed| == h.counter by { FeedIsCounted(h, last); }
    ManyPublished(start, c, f, f.order, now);
    AddedKeep(h, start, Publish(h, c, f, now).value, f, last, Filter(f.order, Expecting(h.mappings, f)));
  }

  lemma FeedIsCounted(h: Hub, last: int)
    requires FeedOk(h, last)
    ensures |h.feed| == h.counter
  {
  }

  /** New entries of one fetch at the end keep the feed in order. */
  lemma AddedKeep(h: Hub, start: Hub, g: Hub, f: Fetched, last: int, hits: seq<Slot>)
    requires FeedOk(h, last) && last <= f.message.observedAt && f.message.number != ""
    requires g.counter == |g.feed| == h.counter + |hits| && h.feed <= g.feed && SameBinding(h.mappings, g.mappings)
    requires start.counter == h.counter && start.mappings == h.mappings
    requires forall k | 0 <= k < |hits| :: IsEntry(g.feed[h.counter + k], start, f, k, hits[k])
    ensures FeedOk(g, f.message.observedAt)
  {
    forall i | 0 <= i < |g.feed|
      ensures EntryOk(g, i) && g.feed[i].message.observedAt <= f.message.observedAt
      ensures i >= |h.feed| ==> g.feed[i].message == f.message
    {
      if i < |h.feed| { assert EntryOk(h, i) && g.feed[i] == h.feed[i]; }
      else { assert IsEntry(g.feed[h.counter + (i - h.counter)], start, f, i - h.counter, hits[i - h.counter]); }
    }
    forall i, j | 0 <= i < j < |g.feed| ensures g.feed[i].message.observedAt <= g.feed[j].message.observedAt {
      if j < |h.feed| { assert g.feed[i] == h.feed[i] && g.feed[j] == h.feed[j]; }
    }
  }

  lemma {:induction false} AllPublished(h: Hub, c: Config, fs: seq<Option<Fetched>>, now: int, last: int)
    requires FeedOk(h, last) && Timely(last, fs)
    requires forall f | f in fs && f.Some? :: forall s | s in f.value.order :: s in h.mappings
    requires PublishAll(h, c, fs, now).Ok?
    ensures Published(h, PublishAll(h, c, fs, now).value, LastOf(last, fs), now)
  {
    if fs != [] {
      var n := |fs| - 1;
      assert fs == fs[..n] + [fs[n]];
      AllPublished(h, c, fs[..n], now, last);
      assert fs[n] in fs;
      LastIsTimely(last, fs);
      PublishKeeps(PublishAll(h, c, fs[..n], now).value, c, fs[n].value, now, LastOf(last, fs[..n]));
    }
  }

  lemma {:induction false} LastIsTimely(last: int, fs: seq<Option<Fetched>>)
    requires Timely(last, fs)
    ensures last <= LastOf(last, fs)
    ensures forall i | 0 <= i < |fs| && fs[i].Some? :: fs[i].value.message.observedAt <= LastOf(last, fs)
    ensures fs != [] && fs[|fs| - 1].Some? ==> LastOf(last, fs[..|fs| - 1]) <= fs[|fs| - 1].value.message.observedAt
  {
    if fs != [] {
      var n := |fs| - 1;
      LastIsTimely(last, fs[..n]);
      LastIsOne(last, fs[..n]);
      forall i | 0 <= i < |fs| && fs[i].Some? ensures fs[i].value.message.observedAt <= LastOf(last, fs) {
        if i < n { assert fs[..n][i] == fs[i]; }
      }
    }
  }

  lemma {:induction false} LastIsOne(last: int, fs: seq<Option<Fetched>>)
    ensures LastOf(last, fs) == last || exists i :: 0 <= i < |fs| && fs[i].Some? && fs[i].value.message.observedAt == LastOf(last, fs)
  {
    if fs != [] {
      var n := |fs| - 1;
      LastIsOne(last, fs[..n]);
      if fs[n].None? && LastOf(last, fs[..n]) != last {
        var i :| 0 <= i < n && fs[..n][i].Some? && fs[..n][i].value.message.observedAt == LastOf(last, fs[..n]);
        assert fs[i] == fs[..n][i];
      }
    }
  }

  // --------------------------------------------- what a published list leaves

  function EntryFor(s: Slot, m: Message, records: seq<EventRecord>): Entry -> bool {
    (e: Entry) => e.slot == s && e.message == m && e.events == records
  }

  /** The fetch carries this message and these events for an active mapping
      that expects its number. */
  function Serves(ms: map<Slot, Mapping>, s: Slot, m: Message, records: seq<EventRecord>): Option<Fetched> -> bool {
    (f: Option<Fetched>) => f.Some? && f.value.message == m && f.value.events == records
      && Active(ms, f.value.container, s) && Expects(ms, f.value, s)
  }

  /** Every mapping gets one new entry, with exactly what was fetched, for each
      fetched container for which it is active and expects the number. */
  ghost predicate EveryoneServed(h: Hub, g: Hub, fs: seq<Option<Fetched>>) {
    && h.feed <= g.feed
    && forall s, m, records ::
      |Filter(g.feed[|h.feed|..], EntryFor(s, m, records))| == |Filter(fs, Serves(h.mappings, s, m, records))|
  }

  /** The last snapshot fetched of a container. */
  function LastMessage(fs: seq<Option<Fetched>>, container: string): Option<Message> {
    if fs == [] then None else
      var f := fs[|fs| - 1];
      if f.Some? && f.value.container == container then Some(f.value.message) else LastMessage(fs[..|fs| - 1], container)
  }

  /** The last record with a key among one container's, and among all. */
  function LastIn(container: string, records: seq<EventRecord>, key: EventKey): Option<EventRecord> {
    if records == [] then None else
      var r := records[|records| - 1];
      if EventKey(r.kind, r.eventId, container) == key then Some(r) else LastIn(container, records[..|records| - 1], key)
  }

  function LastRecord(fs: seq<Option<Fetched>>, key: EventKey): Option<EventRecord> {
    if fs == [] then None else
      var f := fs[|fs| - 1];
      if f.Some? && LastIn(f.value.container, f.value.events, key).Some? then LastIn(f.value.container, f.value.events, key)
      else LastRecord(fs[..|fs| - 1], key)
  }

  function Lookup<K, V>(m: map<K, V>, k: K): Option<V> { if k in m then Some(m[k]) else None }

  function OrElse<T>(a: Option<T>, b: Option<T>): Option<T> { if a.Some? then a else b }

  /** The last snapshot of each fetched container and the last record of each
      fetched event are stored; everything else there is as before. */
  ghost predicate Stored(h: Hub, g: Hub, fs: seq<Option<Fetched>>) {
    && (forall container :: Lookup(g.snapshots, container) == OrElse(LastMessage(fs, container), Lookup(h.snapshots, container)))
    && (forall key :: Lookup(g.events, key) == OrElse(LastRecord(fs, key), Lookup(h.events, key)))
  }

  lemma {:induction false} EventsPut(events: map<EventKey, EventRecord>, container: string, records: seq<EventRecord>, key: EventKey)
    ensures Lookup(PutEvents(events, container, records), key) == OrElse(LastIn(container, records, key), Lookup(events, key))
  {
    if records != [] { EventsPut(events, container, records[..|records| - 1], key); }
  }

  /** One successful publication, entry by entry. */
  lemma PublishServes(h: Hub, c: Config, f: Fetched, now: int, s: Slot, m: Message, records: seq<EventRecord>)
    requires |h.feed| == h.counter && Enumerates(h.mappings, f) && Publish(h, c, f, now).Ok?
    ensures var g := Publish(h, c, f, now).value;
      && h.feed <= g.feed && |g.feed| == g.counter && SameBinding(h.mappings, g.mappings)
      && |Filter(g.feed[|h.feed|..], EntryFor(s, m, records))| == if Serves(h.mappings, s, m, records)(Some(f)) then 1 else 0
  {
    var start := h.(events := PutEvents(h.events, f.container, f.events), snapshots := h.snapshots[f.container := f.message]);
    ManyPublished(start, c, f, f.order, now);
    PublishReaches(h, c, f, now, s);
    var added := Publish(h, c, f, now).value.feed[|h.feed|..];
    var hits := Filter(f.order, Expecting(h.mappings, f));
    forall k | 0 <= k < |added| ensures added[k].message == f.message && added[k].events == f.events {
      assert IsEntry(added[k], start, f, k, hits[k]);
    }
    if m == f.message && records == f.events {
      FilterSame(added, EntryFor(s, m, records), (e: Entry) => e.slot == s);
    } else {
      FilterNone(added, EntryFor(s, m, records));
    }
  }

  lemma StillServes(ms: map<Slot, Mapping>, ns: map<Slot, Mapping>, f: Fetched, s: Slot, m: Message, records: seq<EventRecord>)
    requires SameBinding(ms, ns) && Enumerates(ms, f)
    ensures Enumerates(ns, f) && Serves(ns, s, m, records)(Some(f)) == Serves(ms, s, m, records)(Some(f))
  {
    forall x ensures Active(ns, f.container, x) <==> Active(ms, f.container, x) { }
  }

  lemma {:induction false} AllServed(h: Hub, c: Config, fs: seq<Option<Fetched>>, now: int, s: Slot, m: Message, records: seq<EventRecord>)
    requires |h.feed| == h.counter
    requires forall f | f in fs && f.Some? :: forall s | s in f.value.order :: s in h.mappings
    requires forall f | f in fs && f.Some? :: Enumerates(h.mappings, f.value)
    requires PublishAll(h, c, fs, now).Ok?
    ensures var g := PublishAll(h, c, fs, now).value;
      && h.feed <= g.feed && |g.feed| == g.counter && SameBinding(h.mappings, g.mappings)
      && |Filter(g.feed[|h.feed|..], EntryFor(s, m, records))| == |Filter(fs, Serves(h.mappings, s, m, records))|
  {
    hide Publish, EntryFor, Serves, Enumerates, SameBinding;
    if fs == [] {
      SameAsBefore(h.mappings);
      assert h.feed[|h.feed|..] == [];
    } else {
      var n := |fs| - 1;
      assert fs == fs[..n] + [fs[n]];
      AllServed(h, c, fs[..n], now, s, m, records);
      var b, f := PublishAll(h, c, fs[..n], now).value, fs[n].value;
      assert fs[n] in fs && fs[n] == Some(f);
      StillServes(h.mappings, b.mappings, f, s, m, records);
      assert b.mappings.Keys == h.mappings.Keys;
      PublishServes(b, c, f, now, s, m, records);
      var g := Publish(b, c, f, now).value;
      SameBindingTransitive(h.mappings, b.mappings, g.mappings);
      assert g.feed[|h.feed|..] == b.feed[|h.feed|..] + g.feed[|b.feed|..];
      FilterConcat(b.feed[|h.feed|..], g.feed[|b.feed|..], EntryFor(s, m, records));
      FilterSnoc(fs[..n], fs[n], Serves(h.mappings, s, m, records));
    }
  }

  lemma SameAsBefore(ms: map<Slot, Mapping>)
    ensures SameBinding(ms, ms)
  {
  }

  lemma SameBindingTransitive(ms: map<Slot, Mapping>, ns: map<Slot, Mapping>, os: map<Slot, Mapping>)
    requires SameBinding(ms, ns) && SameBinding(ns, os)
    ensures SameBinding(ms, os)
  {
  }

  lemma PublishStores(h: Hub, c: Config, f: Fetched, now: int)
    requires |h.feed| == h.counter && (forall s | s in f.order :: s in h.mappings) && Publish(h, c, f, now).Ok?
    ensures var g := Publish(h, c, f, now).value;
      && g.snapshots == h.snapshots[f.container := f.message] && g.events == PutEvents(h.events, f.container, f.events)
      && |g.feed| == g.counter
  {
    ManyPublished(h.(events := PutEvents(h.events, f.container, f.events), snapshots := h.snapshots[f.container := f.message]), c, f, f.order, now);
  }

  lemma {:induction false} AllStored(h: Hub, c: Config, fs: seq<Option<Fetched>>, now: int)
    requires |h.feed| == h.counter && forall f | f in fs && f.Some? :: forall s | s in f.value.order :: s in h.mappings
    requires PublishAll(h, c, fs, now).Ok?
    ensures var g := PublishAll(h, c, fs, now).value; Stored(h, g, fs) && |g.feed| == g.counter
  {
    hide Publish, Stored;
    if fs == [] {
      NothingStored(h);
    } else {
      var n := |fs| - 1;
      assert fs == fs[..n] + [fs[n]];
      AllStored(h, c, fs[..n], now);
      var b, f := PublishAll(h, c, fs[..n], now).value, fs[n].value;
      assert fs[n] in fs && fs[n] == Some(f);
      PublishStores(b, c, f, now);
      StoresOneMore(h, b, Publish(b, c, f, now).value, fs, f);
    }
  }

  lemma NothingStored(h: Hub)
    ensures Stored(h, h, [])
  {
  }

  lemma StoresOneMore(h: Hub, b: Hub, g: Hub, fs: seq<Option<Fetched>>, f: Fetched)
    requires fs != [] && fs[|fs| - 1] == Some(f) && Stored(h, b, fs[..|fs| - 1])
    requires g.snapshots == b.snapshots[f.container := f.message] && g.events == PutEvents(b.events, f.container, f.events)
    ensures Stored(h, g, fs)
  {
    forall key ensures Lookup(g.events, key) == OrElse(LastRecord(fs, key), Lookup(h.events, key)) {
      EventsPut(b.events, f.container, f.events, key);
      assert Lookup(b.events, key) == OrElse(LastRecord(fs[..|fs| - 1], key), Lookup(h.events, key));
    }
    forall container ensures Lookup(g.snapshots, container) == OrElse(LastMessage(fs, container), Lookup(h.snapshots, container)) {
      assert Lookup(b.snapshots, container) == OrElse(LastMessage(fs[..|fs| - 1], container), Lookup(h.snapshots, container));
    }
  }

  /** The wait doubles from half a minute up to an hour. */
  lemma BackoffDoubles(attempts: nat)
    ensures Backoff(0) == 30
    ensures Backoff(attempts + 1) == if 2 * Backoff(attempts) < 3600 then 2 * Backoff(attempts) else 3600
  {
    if attempts >= 7 {
      assert Pow2(7) == 128;
    } else {
      assert Pow2(attempts + 1) == 2 * Pow2(attempts);
      SmallPowers(attempts);
    }
  }

  lemma SmallPowers(n: nat)
    ensures Pow2(0) == 1 && Pow2(1) == 2 && Pow2(2) == 4 && Pow2(3) == 8 && Pow2(4) == 16 && Pow2(5) == 32 && Pow2(6) == 64 && Pow2(7) == 128
  {
  }

  // ------------------------------------------------------------- the next refresh

  /** What a refresh of `f` leaves of a mapping: an active one of the container
      is due again after the configured time, and failing exactly if it expects
      another number; no other one changes. */
  predicate Rescheduled(c: Config, f: Fetched, s: Slot, m: Mapping, n: Mapping, now: int) {
    if s.container == f.container && m.active
    then n == m.(nextRefresh := now + c.reconcileSeconds, failing := m.number != f.message.number)
    else n == m
  }

  lemma {:induction false} ManyRescheduled(h: Hub, c: Config, f: Fetched, slots: seq<Slot>, now: int)
    requires forall s | s in slots :: s in h.mappings
    ensures var g := PublishMany(h, c, f, slots, now);
      forall s | s in h.mappings :: g.mappings[s] ==
        if s in slots then h.mappings[s].(nextRefresh := now + c.reconcileSeconds, failing := h.mappings[s].number != f.message.number) else h.mappings[s]
  {
    if slots != [] {
      var n := |slots| - 1;
      assert slots == slots[..n] + [slots[n]];
      ManyRescheduled(h, c, f, slots[..n], now);
    }
  }

  /** A refresh that succeeds reschedules the active mappings of its container;
      one that fails puts its own mapping off by five minutes, as failing. */
  lemma RefreshReschedules(h: Hub, c: Config, slot: Slot, got: Option<Fetched>, now: int)
    requires slot in h.mappings && (got.Some? ==> Enumerates(h.mappings, got.value))
    ensures var g := Reconcile(h, c, slot, got, now);
      if got.Some? && got.value.message.number != ""
      then g.mappings.Keys == h.mappings.Keys && forall s | s in h.mappings :: Rescheduled(c, got.value, s, h.mappings[s], g.mappings[s], now)
      else g == h.(mappings := h.mappings[slot := h.mappings[slot].(nextRefresh := now + 300, failing := true)])
  {
    assert [got][..0] == [];
    assert PublishAll(h, c, [], now) == Ok(h);
    if got.Some? && got.value.message.number != "" {
      var f := got.value;
      var start := h.(events := PutEvents(h.events, f.container, f.events), snapshots := h.snapshots[f.container := f.message]);
      ManyRescheduled(start, c, f, f.order, now);
      forall s | s in h.mappings ensures s in f.order <==> s.container == f.container && h.mappings[s].active {
        assert s in f.order <==> Active(h.mappings, f.container, s);
      }
    }
  }

  /** All or nothing: either every fetched container is published and the
      notification is done, or nothing but the notification's own row changes. */
  lemma AllOrNothing(h: Hub, c: Config, id: string, fs: seq<Option<Fetched>>, now: int, last: int)
    requires id in h.notes && FeedOk(h, last) && Timely(last, fs)
    requires forall f | f in fs && f.Some? :: forall s | s in f.value.order :: s in h.mappings
    requires forall f | f in fs && f.Some? :: Enumerates(h.mappings, f.value)
    ensures var g := Process(h, c, id, fs, now);
      && g.notes.Keys == h.notes.Keys && g.deliveries == h.deliveries
      && (forall other | other in h.notes && other != id :: g.notes[other] == h.notes[other])
      && g.notes[id].attempts == h.notes[id].attempts + 1 && g.notes[id].body == h.notes[id].body
      && g.notes[id].receivedAt == h.notes[id].receivedAt
      && (g.notes[id].progress == Processed <==> forall i | 0 <= i < |fs| :: fs[i].Some? && fs[i].value.message.number != "")
      && (g.notes[id].progress == Processed ==> EveryoneServed(h, g, fs) && Stored(h, g, fs) && SameBinding(h.mappings, g.mappings))
      && (g.notes[id].progress != Processed ==> g == h.(notes := g.notes))
      && (g.notes[id].progress == Processed || g.notes[id].progress == if h.notes[id].attempts + 1 >= c.maxAttempts then GivenUp else Retrying)
      && (g.notes[id].progress != Processed ==> g.notes[id].retryAt == now + Backoff(h.notes[id].attempts + 1))
  {
    hide PublishAll, EveryoneServed, Stored;
    SucceedsExactly(h, c, fs, now);
    if PublishAll(h, c, fs, now).Ok? {
      AllPublished(h, c, fs, now, last);
      AllStored(h, c, fs, now);
      AllEntries(h, Process(h, c, id, fs, now), c, fs, now);
      SameStores(h, PublishAll(h, c, fs, now).value, Process(h, c, id, fs, now), fs);
    }
  }

  lemma SameStores(h: Hub, g: Hub, k: Hub, fs: seq<Option<Fetched>>)
    requires Stored(h, g, fs) && k.snapshots == g.snapshots && k.events == g.events
    ensures Stored(h, k, fs)
  {
  }

  lemma AllEntries(h: Hub, k: Hub, c: Config, fs: seq<Option<Fetched>>, now: int)
    requires |h.feed| == h.counter
    requires forall f | f in fs && f.Some? :: forall s | s in f.value.order :: s in h.mappings
    requires forall f | f in fs && f.Some? :: Enumerates(h.mappings, f.value)
    requires PublishAll(h, c, fs, now).Ok? && k.feed == PublishAll(h, c, fs, now).value.feed
    ensures EveryoneServed(h, k, fs)
  {
    forall s, m, records
      ensures h.feed <= k.feed && |Filter(k.feed[|h.feed|..], EntryFor(s, m, records))| == |Filter(fs, Serves(h.mappings, s, m, records))|
    {
      AllServed(h, c, fs, now, s, m, records);
    }
    AllServed(h, c, fs, now, Slot(0, ""), Message("", 0, ""), []);
  }

  lemma {:induction false} SucceedsExactly(h: Hub, c: Config, fs: seq<Option<Fetched>>, now: int)
    requires forall f | f in fs && f.Some? :: forall s | s in f.value.order :: s in h.mappings
    ensures PublishAll(h, c, fs, now).Ok? <==> forall i | 0 <= i < |fs| :: fs[i].Some? && fs[i].value.message.number != ""
  {
    hide PublishMany, PutEvents;
    if fs != [] {
      var n := |fs| - 1;
      assert fs == fs[..n] + [fs[n]];
      SucceedsExactly(h, c, fs[..n], now);
      assert forall i | 0 <= i < n :: fs[..n][i] == fs[i];
    }
  }

  // ---------------------------------------------------------------- invariant

  ghost predicate Inv(s: Sys, c: Config) { InboxOk(s.hub, c) && FeedOk(s.hub, s.lastFetch) }

  predicate Grows(h: Hub, g: Hub) { InboxGrows(h, g) && h.feed <= g.feed && MappingsGrow(h.mappings, g.mappings) }

  lemma BoundStays(ms: map<Slot, Mapping>, l: Label)
    requires l.Map?
    ensures var r := Bind(ms, l.slot, l.odooId, l.number, l.active, l.refresh, l.now); r.Ok? ==> MappingsGrow(ms, r.value)
  {
    if l.slot in ms { assert Half(ms, l.slot, l.slot, l.odooId) <==> ms[l.slot].odooId != l.odooId; }
  }

  lemma FeedMoves(h: Hub, g: Hub, last: int, later: int)
    requires FeedOk(h, last) && last <= later && g.feed == h.feed && g.counter == h.counter && MappingsGrow(h.mappings, g.mappings)
    ensures FeedOk(g, later)
  {
    forall i | 0 <= i < |g.feed| ensures EntryOk(g, i) { assert EntryOk(h, i); }
  }

  lemma ReceiveKeeps(s: Sys, c: Config, given: Option<string>, body: string, now: int)
    requires Sensible(c) && Inv(s, c)
    ensures var h := Accept(s.hub, given, body, now); InboxOk(h, c) && FeedOk(h, s.lastFetch) && Grows(s.hub, h)
  {
    hide FeedOk;
    var h := Accept(s.hub, given, body, now);
    FeedMoves(s.hub, h, s.lastFetch, s.lastFetch);
    forall i | 0 <= i < |h.deliveries| ensures DeliveryOk(h, h.deliveries[i]) {
      if i < |s.hub.deliveries| { assert DeliveryOk(s.hub, s.hub.deliveries[i]); }
    }
  }

  /** Steps that leave the bodies and the delivery log alone. */
  lemma InboxMoves(h: Hub, g: Hub, c: Config)
    requires InboxOk(h, c) && g.deliveries == h.deliveries && g.notes.Keys == h.notes.Keys
    requires forall id | id in h.notes :: g.notes[id].body == h.notes[id].body && NoteOk(c, g.notes[id])
    ensures InboxOk(g, c) && InboxGrows(h, g)
  {
    forall i | 0 <= i < |g.deliveries| ensures DeliveryOk(g, g.deliveries[i]) { assert DeliveryOk(h, h.deliveries[i]); }
  }

  lemma HandleKeeps(s: Sys, c: Config, id: string, fs: seq<Option<Fetched>>, now: int)
    requires Sensible(c) && Inv(s, c) && Enabled(s, Handle(id, fs, now))
    ensures var u := Next(s, c, Handle(id, fs, now)); Inv(u, c) && Grows(s.hub, u.hub)
  {
    hide PublishAll, Publish, NoteOk, EntryOk;
    var u := Next(s, c, Handle(id, fs, now));
    LastIsTimely(s.lastFetch, fs);
    AllOrNothing(s.hub, c, id, fs, now, s.lastFetch);
    HandledNote(s.hub, c, id, fs, now);
    InboxMoves(s.hub, u.hub, c);
    if PublishAll(s.hub, c, fs, now).Ok? { AllPublished(s.hub, c, fs, now, s.lastFetch); }
    else { FeedMoves(s.hub, u.hub, s.lastFetch, u.lastFetch); }
    SameFeed(PublishAll(s.hub, c, fs, now), u, id);
  }

  lemma SameFeed(r: Outcome<Hub>, u: Sys, id: string)
    requires r.Ok? && FeedOk(r.value, u.lastFetch) ==> u.hub == r.value.(notes := u.hub.notes)
    ensures r.Ok? && FeedOk(r.value, u.lastFetch) ==> FeedOk(u.hub, u.lastFetch)
  {
    if r.Ok? && FeedOk(r.value, u.lastFetch) { FeedMoves(r.value, u.hub, u.lastFetch, u.lastFetch); }
  }

  lemma HandledNote(h: Hub, c: Config, id: string, fs: seq<Option<Fetched>>, now: int)
    requires Sensible(c) && InboxOk(h, c) && id in h.notes && Waits(h.notes[id].progress)
    requires forall f | f in fs && f.Some? :: forall s | s in f.value.order :: s in h.mappings
    ensures NoteOk(c, Process(h, c, id, fs, now).notes[id])
  {
  }

  lemma RefreshKeeps(s: Sys, c: Config, l: Label)
    requires Sensible(c) && Inv(s, c) && l.Refresh? && Enabled(s, l)
    ensures var u := Next(s, c, l); Inv(u, c) && Grows(s.hub, u.hub)
  {
    hide PublishAll, Publish, NoteOk, EntryOk;
    var u := Next(s, c, l);
    LastIsTimely(s.lastFetch, [l.got]);
    if PublishAll(s.hub, c, [l.got], l.now).Ok? { AllPublished(s.hub, c, [l.got], l.now, s.lastFetch); }
    else { FeedMoves(s.hub, u.hub, s.lastFetch, u.lastFetch); }
    InboxMoves(s.hub, u.hub, c);
  }

  lemma StepKeeps(s: Sys, c: Config, l: Label)
    requires Sensible(c) && Inv(s, c) && Enabled(s, l)
    ensures Inv(Next(s, c, l), c) && Grows(s.hub, Next(s, c, l).hub)
  {
    hide PublishAll, Publish, EntryOk, Accept;
    var h, u := s.hub, Next(s, c, l);
    match l
    case Receive(given, body, now) => ReceiveKeeps(s, c, given, body, now);
    case Handle(id, fs, now) => HandleKeeps(s, c, id, fs, now);
    case Refresh(_, _, _, _) => RefreshKeeps(s, c, l);
    case Map(_, _, _, _, _, _) =>
      BoundStays(h.mappings, l);
      FeedMoves(h, u.hub, s.lastFetch, s.lastFetch);
      InboxMoves(h, u.hub, c);
    case Again(id, now) =>
      FeedMoves(h, u.hub, s.lastFetch, s.lastFetch);
      InboxMoves(h, u.hub, c);
  }

  lemma {:induction false} RunKeeps(s: Sys, c: Config, ls: seq<Label>)
    requires Sensible(c) && Inv(s, c)
    ensures Inv(Run(s, c, ls), c) && Grows(s.hub, Run(s, c, ls).hub)
  {
    if ls != [] {
      var t, l := Run(s, c, ls[..|ls| - 1]), ls[|ls| - 1];
      RunKeeps(s, c, ls[..|ls| - 1]);
      if Enabled(t, l) {
        StepKeeps(t, c, l);
        GrowsTransitive(s.hub, t.hub, Next(t, c, l).hub);
      }
    }
  }

  lemma GrowsTransitive(h: Hub, g: Hub, k: Hub)
    requires Grows(h, g) && Grows(g, k)
    ensures Grows(h, k)
  {
    forall id | id in h.notes ensures id in k.notes && k.notes[id].body == h.notes[id].body { assert id in g.notes; }
    forall s | s in h.mappings ensures s in k.mappings && k.mappings[s].odooId == h.mappings[s].odooId { assert s in g.mappings; }
  }

  lemma Reached(c: Config, start: int, ls: seq<Label>, more: seq<Label>)
    requires Sensible(c)
    ensures var s := Reachable(c, start, ls); Inv(s, c) && Inv(Run(s, c, more), c) && Grows(s.hub, Run(s, c, more).hub)
  {
    RunKeeps(Sys(EMPTY, start), c, ls);
    RunKeeps(Reachable(c, start, ls), c, more);
  }

  // ----------------------------------------------------------------- theorems

  /** A notification keeps the body it was first accepted with, and a delivery
      is accepted for it exactly with that body: two accepted deliveries of one
      notification never differ. */
  lemma FirstBodyForever(c: Config, start: int, ls: seq<Label>, more: seq<Label>, i: nat)
    requires Sensible(c) && i < |Reachable(c, start, ls).hub.deliveries| && Reachable(c, start, ls).hub.deliveries[i].accepted
    ensures var h, g := Reachable(c, start, ls).hub, Run(Reachable(c, start, ls), c, more).hub; var d := h.deliveries[i];
      && d.noteId.Some? && d.noteId.value in g.notes && g.notes[d.noteId.value].body == d.body
      && forall k | 0 <= k < |g.deliveries| && g.deliveries[k].accepted && g.deliveries[k].noteId == d.noteId :: g.deliveries[k].body == d.body
  {
    Reached(c, start, ls, more);
    var h, g := Reachable(c, start, ls).hub, Run(Reachable(c, start, ls), c, more).hub;
    assert DeliveryOk(h, h.deliveries[i]);
    forall k | 0 <= k < |g.deliveries| && g.deliveries[k].accepted && g.deliveries[k].noteId == h.deliveries[i].noteId
      ensures g.deliveries[k].body == h.deliveries[i].body
    {
      assert DeliveryOk(g, g.deliveries[k]);
    }
  }

  /** Committed attempts for a notification since the operator last reset it. */
  ghost function Tries(s: Sys, c: Config, ls: seq<Label>, id: string): nat {
    if ls == [] then 0 else
      var t, before, l := Run(s, c, ls[..|ls| - 1]), Tries(s, c, ls[..|ls| - 1], id), ls[|ls| - 1];
      if l.Again? && l.noteId == id then 0
      else if l.Handle? && l.noteId == id && Enabled(t, l) then before + 1 else before
  }

  function AttemptsOf(h: Hub, id: string): nat { if id in h.notes then h.notes[id].attempts else 0 }

  /** What one step does to a notification's count of attempts. */
  lemma AttemptsStep(s: Sys, c: Config, l: Label, id: string)
    requires Inv(s, c) && Enabled(s, l)
    ensures AttemptsOf(Next(s, c, l).hub, id) ==
      if l.Again? && l.noteId == id then 0
      else if l.Handle? && l.noteId == id then AttemptsOf(s.hub, id) + 1
      else AttemptsOf(s.hub, id)
  {
    hide PublishAll, Publish, Process, Bind;
    match l
    case Handle(noteId, fetched, now) => AllOrNothing(s.hub, c, noteId, fetched, now, s.lastFetch);
    case Refresh(_, _, got, now) =>
      if PublishAll(s.hub, c, [got], now).Ok? { AllPublished(s.hub, c, [got], now, s.lastFetch); }
    case _ =>
  }

  lemma {:induction false} AttemptsAreTries(c: Config, start: int, ls: seq<Label>, id: string)
    requires Sensible(c)
    ensures AttemptsOf(Reachable(c, start, ls).hub, id) == Tries(Sys(EMPTY, start), c, ls, id)
  {
    hide Next, Inv;
    if ls != [] {
      var n := |ls| - 1;
      AttemptsAreTries(c, start, ls[..n], id);
      Reached(c, start, ls[..n], []);
      var t, l := Reachable(c, start, ls[..n]), ls[n];
      if Enabled(t, l) { AttemptsStep(t, c, l, id); }
      else if l.Again? { AlwaysEnabled(t, l); }
    }
  }

  lemma AlwaysEnabled(s: Sys, l: Label)
    requires l.Again?
    ensures Enabled(s, l)
  {
  }

  /** Each notification is attempted at most `max_attempts` times between two
      resets, and after that many it no longer waits: it is processed or given up. */
  lemma LeavesTheInbox(c: Config, start: int, ls: seq<Label>, id: string)
    requires Sensible(c)
    ensures Tries(Sys(EMPTY, start), c, ls, id) <= c.maxAttempts
    ensures var h := Reachable(c, start, ls).hub;
      id in h.notes && Tries(Sys(EMPTY, start), c, ls, id) == c.maxAttempts ==> !Waits(h.notes[id].progress)
  {
    AttemptsAreTries(c, start, ls, id);
    Reached(c, start, ls, []);
  }

  /** Versions are contiguous from one, times never go back (in particular per
      container), every entry belongs to its mapping, and what was published
      stays published. */
  lemma FeedIsOrdered(c: Config, start: int, ls: seq<Label>, more: seq<Label>)
    requires Sensible(c)
    ensures var h, g := Reachable(c, start, ls).hub, Run(Reachable(c, start, ls), c, more).hub;
      && h.counter == |h.feed| && h.feed <= g.feed
      && (forall i | 0 <= i < |h.feed| :: h.feed[i].version == i + 1 && h.feed[i].slot in h.mappings && h.mappings[h.feed[i].slot].odooId == h.feed[i].odooId)
      && (forall i, j | 0 <= i < j < |h.feed| :: h.feed[i].message.observedAt <= h.feed[j].message.observedAt)
  {
    Reached(c, start, ls, more);
    var h := Reachable(c, start, ls).hub;
    forall i | 0 <= i < |h.feed| ensures h.feed[i].version == i + 1 && h.feed[i].slot in h.mappings && h.mappings[h.feed[i].slot].odooId == h.feed[i].odooId {
      assert EntryOk(h, i);
    }
  }
}
