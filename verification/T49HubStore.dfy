/** The inbox, feed and queue as the program changes them
    (src/integrations/terminal49_client/store.py and worker.py). */
module T49HubStore {
  import opened Outcomes
  import opened Counting
  import opened T49Tables
  import opened T49Hub
  import opened T49HubLaws

  class FeedStore {
    var notes: map<string, Note>
    var deliveries: seq<Delivery>
    var mappings: map<Slot, Mapping>
    var feed: seq<Entry>
    var counter: nat
    var snapshots: map<string, Message>
    var events: map<EventKey, EventRecord>

    function Contents(): Hub
      reads this
    {
      Hub(notes, deliveries, mappings, feed, counter, snapshots, events)
    }

    constructor ()
      ensures Contents() == EMPTY
    {
      notes, deliveries, mappings, feed, counter, snapshots, events := map[], [], map[], [], 0, map[], map[];
    }

    /** `accept`; `conflict` is the raised `IdentityConflict`. */
    method Receive(given: Option<string>, body: string, now: int) returns (accepted: bool, duplicate: bool, conflict: bool)
      modifies this`notes, this`deliveries
      ensures Contents() == Accept(old(Contents()), given, body, now)
      ensures duplicate <==> given.Some? && given.value in old(notes)
      ensures duplicate ==> notes == old(notes)
      ensures conflict <==> duplicate && old(notes)[given.value].body != body
      ensures accepted <==> given.Some? && notes[given.value].body == body
      ensures !duplicate && given.Some? ==> notes == old(notes)[given.value := Note(body, Unread, 0, now, now)]
      ensures given.None? ==> notes == old(notes)
      ensures deliveries == old(deliveries) + [Delivery(given, body, accepted, duplicate)]
    {
      duplicate, conflict := false, false;
      if given.Some? {
        duplicate := given.value in notes;
        if duplicate { conflict := notes[given.value].body != body; }
        else { notes := notes[given.value := Note(body, Unread, 0, now, now)]; }
      }
      accepted := given.Some? && !conflict;
      deliveries := deliveries + [Delivery(given, body, accepted, duplicate)];
    }

    /** `--retry-notification`: as new, and due at once. */
    method RetryNotification(id: string, now: int)
      modifies this`notes
      ensures Contents() == Reset(old(Contents()), id, now)
      ensures notes == if id in old(notes)
        then old(notes)[id := Note(old(notes)[id].body, Unread, 0, now, old(notes)[id].receivedAt)] else old(notes)
    {
      if id in notes { notes := notes[id := notes[id].(progress := Unread, attempts := 0, retryAt := now)]; }
    }

    /** `feed` */
    method ReadFeed(company: int, after: int, limit: nat) returns (page: seq<Entry>, nextCursor: int)
      ensures page == Page(feed, company, after, limit) && nextCursor == NextCursor(page, after)
      ensures |page| <= limit && forall e | e in page :: e in feed && e.slot.company == company && e.version > after
      ensures |page| < limit ==> forall e | e in feed && e.slot.company == company && e.version > after :: e in page
      ensures nextCursor == if page == [] then after else page[|page| - 1].version
    {
      page := [];
      var i := 0;
      while i < |feed| && |page| < limit
        invariant i <= |feed| && |page| <= limit && page == Filter(feed[..i], After(company, after))
      {
        assert feed[..i + 1][..i] == feed[..i];
        if feed[i].slot.company == company && feed[i].version > after { page := page + [feed[i]]; }
        i := i + 1;
      }
      assert feed == feed[..i] + feed[i..];
      FilterConcat(feed[..i], feed[i..], After(company, after));
      nextCursor := NextCursor(page, after);
      PageMembers(feed, i, company, after);
    }

    /** The loop that stores event records. */
    method StoreEvents(container: string, records: seq<EventRecord>)
      modifies this`events
      ensures events == PutEvents(old(events), container, records)
    {
      ghost var before := events;
      for i := 0 to |records|
        invariant events == PutEvents(before, container, records[..i])
      {
        assert records[..i + 1][..i] == records[..i];
        events := events[EventKey(records[i].kind, records[i].eventId, container) := records[i]];
      }
      assert records[..|records|] == records;
    }

    /** `publish`, on a connection whose transaction the caller controls. */
    method PublishContainer(c: Config, f: Fetched, now: int) returns (ok: bool)
      requires forall s | s in f.order :: s in mappings
      modifies this`mappings, this`feed, this`counter, this`snapshots, this`events
      ensures ok == Publish(old(Contents()), c, f, now).Ok?
      ensures Contents() == if ok then Publish(old(Contents()), c, f, now).value else old(Contents())
    {
      hide PublishTo, PutEvents;
      if f.message.number == "" { return false; }
      StoreEvents(f.container, f.events);
      snapshots := snapshots[f.container := f.message];
      ghost var start := Contents();
      for i := 0 to |f.order|
        invariant forall s | s in f.order[..i] :: s in start.mappings
        invariant mappings.Keys == start.mappings.Keys
        invariant Contents() == PublishMany(start, c, f, f.order[..i], now)
      {
        var s := f.order[i];
        assert s in f.order;
        assert f.order[..i + 1] == f.order[..i] + [s];
        OneMore(start, c, f, f.order[..i], s, now);
        PublishNext(c, f, s, now);
      }
      assert f.order[..|f.order|] == f.order;
      ok := true;
    }

    /** The body of that loop. */
    method PublishNext(c: Config, f: Fetched, s: Slot, now: int)
      requires s in mappings
      modifies this`mappings, this`feed, this`counter
      ensures Contents() == PublishTo(old(Contents()), c, f, s, now)
    {
      mappings := mappings[s := mappings[s].(nextRefresh := now + c.reconcileSeconds)];
      if f.message.number != mappings[s].number {
        mappings := mappings[s := mappings[s].(failing := true)];
        return;
      }
      counter := counter + 1;
      feed := feed + [Entry(counter, s, mappings[s].odooId, f.message, f.events)];
      mappings := mappings[s := mappings[s].(failing := false, nextRefresh := now + c.reconcileSeconds)];
    }

    /** Rolling back to a savepoint. */
    method Restore(h: Hub)
      modifies this
      ensures Contents() == h
    {
      notes, deliveries, mappings, feed, counter, snapshots, events :=
        h.notes, h.deliveries, h.mappings, h.feed, h.counter, h.snapshots, h.events;
    }
  }

  lemma PageMembers(feed: seq<Entry>, i: nat, company: int, after: int)
    requires i <= |feed|
    ensures forall e | e in Filter(feed[..i], After(company, after)) :: e in feed && e.slot.company == company && e.version > after
    ensures i == |feed| ==> forall e | e in feed && e.slot.company == company && e.version > after :: e in Filter(feed[..i], After(company, after))
  {
    FilterMembers(feed[..i], After(company, after));
    if i == |feed| { assert feed[..i] == feed; }
  }

  lemma OneMore(h: Hub, c: Config, f: Fetched, slots: seq<Slot>, s: Slot, now: int)
    requires s in h.mappings && forall u | u in slots :: u in h.mappings
    ensures PublishMany(h, c, f, slots + [s], now) == PublishTo(PublishMany(h, c, f, slots, now), c, f, s, now)
  {
    assert (slots + [s])[..|slots|] == slots;
  }

  lemma {:induction false} FailedPrefix(h: Hub, c: Config, fs: seq<Option<Fetched>>, i: nat, now: int)
    requires i <= |fs| && forall f | f in fs && f.Some? :: forall s | s in f.value.order :: s in h.mappings
    requires PublishAll(h, c, fs[..i], now).Review?
    ensures PublishAll(h, c, fs, now).Review?
  {
    hide Publish;
    if i < |fs| {
      var n := |fs| - 1;
      assert fs[..n][..i] == fs[..i];
      FailedPrefix(h, c, fs[..n], i, now);
    } else {
      assert fs[..i] == fs;
    }
  }

  lemma FirstPublished(h: Hub, c: Config, fs: seq<Option<Fetched>>, now: int)
    ensures PublishAll(h, c, fs[..0], now) == Ok(h)
  {
  }

  lemma NextPublished(h: Hub, c: Config, fs: seq<Option<Fetched>>, i: nat, now: int)
    requires i < |fs| && forall f | f in fs && f.Some? :: forall s | s in f.value.order :: s in h.mappings
    ensures forall f | f in fs[..i + 1] && f.Some? :: forall s | s in f.value.order :: s in h.mappings
    ensures PublishAll(h, c, fs[..i + 1], now) ==
      var before := PublishAll(h, c, fs[..i], now);
      if before.Review? || fs[i].None? then Review else Publish(before.value, c, fs[i].value, now)
  {
    assert fs[..i + 1][..i] == fs[..i];
  }

  class FeedWorker {
    const store: FeedStore
    const config: Config

    constructor (store: FeedStore, config: Config)
      ensures this.store == store && this.config == config
    {
      this.store, this.config := store, config;
    }

    /** The loop over the resolved containers, inside a savepoint. */
    method PublishContainers(fs: seq<Option<Fetched>>, now: int) returns (ok: bool)
      requires forall f | f in fs && f.Some? :: forall s | s in f.value.order :: s in store.mappings
      modifies store
      ensures ok == PublishAll(old(store.Contents()), config, fs, now).Ok?
      ensures store.Contents() == if ok then PublishAll(old(store.Contents()), config, fs, now).value else old(store.Contents())
    {
      hide PublishAll, Publish;
      var saved := store.Contents();
      FirstPublished(saved, config, fs, now);
      for i := 0 to |fs|
        invariant store.mappings.Keys == saved.mappings.Keys
        invariant forall f | f in fs[..i] && f.Some? :: forall s | s in f.value.order :: s in saved.mappings
        invariant PublishAll(saved, config, fs[..i], now) == Ok(store.Contents())
      {
        assert fs[i] in fs;
        NextPublished(saved, config, fs, i, now);
        if fs[i].Some? {
          var published := store.PublishContainer(config, fs[i].value, now);
          if published { continue; }
        }
        FailedPrefix(saved, config, fs, i + 1, now);
        store.Restore(saved);
        return false;
      }
      assert fs[..|fs|] == fs;
      ok := true;
    }

    /** The first transaction of `once`. */
    method ProcessNote(id: string, fs: seq<Option<Fetched>>, now: int)
      requires id in store.notes
      requires forall f | f in fs && f.Some? :: forall s | s in f.value.order :: s in store.mappings
      modifies store
      ensures store.Contents() == Process(old(store.Contents()), config, id, fs, now)
    {
      var note := store.notes[id];
      ghost var before := store.Contents();
      var ok := PublishContainers(fs, now);
      assert store.notes == before.notes by { if ok { NotesUntouched(before, config, fs, now); } }
      var attempts := note.attempts + 1;
      if ok {
        store.notes := store.notes[id := note.(progress := Processed, attempts := attempts)];
      } else {
        store.notes := store.notes[id := note.(progress := if attempts >= config.maxAttempts then GivenUp else Retrying,
                                               attempts := attempts, retryAt := now + Backoff(attempts))];
      }
    }

    /** The second transaction of `once`. */
    method RefreshMapping(slot: Slot, got: Option<Fetched>, now: int)
      requires slot in store.mappings
      requires got.Some? ==> forall u | u in got.value.order :: u in store.mappings
      modifies store
      ensures store.Contents() == Reconcile(old(store.Contents()), config, slot, got, now)
    {
      var ok := PublishContainers([got], now);
      if !ok {
        store.mappings := store.mappings[slot := store.mappings[slot].(nextRefresh := now + 300, failing := true)];
      }
    }

    /** `ORDER BY next_refresh_at LIMIT 1`, as a search. */
    method EarliestMapping(locked: set<Slot>, now: int) returns (r: Option<Slot>)
      ensures r.Some? ==> NextMapping(store.mappings, locked, r.value, now)
      ensures r.None? ==> forall s | s in store.mappings && DueMapping(store.mappings, s, now) :: s in locked
    {
      r := None;
      var ms := store.mappings;
      var todo := ms.Keys;
      while todo != {}
        invariant todo <= ms.Keys
        invariant r.Some? ==> DueMapping(ms, r.value, now) && r.value !in locked
        invariant forall u | u in ms.Keys - todo && DueMapping(ms, u, now) && u !in locked ::
          r.Some? && ms[r.value].nextRefresh <= ms[u].nextRefresh
        decreases todo
      {
        var s :| s in todo;
        todo := todo - {s};
        if DueMapping(ms, s, now) && s !in locked && (r.None? || ms[s].nextRefresh < ms[r.value].nextRefresh) { r := Some(s); }
      }
    }

    /** `ORDER BY received_at LIMIT 1`, as a search. */
    method EarliestNote(now: int) returns (r: Option<string>)
      ensures r.Some? ==> NextNote(store.Contents(), r.value, now)
      ensures r.None? ==> forall id | id in store.notes :: !Due(store.Contents(), id, now)
    {
      r := None;
      var h := store.Contents();
      var todo := h.notes.Keys;
      while todo != {}
        invariant todo <= h.notes.Keys
        invariant r.Some? ==> Due(h, r.value, now)
        invariant forall u | u in h.notes.Keys - todo && Due(h, u, now) :: r.Some? && h.notes[r.value].receivedAt <= h.notes[u].receivedAt
        decreases todo
      {
        var id :| id in todo;
        todo := todo - {id};
        if Due(h, id, now) && (r.None? || h.notes[id].receivedAt < h.notes[r.value].receivedAt) { r := Some(id); }
      }
    }

    /** One round: a notification, and in any case one refresh as well. */
    method Once(fetchedFor: map<string, seq<Option<Fetched>>>, gotFor: map<Slot, Fetched>, locked: set<Slot>, now: int, later: int)
      returns (id: Option<string>, slot: Option<Slot>, ghost middle: Hub)
      requires forall i | i in fetchedFor :: forall f | f in fetchedFor[i] && f.Some? :: forall s | s in f.value.order :: s in store.mappings
      requires forall u | u in gotFor :: forall s | s in gotFor[u].order :: s in store.mappings
      modifies store
      ensures id.None? <==> forall i | i in old(store.notes) :: !Due(old(store.Contents()), i, now)
      ensures id.Some? ==> NextNote(old(store.Contents()), id.value, now)
      ensures middle == if id.None? then old(store.Contents())
        else Process(old(store.Contents()), config, id.value, if id.value in fetchedFor then fetchedFor[id.value] else [None], now)
      ensures slot.None? <==> forall s | s in middle.mappings && DueMapping(middle.mappings, s, later) :: s in locked
      ensures slot.Some? ==> NextMapping(middle.mappings, locked, slot.value, later)
      ensures id.Some? ==>
        var (ns, n) := (old(store.notes), old(store.notes)[id.value]);
        && n.progress in {Unread, Retrying} && n.retryAt <= now
        && forall other | other in ns && ns[other].progress in {Unread, Retrying} && ns[other].retryAt <= now :: n.receivedAt <= ns[other].receivedAt
      ensures slot.Some? ==>
        var (ms, m) := (middle.mappings, middle.mappings[slot.value]);
        && m.active && m.nextRefresh <= later && slot.value !in locked
        && forall u | u in ms && ms[u].active && ms[u].nextRefresh <= later && u !in locked :: m.nextRefresh <= ms[u].nextRefresh
      ensures store.Contents() == if slot.None? then middle
        else Reconcile(middle, config, slot.value, if slot.value in gotFor then Some(gotFor[slot.value]) else None, later)
    {
      id := EarliestNote(now);
      ghost var before := store.Contents();
      if id.Some? {
        ProcessNote(id.value, if id.value in fetchedFor then fetchedFor[id.value] else [None], now);
      }
      middle := store.Contents();
      slot := EarliestMapping(locked, later);
      if slot.Some? {
        RefreshMapping(slot.value, if slot.value in gotFor then Some(gotFor[slot.value]) else None, later);
      }
    }
  }

  lemma {:induction false} NotesUntouched(h: Hub, c: Config, fs: seq<Option<Fetched>>, now: int)
    requires forall f | f in fs && f.Some? :: forall s | s in f.value.order :: s in h.mappings
    requires PublishAll(h, c, fs, now).Ok?
    ensures PublishAll(h, c, fs, now).value.notes == h.notes
  {
    if fs != [] {
      var n := |fs| - 1;
      assert fs == fs[..n] + [fs[n]];
      NotesUntouched(h, c, fs[..n], now);
      var b, f := PublishAll(h, c, fs[..n], now).value, fs[n].value;
      NotesKept(b.(events := PutEvents(b.events, f.container, f.events), snapshots := b.snapshots[f.container := f.message]), c, f, f.order, now);
    }
  }

  lemma {:induction false} NotesKept(h: Hub, c: Config, f: Fetched, slots: seq<Slot>, now: int)
    requires forall s | s in slots :: s in h.mappings
    ensures PublishMany(h, c, f, slots, now).notes == h.notes
  {
    if slots != [] {
      var n := |slots| - 1;
      assert slots == slots[..n] + [slots[n]];
      NotesKept(h, c, f, slots[..n], now);
    }
  }
}
