/** The inbox, the feed and the refresh queue of one account
    (src/integrations/terminal49_client/store.py, worker.py and schema.sql).
    Each function on `Hub` is one transaction. PostgreSQL's now() is the time the
    transaction started, the argument `now`, in seconds. A body stands for its
    SHA-256 digest, which is treated as injective. */
module T49Hub {
  import opened Outcomes
  import opened Counting
  import opened T49Tables

  datatype Progress = Unread | Retrying | Processed | GivenUp

  datatype Note = Note(body: string, progress: Progress, attempts: nat, retryAt: int, receivedAt: int)

  datatype Delivery = Delivery(noteId: Option<string>, body: string, accepted: bool, duplicate: bool)

  /** A snapshot of a container; `number` is "" when the provider gave none. */
  datatype Message = Message(number: string, observedAt: int, content: string)

  datatype EventKey = EventKey(kind: string, eventId: string, container: string)

  datatype EventRecord = EventRecord(kind: string, eventId: string, content: string)

  datatype Entry = Entry(version: int, slot: Slot, odooId: int, message: Message, events: seq<EventRecord>)

  datatype Config = Config(reconcileSeconds: int, maxAttempts: nat)

  predicate Sensible(c: Config) { c.reconcileSeconds >= 300 && 1 <= c.maxAttempts <= 30 }

  datatype Hub = Hub(
    notes: map<string, Note>, deliveries: seq<Delivery>, mappings: map<Slot, Mapping>,
    feed: seq<Entry>, counter: nat, snapshots: map<string, Message>, events: map<EventKey, EventRecord>)

  const EMPTY := Hub(map[], [], map[], [], 0, map[], map[])

  // ------------------------------------------------------------------ inbox

  predicate Waits(p: Progress) { p == Unread || p == Retrying }

  /** `accept`, once the body is archived. `noteId` is None without a valid
      signature and envelope. A new id gets its row; a known id is a duplicate,
      accepted only with the stored body. */
  function Accept(h: Hub, noteId: Option<string>, body: string, now: int): Hub {
    if noteId.None? then h.(deliveries := h.deliveries + [Delivery(None, body, false, false)])
    else if noteId.value !in h.notes then
      h.(notes := h.notes[noteId.value := Note(body, Unread, 0, now, now)],
         deliveries := h.deliveries + [Delivery(noteId, body, true, false)])
    else h.(deliveries := h.deliveries + [Delivery(noteId, body, h.notes[noteId.value].body == body, true)])
  }

  function Pow2(n: nat): nat { if n == 0 then 1 else 2 * Pow2(n - 1) }

  /** Seconds until the next try. */
  function Backoff(attempts: nat): nat {
    var d := 30 * Pow2(if attempts < 7 then attempts else 7);
    if d < 3600 then d else 3600
  }

  /** The rows a worker may take: `ORDER BY received_at LIMIT 1`. */
  predicate Due(h: Hub, id: string, now: int) { id in h.notes && Waits(h.notes[id].progress) && h.notes[id].retryAt <= now }

  ghost predicate NextNote(h: Hub, id: string, now: int) {
    Due(h, id, now) && forall other | other in h.notes && Due(h, other, now) :: h.notes[id].receivedAt <= h.notes[other].receivedAt
  }

  // ---------------------------------------------------------------- publish

  /** What a refresh fetched, and the order in which the database returns the
      active mappings of its container. */
  datatype Fetched = Fetched(container: string, message: Message, events: seq<EventRecord>, order: seq<Slot>)

  predicate Active(ms: map<Slot, Mapping>, container: string, s: Slot) { s in ms && s.container == container && ms[s].active }

  ghost predicate Enumerates(ms: map<Slot, Mapping>, f: Fetched) {
    && (forall s :: s in f.order <==> Active(ms, f.container, s))
    && (forall i, j | 0 <= i < j < |f.order| :: f.order[i] != f.order[j])
  }

  function PutEvents(events: map<EventKey, EventRecord>, container: string, records: seq<EventRecord>): map<EventKey, EventRecord> {
    if records == [] then events else
      var n := |records| - 1;
      PutEvents(events, container, records[..n])[EventKey(records[n].kind, records[n].eventId, container) := records[n]]
  }

  /** One mapping's turn: it is not due again for a while, and its company gets
      the next version, unless the container number is not the expected one. */
  function PublishTo(h: Hub, c: Config, f: Fetched, s: Slot, now: int): Hub
    requires s in h.mappings
  {
    var m := h.mappings[s];
    if f.message.number != m.number then
      h.(mappings := h.mappings[s := m.(nextRefresh := now + c.reconcileSeconds, failing := true)])
    else
      h.(mappings := h.mappings[s := m.(nextRefresh := now + c.reconcileSeconds, failing := false)],
         counter := h.counter + 1,
         feed := h.feed + [Entry(h.counter + 1, s, m.odooId, f.message, f.events)])
  }

  function PublishMany(h: Hub, c: Config, f: Fetched, slots: seq<Slot>, now: int): (r: Hub)
    requires forall s | s in slots :: s in h.mappings
    ensures r.mappings.Keys == h.mappings.Keys
  {
    if slots == [] then h else
      var n := |slots| - 1;
      assert slots == slots[..n] + [slots[n]];
      PublishTo(PublishMany(h, c, f, slots[..n], now), c, f, slots[n], now)
  }

  /** `publish`; Review stands for any exception. */
  function Publish(h: Hub, c: Config, f: Fetched, now: int): Outcome<Hub>
    requires forall s | s in f.order :: s in h.mappings
  {
    if f.message.number == "" then Review else
      Ok(PublishMany(h.(events := PutEvents(h.events, f.container, f.events), snapshots := h.snapshots[f.container := f.message]),
                     c, f, f.order, now))
  }

  /** One container after the other; None is a provider error. */
  function PublishAll(h: Hub, c: Config, fs: seq<Option<Fetched>>, now: int): (r: Outcome<Hub>)
    requires forall f | f in fs && f.Some? :: forall s | s in f.value.order :: s in h.mappings
    ensures r.Ok? ==> r.value.mappings.Keys == h.mappings.Keys
  {
    if fs == [] then Ok(h) else
      var n := |fs| - 1;
      assert fs == fs[..n] + [fs[n]];
      var before := PublishAll(h, c, fs[..n], now);
      if before.Review? || fs[n].None? then Review else Publish(before.value, c, fs[n].value, now)
  }

  // ----------------------------------------------------------------- worker

  /** The first transaction of `once`: everything or only the failure. */
  function Process(h: Hub, c: Config, id: string, fs: seq<Option<Fetched>>, now: int): Hub
    requires id in h.notes
    requires forall f | f in fs && f.Some? :: forall s | s in f.value.order :: s in h.mappings
  {
    var note, r := h.notes[id], PublishAll(h, c, fs, now);
    var attempts := note.attempts + 1;
    if r.Ok? then r.value.(notes := h.notes[id := note.(progress := Processed, attempts := attempts)])
    else h.(notes := h.notes[id := note.(progress := if attempts >= c.maxAttempts then GivenUp else Retrying,
                                         attempts := attempts, retryAt := now + Backoff(attempts))])
  }

  predicate DueMapping(ms: map<Slot, Mapping>, s: Slot, now: int) { s in ms && ms[s].active && ms[s].nextRefresh <= now }

  /** `ORDER BY next_refresh_at LIMIT 1 FOR UPDATE SKIP LOCKED`. */
  ghost predicate NextMapping(ms: map<Slot, Mapping>, locked: set<Slot>, s: Slot, now: int) {
    && DueMapping(ms, s, now) && s !in locked
    && forall u | u in ms && DueMapping(ms, u, now) && u !in locked :: ms[s].nextRefresh <= ms[u].nextRefresh
  }

  /** The second transaction of `once`. */
  function Reconcile(h: Hub, c: Config, s: Slot, f: Option<Fetched>, now: int): Hub
    requires s in h.mappings
    requires f.Some? ==> forall u | u in f.value.order :: u in h.mappings
  {
    var r := PublishAll(h, c, [f], now);
    if r.Ok? then r.value else h.(mappings := h.mappings[s := h.mappings[s].(nextRefresh := now + 300, failing := true)])
  }

  /** `--retry-notification` */
  function Reset(h: Hub, id: string, now: int): Hub {
    if id in h.notes then h.(notes := h.notes[id := h.notes[id].(progress := Unread, attempts := 0, retryAt := now)]) else h
  }

  // ------------------------------------------------------------------- feed

  function After(company: int, version: int): Entry -> bool {
    (e: Entry) => e.slot.company == company && e.version > version
  }

  function Take<T>(s: seq<T>, n: nat): seq<T> { if n < |s| then s[..n] else s }

  /** One page of the feed. */
  function Page(feed: seq<Entry>, company: int, after: int, limit: nat): seq<Entry> {
    Take(Filter(feed, After(company, after)), limit)
  }

  function NextCursor(page: seq<Entry>, after: int): int { if page == [] then after else page[|page| - 1].version }

  // ------------------------------------------------------------------- runs

  datatype Sys = Sys(hub: Hub, lastFetch: int)

  datatype Label =
    | Receive(given: Option<string>, body: string, now: int)
    | Handle(noteId: string, fetched: seq<Option<Fetched>>, now: int)
    | Refresh(slot: Slot, locked: set<Slot>, got: Option<Fetched>, now: int)
    | Map(slot: Slot, odooId: int, number: string, active: bool, refresh: bool, now: int)
    | Again(noteId: string, now: int)

  /** Fetches happen one after the other on a clock that does not run backwards. */
  predicate Timely(last: int, fs: seq<Option<Fetched>>) {
    && (forall i | 0 <= i < |fs| && fs[i].Some? :: last <= fs[i].value.message.observedAt)
    && (forall i, j | 0 <= i < j < |fs| && fs[i].Some? && fs[j].Some? :: fs[i].value.message.observedAt <= fs[j].value.message.observedAt)
  }

  function LastOf(last: int, fs: seq<Option<Fetched>>): int {
    if fs == [] then last
    else if fs[|fs| - 1].Some? then fs[|fs| - 1].value.message.observedAt
    else LastOf(last, fs[..|fs| - 1])
  }

  ghost predicate Enabled(s: Sys, l: Label) {
    match l
    case Handle(id, fs, now) =>
      && NextNote(s.hub, id, now) && Timely(s.lastFetch, fs)
      && forall f | f in fs && f.Some? :: Enumerates(s.hub.mappings, f.value)
    case Refresh(slot, locked, f, now) =>
      && NextMapping(s.hub.mappings, locked, slot, now) && Timely(s.lastFetch, [f])
      && (f.Some? ==> f.value.container == slot.container && Enumerates(s.hub.mappings, f.value))
    case _ => true
  }

  ghost function Next(s: Sys, c: Config, l: Label): Sys
    requires Enabled(s, l)
  {
    match l
    case Receive(id, body, now) => s.(hub := Accept(s.hub, id, body, now))
    case Handle(id, fs, now) => Sys(Process(s.hub, c, id, fs, now), LastOf(s.lastFetch, fs))
    case Refresh(slot, _, f, now) => Sys(Reconcile(s.hub, c, slot, f, now), LastOf(s.lastFetch, [f]))
    case Map(slot, odooId, number, active, refresh, now) =>
      var r := Bind(s.hub.mappings, slot, odooId, number, active, refresh, now);
      if r.Ok? then s.(hub := s.hub.(mappings := r.value)) else s
    case Again(id, now) => s.(hub := Reset(s.hub, id, now))
  }

  ghost function Run(s: Sys, c: Config, ls: seq<Label>): Sys {
    if ls == [] then s else
      var t := Run(s, c, ls[..|ls| - 1]);
      var l := ls[|ls| - 1];
      if Enabled(t, l) then Next(t, c, l) else t
  }

  ghost function Reachable(c: Config, start: int, ls: seq<Label>): Sys { Run(Sys(EMPTY, start), c, ls) }
}
