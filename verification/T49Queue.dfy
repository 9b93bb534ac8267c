/** Bounded waiting in the refresh queue
    (src/integrations/terminal49_client/worker.py, second half of `once`). */
module T49Queue {
  import opened Outcomes
  import opened T49Tables
  import opened T49Hub
  import opened T49HubLaws

  /** The active mappings that the worker may serve before `target`. */
  function Ahead(ms: map<Slot, Mapping>, target: Slot): set<Slot>
    requires target in ms
  {
    set s | s in ms && s != target && ms[s].active && ms[s].nextRefresh <= ms[target].nextRefresh
  }

  /** The step leaves the target alone and comes after the moment it became due. */
  predicate Patient(target: Slot, due: int, l: Label) {
    match l
    case Receive(_, _, _) => true
    case Handle(_, _, now) => now > due
    case Refresh(_, locked, _, now) => now > due && target !in locked
    case Map(slot, _, _, _, _, now) => now > due && slot != target
    case Again(_, _) => true
  }

  /** Every mapping keeps its place or is put behind `due`; none becomes
      active in its old place. */
  predicate NobodyOvertakes(ms: map<Slot, Mapping>, ns: map<Slot, Mapping>, due: int) {
    forall s | s in ns :: ns[s].nextRefresh > due || (s in ms && ns[s].nextRefresh == ms[s].nextRefresh && (ns[s].active ==> ms[s].active))
  }

  predicate StillDue(ms: map<Slot, Mapping>, ns: map<Slot, Mapping>, target: Slot) {
    target in ms && target in ns && ns[target].nextRefresh == ms[target].nextRefresh && ns[target].active == ms[target].active
  }

  /** Some mappings are put behind `due`, the others are as they were. */
  predicate Delays(ms: map<Slot, Mapping>, ns: map<Slot, Mapping>, due: int) {
    && ns.Keys == ms.Keys
    && forall s | s in ms :: ns[s].active == ms[s].active && (ns[s] == ms[s] || ns[s].nextRefresh > due)
  }

  lemma DelaysTransitive(ms: map<Slot, Mapping>, ns: map<Slot, Mapping>, os: map<Slot, Mapping>, due: int)
    requires Delays(ms, ns, due) && Delays(ns, os, due)
    ensures Delays(ms, os, due)
    ensures forall s | s in ns && ns[s].nextRefresh > due :: os[s].nextRefresh > due
  {
  }

  lemma DelayedStay(ms: map<Slot, Mapping>, ns: map<Slot, Mapping>, due: int)
    requires Delays(ms, ns, due)
    ensures NobodyOvertakes(ms, ns, due)
  {
  }

  lemma OneDelayed(h: Hub, c: Config, f: Fetched, s: Slot, now: int, due: int)
    requires Sensible(c) && now > due && s in h.mappings
    ensures var g := PublishTo(h, c, f, s, now); Delays(h.mappings, g.mappings, due) && g.mappings[s].nextRefresh > due
  {
  }

  lemma {:induction false} PublishingDelays(h: Hub, c: Config, f: Fetched, slots: seq<Slot>, now: int, due: int)
    requires Sensible(c) && now > due && forall s | s in slots :: s in h.mappings
    ensures var g := PublishMany(h, c, f, slots, now);
      Delays(h.mappings, g.mappings, due) && forall s | s in slots :: g.mappings[s].nextRefresh > due
  {
    hide PublishTo;
    if slots != [] {
      var n := |slots| - 1;
      assert slots == slots[..n] + [slots[n]];
      PublishingDelays(h, c, f, slots[..n], now, due);
      var g := PublishMany(h, c, f, slots[..n], now);
      OneDelayed(g, c, f, slots[n], now, due);
      DelaysTransitive(h.mappings, g.mappings, PublishTo(g, c, f, slots[n], now).mappings, due);
    }
  }

  lemma {:induction false} PublishingAllDelays(h: Hub, c: Config, fs: seq<Option<Fetched>>, now: int, due: int)
    requires Sensible(c) && now > due
    requires forall f | f in fs && f.Some? :: forall s | s in f.value.order :: s in h.mappings
    requires PublishAll(h, c, fs, now).Ok?
    ensures Delays(h.mappings, PublishAll(h, c, fs, now).value.mappings, due)
  {
    hide PublishMany;
    if fs != [] {
      var n := |fs| - 1;
      assert fs == fs[..n] + [fs[n]];
      PublishingAllDelays(h, c, fs[..n], now, due);
      var b, f := PublishAll(h, c, fs[..n], now).value, fs[n].value;
      var start := b.(events := PutEvents(b.events, f.container, f.events), snapshots := b.snapshots[f.container := f.message]);
      PublishingDelays(start, c, f, f.order, now, due);
      DelaysTransitive(h.mappings, b.mappings, PublishMany(start, c, f, f.order, now).mappings, due);
    }
  }

  /** Serving a mapping, with or without success, puts it behind `due`. */
  lemma ReconcilingDelays(h: Hub, c: Config, slot: Slot, got: Option<Fetched>, now: int, due: int)
    requires Sensible(c) && now > due && slot in h.mappings && h.mappings[slot].active
    requires got.Some? ==> got.value.container == slot.container && Enumerates(h.mappings, got.value)
    ensures var g := Reconcile(h, c, slot, got, now); Delays(h.mappings, g.mappings, due) && g.mappings[slot].nextRefresh > due
  {
    var one := [got];
    assert one[..|one| - 1] == [];
    assert PublishAll(h, c, [], now) == Ok(h);
    if PublishAll(h, c, one, now).Ok? {
      var f := got.value;
      assert Active(h.mappings, f.container, slot);
      var start := h.(events := PutEvents(h.events, f.container, f.events), snapshots := h.snapshots[f.container := f.message]);
      PublishingDelays(start, c, f, f.order, now, due);
      assert Reconcile(h, c, slot, got, now) == PublishMany(start, c, f, f.order, now);
    }
  }

  lemma OthersOnlyLeave(ms: map<Slot, Mapping>, ns: map<Slot, Mapping>, target: Slot)
    requires StillDue(ms, ns, target) && NobodyOvertakes(ms, ns, ms[target].nextRefresh)
    ensures Ahead(ns, target) <= Ahead(ms, target)
  {
  }

  /** The target is served, or nobody has joined the queue in front of it. */
  predicate ServedOrKept(ms: map<Slot, Mapping>, ns: map<Slot, Mapping>, target: Slot)
    requires target in ms
  {
    target in ns && (ns[target].nextRefresh > ms[target].nextRefresh || (StillDue(ms, ns, target) && Ahead(ns, target) <= Ahead(ms, target)))
  }

  lemma MappingWaits(ms: map<Slot, Mapping>, target: Slot, l: Label)
    requires target in ms && l.Map? && l.slot != target && l.now > ms[target].nextRefresh
    ensures var r := Bind(ms, l.slot, l.odooId, l.number, l.active, l.refresh, l.now); r.Ok? ==> ServedOrKept(ms, r.value, target)
  {
    var r := Bind(ms, l.slot, l.odooId, l.number, l.active, l.refresh, l.now);
    if r.Ok? { OthersOnlyLeave(ms, r.value, target); }
  }

  lemma RefreshWaits(s: Sys, c: Config, l: Label, target: Slot)
    requires Sensible(c) && l.Refresh? && Enabled(s, l) && target in s.hub.mappings && s.hub.mappings[target].active
    requires Patient(target, s.hub.mappings[target].nextRefresh, l)
    ensures var ms, ns := s.hub.mappings, Next(s, c, l).hub.mappings;
      ServedOrKept(ms, ns, target) && (StillDue(ms, ns, target) ==> l.slot in Ahead(ms, target) && l.slot !in Ahead(ns, target))
  {
    hide Reconcile, PublishAll;
    var ms, ns := s.hub.mappings, Next(s, c, l).hub.mappings;
    ReconcilingDelays(s.hub, c, l.slot, l.got, l.now, ms[target].nextRefresh);
    DelayedStay(ms, ns, ms[target].nextRefresh);
    assert DueMapping(ms, target, l.now);
    if StillDue(ms, ns, target) { OthersOnlyLeave(ms, ns, target); }
  }

  /** One step: the target is served or keeps its place, and a refresh of
      another mapping takes that one out of the queue in front of it. */
  lemma StepServesOrShortens(s: Sys, c: Config, l: Label, target: Slot)
    requires Sensible(c) && Enabled(s, l) && target in s.hub.mappings && s.hub.mappings[target].active
    requires Patient(target, s.hub.mappings[target].nextRefresh, l)
    ensures var ms, ns := s.hub.mappings, Next(s, c, l).hub.mappings;
      ServedOrKept(ms, ns, target)
      && (l.Refresh? && StillDue(ms, ns, target) ==> l.slot in Ahead(ms, target) && l.slot !in Ahead(ns, target))
  {
    hide Reconcile, PublishAll, Process, Bind;
    var ms := s.hub.mappings;
    match l
    case Handle(id, fs, now) =>
      var ns := Next(s, c, l).hub.mappings;
      ProcessingDelays(s.hub, c, id, fs, now, ms[target].nextRefresh);
      DelayedStay(ms, ns, ms[target].nextRefresh);
      if StillDue(ms, ns, target) { OthersOnlyLeave(ms, ns, target); }
    case Refresh(_, _, _, _) => RefreshWaits(s, c, l, target);
    case Map(_, _, _, _, _, _) => MappingWaits(ms, target, l);
    case _ =>
  }

  lemma ProcessingDelays(h: Hub, c: Config, id: string, fs: seq<Option<Fetched>>, now: int, due: int)
    requires Sensible(c) && now > due && id in h.notes
    requires forall f | f in fs && f.Some? :: forall s | s in f.value.order :: s in h.mappings
    ensures Delays(h.mappings, Process(h, c, id, fs, now).mappings, due)
  {
    if PublishAll(h, c, fs, now).Ok? { PublishingAllDelays(h, c, fs, now, due); }
  }

  // ---------------------------------------------------------------- over runs

  /** Every executed step is patient. */
  ghost predicate AllPatient(target: Slot, due: int, ls: seq<Label>) {
    forall i | 0 <= i < |ls| :: Patient(target, due, ls[i])
  }

  /** Refresh steps that were executed. */
  ghost function Refreshes(s: Sys, c: Config, ls: seq<Label>): nat {
    if ls == [] then 0 else
      var n := |ls| - 1;
      Refreshes(s, c, ls[..n]) + if ls[n].Refresh? && Enabled(Run(s, c, ls[..n]), ls[n]) then 1 else 0
  }

  ghost predicate ServedAt(s: Sys, c: Config, target: Slot, ls: seq<Label>, k: nat)
    requires k <= |ls| && target in s.hub.mappings
  {
    var ms := Run(s, c, ls[..k]).hub.mappings;
    target in ms && ms[target].nextRefresh > s.hub.mappings[target].nextRefresh
  }

  /** The queue in front of an unserved target is shorter by the number of
      refreshes since. */
  lemma {:induction false} QueueShrinks(s: Sys, c: Config, target: Slot, ls: seq<Label>)
    requires Sensible(c) && target in s.hub.mappings && s.hub.mappings[target].active
    requires AllPatient(target, s.hub.mappings[target].nextRefresh, ls)
    requires forall k: nat | k <= |ls| :: !ServedAt(s, c, target, ls, k)
    ensures var ms, ns := s.hub.mappings, Run(s, c, ls).hub.mappings;
      && StillDue(ms, ns, target)
      && |Ahead(ns, target)| + Refreshes(s, c, ls) <= |Ahead(ms, target)|
  {
    if ls != [] {
      var n := |ls| - 1;
      forall k: nat | k <= n ensures !ServedAt(s, c, target, ls[..n], k) {
        assert ls[..n][..k] == ls[..k];
        assert !ServedAt(s, c, target, ls, k);
      }
      QueueShrinks(s, c, target, ls[..n]);
      var t := Run(s, c, ls[..n]);
      assert ls[..|ls|] == ls;
      assert !ServedAt(s, c, target, ls, |ls|);
      if Enabled(t, ls[n]) {
        StepServesOrShortens(t, c, ls[n], target);
        Shorter(t.hub.mappings, Next(t, c, ls[n]).hub.mappings, target, ls[n]);
      }
    }
  }

  lemma Shorter(ms: map<Slot, Mapping>, ns: map<Slot, Mapping>, target: Slot, l: Label)
    requires target in ms && target in ns && Ahead(ns, target) <= Ahead(ms, target)
    requires l.Refresh? ==> l.slot in Ahead(ms, target) && l.slot !in Ahead(ns, target)
    ensures |Ahead(ns, target)| + (if l.Refresh? then 1 else 0) <= |Ahead(ms, target)|
  {
    if l.Refresh? {
      Larger(Ahead(ns, target), Ahead(ms, target) - {l.slot});
    } else {
      Larger(Ahead(ns, target), Ahead(ms, target));
    }
  }

  lemma {:induction false} Larger<T>(a: set<T>, b: set<T>)
    requires a <= b
    ensures |a| <= |b|
  {
    if a != {} {
      var x :| x in a;
      Larger(a - {x}, b - {x});
    }
  }

  /** Bounded waiting: an active mapping that is due, is not skipped by a row
      lock and is not itself changed by the API, is refreshed or deferred within
      K + 1 refresh steps, where K is the number of active mappings ahead of it.
      Webhooks, failures, activations and new mappings cannot delay it. */
  lemma BoundedWaiting(s: Sys, c: Config, target: Slot, ls: seq<Label>)
    requires Sensible(c) && target in s.hub.mappings && s.hub.mappings[target].active
    requires AllPatient(target, s.hub.mappings[target].nextRefresh, ls)
    requires Refreshes(s, c, ls) > |Ahead(s.hub.mappings, target)|
    ensures exists k: nat :: k <= |ls| && ServedAt(s, c, target, ls, k)
  {
    if forall k: nat | k <= |ls| :: !ServedAt(s, c, target, ls, k) {
      QueueShrinks(s, c, target, ls);
    }
  }
}
