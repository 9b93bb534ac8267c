/** What every step of the two workflows keeps. */
module T49Invariant {
  import opened Outcomes
  import opened T49Choice
  import opened T49Discovery
  import opened T49Tables
  import opened T49Machine

  function Posted(posts: seq<Post>, who: Owner): nat {
    if posts == [] then 0 else Posted(posts[..|posts| - 1], who) + if posts[|posts| - 1].who == who then 1 else 0
  }

  predicate Bound(t: Tables, container: string, odooId: int) {
    Slot(t.company, container) in t.mappings && t.mappings[Slot(t.company, container)].odooId == odooId
  }

  predicate OpOk(t: Tables, who: Owner, op: Op, posted: nat) {
    && posted <= 1
    && (posted == 1 ==> op.status != Queued)
    && (op.status == Pending ==> op.requestId.Some?)
    && (op.status == Linked ==> op.link.Some?)
    && (who.Box? ==> Normal(op.terms) == op.terms && (op.link.Some? ==> op.status == Linked && Bound(t, op.link.value, who.odooId)))
    && (who.Freight? ==> !op.terms.kind.ByContainer?)
  }

  predicate OwnerOk(s: Sys, who: Owner) {
    var op := OpOf(s.t, who);
    if op.Some? then OpOk(s.t, who, op.value, Posted(s.posts, who)) else Posted(s.posts, who) == 0
  }

  /** No row of the other workflow may have brought this reference to the provider. */
  predicate Clear(t: Tables, who: Owner, terms: Terms) {
    match who
    case Box(_) => forall o | o in t.freights && SameReference(t.freights[o].terms, terms) :: !Engaged(t.freights[o].status)
    case Freight(_) => forall o | o in t.boxes && SameReference(t.boxes[o].terms, terms) :: !Engaged(t.boxes[o].status)
  }

  predicate Same(stored: Option<string>, id: string) { stored.None? || stored == Some(id) }

  /** The worker's row still stands for the stored one. */
  predicate Lives(t: Tables, who: Owner, row: Op) {
    && OpOf(t, who).Some?
    && var op := OpOf(t, who).value;
       op.terms == row.terms && Selectable(who, op.status) && (who.Box? ==> op.link.None?)
  }

  /** Nothing is known at the provider yet, and the row is as it was read. */
  predicate Unsent(t: Tables, who: Owner, row: Op) {
    OpOf(t, who) == Some(row) && Selectable(who, row.status) && row.requestId.None? && row.link.None?
  }

  predicate PcOk(s: Sys, pc: Pc) {
    match pc
    case Idle => true
    case AskContainers(who, row) => Unsent(s.t, who, row) && who.Box?
    case AskRequests(who, row) => Unsent(s.t, who, row) && (who.Freight? ==> Clear(s.t, who, row.terms))
    case AskShipments(who, row) => Unsent(s.t, who, row) && who.Freight? && Clear(s.t, who, row.terms)
    case AskRequest(who, row, requestId) =>
      && Lives(s.t, who, row) && Same(OpOf(s.t, who).value.requestId, requestId)
      && (if who.Box? then OpOf(s.t, who).value.requestId.Some? else OpOf(s.t, who).value.link.None?)
    case AskShipment(who, row, shipment) =>
      && Lives(s.t, who, row)
      && (if who.Box? then OpOf(s.t, who).value.requestId.Some? else Same(OpOf(s.t, who).value.link, shipment))
    case ReadOther(who, row) => Unsent(s.t, who, row)
    case Claim(who, row) => Unsent(s.t, who, row) && row.status == Queued && Clear(s.t, who, row.terms)
    case Sending(who, row) =>
      && Lives(s.t, who, row) && OpOf(s.t, who).value.status == Submitting && OpOf(s.t, who).value.requestId.None?
      && Posted(s.posts, who) == 0 && Clear(s.t, who, row.terms)
      && (who.Freight? ==> OpOf(s.t, who).value.link.None?)
    case Save(who, row, requestId, next) =>
      Lives(s.t, who, row) && OpOf(s.t, who).value.link.None? && Same(OpOf(s.t, who).value.requestId, requestId)
    case Waiting(who, row) => Lives(s.t, who, row) && OpOf(s.t, who).value.requestId.Some?
    case Failing(who, row) => Lives(s.t, who, row)
    case Binding(who, row, container) => Lives(s.t, who, row) && who.Box?
    case Linking(who, link) =>
      && OpOf(s.t, who).Some? && Selectable(who, OpOf(s.t, who).value.status)
      && (if who.Box? then OpOf(s.t, who).value.link.None? && Bound(s.t, link, who.odooId) else Same(OpOf(s.t, who).value.link, link))
    case Refusing(who) => OpOf(s.t, who).Some? && Selectable(who, OpOf(s.t, who).value.status) && (who.Box? ==> OpOf(s.t, who).value.link.None?)
    case Deferring(who) => OpOf(s.t, who).Some? && (Final(who, OpOf(s.t, who).value.status) ==> OpOf(s.t, who).value.attempts == 0)
  }

  /** Statuses the worker never leaves again. */
  predicate Final(who: Owner, s: Status) { s == Failed || (who.Box? && s == Linked) }

  /** The unique indexes of the schema. */
  predicate KeysOk(t: Tables) {
    && (forall o, p | o in t.freights && p in t.freights && SameReference(t.freights[o].terms, t.freights[p].terms) :: o == p)
    && (forall o, p | o in t.freights && p in t.freights && t.freights[o].link.Some? && t.freights[o].link == t.freights[p].link :: o == p)
    && (forall o, p | o in t.boxes && p in t.boxes && Open(t.boxes[o].status) && Open(t.boxes[p].status)
          && t.boxes[o].terms.number == t.boxes[p].terms.number :: o == p)
  }

  /** Two POSTs of different workflows for one carrier reference. */
  predicate Rivals(p: Post, q: Post) { p.who.Box? != q.who.Box? && SameReference(p.terms, q.terms) }

  predicate StatusIs(t: Tables, who: Owner, status: Status) { OpOf(t, who).Some? && OpOf(t, who).value.status == status }

  predicate PostOk(t: Tables, p: Post) { OpOf(t, p.who).Some? && OpOf(t, p.who).value.terms == p.terms && OpOf(t, p.who).value.status != Queued }

  predicate Exclusive(s: Sys) {
    forall i, j | 0 <= i < j < |s.posts| && Rivals(s.posts[i], s.posts[j]) :: StatusIs(s.t, s.posts[i].who, Failed)
  }

  ghost predicate Inv(s: Sys) {
    && (forall who :: OwnerOk(s, who))
    && PcOk(s, s.pc)
    && KeysOk(s.t) && OneToOne(s.t.mappings)
    && (forall i | 0 <= i < |s.posts| :: PostOk(s.t, s.posts[i]))
    && Exclusive(s)
  }

  // --------------------------------------------- what only ever grows

  predicate OpGrows(who: Owner, op: Op, later: Op) {
    && later.terms == op.terms
    && (op.requestId.Some? ==> later.requestId == op.requestId)
    && (op.link.Some? ==> later.link == op.link)
    && (Final(who, op.status) ==> later.status == op.status)
    && (op.status != Queued ==> later.status != Queued)
  }

  ghost predicate Grows(s: Sys, u: Sys) {
    && u.t.company == s.t.company
    && (forall who | OpOf(s.t, who).Some? :: OpOf(u.t, who).Some? && OpGrows(who, OpOf(s.t, who).value, OpOf(u.t, who).value))
    && MappingsGrow(s.t.mappings, u.t.mappings)
    && s.posts <= u.posts
  }

  lemma GrowsTransitive(s: Sys, u: Sys, v: Sys)
    requires Grows(s, u) && Grows(u, v)
    ensures Grows(s, v)
  {
    forall who | OpOf(s.t, who).Some? ensures OpOf(v.t, who).Some? && OpGrows(who, OpOf(s.t, who).value, OpOf(v.t, who).value) {
      assert OpOf(u.t, who).Some? && OpGrows(who, OpOf(s.t, who).value, OpOf(u.t, who).value);
    }
    forall m | m in s.t.mappings ensures m in v.t.mappings && v.t.mappings[m].odooId == s.t.mappings[m].odooId {
      assert m in u.t.mappings;
    }
  }
}
