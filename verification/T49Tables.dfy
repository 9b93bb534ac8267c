/** The tracking database of one company's operations
    (src/integrations/terminal49_client/store.py, shipments.py and schema.sql).
    Each function on `Tables` is one transaction; `TrackingStore` runs them on
    its tables. `Review` stands for `IdentityConflict` and `ReviewRequired`. */
module T49Tables {
  import opened Outcomes
  import opened T49Choice

  datatype Status = Queued | Submitting | Pending | Linked | Failed | Attention

  /** Who a row or a request belongs to: the Odoo container or Odoo shipment. */
  datatype Owner = Box(odooId: int) | Freight(odooId: int)

  /** One row of `initiations` or `shipment_initiations`. `link` is the linked
      container or the shipment id. A shipment row has no container number. */
  datatype Op = Op(terms: Terms, status: Status, requestId: Option<string>, link: Option<string>, attempts: nat)

  /** The key of `mappings` inside one account. */
  datatype Slot = Slot(company: int, container: string)

  datatype Mapping = Mapping(odooId: int, number: string, active: bool, nextRefresh: int, failing: bool)

  datatype Tables = Tables(company: int, boxes: map<int, Op>, freights: map<int, Op>, mappings: map<Slot, Mapping>)

  // ------------------------------------------------------------ operations

  function OpOf(t: Tables, who: Owner): Option<Op> {
    match who
    case Box(o) => if o in t.boxes then Some(t.boxes[o]) else None
    case Freight(o) => if o in t.freights then Some(t.freights[o]) else None
  }

  function Put(t: Tables, who: Owner, op: Op): Tables {
    match who
    case Box(o) => t.(boxes := t.boxes[o := op])
    case Freight(o) => t.(freights := t.freights[o := op])
  }

  predicate Open(s: Status) { s == Queued || s == Submitting || s == Pending }

  /** A status that shows that the row's reference may be known to the provider. */
  predicate Engaged(s: Status) { s != Queued && s != Failed }

  function NewOp(terms: Terms): Op { Op(terms, Queued, None, None, 0) }

  predicate NumberBusy(t: Tables, number: string) {
    exists o :: o in t.boxes && t.boxes[o].terms.number == number && Open(t.boxes[o].status)
  }

  /** A container request's reference is the container number itself. */
  function Normal(terms: Terms): Terms {
    if terms.kind.ByContainer? then terms.(reference := terms.number) else terms
  }

  /** `initiate`, after input validation. */
  function Initiate(t: Tables, odooId: int, terms: Terms): Outcome<Tables> {
    if odooId in t.boxes then
      if t.boxes[odooId].terms == Normal(terms) then Ok(t) else Review
    else if NumberBusy(t, terms.number) then Review
    else Ok(t.(boxes := t.boxes[odooId := NewOp(Normal(terms))]))
  }

  predicate SameReference(a: Terms, b: Terms) { a.kind == b.kind && a.reference == b.reference }

  predicate ReferenceTaken(t: Tables, odooId: int, terms: Terms) {
    exists o :: o in t.freights && o != odooId && SameReference(t.freights[o].terms, terms)
  }

  /** `start`, after input validation. */
  function StartShipment(t: Tables, odooId: int, terms: Terms): Outcome<Tables> {
    if ReferenceTaken(t, odooId, terms) then Review
    else if odooId in t.freights then
      if t.freights[odooId].terms == terms then Ok(t) else Review
    else Ok(t.(freights := t.freights[odooId := NewOp(terms)]))
  }

  predicate ShipmentTaken(t: Tables, odooId: int, shipment: string) {
    exists o :: o in t.freights && o != odooId && t.freights[o].link == Some(shipment)
  }

  function Coalesce(given: Option<string>, stored: Option<string>): Option<string> {
    if given.Some? then given else stored
  }

  /** `update_initiation` and `update`: missing ids keep the stored ones. A
      shipment id that another row has is refused. */
  function Update(t: Tables, who: Owner, status: Status, requestId: Option<string>, link: Option<string>): Outcome<Tables> {
    if OpOf(t, who).None? then Ok(t)
    else if who.Freight? && link.Some? && ShipmentTaken(t, who.odooId, link.value) then Review
    else
      var op := OpOf(t, who).value;
      Ok(Put(t, who, Op(op.terms, status, Coalesce(requestId, op.requestId), Coalesce(link, op.link), 0)))
  }

  /** `defer_initiation` and `defer`: the eighth failure in a row asks for attention. */
  function Defer(t: Tables, who: Owner): Tables {
    if OpOf(t, who).None? then t else
      var op := OpOf(t, who).value;
      Put(t, who, op.(attempts := op.attempts + 1, status := if op.attempts >= 7 then Attention else op.status))
  }

  /** The shipment rows that may already own a reference: `shipment_submission`. */
  ghost function Submissions(t: Tables, terms: Terms): set<int> {
    set o | o in t.freights && SameReference(t.freights[o].terms, terms) && Engaged(t.freights[o].status)
  }

  /** The container rows that may: `legacy_request`. */
  ghost function Legacy(t: Tables, terms: Terms): set<int> {
    set o | o in t.boxes && SameReference(t.boxes[o].terms, terms) && Engaged(t.boxes[o].status)
  }

  ghost function RequestIds(ops: map<int, Op>, among: set<int>): set<string> {
    set o | o in among && o in ops && ops[o].requestId.Some? :: ops[o].requestId.value
  }

  /** What the other workflow says about a reference: the request id to join,
      None when the way is free, Review when it is taken without one. */
  ghost function OtherRequest(t: Tables, who: Owner, terms: Terms): Outcome<Option<string>> {
    match who
    case Box(_) => Joined(Submissions(t, terms), RequestIds(t.freights, Submissions(t, terms)))
    case Freight(_) => Joined(Legacy(t, terms), RequestIds(t.boxes, Legacy(t, terms)))
  }

  ghost function Joined(rows: set<int>, ids: set<string>): Outcome<Option<string>> {
    if |ids| > 1 then Review
    else if ids != {} then
      var id :| id in ids;
      Ok(Some(id))
    else if rows != {} then Review
    else Ok(None)
  }

  // -------------------------------------------------------------- mappings

  predicate Half(ms: map<Slot, Mapping>, s: Slot, slot: Slot, odooId: int)
    requires s in ms
  {
    (s == slot || ms[s].odooId == odooId) && !(s == slot && ms[s].odooId == odooId)
  }

  /** Another container or another Odoo record already has half of the pair. */
  predicate Clash(ms: map<Slot, Mapping>, slot: Slot, odooId: int) {
    exists s :: s in ms && s.company == slot.company && Half(ms, s, slot, odooId)
  }

  /** `mapping`: bind, or refresh the settings of, one pair. */
  function Bind(ms: map<Slot, Mapping>, slot: Slot, odooId: int, number: string, active: bool, refresh: bool, now: int): Outcome<map<Slot, Mapping>> {
    if Clash(ms, slot, odooId) then Review
    else if slot in ms then
      var m := ms[slot];
      var due := m.active != active || m.number != number || refresh;
      Ok(ms[slot := m.(number := number, active := active, nextRefresh := if due then now else m.nextRefresh)])
    else Ok(ms[slot := Mapping(odooId, number, active, now, false)])
  }

  function BindIn(t: Tables, container: string, odooId: int, number: string, active: bool, refresh: bool, now: int): Outcome<Tables> {
    match Bind(t.mappings, Slot(t.company, container), odooId, number, active, refresh, now)
    case Ok(ms) => Ok(t.(mappings := ms))
    case Review => Review
  }

  /** Within a company no Odoo record has two containers (and, by the key, no
      container has two Odoo records). */
  ghost predicate OneToOne(ms: map<Slot, Mapping>) {
    forall s, u | s in ms && u in ms && s.company == u.company && ms[s].odooId == ms[u].odooId :: s == u
  }

  predicate MappingsGrow(ms: map<Slot, Mapping>, ns: map<Slot, Mapping>) {
    forall s | s in ms :: s in ns && ns[s].odooId == ms[s].odooId
  }

  /** `ns` keeps everything bound in `ms` and binds this pair too, one to one. */
  ghost predicate Extends(ms: map<Slot, Mapping>, ns: map<Slot, Mapping>, slot: Slot, odooId: int) {
    OneToOne(ns) && MappingsGrow(ms, ns) && slot in ns && ns[slot].odooId == odooId
  }

  /** Binding keeps the bijection and never rebinds; it is refused exactly when
      no bijection that keeps all bindings contains the pair. */
  lemma BindKeeps(ms: map<Slot, Mapping>, slot: Slot, odooId: int, number: string, active: bool, refresh: bool, now: int)
    requires OneToOne(ms)
    ensures var r := Bind(ms, slot, odooId, number, active, refresh, now);
      r.Ok? ==> Extends(ms, r.value, slot, odooId) && forall s | s in r.value && s != slot :: s in ms && r.value[s] == ms[s]
    ensures Bind(ms, slot, odooId, number, active, refresh, now).Ok? <==> exists ns :: Extends(ms, ns, slot, odooId)
  {
    var r := Bind(ms, slot, odooId, number, active, refresh, now);
    if r.Ok? {
      assert Extends(ms, r.value, slot, odooId);
    } else {
      var s :| s in ms && s.company == slot.company && Half(ms, s, slot, odooId);
      forall ns: map<Slot, Mapping> ensures !Extends(ms, ns, slot, odooId) {
      }
    }
  }
}
