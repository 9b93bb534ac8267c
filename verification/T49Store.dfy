/** The tables as the program changes them
    (src/integrations/terminal49_client/store.py and shipments.py). */
module T49Store {
  import opened Outcomes
  import opened T49Choice
  import opened T49Tables
  import opened T49Machine
  import opened T49Invariant

  /** How a call ended: returned, raised `ReviewRequired`, or raised anything else. */
  datatype Reply = Fine | Refused | Broke

  /** Where the worker stands after a call made for `who`. */
  function Stands(r: Reply, who: Owner, next: Pc): Pc {
    match r
    case Fine => next
    case Refused => Refusing(who)
    case Broke => Deferring(who)
  }

  class TrackingStore {
    const company: int
    var boxes: map<int, Op>
    var freights: map<int, Op>
    var mappings: map<Slot, Mapping>

    function Contents(): Tables
      reads this
    {
      Tables(company, boxes, freights, mappings)
    }

    constructor (company: int)
      ensures Contents() == Tables(company, map[], map[], map[])
    {
      this.company, boxes, freights, mappings := company, map[], map[], map[];
    }

    /** `initiate` */
    method StartBox(odooId: int, terms: Terms) returns (ok: bool)
      modifies this`boxes
      ensures ok == Initiate(old(Contents()), odooId, terms).Ok?
      ensures Contents() == if ok then Initiate(old(Contents()), odooId, terms).value else old(Contents())
      ensures var asked := if terms.kind == ByContainer then terms.(reference := terms.number) else terms;
        && (ok <==> if odooId in old(boxes) then old(boxes)[odooId].terms == asked
                    else forall o | o in old(boxes) && old(boxes)[o].status in {Queued, Submitting, Pending} :: old(boxes)[o].terms.number != terms.number)
        && boxes == if ok && odooId !in old(boxes) then old(boxes)[odooId := Op(asked, Queued, None, None, 0)] else old(boxes)
    {
      if odooId in boxes { return boxes[odooId].terms == Normal(terms); }
      if exists o :: o in boxes && boxes[o].terms.number == terms.number && Open(boxes[o].status) {
        assert NumberBusy(Contents(), terms.number);
        return false;
      }
      assert !NumberBusy(Contents(), terms.number);
      boxes := boxes[odooId := NewOp(Normal(terms))];
      ok := true;
    }

    /** `start` */
    method StartFreight(odooId: int, terms: Terms) returns (ok: bool)
      modifies this`freights
      ensures ok == StartShipment(old(Contents()), odooId, terms).Ok?
      ensures Contents() == if ok then StartShipment(old(Contents()), odooId, terms).value else old(Contents())
      ensures ok <==>
        && (odooId in old(freights) ==> old(freights)[odooId].terms == terms)
        && forall o | o in old(freights) && o != odooId :: old(freights)[o].terms.kind != terms.kind || old(freights)[o].terms.reference != terms.reference
      ensures freights == if ok && odooId !in old(freights) then old(freights)[odooId := Op(terms, Queued, None, None, 0)] else old(freights)
    {
      var rows := set o | o in freights && (o == odooId || SameReference(freights[o].terms, terms));
      if rows != {} {
        assert ReferenceTaken(Contents(), odooId, terms) <==> rows - {odooId} != {} by {
          assert forall o :: o in rows - {odooId} <==> o in freights && o != odooId && SameReference(freights[o].terms, terms);
        }
        if rows - {odooId} == {} { assert odooId in rows; }
        return rows - {odooId} == {} && freights[odooId].terms == terms;
      }
      assert odooId in freights ==> odooId in rows;
      assert !ReferenceTaken(Contents(), odooId, terms) by {
        forall o | o in freights ensures !SameReference(freights[o].terms, terms) { assert o !in rows; }
      }
      freights := freights[odooId := NewOp(terms)];
      ok := true;
    }

    /** `mapping` */
    method BindMapping(container: string, odooId: int, number: string, active: bool, refresh: bool, now: int, db: Db) returns (r: Reply)
      modifies this`mappings
      ensures r == Fine <==> db == Commits && BindIn(old(Contents()), container, odooId, number, active, refresh, now).Ok?
      ensures r == Refused <==> db != Aborts && BindIn(old(Contents()), container, odooId, number, active, refresh, now).Review?
      ensures Contents() == if db != Aborts && r != Refused then BindIn(old(Contents()), container, odooId, number, active, refresh, now).value else old(Contents())
      ensures r == Refused <==> db != Aborts && exists s :: s in old(mappings) && s.company == company && (s.container == container) != (old(mappings)[s].odooId == odooId)
      ensures db != Aborts && r != Refused ==>
        var slot := Slot(company, container);
        && mappings.Keys == old(mappings.Keys) + {slot} && (forall s | s in old(mappings) && s != slot :: mappings[s] == old(mappings)[s])
        && mappings[slot].odooId == odooId && mappings[slot].number == number && mappings[slot].active == active
        && mappings[slot].nextRefresh ==
             if slot in old(mappings) && !refresh && old(mappings)[slot].active == active && old(mappings)[slot].number == number
             then old(mappings)[slot].nextRefresh else now
    {
      if db == Aborts { return Broke; }
      var slot := Slot(company, container);
      if Clash(mappings, slot, odooId) { return Refused; }
      if slot in mappings {
        var m := mappings[slot];
        var due := m.active != active || m.number != number || refresh;
        mappings := mappings[slot := m.(number := number, active := active, nextRefresh := if due then now else m.nextRefresh)];
      } else {
        mappings := mappings[slot := Mapping(odooId, number, active, now, false)];
      }
      r := if db == Commits then Fine else Broke;
    }

    /** `update_initiation` and `ShipmentStore.update` */
    method UpdateRow(who: Owner, status: Status, requestId: Option<string>, link: Option<string>, db: Db) returns (r: Reply)
      modifies this`boxes, this`freights
      ensures r == Fine <==> db == Commits && Update(old(Contents()), who, status, requestId, link).Ok?
      ensures r == Refused <==> db != Aborts && Update(old(Contents()), who, status, requestId, link).Review?
      ensures Contents() == if db != Aborts && r != Refused then Update(old(Contents()), who, status, requestId, link).value else old(Contents())
      ensures r == Refused <==> db != Aborts && who.Freight? && who.odooId in old(freights) && link.Some? && exists o :: o in old(freights) && o != who.odooId && old(freights)[o].link == link
      ensures forall other | other != who :: OpOf(Contents(), other) == OpOf(old(Contents()), other)
      ensures OpOf(Contents(), who) ==
        var was := OpOf(old(Contents()), who);
        if was.None? || db == Aborts || r == Refused then was
        else Some(Op(was.value.terms, status, if requestId.Some? then requestId else was.value.requestId, if link.Some? then link else was.value.link, 0))
    {
      if db == Aborts { return Broke; }
      var o := who.odooId;
      match who {
        case Box(_) =>
          if o in boxes {
            var op := boxes[o];
            boxes := boxes[o := Op(op.terms, status, Coalesce(requestId, op.requestId), Coalesce(link, op.link), 0)];
          }
        case Freight(_) =>
          if o in freights {
            if link.Some? && ShipmentTaken(Contents(), o, link.value) { return Refused; }
            var op := freights[o];
            freights := freights[o := Op(op.terms, status, Coalesce(requestId, op.requestId), Coalesce(link, op.link), 0)];
          }
      }
      r := if db == Commits then Fine else Broke;
    }

    /** `defer_initiation` and `ShipmentStore.defer` */
    method DeferRow(who: Owner, db: Db)
      modifies this`boxes, this`freights
      ensures Contents() == if db == Aborts then old(Contents()) else Defer(old(Contents()), who)
      ensures forall other | other != who :: OpOf(Contents(), other) == OpOf(old(Contents()), other)
      ensures db != Aborts && OpOf(old(Contents()), who).Some? ==>
        var was, now := OpOf(old(Contents()), who).value, OpOf(Contents(), who);
        now.Some? && now.value.terms == was.terms && now.value.requestId == was.requestId && now.value.link == was.link
        && now.value.attempts == was.attempts + 1 && now.value.status == if was.attempts >= 7 then Attention else was.status
    {
      if db == Aborts { return; }
      var o := who.odooId;
      match who {
        case Box(_) =>
          if o in boxes {
            boxes := boxes[o := boxes[o].(attempts := boxes[o].attempts + 1, status := if boxes[o].attempts >= 7 then Attention else boxes[o].status)];
          }
        case Freight(_) =>
          if o in freights {
            freights := freights[o := freights[o].(attempts := freights[o].attempts + 1, status := if freights[o].attempts >= 7 then Attention else freights[o].status)];
          }
      }
    }

    /** `shipment_submission`, and what the caller makes of its one row. */
    method ShipmentSubmission(odooId: int, terms: Terms) returns (r: Outcome<Option<string>>)
      requires KeysOk(Contents())
      ensures r == OtherRequest(Contents(), Box(odooId), terms)
    {
      if owner :| owner in freights && SameReference(freights[owner].terms, terms) && Engaged(freights[owner].status) {
        assert Submissions(Contents(), terms) == {owner} by {
          forall o | o in Submissions(Contents(), terms) ensures o == owner {
            assert SameReference(freights[o].terms, freights[owner].terms);
          }
        }
        var id := freights[owner].requestId;
        assert RequestIds(freights, {owner}) == if id.Some? then {id.value} else {};
        return if id.None? then Review else Ok(id);
      }
      assert forall o | o in freights :: !(SameReference(freights[o].terms, terms) && Engaged(freights[o].status));
      assert forall o :: o !in Submissions(Contents(), terms);
      assert RequestIds(freights, {}) == {};
      return Ok(None);
    }

    /** `legacy_request` */
    method LegacyRequest(odooId: int, terms: Terms) returns (r: Outcome<Option<string>>)
      ensures r == OtherRequest(Contents(), Freight(odooId), terms)
    {
      var rows := set o | o in boxes && SameReference(boxes[o].terms, terms) && Engaged(boxes[o].status);
      assert rows == Legacy(Contents(), terms);
      var ids := set o | o in rows && boxes[o].requestId.Some? :: boxes[o].requestId.value;
      assert ids == RequestIds(boxes, rows);
      if |ids| > 1 { return Review; }
      if ids != {} {
        var id :| id in ids;
        SoleMember(ids, id);
        return Ok(Some(id));
      }
      if rows != {} { return Review; }
      return Ok(None);
    }
  }

  lemma SoleMember<T>(s: set<T>, x: T)
    requires |s| <= 1 && x in s
    ensures s == {x}
  {
    assert |s - {x}| == |s| - 1;
    assert s - {x} == {};
  }
}
