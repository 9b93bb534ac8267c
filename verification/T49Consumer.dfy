/** A consumer that follows `next_cursor` while the worker publishes
    (src/integrations/terminal49_client/store.py, `feed`). */
module T49Consumer {
  import opened Outcomes
  import opened Counting
  import opened T49Tables
  import opened T49Hub
  import opened T49HubLaws

  datatype Reader = Reader(cursor: int, got: seq<Entry>)

  const NEW_READER := Reader(0, [])

  /** What may happen next: anything in the service, or a page is read. */
  datatype Action = InService(step: Label) | Poll(limit: nat)

  function Mine(company: int): Entry -> bool { (e: Entry) => e.slot.company == company }

  function Polled(h: Hub, company: int, r: Reader, limit: nat): Reader {
    var page := Page(h.feed, company, r.cursor, limit);
    Reader(NextCursor(page, r.cursor), r.got + page)
  }

  ghost function Act(s: Sys, c: Config, company: int, r: Reader, a: Action): (Sys, Reader) {
    match a
    case InService(l) => (if Enabled(s, l) then Next(s, c, l) else s, r)
    case Poll(limit) => (s, if limit >= 1 then Polled(s.hub, company, r, limit) else r)
  }

  ghost function Together(s: Sys, c: Config, company: int, r: Reader, actions: seq<Action>): (Sys, Reader) {
    if actions == [] then (s, r) else
      var n := |actions| - 1;
      var before := Together(s, c, company, r, actions[..n]);
      Act(before.0, c, company, before.1, actions[n])
  }

  /** The reader has read exactly its company's entries up to its cursor, once
      each and in order. */
  ghost predicate UpToDate(h: Hub, company: int, r: Reader) {
    0 <= r.cursor <= |h.feed| && r.got == Filter(h.feed[..r.cursor], Mine(company))
  }

  /** The entries after a cursor are the company's entries of the rest of the feed. */
  lemma {:induction false} AfterIsSuffix(feed: seq<Entry>, company: int, cursor: nat)
    requires cursor <= |feed| && forall i | 0 <= i < |feed| :: feed[i].version == i + 1
    ensures Filter(feed, After(company, cursor)) == Filter(feed[cursor..], Mine(company))
  {
    assert feed == feed[..cursor] + feed[cursor..];
    FilterConcat(feed[..cursor], feed[cursor..], After(company, cursor));
    FilterNone(feed[..cursor], After(company, cursor));
    FilterSame(feed[cursor..], After(company, cursor), Mine(company));
  }

  /** Where the k-th selected element stands. */
  lemma {:induction false} FilterCut<T>(s: seq<T>, p: T -> bool, k: nat) returns (n: nat)
    requires 0 < k <= |Filter(s, p)|
    ensures 0 < n <= |s| && s[n - 1] == Filter(s, p)[k - 1] && Filter(s[..n], p) == Filter(s, p)[..k]
  {
    var m := |s| - 1;
    if k <= |Filter(s[..m], p)| {
      n := FilterCut(s[..m], p, k);
      assert s[..m][..n] == s[..n];
      assert s[..m][n - 1] == s[n - 1];
    } else {
      n := |s|;
      assert s[..n] == s;
    }
  }

  /** A page that is a prefix of the company's remaining entries ends at the
      entry whose version is the next cursor. */
  lemma PageAdvances(feed: seq<Entry>, company: int, cursor: nat, page: seq<Entry>)
    requires cursor <= |feed| && forall i | 0 <= i < |feed| :: feed[i].version == i + 1
    requires page != [] && page <= Filter(feed[cursor..], Mine(company))
    ensures cursor <= NextCursor(page, cursor) <= |feed|
    ensures Filter(feed[..NextCursor(page, cursor)], Mine(company)) == Filter(feed[..cursor], Mine(company)) + page
  {
    var rest, mine := feed[cursor..], Mine(company);
    var n := FilterCut(rest, mine, |page|);
    assert page == Filter(rest, mine)[..|page|];
    assert feed[cursor + n - 1] == rest[n - 1];
    assert feed[..cursor + n] == feed[..cursor] + rest[..n];
    FilterConcat(feed[..cursor], rest[..n], mine);
  }

  lemma PollKeeps(h: Hub, company: int, r: Reader, limit: nat)
    requires UpToDate(h, company, r) && limit >= 1 && forall i | 0 <= i < |h.feed| :: h.feed[i].version == i + 1
    ensures UpToDate(h, company, Polled(h, company, r, limit))
    ensures Page(h.feed, company, r.cursor, limit) == [] ==> r.got == Filter(h.feed, Mine(company))
  {
    hide Filter;
    AfterIsSuffix(h.feed, company, r.cursor);
    var page := Page(h.feed, company, r.cursor, limit);
    if page != [] {
      PageAdvances(h.feed, company, r.cursor, page);
    } else {
      assert h.feed == h.feed[..r.cursor] + h.feed[r.cursor..];
      FilterConcat(h.feed[..r.cursor], h.feed[r.cursor..], Mine(company));
    }
  }

  lemma StaysUpToDate(h: Hub, g: Hub, company: int, r: Reader)
    requires UpToDate(h, company, r) && h.feed <= g.feed
    ensures UpToDate(g, company, r)
  {
    assert g.feed[..r.cursor] == h.feed[..r.cursor];
  }

  /** Whatever is published between the pages and whatever limits are used, the
      consumer has received each entry of its company up to its cursor exactly
      once and in order. When a page comes back empty it has received all. */
  lemma {:induction false} EachEntryOnceInOrder(c: Config, start: int, company: int, actions: seq<Action>)
    requires Sensible(c)
    ensures var (s, r) := Together(Sys(EMPTY, start), c, company, NEW_READER, actions);
      && Inv(s, c) && UpToDate(s.hub, company, r)
      && forall limit: nat | limit >= 1 && Page(s.hub.feed, company, r.cursor, limit) == [] :: r.got == Filter(s.hub.feed, Mine(company))
  {
    var now := Together(Sys(EMPTY, start), c, company, NEW_READER, actions);
    if actions != [] {
      var n := |actions| - 1;
      var before := Together(Sys(EMPTY, start), c, company, NEW_READER, actions[..n]);
      EachEntryOnceInOrder(c, start, company, actions[..n]);
      match actions[n] {
        case InService(l) =>
          if Enabled(before.0, l) {
            StepKeeps(before.0, c, l);
            StaysUpToDate(before.0.hub, now.0.hub, company, before.1);
          }
        case Poll(limit) =>
          Numbered(before.0, c);
          if limit >= 1 { PollKeeps(before.0.hub, company, before.1, limit); }
      }
    }
    Numbered(now.0, c);
    forall limit: nat | limit >= 1 && Page(now.0.hub.feed, company, now.1.cursor, limit) == []
      ensures now.1.got == Filter(now.0.hub.feed, Mine(company))
    {
      PollKeeps(now.0.hub, company, now.1, limit);
    }
  }

  lemma Numbered(s: Sys, c: Config)
    requires Inv(s, c)
    ensures forall i | 0 <= i < |s.hub.feed| :: s.hub.feed[i].version == i + 1
  {
    forall i | 0 <= i < |s.hub.feed| ensures s.hub.feed[i].version == i + 1 { assert EntryOk(s.hub, i); }
  }
}
